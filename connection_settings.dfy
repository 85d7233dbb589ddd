/** ConnectionSettings: the transport options (today only the encryption mode)
    carried in a location path `scheme://<settings>/<host>/<path>` as the
    decimal ordinal of the mode. */
module ConnectionSettings {
  import opened Exceptions
  import opened Text

  const SchemeSeparator := "://"

  /** The first "://" of `scheme + "://"` is the one appended: the scheme
      neither contains a separator nor ends in a part of one. */
  predicate IsScheme(scheme: string) {
    IndexOf(scheme + SchemeSeparator, SchemeSeparator) == |scheme|
  }

  /** A scheme without a colon, such as "ftp", is a scheme in this sense. */
  lemma ColonFreeIsScheme(scheme: string)
    requires ':' !in scheme
    ensures IsScheme(scheme)
  {
    var t := scheme + SchemeSeparator;
    assert t[|scheme|..|scheme| + 3] == SchemeSeparator;
    forall k | 0 <= k < |scheme|
      ensures !OccursAt(t, SchemeSeparator, k)
    {
      assert t[k] == scheme[k];
    }
    IndexOfIs(t, SchemeSeparator, |scheme|);
  }

  /** `scheme + "://" + tail` splits at the end of the scheme, whatever the tail. */
  lemma SchemeSplit(scheme: string, tail: string)
    requires IsScheme(scheme)
    ensures IndexOf(scheme + SchemeSeparator + tail, SchemeSeparator) == |scheme|
    ensures (scheme + SchemeSeparator + tail)[..|scheme|] == scheme
    ensures (scheme + SchemeSeparator + tail)[|scheme| + 3..] == tail
  {
    IndexOfAppend(scheme + SchemeSeparator, tail, SchemeSeparator);
  }

  /** A path that contains "://" splits at its first one into a scheme and a tail. */
  lemma SplitScheme(path: string) returns (scheme: string, tail: string)
    requires IndexOf(path, SchemeSeparator) >= 0
    ensures IsScheme(scheme) && path == scheme + SchemeSeparator + tail
    ensures IndexOf(path, SchemeSeparator) == |scheme| && path[|scheme| + 3..] == tail
  {
    var i := IndexOf(path, SchemeSeparator);
    scheme := path[..i];
    tail := path[i + 3..];
    assert path[i..i + 3] == SchemeSeparator;
    assert path == scheme + SchemeSeparator + tail;
    IndexOfPrefix(scheme + SchemeSeparator, tail, SchemeSeparator);
  }

  /** A text that contains "/" splits at its first one into a segment without "/" and the rest. */
  lemma SplitSlash(s: string) returns (segment: string, rest: string)
    requires IndexOf(s, "/") >= 0
    ensures '/' !in segment && s == segment + "/" + rest
    ensures IndexOf(s, "/") == |segment|
  {
    IndexOfCharSplit(s, '/');
    var j := IndexOf(s, "/");
    segment := s[..j];
    rest := s[j + 1..];
  }

  /** ConnectionSettings.FromIoc: parses the text between the first "://" and
      the next "/" as the encryption-mode ordinal. The cast to the enum does
      not check the range, so every 32-bit value is a mode. */
  function FromIoc(path: string): Result<Int32>
  {
    var schemeLength := IndexOf(path, SchemeSeparator);
    var rest :- SubstringFrom(path, schemeLength + 3);
    var settings :- Substring(rest, 0, IndexOf(rest, "/"));
    ParseInt32(settings)
  }

  /** ConnectionSettings.ToString: the ordinal of the mode in decimal. */
  function ToString(mode: Int32): (s: string)
    ensures |s| > 0 && '/' !in s && ':' !in s
  {
    Int32ToString(mode)
  }

  /** The settings read back are the segment between "://" and the next "/",
      stated for a path given by its parts. */
  lemma SettingsAt(path: string, scheme: string, tail: string, settings: string, rest: string)
    requires IsScheme(scheme) && '/' !in settings
    requires path == scheme + SchemeSeparator + tail && tail == settings + "/" + rest
    ensures FromIoc(path) == ParseInt32(settings)
  {
    SchemeSplit(scheme, tail);
    IndexOfCharAfter(settings, '/', rest);
    assert tail[0..|settings|] == settings;
  }

  /** The settings read back are exactly the segment between "://" and the next "/". */
  lemma SettingsSegment(scheme: string, settings: string, rest: string)
    requires IsScheme(scheme) && '/' !in settings
    ensures FromIoc(scheme + SchemeSeparator + settings + "/" + rest) == ParseInt32(settings)
  {
    var tail := settings + "/" + rest;
    assert scheme + SchemeSeparator + settings + "/" + rest == scheme + SchemeSeparator + tail;
    SettingsAt(scheme + SchemeSeparator + tail, scheme, tail, settings, rest);
  }

  /** Encoding a mode and decoding it again gives the mode back, whatever follows the segment. */
  lemma SettingsRoundTrip(scheme: string, mode: Int32, rest: string)
    requires IsScheme(scheme)
    ensures FromIoc(scheme + SchemeSeparator + ToString(mode) + "/" + rest) == Ok(mode)
  {
    SettingsSegment(scheme, ToString(mode), rest);
    ParseToString(mode);
  }

  /** The other direction holds for canonical segments only: a segment of
      digits without a leading zero, within the 32-bit range, is decoded to
      a mode whose encoding is that segment again. */
  lemma CanonicalSegmentRoundTrip(scheme: string, settings: string, rest: string)
    requires IsScheme(scheme) && |settings| > 0 && AllDigits(settings)
    requires settings[0] != '0' || |settings| == 1
    requires DigitsValue(settings) < 0x8000_0000
    ensures var d := FromIoc(scheme + SchemeSeparator + settings + "/" + rest);
      d.Ok? && ToString(d.value) == settings
  {
    assert '/' !in settings by {
      forall i | 0 <= i < |settings|
        ensures settings[i] != '/'
      {
        assert IsDigit(settings[i]);
      }
    }
    SettingsSegment(scheme, settings, rest);
    ParseUnsigned(settings);
    DecimalOfDigits(settings);
  }

  /** Decoding is not injective, so encoding does not undo it: int.Parse also
      accepts a leading zero, and "ftp://01/..." decodes to mode 1, whose
      encoding is "1". */
  lemma LeadingZeroAccepted(scheme: string, settings: string, rest: string)
    requires scheme == "ftp" && settings == "01"
    ensures FromIoc(scheme + SchemeSeparator + settings + "/" + rest) == Ok(1)
    ensures ToString(1) != settings
  {
    ColonFreeIsScheme(scheme);
    SettingsSegment(scheme, settings, rest);
    LeadingZeroParses(settings);
    assert Int32ToString(1) == NatToDecimal(1) == [DigitChar(1)];
  }

  /** A settings segment that is not a number is rejected with a FormatException:
      an empty segment, or one holding a character other than a digit, white
      space or a sign before any final run of NUL characters (`j` is a
      non-NUL index at or after it). */
  lemma FromIocRejectsMalformed(scheme: string, settings: string, rest: string, i: nat, j: nat)
    requires IsScheme(scheme) && '/' !in settings
    requires settings == [] || (i < |settings| && !IsDigit(settings[i]) && !IsWhite(settings[i])
                                && settings[i] != '+' && settings[i] != '-'
                                && i <= j < |settings| && settings[j] != '\0')
    ensures FromIoc(scheme + SchemeSeparator + settings + "/" + rest) == Err(FormatException)
  {
    SettingsSegment(scheme, settings, rest);
    if settings == [] {
      ParseRejectsEmpty();
    } else {
      ParseRejectsOtherText(settings, i, j);
    }
  }

  /** A segment that ends in NUL is still decoded: int.Parse skips a final run
      of NUL characters, so "ftp://7" + NUL + "/..." decodes to mode 7. */
  lemma TrailingNulAccepted(scheme: string, settings: string, rest: string)
    requires scheme == "ftp" && settings == ['7', '\0']
    ensures FromIoc(scheme + SchemeSeparator + settings + "/" + rest) == Ok(7)
  {
    ColonFreeIsScheme(scheme);
    SettingsSegment(scheme, settings, rest);
    TrailingNulParses(settings);
  }

  /** A separator with no "/" after it is rejected: Substring is asked for length -1. */
  lemma FromIocNeedsSlash(path: string)
    requires IndexOf(path, SchemeSeparator) >= 0
    requires '/' !in path[IndexOf(path, SchemeSeparator) + 3..]
    ensures FromIoc(path) == Err(ArgumentOutOfRangeException)
  {
    IndexOfCharAbsent(path[IndexOf(path, SchemeSeparator) + 3..], '/');
  }

  /** Without any "://" the search answers -1 and decoding takes the segment
      that starts at index 2. */
  lemma SettingsWithoutSeparator(path: string, settings: string, rest: string)
    requires IndexOf(path, SchemeSeparator) == -1 && '/' !in settings
    requires 2 <= |path| && path[2..] == settings + "/" + rest
    ensures FromIoc(path) == ParseInt32(settings)
  {
    IndexOfCharAfter(settings, '/', rest);
    assert path[2..][0..|settings|] == settings;
  }

  /** So a path without "://" is not rejected: "ab7/host/x" decodes to mode 7. */
  lemma FromIocWithoutSeparator()
    ensures FromIoc("ab7/host/x") == Ok(7)
  {
    var p := "ab7/host/x";
    assert IndexOf(p, SchemeSeparator) == -1 by {
      forall k | 0 <= k < |p|
        ensures !OccursAt(p, SchemeSeparator, k)
      {
        if k + 3 <= |p| {
          assert p[k..k + 3][0] == p[k];
        }
      }
    }
    assert p[2..] == "7" + "/" + "host/x";
    SettingsWithoutSeparator(p, "7", "host/x");
    DigitParses("7", 7);
  }
}
