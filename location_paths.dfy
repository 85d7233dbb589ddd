/** The string side of NetFtpFileStorage's location handling: stripping the
    settings segment before a path is handed to `new Uri`, rebuilding a
    self-describing location from a remote absolute path, and joining a child
    name onto a parent location. */
module LocationPaths {
  import opened Exceptions
  import opened Text
  import opened ConnectionSettings

  /** NetFtpFileStorage.IocPathToUri, up to the string handed to `new Uri`:
      `scheme://<settings>/<rest>` becomes `scheme://<rest>`. */
  function IocPathToUri(path: string): Result<string>
  {
    var schemeLength := IndexOf(path, SchemeSeparator);
    var scheme :- Substring(path, 0, schemeLength);
    var rest :- SubstringFrom(path, schemeLength + 3);
    var settings :- Substring(rest, 0, IndexOf(rest, "/"));
    var remainder :- SubstringFrom(rest, |settings| + 1);
    Ok(scheme + SchemeSeparator + remainder)
  }

  /** NetFtpFileStorage.IocPathFromUri: scheme, settings and host of
      `basePath`, followed by the absolute path of a remote entry. */
  function IocPathFromUri(basePath: string, absolutePath: string): Result<string>
  {
    var schemeLength := IndexOf(basePath, SchemeSeparator);
    var scheme :- Substring(basePath, 0, schemeLength);
    var rest :- SubstringFrom(basePath, schemeLength + 3);
    var baseSettings :- Substring(rest, 0, IndexOf(rest, "/"));
    var afterSettings :- SubstringFrom(rest, |baseSettings| + 1);
    var baseHost :- Substring(afterSettings, 0, IndexOf(afterSettings, "/"));
    Ok(scheme + SchemeSeparator + baseSettings + "/" + baseHost + absolutePath)
  }

  /** NetFtpFileStorage.CreateFilePath: a "/" is inserted only when the parent lacks one. */
  function CreateFilePath(parent: string, newFilename: string): string
  {
    (if EndsWith(parent, "/") then parent else parent + "/") + newFilename
  }

  // ---------------------------------------------------------------------
  // Stripping the settings segment

  /** Stripping and decoding, for a path given by its parts. */
  lemma StripAt(path: string, scheme: string, tail: string, settings: string, rest: string)
    requires IsScheme(scheme) && '/' !in settings
    requires path == scheme + SchemeSeparator + tail && tail == settings + "/" + rest
    ensures IocPathToUri(path) == Ok(scheme + SchemeSeparator + rest)
    ensures FromIoc(path) == ParseInt32(settings)
  {
    SchemeSplit(scheme, tail);
    IndexOfCharAfter(settings, '/', rest);
    assert tail[0..|settings|] == settings;
    assert tail[|settings| + 1..] == rest;
    SettingsAt(path, scheme, tail, settings, rest);
  }

  /** Stripping drops exactly the settings segment and the "/" after it. */
  lemma IocPathToUriStrips(scheme: string, settings: string, rest: string)
    requires IsScheme(scheme) && '/' !in settings
    ensures IocPathToUri(scheme + SchemeSeparator + settings + "/" + rest)
         == Ok(scheme + SchemeSeparator + rest)
  {
    var tail := settings + "/" + rest;
    assert scheme + SchemeSeparator + settings + "/" + rest == scheme + SchemeSeparator + tail;
    StripAt(scheme + SchemeSeparator + tail, scheme, tail, settings, rest);
  }

  /** A path without "://" is rejected: Substring is asked for length -1. */
  lemma IocPathToUriNeedsSeparator(path: string)
    requires IndexOf(path, SchemeSeparator) == -1
    ensures IocPathToUri(path) == Err(ArgumentOutOfRangeException)
  {
  }

  /** A separator with no "/" after it is rejected as well. */
  lemma IocPathToUriNeedsSlash(path: string)
    requires IndexOf(path, SchemeSeparator) >= 0
    requires '/' !in path[IndexOf(path, SchemeSeparator) + 3..]
    ensures IocPathToUri(path) == Err(ArgumentOutOfRangeException)
  {
    IndexOfCharAbsent(path[IndexOf(path, SchemeSeparator) + 3..], '/');
  }

  /** What acceptance by IocPathToUri says about the searches it makes. */
  lemma IocPathToUriOk(path: string)
    requires IocPathToUri(path).Ok?
    ensures IndexOf(path, SchemeSeparator) >= 0
    ensures IndexOf(path[IndexOf(path, SchemeSeparator) + 3..], "/") >= 0
  {
    var i := IndexOf(path, SchemeSeparator);
    assert Substring(path, 0, i).Ok?;
    var tail := path[i + 3..];
    assert Substring(tail, 0, IndexOf(tail, "/")).Ok?;
  }

  /** An accepted path split into its parts. */
  lemma SplitAccepted(path: string) returns (scheme: string, tail: string, settings: string, rest: string)
    requires IocPathToUri(path).Ok?
    ensures IsScheme(scheme) && '/' !in settings
    ensures path == scheme + SchemeSeparator + tail && tail == settings + "/" + rest
  {
    IocPathToUriOk(path);
    scheme, tail := SplitScheme(path);
    settings, rest := SplitSlash(tail);
  }

  /** The parts of a path, written out in one line. */
  lemma FlatParts(path: string, scheme: string, tail: string, settings: string, rest: string)
    requires path == scheme + SchemeSeparator + tail && tail == settings + "/" + rest
    ensures path == scheme + SchemeSeparator + settings + "/" + rest
  {
  }

  /** Every path that stripping accepts has the form `scheme://<settings>/<rest>`,
      and decoding it reads exactly that settings segment. */
  lemma IocPathToUriShape(path: string) returns (scheme: string, settings: string, rest: string)
    requires IocPathToUri(path).Ok?
    ensures IsScheme(scheme) && '/' !in settings
    ensures path == scheme + SchemeSeparator + settings + "/" + rest
    ensures IocPathToUri(path) == Ok(scheme + SchemeSeparator + rest)
    ensures FromIoc(path) == ParseInt32(settings)
  {
    var tail;
    scheme, tail, settings, rest := SplitAccepted(path);
    StripAt(path, scheme, tail, settings, rest);
    FlatParts(path, scheme, tail, settings, rest);
  }

  /** Appending to a path given by its parts appends to the part after the settings. */
  lemma AppendedAt(path: string, suffix: string, scheme: string, tail: string, settings: string, rest: string)
    requires IsScheme(scheme) && '/' !in settings
    requires path == scheme + SchemeSeparator + tail && tail == settings + "/" + rest
    ensures IocPathToUri(path + suffix) == Ok(scheme + SchemeSeparator + (rest + suffix))
    ensures FromIoc(path + suffix) == ParseInt32(settings)
  {
    assert path + suffix == scheme + SchemeSeparator + (tail + suffix);
    assert tail + suffix == settings + "/" + (rest + suffix);
    StripAt(path + suffix, scheme, tail + suffix, settings, rest + suffix);
  }

  /** The same, with the stripped form regrouped. */
  lemma AppendedStrip(path: string, suffix: string, scheme: string, tail: string, settings: string, rest: string)
    requires IsScheme(scheme) && '/' !in settings
    requires path == scheme + SchemeSeparator + tail && tail == settings + "/" + rest
    ensures IocPathToUri(path + suffix) == Ok(scheme + SchemeSeparator + rest + suffix)
  {
    AppendedAt(path, suffix, scheme, tail, settings, rest);
    var lead := scheme + SchemeSeparator;
    assert lead + (rest + suffix) == lead + rest + suffix;
  }

  /** Text appended to an accepted path is appended to its stripped form,
      and the settings read from it do not change. */
  lemma IocPathToUriAppend(path: string, suffix: string)
    requires IocPathToUri(path).Ok?
    ensures IocPathToUri(path + suffix) == Ok(IocPathToUri(path).value + suffix)
    ensures FromIoc(path + suffix) == FromIoc(path)
  {
    var scheme, tail, settings, rest := SplitAccepted(path);
    StripAt(path, scheme, tail, settings, rest);
    AppendedAt(path, suffix, scheme, tail, settings, rest);
    AppendedStrip(path, suffix, scheme, tail, settings, rest);
  }

  // ---------------------------------------------------------------------
  // Rebuilding a location from a remote path

  /** Rebuilding, for a base given by its parts. */
  lemma RebuildAt(basePath: string, scheme: string, tail: string, settings: string, afterSettings: string,
                  host: string, rest: string, absolutePath: string)
    requires IsScheme(scheme) && '/' !in settings && '/' !in host
    requires basePath == scheme + SchemeSeparator + tail
    requires tail == settings + "/" + afterSettings && afterSettings == host + "/" + rest
    ensures IocPathFromUri(basePath, absolutePath)
         == Ok(scheme + SchemeSeparator + settings + "/" + host + absolutePath)
  {
    SchemeSplit(scheme, tail);
    IndexOfCharAfter(settings, '/', afterSettings);
    assert tail[0..|settings|] == settings;
    assert tail[|settings| + 1..] == afterSettings;
    IndexOfCharAfter(host, '/', rest);
    assert afterSettings[0..|host|] == host;
  }

  /** Rebuilding keeps scheme, settings and host and appends the absolute path. */
  lemma IocPathFromUriRebuilds(scheme: string, settings: string, host: string, rest: string,
                               absolutePath: string)
    requires IsScheme(scheme) && '/' !in settings && '/' !in host
    ensures IocPathFromUri(scheme + SchemeSeparator + settings + "/" + host + "/" + rest, absolutePath)
         == Ok(scheme + SchemeSeparator + settings + "/" + host + absolutePath)
  {
    var afterSettings := host + "/" + rest;
    var tail := settings + "/" + afterSettings;
    assert scheme + SchemeSeparator + settings + "/" + host + "/" + rest
        == scheme + SchemeSeparator + tail;
    RebuildAt(scheme + SchemeSeparator + tail, scheme, tail, settings, afterSettings, host, rest, absolutePath);
  }

  /** A rebuilt location decodes to the base's settings, and stripping it
      gives `scheme://<host>` followed by the absolute path. */
  lemma RebuiltLocationDecodes(scheme: string, settings: string, host: string, absolutePath: string)
    requires IsScheme(scheme) && '/' !in settings
    ensures FromIoc(scheme + SchemeSeparator + settings + "/" + host + absolutePath) == ParseInt32(settings)
    ensures IocPathToUri(scheme + SchemeSeparator + settings + "/" + host + absolutePath)
         == Ok(scheme + SchemeSeparator + host + absolutePath)
  {
    var rest := host + absolutePath;
    var tail := settings + "/" + rest;
    var p := scheme + SchemeSeparator + settings + "/" + host + absolutePath;
    assert p == scheme + SchemeSeparator + tail;
    StripAt(p, scheme, tail, settings, rest);
    assert scheme + SchemeSeparator + rest == scheme + SchemeSeparator + host + absolutePath;
  }

  /** What acceptance by IocPathFromUri says about the searches it makes. */
  lemma IocPathFromUriOk(basePath: string, absolutePath: string)
    requires IocPathFromUri(basePath, absolutePath).Ok?
    ensures IndexOf(basePath, SchemeSeparator) >= 0
    ensures var tail := basePath[IndexOf(basePath, SchemeSeparator) + 3..];
      IndexOf(tail, "/") >= 0 && IndexOf(tail[IndexOf(tail, "/") + 1..], "/") >= 0
  {
    var i := IndexOf(basePath, SchemeSeparator);
    assert Substring(basePath, 0, i).Ok?;
    var tail := basePath[i + 3..];
    var j := IndexOf(tail, "/");
    assert Substring(tail, 0, j).Ok?;
    var afterSettings := tail[j + 1..];
    assert Substring(afterSettings, 0, IndexOf(afterSettings, "/")).Ok?;
  }

  /** Whenever rebuilding succeeds, the base has the form
      `scheme://<settings>/<host>/<rest>` and the result is
      `scheme://<settings>/<host>` followed by the absolute path: it decodes
      to the base's settings, and stripping it keeps the base's scheme and host. */
  lemma IocPathFromUriKeepsPrefix(basePath: string, absolutePath: string)
    returns (scheme: string, settings: string, host: string, rest: string)
    requires IocPathFromUri(basePath, absolutePath).Ok?
    ensures IsScheme(scheme) && '/' !in settings && '/' !in host
    ensures basePath == scheme + SchemeSeparator + settings + "/" + host + "/" + rest
    ensures IocPathFromUri(basePath, absolutePath)
         == Ok(scheme + SchemeSeparator + settings + "/" + host + absolutePath)
    ensures FromIoc(IocPathFromUri(basePath, absolutePath).value) == FromIoc(basePath)
    ensures IocPathToUri(basePath) == Ok(scheme + SchemeSeparator + host + "/" + rest)
    ensures IocPathToUri(IocPathFromUri(basePath, absolutePath).value)
         == Ok(scheme + SchemeSeparator + host + absolutePath)
  {
    IocPathFromUriOk(basePath, absolutePath);
    var tail, afterSettings;
    scheme, tail := SplitScheme(basePath);
    settings, afterSettings := SplitSlash(tail);
    host, rest := SplitSlash(afterSettings);
    RebuildAt(basePath, scheme, tail, settings, afterSettings, host, rest, absolutePath);
    RebuiltLocationDecodes(scheme, settings, host, absolutePath);
    StripAt(basePath, scheme, tail, settings, afterSettings);
    FlatHost(basePath, scheme, tail, settings, afterSettings, host, rest);
  }

  /** Whether rebuilding succeeds depends on the base alone, not on the
      absolute path appended to it. */
  lemma IocPathFromUriAnyPath(basePath: string, absolutePath: string, otherPath: string)
    requires IocPathFromUri(basePath, absolutePath).Ok?
    ensures IocPathFromUri(basePath, otherPath).Ok?
  {
    var scheme, settings, host, rest := IocPathFromUriKeepsPrefix(basePath, absolutePath);
    IocPathFromUriRebuilds(scheme, settings, host, rest, otherPath);
  }

  /** The parts of a base path, written out in one line. */
  lemma FlatHost(basePath: string, scheme: string, tail: string, settings: string, afterSettings: string,
                 host: string, rest: string)
    requires basePath == scheme + SchemeSeparator + tail
    requires tail == settings + "/" + afterSettings && afterSettings == host + "/" + rest
    ensures basePath == scheme + SchemeSeparator + settings + "/" + host + "/" + rest
    ensures scheme + SchemeSeparator + afterSettings == scheme + SchemeSeparator + host + "/" + rest
  {
  }

  // ---------------------------------------------------------------------
  // Joining a child name

  /** A joined path is the parent, then exactly one "/" at the seam, then the name. */
  lemma CreateFilePathJoins(parent: string, newFilename: string)
    ensures var r := CreateFilePath(parent, newFilename);
      |r| == |parent| + |newFilename| + (if EndsWith(parent, "/") then 0 else 1)
      && r[..|parent|] == parent
      && r[|r| - |newFilename|..] == newFilename
      && r[|r| - |newFilename| - 1] == '/'
  {
    var r := CreateFilePath(parent, newFilename);
    if EndsWith(parent, "/") {
      assert r[|r| - |newFilename| - 1] == parent[|parent| - 1];
    }
  }

  /** Joining an empty name only adds the missing slash, and doing so first changes nothing. */
  lemma CreateFilePathSlashOnce(parent: string, newFilename: string)
    ensures CreateFilePath(CreateFilePath(parent, ""), newFilename) == CreateFilePath(parent, newFilename)
  {
    var p := CreateFilePath(parent, "");
    assert EndsWith(p, "/") by {
      if !EndsWith(parent, "/") {
        assert p == parent + "/";
        assert p[|p| - 1..] == "/";
      }
    }
  }

  /** An accepted path ends with "/" exactly when its stripped form does. */
  lemma EndsWithSlashAt(path: string, scheme: string, tail: string, settings: string, rest: string)
    requires path == scheme + SchemeSeparator + tail && tail == settings + "/" + rest
    ensures EndsWith(path, "/") <==> EndsWith(scheme + SchemeSeparator + rest, "/")
  {
    var u := scheme + SchemeSeparator + rest;
    if |rest| > 0 {
      assert path[|path| - 1] == rest[|rest| - 1] == u[|u| - 1];
      assert path[|path| - 1..] == [path[|path| - 1]];
      assert u[|u| - 1..] == [u[|u| - 1]];
    } else {
      assert path[|path| - 1..] == "/";
      assert u[|u| - 1..] == "/";
    }
  }

  /** Joining is appending the seam, if any, and the name. */
  lemma JoinIsAppend(parent: string, newFilename: string)
    ensures CreateFilePath(parent, newFilename)
         == parent + ((if EndsWith(parent, "/") then "" else "/") + newFilename)
  {
  }

  /** Joining commutes with stripping the settings segment, and keeps the settings. */
  lemma CreateFilePathKeepsLocation(parent: string, newFilename: string)
    requires IocPathToUri(parent).Ok?
    ensures IocPathToUri(CreateFilePath(parent, newFilename))
         == Ok(CreateFilePath(IocPathToUri(parent).value, newFilename))
    ensures FromIoc(CreateFilePath(parent, newFilename)) == FromIoc(parent)
  {
    var scheme, tail, settings, rest := SplitAccepted(parent);
    StripAt(parent, scheme, tail, settings, rest);
    EndsWithSlashAt(parent, scheme, tail, settings, rest);
    var seam := if EndsWith(parent, "/") then "" else "/";
    JoinIsAppend(parent, newFilename);
    JoinIsAppend(IocPathToUri(parent).value, newFilename);
    IocPathToUriAppend(parent, seam + newFilename);
  }
}
