/** The two write transactions of the FTP storage. TransactedWrite writes to a
    temporary sibling `<target>.<6 hex>.tmp` over a client it keeps, and on
    commit closes the stream, deletes any existing target and renames the
    temporary file onto it; disposing without commit leaves the temporary file
    behind. UntransactedWrite writes straight to the target through the
    storage's OpenWrite, and its commit only closes the stream. */
module WriteTransactions {
  import opened Exceptions
  import opened Text
  import opened ConnectionSettings
  import opened LocationPaths
  import opened ErrorTranslation
  import opened RetryConnect
  import opened RemoteFs
  import opened IoConnection
  import opened NetFtpFileStorage

  predicate IsHexDigit(c: char) {
    '0' <= c <= '9' || 'A' <= c <= 'F'
  }

  /** The first six characters of a random uuid's hex string. */
  predicate IsTempSuffix(suffix: string) {
    |suffix| == 6 && forall i :: 0 <= i < |suffix| ==> IsHexDigit(suffix[i])
  }

  function TempPath(path: string, suffix: string): string {
    path + "." + suffix + ".tmp"
  }

  /** The temporary location keeps the target's settings, strips to the
      target's address with the same ending, and is never the target itself. */
  lemma TempPathAddress(path: string, suffix: string)
    requires IocPathToUri(path).Ok?
    ensures IocPathToUri(TempPath(path, suffix)) == Ok(TempPath(IocPathToUri(path).value, suffix))
    ensures FromIoc(TempPath(path, suffix)) == FromIoc(path)
    ensures TempPath(IocPathToUri(path).value, suffix) != IocPathToUri(path).value
    ensures TempPath(path, suffix) != path
  {
    var ending := "." + suffix + ".tmp";
    assert TempPath(path, suffix) == path + ending;
    IocPathToUriAppend(path, ending);
    var u := IocPathToUri(path).value;
    assert TempPath(u, suffix) == u + ending;
  }

  /** How CommitWrite changes the server files: delete the target if it
      exists, then rename the temporary file onto it. */
  datatype Committed = Committed(outcome: Outcome, files: map<string, seq<byte>>)

  function CommitEffect(files: map<string, seq<byte>>, dirs: set<string>, target: string, temp: string): Committed {
    var cleared := if target in files then files - {target} else files;
    if temp !in cleared then Committed(Fail(Unavailable(temp)), cleared)
    else if target in dirs then Committed(Fail(Unavailable(target)), cleared)
    else Committed(Pass, Renamed(cleared, temp, target))
  }

  /** After a commit from a written temporary file onto a name that is no
      directory, the target holds exactly the temporary file's bytes, the
      temporary file is gone and every other file is as before; a missing
      temporary file, or a directory by the target's name, is a "550" reply,
      leaves no target file behind and keeps the temporary file as it was. */
  lemma CommitReplacesTarget(files: map<string, seq<byte>>, dirs: set<string>, target: string, temp: string)
    requires temp != target
    ensures var c := CommitEffect(files, dirs, target, temp);
      (c.outcome.Pass? <==> temp in files && target !in dirs)
      && (c.outcome.Pass? ==> target in c.files && c.files[target] == files[temp] && temp !in c.files)
      && (temp !in files ==> c.outcome == Fail(Unavailable(temp)) && target !in c.files)
      && (temp in files && target in dirs ==>
            c.outcome == Fail(Unavailable(target)) && target !in c.files && temp in c.files
            && c.files[temp] == files[temp])
      && (forall k :: k != temp && k != target ==> (k in c.files <==> k in files))
      && (forall k :: k in c.files && k != temp && k != target ==> c.files[k] == files[k])
  {
  }

  class TransactedWrite {
    const ioc: ConnectionInfo
    const iocTemp: ConnectionInfo
    /** The server the storage reaches. */
    const server: RemoteFileSystem
    /** The six hex characters of the temporary name. */
    ghost const suffix: string
    var client: Option<ClientSettings>
    var stream: WriteStream?

    /** The temporary location stays the target's with the suffix appended;
        a client was opened for the target's stripped location; a stream is
        only held together with its client. */
    ghost predicate Valid()
      reads this, ioc, iocTemp, stream
    {
      ioc != iocTemp && iocTemp.path == TempPath(ioc.path, suffix)
      && (client.Some? ==> IocPathToUri(ioc.path) == Ok(client.value.address)
                           && IocPathToUri(iocTemp.path) == Ok(TempPath(client.value.address, suffix)))
      && (stream != null ==> client.Some? && stream.fs == server)
    }

    /** The temporary location is the target's path with "." + suffix + ".tmp"
        appended, on a deep clone of the target's connection info. */
    constructor (ioc: ConnectionInfo, server: RemoteFileSystem, suffix: string)
      requires IsTempSuffix(suffix)
      ensures Valid()
      ensures this.ioc == ioc && this.server == server && this.suffix == suffix && fresh(iocTemp)
      ensures iocTemp.path == TempPath(ioc.path, suffix)
      ensures iocTemp.userName == ioc.userName && iocTemp.password == ioc.password
      ensures iocTemp.credSaveMode == ioc.credSaveMode
      ensures client.None? && stream == null
      ensures unchanged(ioc)
    {
      this.ioc := ioc;
      var temp := ioc.CloneDeep();
      temp.path := temp.path + "." + suffix + ".tmp";
      iocTemp := temp;
      this.server := server;
      this.suffix := suffix;
      client := None;
      stream := null;
    }

    /** OpenFile: opens a client for the target and a stream onto the
        temporary file, which is created or truncated. */
    method OpenFile(net: Network) returns (r: Result<WriteStream>)
      requires Valid()
      modifies this, server
      ensures Valid()
      ensures var s := SessionFor(ioc, net);
        s.Err? ==> r == Err(Translate(s.error)) && client == old(client) && stream == old(stream)
                   && server.files == old(server.files)
      ensures var s := SessionFor(ioc, net);
        s.Ok? ==> var temp := TempPath(s.value.address, suffix);
                  client == Some(s.value)
                  && (r.Ok? <==> temp !in old(server.dirs))
                  && (r.Ok? ==> fresh(r.value) && stream == r.value && r.value.key == temp && !r.value.closed
                                && server.files == old(server.files)[temp := []])
                  && (r.Err? ==> r.error.FileNotFoundException? && stream == old(stream)
                                 && server.files == old(server.files))
      ensures server.dirs == old(server.dirs)
    {
      var c := GetClient(ioc, net);
      if c.Err? {
        return Err(Translate(c.error));
      }
      OpenSessionSpec(ioc.path, ioc.userName, ioc.password, RetryOutcome(net.attempts, net.clock));
      TempPathAddress(ioc.path, suffix);
      client := Some(c.value);
      var started := server.OpenWrite(IocPathToUri(iocTemp.path).value);
      if started.Err? {
        return Err(Translate(started.error));
      }
      stream := started.value;
      r := Ok(started.value);
    }

    /** CommitWrite: close the stream, delete the target if it is there, then
        rename the temporary file onto the target. Without an open stream it
        throws NullReferenceException and changes nothing. */
    method CommitWrite() returns (o: Outcome)
      requires Valid()
      modifies stream, server
      ensures Valid()
      ensures old(stream) == null ==> o == Fail(NullReferenceException) && server.files == old(server.files)
      ensures old(stream) != null ==>
        var target := client.value.address;
        var c := CommitEffect(old(server.files), old(server.dirs), target, TempPath(target, suffix));
        old(stream).closed && o == TranslateOutcome(c.outcome) && server.files == c.files
      ensures old(stream) != null && TempPath(client.value.address, suffix) in old(server.files)
              && client.value.address !in old(server.dirs) ==>
        o == Pass && server.files[client.value.address] == old(server.files)[TempPath(client.value.address, suffix)]
        && TempPath(client.value.address, suffix) !in server.files
      ensures server.dirs == old(server.dirs)
    {
      if client.None? || stream == null {
        return Fail(NullReferenceException);
      }
      stream.Close();
      var target := IocPathToUri(ioc.path).value;
      var temp := IocPathToUri(iocTemp.path).value;
      assert |temp| > |target|;
      CommitReplacesTarget(server.files, server.dirs, target, temp);
      if server.FileExists(target) {
        var deleted := server.DeleteFile(target);
      }
      var renamed := server.Rename(temp, target);
      o := TranslateOutcome(renamed);
    }

    /** Dispose: closes and drops the stream; the server is not touched, so
        an uncommitted temporary file stays. */
    method Dispose()
      requires Valid()
      modifies this, stream
      ensures Valid()
      ensures stream == null && client == old(client)
      ensures old(stream) != null ==> old(stream).closed
    {
      if stream != null {
        stream.Close();
      }
      stream := null;
    }
  }

  class UntransactedWrite {
    const ioc: ConnectionInfo
    /** The server the storage reaches. */
    const server: RemoteFileSystem
    var stream: WriteStream?

    ghost predicate Valid()
      reads this, stream
    {
      stream != null ==> stream.fs == server
    }

    constructor (ioc: ConnectionInfo, server: RemoteFileSystem)
      ensures Valid()
      ensures this.ioc == ioc && this.server == server && stream == null
    {
      this.ioc := ioc;
      this.server := server;
      stream := null;
    }

    /** OpenFile: the storage's OpenWrite on the target itself, so every write
        is visible at the target at once. */
    method OpenFile(net: Network) returns (r: Result<WriteStream>)
      requires Valid()
      modifies this, server
      ensures Valid()
      ensures r.Err? ==> stream == old(stream)
      ensures var s := SessionFor(ioc, net);
        s.Err? ==> r == Err(Translate(s.error)) && server.files == old(server.files)
      ensures var s := SessionFor(ioc, net);
        s.Ok? ==> (r.Ok? <==> s.value.address !in old(server.dirs))
                  && (r.Ok? ==> stream == r.value && fresh(r.value) && r.value.key == s.value.address
                                && !r.value.closed && r.value.fs == server
                                && server.files == old(server.files)[s.value.address := []])
                  && (r.Err? ==> r.error.FileNotFoundException? && server.files == old(server.files))
      ensures server.dirs == old(server.dirs)
    {
      r := OpenWrite(ioc, net, server);
      if r.Ok? {
        stream := r.value;
      }
    }

    /** CommitWrite: only closes the stream; the server is not touched. */
    method CommitWrite() returns (o: Outcome)
      requires Valid()
      modifies stream
      ensures o == (if old(stream) == null then Fail(NullReferenceException) else Pass)
      ensures old(stream) != null ==> old(stream).closed
    {
      if stream == null {
        return Fail(NullReferenceException);
      }
      stream.Close();
      o := Pass;
    }

    method Dispose()
      requires Valid()
      modifies this, stream
      ensures Valid()
      ensures stream == null
      ensures old(stream) != null ==> old(stream).closed
    {
      if stream != null {
        stream.Close();
      }
      stream := null;
    }
  }

  /** The transaction OpenWriteTransaction hands out. */
  datatype WriteTransaction = Untransacted(direct: UntransactedWrite) | Transacted(viaTemp: TransactedWrite)

  /** OpenWriteTransaction: a write through a temporary file when file
      transactions are asked for, a direct write otherwise. Nothing is sent
      to the server yet. The suffix stands for the random uuid's first six
      hex characters. */
  method OpenWriteTransaction(ioc: ConnectionInfo, server: RemoteFileSystem, useFileTransaction: bool,
                              suffix: string)
    returns (w: WriteTransaction)
    requires IsTempSuffix(suffix)
    ensures w.Transacted? <==> useFileTransaction
    ensures w.Transacted? ==> fresh(w.viaTemp) && w.viaTemp.Valid()
                              && w.viaTemp.ioc == ioc && w.viaTemp.server == server
                              && w.viaTemp.iocTemp.path == TempPath(ioc.path, suffix)
                              && w.viaTemp.client.None? && w.viaTemp.stream == null
    ensures w.Untransacted? ==> fresh(w.direct) && w.direct.Valid()
                                && w.direct.ioc == ioc && w.direct.server == server
                                && w.direct.stream == null
    ensures unchanged(ioc) && unchanged(server)
  {
    if !useFileTransaction {
      var u := new UntransactedWrite(ioc, server);
      w := Untransacted(u);
    } else {
      var t := new TransactedWrite(ioc, server, suffix);
      w := Transacted(t);
    }
  }

  /** A server that accepts the first connect attempt at once. */
  function ConnectAtOnce(k: nat): Attempt<bool> {
    Attempt(Ok(true), 0)
  }

  /** A transacted write of `data` to a location whose client opens,
      followed by a commit, leaves exactly `data` readable at that location,
      provided no directory has the location's or the temporary file's name. */
  method WriteCommitRead(ioc: ConnectionInfo, net: Network, server: RemoteFileSystem,
                         data: seq<byte>, suffix: string)
    returns (read: Result<seq<byte>>)
    requires IsTempSuffix(suffix) && SessionFor(ioc, net).Ok?
    requires TempPath(SessionFor(ioc, net).value.address, suffix) !in server.dirs
    requires SessionFor(ioc, net).value.address !in server.dirs
    modifies server
    ensures read == Ok(data)
  {
    var address := SessionFor(ioc, net).value.address;
    var transaction := new TransactedWrite(ioc, server, suffix);
    var started := transaction.OpenFile(net);
    assert started.Ok? && transaction.stream == started.value;
    assert started.value.key == TempPath(address, suffix) && !started.value.closed;
    var written := started.value.Write(data);
    assert server.files[TempPath(address, suffix)] == data;
    assert transaction.client == Some(SessionFor(ioc, net).value);
    var committed := transaction.CommitWrite();
    assert server.files[address] == data;
    read := OpenFileForRead(ioc, net, server);
  }

  /** An untransacted write of `data` to a location whose client opens is
      visible at the location at once, before any commit, provided no
      directory has the location's name. */
  method WriteUncommitted(ioc: ConnectionInfo, net: Network, server: RemoteFileSystem, data: seq<byte>)
    returns (read: Result<seq<byte>>)
    requires SessionFor(ioc, net).Ok? && SessionFor(ioc, net).value.address !in server.dirs
    modifies server
    ensures read == Ok(data)
  {
    var address := SessionFor(ioc, net).value.address;
    var transaction := new UntransactedWrite(ioc, server);
    var started := transaction.OpenFile(net);
    assert started.Ok? && started.value.key == address && !started.value.closed;
    var written := started.value.Write(data);
    assert server.files[address] == data;
    read := OpenFileForRead(ioc, net, server);
  }

  /** Over a server without entries that accepts the first connect attempt,
      a transacted write of `data` to `scheme://<mode>/<rest>` followed by a
      commit leaves exactly `data` readable at the same location. */
  method CommitRoundTrip(scheme: string, mode: Int32, rest: string, data: seq<byte>, suffix: string)
    returns (read: Result<seq<byte>>)
    requires IsScheme(scheme) && IsTempSuffix(suffix)
    ensures read == Ok(data)
  {
    var path := scheme + SchemeSeparator + ConnectionSettings.ToString(mode) + "/" + rest;
    EncodedLocationOpens(scheme, mode, rest, "", "");
    FirstOutcomeDecides(ConnectAtOnce, 0);
    var ioc := new ConnectionInfo(path, "", "", NoSave);
    var server := new RemoteFileSystem(map[], {});
    read := WriteCommitRead(ioc, Network(ConnectAtOnce, 0), server, data, suffix);
  }

  /** The example location "ftps://1/example.com/docs/notes.kdbx", given by
      its parts, decodes to settings 1 and strips to
      the host "example.com" followed by the remote path "/docs/notes.kdbx". */
  lemma ScenarioLocation(scheme: string, settings: string, host: string, remotePath: string)
    requires scheme == "ftps" && settings == "1" && host == "example.com" && remotePath == "/docs/notes.kdbx"
    ensures FromIoc(scheme + SchemeSeparator + settings + "/" + host + remotePath) == Ok(1)
    ensures IocPathToUri(scheme + SchemeSeparator + settings + "/" + host + remotePath)
         == Ok(scheme + SchemeSeparator + host + remotePath)
  {
    ColonFreeIsScheme(scheme);
    RebuiltLocationDecodes(scheme, settings, host, remotePath);
    DigitParses(settings, 1);
  }

  /** The end-to-end example: the bytes 1, 2, 3 written to the example
      location with a transacted write and committed are read back. */
  method CommitScenario(scheme: string, mode: Int32, rest: string)
    returns (read: Result<seq<byte>>)
    requires scheme == "ftps" && mode == 1 && rest == "example.com/docs/notes.kdbx"
    ensures read == Ok([1, 2, 3])
  {
    ColonFreeIsScheme(scheme);
    read := CommitRoundTrip(scheme, mode, rest, [1, 2, 3], "A1B2C3");
  }
}
