/** The storage operations of NetFtpFileStorage over the abstract server:
    opening a client for a location, joining paths on connection infos,
    deleting, reading, writing, creating directories and listing. Each
    operation that talks to the server opens its own client, and every FTP
    command failure leaving it passes through the "550" translation. */
module NetFtpFileStorage {
  import opened Exceptions
  import opened Text
  import opened ConnectionSettings
  import opened LocationPaths
  import opened ErrorTranslation
  import opened RetryConnect
  import opened RemoteFs
  import opened IoConnection

  datatype Option<T> = None | Some(value: T)

  // ---------------------------------------------------------------------
  // Opening a client

  datatype Credentials = NetworkCredential(userName: string, password: string)

  const Anonymous := NetworkCredential("anonymous", "")

  /** GetClient's credential choice: the connection's own credentials, unless
      both the user name and the password are empty, in which case anonymous. */
  function ChooseCredentials(userName: string, password: string): (c: Credentials)
    ensures c == Anonymous <==> (userName == "" && password == "") || (userName == "anonymous" && password == "")
    ensures userName != "" || password != "" ==> c == NetworkCredential(userName, password)
  {
    if |userName| > 0 || |password| > 0 then NetworkCredential(userName, password) else Anonymous
  }

  /** Choosing again from the chosen credentials changes nothing. */
  lemma ChooseCredentialsStable(userName: string, password: string)
    ensures var c := ChooseCredentials(userName, password);
      ChooseCredentials(c.userName, c.password) == c
  {
  }

  /** What a connected client was set up with: the credentials, the address
      handed to `new Uri` and the encryption mode read from the location. */
  datatype ClientSettings = ClientSettings(credentials: Credentials, address: string, encryptionMode: Int32)

  /** The scripted connect attempts of one call, and the clock when it starts. */
  datatype Network = Network(attempts: nat -> Attempt<bool>, clock: int)

  /** GetClient, given the outcome of its connect retry loop: the location is
      stripped, then decoded, then the client connects; the first failure is
      what the call throws. */
  function OpenSession(path: string, userName: string, password: string, connected: Result<bool>)
    : Result<ClientSettings>
  {
    var address :- IocPathToUri(path);
    var mode :- FromIoc(path);
    var ok :- connected;
    Ok(ClientSettings(ChooseCredentials(userName, password), address, mode))
  }

  /** The client GetClient opens for `ioc` on `net`. */
  function SessionFor(ioc: ConnectionInfo, net: Network): Result<ClientSettings>
    reads ioc
  {
    OpenSession(ioc.path, ioc.userName, ioc.password, RetryOutcome(net.attempts, net.clock))
  }

  /** A client opens exactly when the location is stripped and decoded without
      error and the retry loop connects; it is addressed by the stripped location
      and uses the decoded encryption mode. A malformed location fails before
      any connect attempt, with the error of the step that rejected it. */
  lemma OpenSessionSpec(path: string, userName: string, password: string, connected: Result<bool>)
    ensures var s := OpenSession(path, userName, password, connected);
      (s.Ok? <==> IocPathToUri(path).Ok? && FromIoc(path).Ok? && connected.Ok?)
      && (s.Ok? ==> Ok(s.value.address) == IocPathToUri(path) && Ok(s.value.encryptionMode) == FromIoc(path)
                    && s.value.credentials == ChooseCredentials(userName, password))
      && (IocPathToUri(path).Err? ==> s == Err(IocPathToUri(path).error))
      && (IocPathToUri(path).Ok? && FromIoc(path).Err? ==> s == Err(FromIoc(path).error))
  {
  }

  /** An accepted location always opens a client on a first-try connect: the
      settings round trip makes its decode succeed. */
  lemma EncodedLocationOpens(scheme: string, mode: Int32, rest: string, userName: string, password: string)
    requires IsScheme(scheme)
    ensures OpenSession(scheme + SchemeSeparator + ConnectionSettings.ToString(mode) + "/" + rest,
                        userName, password, Ok(true))
         == Ok(ClientSettings(ChooseCredentials(userName, password), scheme + SchemeSeparator + rest, mode))
  {
    var settings := ConnectionSettings.ToString(mode);
    SettingsRoundTrip(scheme, mode, rest);
    IocPathToUriStrips(scheme, settings, rest);
  }

  /** GetClient: choose credentials, strip the location, decode it, then run
      the connect retry loop. */
  method GetClient(ioc: ConnectionInfo, net: Network) returns (r: Result<ClientSettings>)
    ensures r == SessionFor(ioc, net)
  {
    var credentials := ChooseCredentials(ioc.userName, ioc.password);
    var uri := IocPathToUri(ioc.path);
    if uri.Err? {
      return Err(uri.error);
    }
    var mode := FromIoc(ioc.path);
    if mode.Err? {
      return Err(mode.error);
    }
    var connected, attempts, finishTime := DoInRetryLoop(net.attempts, net.clock);
    if connected.Err? {
      return Err(connected.error);
    }
    r := Ok(ClientSettings(credentials, uri.value, mode.value));
  }

  // ---------------------------------------------------------------------
  // Joining a child name onto a connection info

  /** GetFilePath: a deep clone of the folder whose path gets the child name
      joined on; the folder itself is not changed. */
  method GetFilePath(folderPath: ConnectionInfo, filename: string) returns (res: ConnectionInfo)
    ensures fresh(res)
    ensures res.path == CreateFilePath(folderPath.path, filename)
    ensures res.userName == folderPath.userName && res.password == folderPath.password
    ensures res.credSaveMode == folderPath.credSaveMode
    ensures unchanged(folderPath)
  {
    res := folderPath.CloneDeep();
    if !EndsWith(res.path, "/") {
      res.path := res.path + "/";
    }
    res.path := res.path + filename;
  }

  // ---------------------------------------------------------------------
  // Delete, read, write, create a directory

  /** Delete: a directory is deleted with everything below it, anything else
      as a single file; a missing file is a FileNotFoundException. */
  method Delete(ioc: ConnectionInfo, net: Network, server: RemoteFileSystem) returns (o: Outcome)
    modifies server
    ensures var s := SessionFor(ioc, net);
      s.Err? ==> o == Fail(Translate(s.error)) && server.files == old(server.files) && server.dirs == old(server.dirs)
    ensures var s := SessionFor(ioc, net);
      s.Ok? && s.value.address in old(server.dirs) ==>
        o == Pass
        && server.files == FilesOutside(old(server.files), s.value.address)
        && server.dirs == DirsOutside(old(server.dirs), s.value.address)
    ensures var s := SessionFor(ioc, net);
      s.Ok? && s.value.address !in old(server.dirs) ==>
        server.files == old(server.files) - {s.value.address}
        && server.dirs == old(server.dirs)
        && (o.Pass? <==> s.value.address in old(server.files))
        && (o.Fail? ==> o.error.FileNotFoundException? && o.error.inner == Unavailable(s.value.address))
  {
    var client := GetClient(ioc, net);
    if client.Err? {
      return Fail(Translate(client.error));
    }
    // the client's address is the stripped location the source recomputes here
    var localPath := client.value.address;
    if server.DirectoryExists(localPath) {
      var deleted := server.DeleteDirectory(localPath);
      o := TranslateOutcome(deleted);
    } else {
      var deleted := server.DeleteFile(localPath);
      o := TranslateOutcome(deleted);
    }
  }

  /** OpenFileForRead: the whole content of the file, or FileNotFoundException
      when the server has no such file. */
  method OpenFileForRead(ioc: ConnectionInfo, net: Network, server: RemoteFileSystem)
    returns (r: Result<seq<byte>>)
    ensures var s := SessionFor(ioc, net);
      s.Err? ==> r == Err(Translate(s.error))
    ensures var s := SessionFor(ioc, net);
      s.Ok? ==> (r.Ok? <==> s.value.address in server.files)
                && (r.Ok? ==> r.value == server.files[s.value.address])
                && (r.Err? ==> r.error == FileNotFoundException(Unavailable(s.value.address).message,
                                                                 Unavailable(s.value.address)))
  {
    var client := GetClient(ioc, net);
    if client.Err? {
      return Err(Translate(client.error));
    }
    var contents := server.OpenRead(client.value.address);
    r := TranslateResult(contents);
  }

  /** OpenWrite: a stream onto the file at the location, which is created or
      truncated. */
  method OpenWrite(ioc: ConnectionInfo, net: Network, server: RemoteFileSystem)
    returns (r: Result<WriteStream>)
    modifies server
    ensures var s := SessionFor(ioc, net);
      s.Err? ==> r == Err(Translate(s.error)) && server.files == old(server.files)
    ensures var s := SessionFor(ioc, net);
      s.Ok? ==> (r.Ok? <==> s.value.address !in old(server.dirs))
                && (r.Ok? ==> fresh(r.value) && r.value.fs == server && r.value.key == s.value.address
                              && !r.value.closed && server.files == old(server.files)[s.value.address := []])
                && (r.Err? ==> r.error.FileNotFoundException? && server.files == old(server.files))
    ensures server.dirs == old(server.dirs)
  {
    var client := GetClient(ioc, net);
    if client.Err? {
      return Err(Translate(client.error));
    }
    var stream := server.OpenWrite(client.value.address);
    r := TranslateResult(stream);
  }

  /** CreateDirectory: the directory is created at the child location joined
      onto `ioc`, which keeps the parent's scheme, settings and host. */
  method CreateDirectory(ioc: ConnectionInfo, net: Network, server: RemoteFileSystem, newDirName: string)
    returns (o: Outcome)
    modifies server
    ensures var s := SessionFor(ioc, net);
      s.Err? ==> o == Fail(Translate(s.error)) && server.dirs == old(server.dirs)
    ensures var s := SessionFor(ioc, net);
      s.Ok? ==> var key := CreateFilePath(s.value.address, newDirName);
                (o.Pass? <==> key !in old(server.files))
                && (o.Pass? ==> server.dirs == old(server.dirs) + {key})
                && (o.Fail? ==> o.error.FileNotFoundException? && server.dirs == old(server.dirs))
    ensures server.files == old(server.files)
  {
    var client := GetClient(ioc, net);
    if client.Err? {
      return Fail(Translate(client.error));
    }
    var child := GetFilePath(ioc, newDirName);
    CreateFilePathKeepsLocation(ioc.path, newDirName);
    var created := server.CreateDirectory(IocPathToUri(child.path).value);
    o := TranslateOutcome(created);
  }

  // ---------------------------------------------------------------------
  // Listing a directory

  datatype ObjectType = FileType | DirectoryType | LinkType

  /** One entry of the server's directory listing. */
  datatype ListItem = ListItem(name: string, fullName: string, itemType: ObjectType, modified: int, size: int)

  datatype FileDescription = FileDescription(
    canRead: bool, canWrite: bool, displayName: string, isDirectory: bool,
    lastModified: int, path: string, sizeInBytes: Option<int>)

  /** The switch over the item type has cases for files and directories only. */
  predicate IsListed(item: ListItem) {
    item.itemType == FileType || item.itemType == DirectoryType
  }

  /** The listed items, in listing order. */
  function Kept(items: seq<ListItem>): (r: seq<ListItem>)
    ensures |r| <= |items|
    ensures forall i :: 0 <= i < |r| ==> IsListed(r[i])
  {
    if items == [] then []
    else
      var last := items[|items| - 1];
      Kept(items[..|items| - 1]) + (if IsListed(last) then [last] else [])
  }

  /** The description of a listed item found at `path`. */
  function Describe(item: ListItem, path: string): FileDescription {
    FileDescription(true, true, item.name, item.itemType == DirectoryType, item.modified, path,
                    if item.itemType == FileType then Some(item.size) else None)
  }

  /** The mapping ListContents performs on a listing, item after item; the
      first location that cannot be rebuilt from the base ends it. The
      absolute path of a full name (what `new Uri(...).AbsolutePath` gives)
      is the parameter `uriPath`. */
  function DescribeAll(basePath: string, items: seq<ListItem>, uriPath: string -> string)
    : Result<seq<FileDescription>>
  {
    if items == [] then Ok([])
    else
      var done :- DescribeAll(basePath, items[..|items| - 1], uriPath);
      var item := items[|items| - 1];
      if IsListed(item) then
        var path :- IocPathFromUri(basePath, uriPath(item.fullName));
        Ok(done + [Describe(item, path)])
      else
        Ok(done)
  }

  /** A failure in a prefix of the listing is the failure of the whole listing. */
  lemma {:induction false} DescribeAllFailureSticks(basePath: string, items: seq<ListItem>, n: nat,
                                                    uriPath: string -> string)
    requires n <= |items|
    requires DescribeAll(basePath, items[..n], uriPath).Err?
    ensures DescribeAll(basePath, items, uriPath) == DescribeAll(basePath, items[..n], uriPath)
    decreases |items| - n
  {
    if n < |items| {
      var longer := items[..n + 1];
      assert longer[..|longer| - 1] == items[..n];
      DescribeAllFailureSticks(basePath, items, n + 1, uriPath);
    } else {
      assert items[..n] == items;
    }
  }

  /** A successful listing describes exactly the file and directory items, in
      listing order: both readable and writable, named after the item, marked
      as a directory exactly for directory items, sized exactly for file items,
      and located by the path rebuilt from the base. */
  lemma {:induction false} DescribeAllKeepsOrder(basePath: string, items: seq<ListItem>,
                                                 uriPath: string -> string)
    requires DescribeAll(basePath, items, uriPath).Ok?
    ensures var ds := DescribeAll(basePath, items, uriPath).value;
      var kept := Kept(items);
      |ds| == |kept|
      && forall i :: 0 <= i < |ds| ==>
           IocPathFromUri(basePath, uriPath(kept[i].fullName)).Ok?
           && ds[i] == Describe(kept[i], IocPathFromUri(basePath, uriPath(kept[i].fullName)).value)
  {
    if items != [] {
      DescribeAllKeepsOrder(basePath, items[..|items| - 1], uriPath);
    }
  }

  /** A listing fails only when some entry is a file or directory and the base
      location has no host segment ending in "/". */
  lemma {:induction false} DescribeAllFails(basePath: string, items: seq<ListItem>, uriPath: string -> string)
    requires DescribeAll(basePath, items, uriPath).Err?
    ensures Kept(items) != []
    ensures IocPathFromUri(basePath, uriPath(Kept(items)[0].fullName)).Err?
  {
    var last := items[|items| - 1];
    var front := items[..|items| - 1];
    if DescribeAll(basePath, front, uriPath).Err? {
      DescribeAllFails(basePath, front, uriPath);
    } else {
      if IocPathFromUri(basePath, uriPath(Kept(items)[0].fullName)).Ok? {
        IocPathFromUriAnyPath(basePath, uriPath(Kept(items)[0].fullName), uriPath(last.fullName));
      }
    }
  }

  /** Every described path stays self-describing: it decodes to the base's
      settings, and stripping it gives the base's scheme and host followed by
      the entry's absolute path. */
  lemma ListedPathKeepsLocation(basePath: string, items: seq<ListItem>, uriPath: string -> string, i: nat)
    returns (scheme: string, settings: string, host: string, rest: string)
    requires DescribeAll(basePath, items, uriPath).Ok?
    requires i < |Kept(items)| && i < |DescribeAll(basePath, items, uriPath).value|
    ensures basePath == scheme + SchemeSeparator + settings + "/" + host + "/" + rest
    ensures var d := DescribeAll(basePath, items, uriPath).value[i];
      FromIoc(d.path) == FromIoc(basePath)
      && IocPathToUri(d.path) == Ok(scheme + SchemeSeparator + host + uriPath(Kept(items)[i].fullName))
  {
    DescribeAllKeepsOrder(basePath, items, uriPath);
    scheme, settings, host, rest := IocPathFromUriKeepsPrefix(basePath, uriPath(Kept(items)[i].fullName));
  }

  /** ListContents, given the server's reply to the listing command. */
  function Listing(basePath: string, session: Result<ClientSettings>, listing: Result<seq<ListItem>>,
                   uriPath: string -> string): Result<seq<FileDescription>>
  {
    var client :- session;
    var items :- listing;
    DescribeAll(basePath, items, uriPath)
  }

  /** ListContents: open a client, take the server's listing of the location
      and describe its files and directories; errors are translated. */
  method ListContents(ioc: ConnectionInfo, net: Network, listing: Result<seq<ListItem>>,
                      uriPath: string -> string)
    returns (r: Result<seq<FileDescription>>)
    ensures r == TranslateResult(Listing(ioc.path, SessionFor(ioc, net), listing, uriPath))
  {
    var client := GetClient(ioc, net);
    if client.Err? {
      return Err(Translate(client.error));
    }
    if listing.Err? {
      return Err(Translate(listing.error));
    }
    var items := listing.value;
    var files: seq<FileDescription> := [];
    var i := 0;
    while i < |items|
      invariant 0 <= i <= |items|
      invariant DescribeAll(ioc.path, items[..i], uriPath) == Ok(files)
    {
      var item := items[i];
      assert items[..i + 1][..i] == items[..i];
      match item.itemType {
        case DirectoryType =>
          var path := IocPathFromUri(ioc.path, uriPath(item.fullName));
          if path.Err? {
            DescribeAllFailureSticks(ioc.path, items, i + 1, uriPath);
            return Err(Translate(path.error));
          }
          files := files + [FileDescription(true, true, item.name, true, item.modified, path.value, None)];
        case FileType =>
          var path := IocPathFromUri(ioc.path, uriPath(item.fullName));
          if path.Err? {
            DescribeAllFailureSticks(ioc.path, items, i + 1, uriPath);
            return Err(Translate(path.error));
          }
          files := files + [FileDescription(true, true, item.name, false, item.modified, path.value,
                                            Some(item.size))];
        case LinkType =>
      }
      i := i + 1;
    }
    assert items[..|items|] == items;
    r := TranslateResult(Ok(files));
  }
}
