/** The remote side, as far as the storage layer can observe it: the FTP
    server's files and directories behind the client library's commands.
    A file or directory is named by its address, the `scheme://host/path`
    string the storage layer hands to the client for it. A command the server
    rejects ends with the FTP reply as an FtpCommandException; "550" is the
    reply for a file or directory that is not there. */
module RemoteFs {
  import opened Exceptions
  import ErrorTranslation

  newtype byte = x: int | 0 <= x < 256

  /** The "550" reply for a name the server has no entry for. */
  function Unavailable(key: string): Exception {
    FtpCommandException(ErrorTranslation.NotFoundCode, key + ": No such file or directory")
  }

  /** `key` is `root` itself or lies somewhere below it. */
  predicate Under(key: string, root: string) {
    key == root || (|root| < |key| && key[..|root| + 1] == root + "/")
  }

  /** The files left after deleting the tree rooted at `root`. */
  function FilesOutside(files: map<string, seq<byte>>, root: string): (r: map<string, seq<byte>>)
    ensures forall k :: k in r <==> k in files && !Under(k, root)
    ensures forall k :: k in r ==> r[k] == files[k]
  {
    map k | k in files && !Under(k, root) :: files[k]
  }

  /** The directories left after deleting the tree rooted at `root`. */
  function DirsOutside(dirs: set<string>, root: string): (r: set<string>)
    ensures forall k :: k in r <==> k in dirs && !Under(k, root)
  {
    set k | k in dirs && !Under(k, root)
  }

  /** The files after renaming `source` to `target`: the target holds the
      source's bytes, the source is gone, nothing else changes. */
  function Renamed(files: map<string, seq<byte>>, source: string, target: string): (r: map<string, seq<byte>>)
    requires source in files
    ensures target in r && r[target] == files[source]
    ensures source != target ==> source !in r
    ensures forall k :: k != source && k != target ==> (k in r <==> k in files)
    ensures forall k :: k in r && k != source && k != target ==> r[k] == files[k]
  {
    (files - {source})[target := files[source]]
  }

  class RemoteFileSystem {
    var files: map<string, seq<byte>>
    var dirs: set<string>

    constructor (files: map<string, seq<byte>>, dirs: set<string>)
      ensures this.files == files && this.dirs == dirs
    {
      this.files := files;
      this.dirs := dirs;
    }

    predicate FileExists(key: string)
      reads this
    {
      key in files
    }

    predicate DirectoryExists(key: string)
      reads this
    {
      key in dirs
    }

    /** DELE: removes one file; a missing file is a "550" reply. */
    method DeleteFile(key: string) returns (o: Outcome)
      modifies this
      ensures o == (if key in old(files) then Pass else Fail(Unavailable(key)))
      ensures files == old(files) - {key}
      ensures dirs == old(dirs)
    {
      if key in files {
        files := files - {key};
        o := Pass;
      } else {
        o := Fail(Unavailable(key));
      }
    }

    /** Recursive directory delete: the directory, and every file and
        directory below it, are removed. */
    method DeleteDirectory(key: string) returns (o: Outcome)
      modifies this
      ensures o == (if key in old(dirs) then Pass else Fail(Unavailable(key)))
      ensures o.Pass? ==> files == FilesOutside(old(files), key) && dirs == DirsOutside(old(dirs), key)
      ensures o.Fail? ==> files == old(files) && dirs == old(dirs)
    {
      if key in dirs {
        files := FilesOutside(files, key);
        dirs := DirsOutside(dirs, key);
        o := Pass;
      } else {
        o := Fail(Unavailable(key));
      }
    }

    /** RNFR/RNTO on a file: a missing source is a "550" reply, and so is a
        target that names a directory; an existing target file is replaced. */
    method Rename(source: string, target: string) returns (o: Outcome)
      modifies this
      ensures o == (if source !in old(files) then Fail(Unavailable(source))
                    else if target in old(dirs) then Fail(Unavailable(target))
                    else Pass)
      ensures o.Pass? ==> files == Renamed(old(files), source, target)
      ensures o.Fail? ==> files == old(files)
      ensures dirs == old(dirs)
    {
      if source !in files {
        o := Fail(Unavailable(source));
      } else if target in dirs {
        o := Fail(Unavailable(target));
      } else {
        files := Renamed(files, source, target);
        o := Pass;
      }
    }

    /** MKD: a name already taken by a file is a "550" reply. */
    method CreateDirectory(key: string) returns (o: Outcome)
      modifies this
      ensures o == (if key in old(files) then Fail(Unavailable(key)) else Pass)
      ensures o.Pass? ==> dirs == old(dirs) + {key}
      ensures o.Fail? ==> dirs == old(dirs)
      ensures files == old(files)
    {
      if key in files {
        o := Fail(Unavailable(key));
      } else {
        dirs := dirs + {key};
        o := Pass;
      }
    }

    /** RETR from offset 0: the whole content of the file. */
    method OpenRead(key: string) returns (r: Result<seq<byte>>)
      ensures r.Ok? <==> key in files
      ensures r.Ok? ==> r.value == files[key]
      ensures r.Err? ==> r.error == Unavailable(key)
    {
      if key in files {
        r := Ok(files[key]);
      } else {
        r := Err(Unavailable(key));
      }
    }

    /** STOR: creates or truncates the file and hands back a stream whose
        writes land in it; a directory of that name is a "550" reply. */
    method OpenWrite(key: string) returns (r: Result<WriteStream>)
      modifies this
      ensures r.Ok? <==> key !in old(dirs)
      ensures r.Ok? ==> fresh(r.value) && r.value.fs == this && r.value.key == key && !r.value.closed
      ensures r.Ok? ==> files == old(files)[key := []]
      ensures r.Err? ==> r.error == Unavailable(key) && files == old(files)
      ensures dirs == old(dirs)
    {
      if key in dirs {
        r := Err(Unavailable(key));
      } else {
        files := files[key := []];
        var stream := new WriteStream(this, key);
        r := Ok(stream);
      }
    }
  }

  /** The data connection of one STOR. */
  class WriteStream {
    const fs: RemoteFileSystem
    const key: string
    var closed: bool

    constructor (fs: RemoteFileSystem, key: string)
      ensures this.fs == fs && this.key == key && !closed
    {
      this.fs := fs;
      this.key := key;
      closed := false;
    }

    /** Appends to the remote file; a closed stream throws. */
    method Write(data: seq<byte>) returns (o: Outcome)
      modifies fs
      ensures o == (if closed then Fail(ObjectDisposedException) else Pass)
      ensures o.Pass? ==> fs.files == old(fs.files)[key := (if key in old(fs.files) then old(fs.files)[key] else []) + data]
      ensures o.Fail? ==> fs.files == old(fs.files)
      ensures fs.dirs == old(fs.dirs)
    {
      if closed {
        o := Fail(ObjectDisposedException);
      } else {
        var before := if key in fs.files then fs.files[key] else [];
        fs.files := fs.files[key := before + data];
        o := Pass;
      }
    }

    /** Close and Dispose: idempotent, and the remote file keeps what was written. */
    method Close()
      modifies this
      ensures closed
    {
      closed := true;
    }
  }
}
