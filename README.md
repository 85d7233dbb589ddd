# NetFtpFileStorage, modelled in Dafny

Keepass2Android's FTP file storage (`NetFtpFileStorage`) reaches files on an
FTP server through a location path of the form
`scheme://<settings>/<host>/<path>`. The `<settings>` segment is the decimal
ordinal of the client's encryption mode. Before a path goes to the FTP client
library, the storage strips the settings segment. It rebuilds locations for
directory entries from a base location. Delete, read, write, create
directory, listing, opening a write transaction and the transacted write's
open and commit catch FTP command failures and pass them through a
translation that turns a "550" reply into a `FileNotFoundException`; the
untransacted commit and both disposals have no such handler. Connecting retries refused connections for up to
30 seconds. A write goes either straight to the target or, as a transaction,
to a temporary sibling `<target>.<6 hex>.tmp`. On commit the temporary file
is renamed onto the target.

The project models this core:

- the .NET string and number behaviour it relies on (`Text`): ordinal
  `IndexOf` answering -1, `Substring` throwing `ArgumentOutOfRangeException`,
  and `int.Parse` with its format and overflow errors, including its
  acceptance of a final run of NUL characters;
- the location codec (`ConnectionSettings`, `LocationPaths`);
- the error translation (`ErrorTranslation`);
- the connect retry loop (`RetryConnect`);
- the storage operations on an abstract server (`NetFtpFileStorage`, `RemoteFs`,
  `IoConnection`);
- the two write transactions and the choice between them (`WriteTransactions`).

Modelling choices:

- **Pure code and imperative code.** The pure codec code is functions with
  lemmas. Code that updates objects becomes classes:
  - `ConnectionInfo`;
  - the server's file map and directory set;
  - the write stream;
  - the two transactions, whose client and stream fields their methods
    reassign.
- **Retry loop.** This is a `while` loop proved against a specification
  function (`LastAttempt`).
- **Listing.** The listing loop is proved against `DescribeAll`.
- **Server keys.** A file or directory on the server is named by the string
  the storage hands to `new Uri`. That string is the location with its
  settings segment stripped, so `Uri.PathAndQuery` is not modelled.
- **Rebuilding entry locations.** The `Uri.AbsolutePath` of a listing entry's
  full name is the parameter `uriPath`.
- **Decoding and encoding settings are not fully inverse.** One would expect
  a location without `://` to be refused when its settings are read. In
  `ConnectionSettings.FromIoc` the search for `://` answers -1, and the code
  goes on from index 2. So a path such as `ab7/host/x` decodes to mode 7
  (`ConnectionSettings.FromIocWithoutSeparator`). Stripping such a path
  does fail (`LocationPaths.IocPathToUriNeedsSeparator`), so `GetClient` still
  rejects it. Decoding a mode and encoding it again gives the segment back
  only for a canonical segment: digits without a leading zero
  (`ConnectionSettings.CanonicalSegmentRoundTrip`). int.Parse also accepts
  forms such as "01", "+1", " 1" and "-0", so `ftp://01/host/x` decodes to
  mode 1, whose encoding is "1" (`ConnectionSettings.LeadingZeroAccepted`).

Every member cited below is in `src/Kp2aBusinessLogic/Io/NetFtpFileStorage.cs`.

## Model

| member | source | states |
|---|---|---|
| Text.IndexOf | src/Kp2aBusinessLogic/Io/NetFtpFileStorage.cs:93 | the ordinal search answers the first index where the pattern occurs, and -1 exactly when it does not occur |
| Text.Int32ToString | src/Kp2aBusinessLogic/Io/NetFtpFileStorage.cs:105 | the decimal text of a 32-bit integer is non-empty, ends in a digit and holds only digits and a leading minus sign |
| Text.ParseToString | src/Kp2aBusinessLogic/Io/NetFtpFileStorage.cs:98-105 | int.Parse of Int32.ToString gives back every 32-bit integer |
| Text.ParseRejectsOtherText | src/Kp2aBusinessLogic/Io/NetFtpFileStorage.cs:98 | a character that is neither a digit, nor white space, nor a sign makes int.Parse throw FormatException wherever it stands, unless it belongs to the final run of NUL characters |
| Text.TrailingNulParses | src/Kp2aBusinessLogic/Io/NetFtpFileStorage.cs:98 | int.Parse skips a final run of NUL characters: "7" followed by NUL is 7 |
| Text.DigitParses | src/Kp2aBusinessLogic/Io/NetFtpFileStorage.cs:98 | a single digit parses to its value |
| ConnectionSettings.ToString | src/Kp2aBusinessLogic/Io/NetFtpFileStorage.cs:103-106 | the encoded mode is non-empty and contains neither "/" nor ":", so it fits one path segment |
| ConnectionSettings.ColonFreeIsScheme | src/Kp2aBusinessLogic/Io/NetFtpFileStorage.cs:93 | for a scheme without ":", the first "://" of `scheme://...` is the one after the scheme |
| ConnectionSettings.SettingsSegment | src/Kp2aBusinessLogic/Io/NetFtpFileStorage.cs:90-101 | FromIoc parses exactly the segment between the first "://" and the next "/" |
| ConnectionSettings.SettingsRoundTrip | src/Kp2aBusinessLogic/Io/NetFtpFileStorage.cs:90-106 | decoding an encoded mode gives that mode back, whatever follows the segment |
| ConnectionSettings.CanonicalSegmentRoundTrip | src/Kp2aBusinessLogic/Io/NetFtpFileStorage.cs:90-106 | a segment of digits without a leading zero, within 32 bits, decodes to a mode whose encoding is that segment again |
| ConnectionSettings.LeadingZeroAccepted | src/Kp2aBusinessLogic/Io/NetFtpFileStorage.cs:90-106 | the segment "01" decodes to mode 1, which encodes as "1", so encoding does not undo decoding in general |
| Text.LeadingZeroParses | src/Kp2aBusinessLogic/Io/NetFtpFileStorage.cs:98 | int.Parse accepts a leading zero: "01" is 1 |
| ConnectionSettings.FromIocRejectsMalformed | src/Kp2aBusinessLogic/Io/NetFtpFileStorage.cs:95-98 | an empty settings segment, or one with a character other than a digit, white space or a sign before its final run of NUL characters, is a FormatException |
| ConnectionSettings.TrailingNulAccepted | src/Kp2aBusinessLogic/Io/NetFtpFileStorage.cs:90-98 | a settings segment "7" followed by NUL still decodes to mode 7 |
| ConnectionSettings.FromIocNeedsSlash | src/Kp2aBusinessLogic/Io/NetFtpFileStorage.cs:93-95 | with no "/" after the "://", Substring is asked for length -1 and throws ArgumentOutOfRangeException |
| ConnectionSettings.SettingsWithoutSeparator | src/Kp2aBusinessLogic/Io/NetFtpFileStorage.cs:93-95 | with no "://", decoding parses the segment that starts at index 2 |
| ConnectionSettings.FromIocWithoutSeparator | src/Kp2aBusinessLogic/Io/NetFtpFileStorage.cs:90-101 | a path without "://" is not rejected by decoding: "ab7/host/x" decodes to 7 |
| LocationPaths.IocPathToUriStrips | src/Kp2aBusinessLogic/Io/NetFtpFileStorage.cs:192-201 | stripping removes exactly the settings segment and its "/" and keeps scheme and rest |
| LocationPaths.IocPathToUriNeedsSeparator | src/Kp2aBusinessLogic/Io/NetFtpFileStorage.cs:195-196 | a path without "://" is rejected with ArgumentOutOfRangeException |
| LocationPaths.IocPathToUriNeedsSlash | src/Kp2aBusinessLogic/Io/NetFtpFileStorage.cs:197-198 | a path with no "/" after the "://" is rejected with ArgumentOutOfRangeException |
| LocationPaths.IocPathToUriOk | src/Kp2aBusinessLogic/Io/NetFtpFileStorage.cs:195-198 | an accepted path has a "://" and a "/" after it |
| LocationPaths.IocPathToUriShape | src/Kp2aBusinessLogic/Io/NetFtpFileStorage.cs:192-201 | every accepted path is `scheme://<settings>/<rest>`, strips to `scheme://<rest>` and decodes its settings segment |
| LocationPaths.IocPathToUriAppend | src/Kp2aBusinessLogic/Io/NetFtpFileStorage.cs:192-201 | text appended to an accepted path is appended to its stripped form, and the decoded settings do not change |
| LocationPaths.IocPathFromUriRebuilds | src/Kp2aBusinessLogic/Io/NetFtpFileStorage.cs:203-213 | rebuilding keeps the base's scheme, settings and host and appends the absolute path |
| LocationPaths.IocPathFromUriOk | src/Kp2aBusinessLogic/Io/NetFtpFileStorage.cs:205-211 | an accepted base has a "://", and after it a settings segment and a host segment each ended by "/" |
| LocationPaths.RebuiltLocationDecodes | src/Kp2aBusinessLogic/Io/NetFtpFileStorage.cs:203-213 | a rebuilt location decodes to the base's settings and strips to scheme, host and absolute path |
| LocationPaths.IocPathFromUriKeepsPrefix | src/Kp2aBusinessLogic/Io/NetFtpFileStorage.cs:203-213 | whenever rebuilding succeeds, the base is `scheme://settings/host/rest`, and the result keeps its settings and strips to the base's scheme and host followed by the absolute path |
| LocationPaths.IocPathFromUriAnyPath | src/Kp2aBusinessLogic/Io/NetFtpFileStorage.cs:203-213 | whether rebuilding succeeds depends on the base alone |
| LocationPaths.CreateFilePathJoins | src/Kp2aBusinessLogic/Io/NetFtpFileStorage.cs:418-423 | the joined path is the parent, exactly one "/" at the seam, then the name |
| LocationPaths.CreateFilePathSlashOnce | src/Kp2aBusinessLogic/Io/NetFtpFileStorage.cs:418-423 | joining an empty name only adds the missing "/", and doing it first changes nothing |
| LocationPaths.CreateFilePathKeepsLocation | src/Kp2aBusinessLogic/Io/NetFtpFileStorage.cs:418-423 | joining commutes with stripping the settings segment and keeps the decoded settings |
| ErrorTranslation.ConvertException | src/Kp2aBusinessLogic/Io/NetFtpFileStorage.cs:147-158 | it throws exactly for a "550" FtpCommandException, and then throws a FileNotFoundException with that message and that inner exception; otherwise it returns its argument |
| ErrorTranslation.Translate | src/Kp2aBusinessLogic/Io/NetFtpFileStorage.cs:140-143 | the exception a `catch (FtpCommandException) { throw ConvertException(ex); }` lets out is a FileNotFoundException exactly when the original was a "550" reply or already one, and otherwise is the original |
| ErrorTranslation.TranslateIdempotent | src/Kp2aBusinessLogic/Io/NetFtpFileStorage.cs:147-158 | a translated exception is never a "550" reply, so translating twice is translating once |
| RetryConnect.StartsSpaced | src/Kp2aBusinessLogic/Io/NetFtpFileStorage.cs:67-71 | attempts start at least one second apart |
| RetryConnect.RetriedEarly | src/Kp2aBusinessLogic/Io/NetFtpFileStorage.cs:63-71 | only the first 31 attempts can be retried within the 30-second budget |
| RetryConnect.LastAttempt | src/Kp2aBusinessLogic/Io/NetFtpFileStorage.cs:54-73 | the loop's last attempt is the first one that is not retried, and it is among the first 32 |
| RetryConnect.LastAttemptIsFirstStop | src/Kp2aBusinessLogic/Io/NetFtpFileStorage.cs:54-73 | the stopping attempt is unique |
| RetryConnect.RetriedWereRefused | src/Kp2aBusinessLogic/Io/NetFtpFileStorage.cs:61-66 | every retried attempt ended in a refused connection (10061) |
| RetryConnect.FirstOutcomeDecides | src/Kp2aBusinessLogic/Io/NetFtpFileStorage.cs:57-66 | a success or any other exception on the first attempt ends the loop with that outcome |
| RetryConnect.RefusalAfterBudget | src/Kp2aBusinessLogic/Io/NetFtpFileStorage.cs:63-65 | a refusal reaches the caller only after the 30-second budget is spent |
| RetryConnect.StartWithinBudget | src/Kp2aBusinessLogic/Io/NetFtpFileStorage.cs:63-71 | every attempt after the first starts at most one second after the budget ends |
| RetryConnect.FinishBound | src/Kp2aBusinessLogic/Io/NetFtpFileStorage.cs:49-74 | the loop ends at most budget + 1 s + the last attempt's own duration after it starts |
| RetryConnect.DoInRetryLoop | src/Kp2aBusinessLogic/Io/NetFtpFileStorage.cs:49-74 | the loop makes 1 to 32 attempts and returns or throws the outcome of the first attempt it does not retry. All earlier attempts were refusals. A first non-refusal means one attempt. A refusal is thrown only after the budget |
| RemoteFs.RemoteFileSystem.DeleteDirectory | src/Kp2aBusinessLogic/Io/NetFtpFileStorage.cs:133-134 | a recursive delete removes the directory and everything below it; a missing directory is a "550" reply |
| RemoteFs.RemoteFileSystem.DeleteFile | src/Kp2aBusinessLogic/Io/NetFtpFileStorage.cs:136 | one file is removed; a missing file is a "550" reply |
| RemoteFs.RemoteFileSystem.Rename | src/Kp2aBusinessLogic/Io/NetFtpFileStorage.cs:524-525 | the target gets the source's bytes and the source is gone; a missing source, or a target that names a directory, is a "550" reply and changes nothing |
| RemoteFs.RemoteFileSystem.CreateDirectory | src/Kp2aBusinessLogic/Io/NetFtpFileStorage.cs:276 | the directory is added, unless a file has the name ("550") |
| RemoteFs.RemoteFileSystem.OpenRead | src/Kp2aBusinessLogic/Io/NetFtpFileStorage.cs:232 | reading from offset 0 gives the whole file; a missing file is a "550" reply |
| RemoteFs.RemoteFileSystem.OpenWrite | src/Kp2aBusinessLogic/Io/NetFtpFileStorage.cs:454 | the file is created or truncated and a fresh open stream onto it is returned; a directory of that name is a "550" reply |
| RemoteFs.WriteStream.Write | src/Kp2aBusinessLogic/Io/NetFtpFileStorage.cs:495 | a write appends to the remote file, and a closed stream throws ObjectDisposedException |
| IoConnection.ConnectionInfo.CloneDeep | src/Kp2aBusinessLogic/Io/NetFtpFileStorage.cs:432 | the clone is a new object with the same path, credentials and save mode |
| NetFtpFileStorage.ChooseCredentials | src/Kp2aBusinessLogic/Io/NetFtpFileStorage.cs:164-167 | the connection's own credentials unless both are empty; the anonymous login exactly when both are empty or they already are anonymous/"" |
| NetFtpFileStorage.ChooseCredentialsStable | src/Kp2aBusinessLogic/Io/NetFtpFileStorage.cs:164-167 | choosing again from the chosen credentials changes nothing |
| NetFtpFileStorage.OpenSessionSpec | src/Kp2aBusinessLogic/Io/NetFtpFileStorage.cs:161-186 | a client opens exactly when stripping, decoding and connecting all succeed. It is addressed by the stripped location and uses the decoded mode. A malformed location fails with the error of the step that rejected it |
| NetFtpFileStorage.EncodedLocationOpens | src/Kp2aBusinessLogic/Io/NetFtpFileStorage.cs:161-186 | a location built from a scheme, an encoded mode and a rest always opens on a successful connect, with that mode and the stripped address |
| NetFtpFileStorage.GetClient | src/Kp2aBusinessLogic/Io/NetFtpFileStorage.cs:161-186 | the method, with its retry loop, opens exactly the client `SessionFor` specifies |
| NetFtpFileStorage.GetFilePath | src/Kp2aBusinessLogic/Io/NetFtpFileStorage.cs:430-437 | a fresh clone whose path is the folder's path joined with the name; the folder is unchanged |
| NetFtpFileStorage.Delete | src/Kp2aBusinessLogic/Io/NetFtpFileStorage.cs:126-145 | a directory is deleted with everything below it and anything else as one file. A missing file is a FileNotFoundException wrapping the "550" reply. A client that does not open changes nothing |
| NetFtpFileStorage.OpenFileForRead | src/Kp2aBusinessLogic/Io/NetFtpFileStorage.cs:226-239 | gives the whole content of the file at the stripped location, or a FileNotFoundException exactly when there is no such file |
| NetFtpFileStorage.OpenWrite | src/Kp2aBusinessLogic/Io/NetFtpFileStorage.cs:448-462 | gives a fresh open stream onto the truncated file at the stripped location, or a FileNotFoundException when a directory has that name |
| NetFtpFileStorage.CreateDirectory | src/Kp2aBusinessLogic/Io/NetFtpFileStorage.cs:270-283 | adds the directory at the child location joined onto the stripped address, unless a file has that name |
| NetFtpFileStorage.Kept | src/Kp2aBusinessLogic/Io/NetFtpFileStorage.cs:296-322 | only file and directory entries are described |
| NetFtpFileStorage.DescribeAllFailureSticks | src/Kp2aBusinessLogic/Io/NetFtpFileStorage.cs:292-323 | a failure on a prefix of the listing is the failure of the whole listing |
| NetFtpFileStorage.DescribeAllKeepsOrder | src/Kp2aBusinessLogic/Io/NetFtpFileStorage.cs:296-322 | a successful listing describes exactly the file and directory entries, in order. Each is readable, writable and named after the entry. It is a directory exactly for directory entries and sized exactly for file entries. It is located by the path rebuilt from the base |
| NetFtpFileStorage.DescribeAllFails | src/Kp2aBusinessLogic/Io/NetFtpFileStorage.cs:296-322 | a listing fails only if it has a file or directory entry and rebuilding that entry's location from the base fails |
| NetFtpFileStorage.ListedPathKeepsLocation | src/Kp2aBusinessLogic/Io/NetFtpFileStorage.cs:306 | every described path decodes to the base's settings and strips to the base's scheme and host followed by the entry's absolute path |
| NetFtpFileStorage.ListContents | src/Kp2aBusinessLogic/Io/NetFtpFileStorage.cs:285-331 | the loop over the listing gives exactly the translated `Listing` of the location |
| WriteTransactions.TempPathAddress | src/Kp2aBusinessLogic/Io/NetFtpFileStorage.cs:476-477 | the temporary location strips to the target's address with the same ending, keeps the settings and is never the target |
| WriteTransactions.CommitReplacesTarget | src/Kp2aBusinessLogic/Io/NetFtpFileStorage.cs:515-525 | the commit succeeds exactly when the temporary file exists and no directory has the target's name; then the target holds exactly the temporary file's bytes, the temporary file is gone and every other file is untouched. A missing temporary file, or a directory by the target's name, is a "550" reply and leaves no target file |
| WriteTransactions.TransactedWrite.constructor | src/Kp2aBusinessLogic/Io/NetFtpFileStorage.cs:473-480 | the temporary location is a deep clone of the target whose path gets "." + six hex characters + ".tmp" appended |
| WriteTransactions.TransactedWrite.OpenFile | src/Kp2aBusinessLogic/Io/NetFtpFileStorage.cs:489-502 | the client opened for the target is kept, and a fresh stream onto the truncated temporary file is returned |
| WriteTransactions.TransactedWrite.CommitWrite | src/Kp2aBusinessLogic/Io/NetFtpFileStorage.cs:504-531 | the stream is closed, then the server files become `CommitEffect`: the target is replaced by the temporary file unless a directory has its name. Without a stream it throws NullReferenceException |
| WriteTransactions.TransactedWrite.Dispose | src/Kp2aBusinessLogic/Io/NetFtpFileStorage.cs:482-487 | the stream is closed and dropped, and the server is not touched |
| WriteTransactions.UntransactedWrite.constructor | src/Kp2aBusinessLogic/Io/NetFtpFileStorage.cs:541-545 | the transaction holds the target location and no stream |
| WriteTransactions.UntransactedWrite.OpenFile | src/Kp2aBusinessLogic/Io/NetFtpFileStorage.cs:554-558 | the storage's OpenWrite on the target itself: a fresh open stream on this server onto the truncated target, or the translated error |
| WriteTransactions.UntransactedWrite.CommitWrite | src/Kp2aBusinessLogic/Io/NetFtpFileStorage.cs:560-563 | only closes the stream; without a stream it throws NullReferenceException |
| WriteTransactions.UntransactedWrite.Dispose | src/Kp2aBusinessLogic/Io/NetFtpFileStorage.cs:547-552 | the stream is closed and dropped |
| WriteTransactions.OpenWriteTransaction | src/Kp2aBusinessLogic/Io/NetFtpFileStorage.cs:241-256 | a transacted write exactly when file transactions are asked for, on the given location; nothing is sent to the server |
| WriteTransactions.WriteCommitRead | src/Kp2aBusinessLogic/Io/NetFtpFileStorage.cs:489-531 | a transacted write of some bytes, once committed, makes exactly those bytes readable at the location, when no directory has the location's or the temporary file's name |
| WriteTransactions.WriteUncommitted | src/Kp2aBusinessLogic/Io/NetFtpFileStorage.cs:554-558 | bytes written through an untransacted write are readable at the target at once, before any commit |
| WriteTransactions.CommitRoundTrip | src/Kp2aBusinessLogic/Io/NetFtpFileStorage.cs:473-531 | the same holds for every location `scheme://<mode>/<rest>` on a server without entries |
| WriteTransactions.ScenarioLocation | src/Kp2aBusinessLogic/Io/NetFtpFileStorage.cs:192-201 | "ftps://1/example.com/docs/notes.kdbx" decodes to mode 1 and strips to "ftps://example.com/docs/notes.kdbx" |
| WriteTransactions.CommitScenario | src/Kp2aBusinessLogic/Io/NetFtpFileStorage.cs:473-531 | the bytes 1, 2, 3 written to that example location and committed are read back |

## Left out

- The `Uri` class: host, port and `PathAndQuery` are not taken apart, and `UriFormatException` is not modelled. The server is addressed by the string handed to `new Uri`, and an entry's `AbsolutePath` is a parameter of the listing.
- The FTP client library: `CloneConnection`, the certificate-acceptance callback, the data type and list options, and the connection itself. The server in `RemoteFs` is an abstraction of the commands that client sends, not a model of their wire behaviour.
- Disposing clients (`using`), stream ownership and the data connection, and concurrency between clients.
- Time: the clock is an integer count of milliseconds, not `DateTime` with fractional seconds. `Thread.Sleep` advances it by exactly the time asked for. Each connect attempt's duration is scripted.
- The random `PwUuid` behind the temporary name: its first six hex characters are a parameter.
- Tracing and Android logging (`traceStream`, `Log.Debug`), and the setup-activity hooks (`StartSelectFile`, `PrepareFileUsage`, `OnCreate`, `OnResume`, `OnStart`, `OnActivityResult`, `RequiresSetup`). They are user interface plumbing with no storage logic.
- Constant answers: `CheckForFileChangeFast`, `GetCurrentFileVersionFast`, `IsPermanentLocation`, `IsReadOnly`, `SupportedProtocols`, and `RequiresCredentials` (a comparison of the save mode).
- Calls into other classes that are not part of this model: `GetFilenameWithoutPathAndExt` and `GetParentPath` (`UrlUtil`, `IoUtil`), `GetDisplayName` (`Uri.ToString`) and `GetFileDescription`, which reads a file's metadata through client calls (`GetModifiedTime`, `GetFileSize`) the server model does not offer and through `UrlUtil.GetFileName`.
- The server-side listing: `GetListing`'s reply is a parameter of `ListContents`.
- Text.EndsWith: the comparison is ordinal. .NET's default `EndsWith(string)` is culture-sensitive, which only matters for characters that culture rules treat specially.
- Server names are compared as exact strings, so `ftp://host/d` and `ftp://host/d/` are two different entries. `Delete` on the second form of a directory's name takes the file branch, and the model does not say what a real server makes of such variants.
- WriteTransactions.TransactedWrite.Valid: it requires the temporary location to stay the target's path with the suffix appended. A caller that changes `ioc.path` during a transaction, which the connection info's sharing with the caller permits, is excluded rather than modelled.
- Text.Int32ToString: the minus sign is always "-". .NET takes `NegativeSign` from the current culture, both in `ToString` and in `Text.ParseInt32`; the model fixes it to the invariant culture's "-".
- ConnectionSettings.FromIoc: the enum cast is unchecked, so the decoded mode is any 32-bit integer and is not checked against the named encryption modes.
