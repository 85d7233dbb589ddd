/** The part of KeePassLib's IOConnectionInfo that the FTP storage reads and
    copies: a location path, the credentials and how they are kept. */
module IoConnection {

  datatype CredSaveMode = NoSave | UserNameOnly | SaveCred

  class ConnectionInfo {
    var path: string
    var userName: string
    var password: string
    var credSaveMode: CredSaveMode

    constructor (path: string, userName: string, password: string, credSaveMode: CredSaveMode)
      ensures this.path == path && this.userName == userName
      ensures this.password == password && this.credSaveMode == credSaveMode
    {
      this.path := path;
      this.userName := userName;
      this.password := password;
      this.credSaveMode := credSaveMode;
    }

    /** CloneDeep: a new object with the same field values; this one is untouched. */
    method CloneDeep() returns (c: ConnectionInfo)
      ensures fresh(c)
      ensures c.path == path && c.userName == userName
      ensures c.password == password && c.credSaveMode == credSaveMode
    {
      c := new ConnectionInfo(path, userName, password, credSaveMode);
    }
  }
}
