/** What the drivers share (backend/internal/driver). */
module Driver {

  /** Connection details as the instance's credentials give them. */
  datatype Details = Details(host: string, port: string, username: string, password: string, database: string, uri: string)

  /** What a driver makes of them. */
  datatype Connection = Connection(host: string, port: nat, database: string, username: string, password: string, uri: string)

  datatype Rejection = InvalidDatabase | UnsupportedConnection | InvalidCredentials | NoDatabase

  datatype Resolution = Resolved(connection: Connection) | Rejected(reason: Rejection)
}
