/**
 * The errors of the raw-SQL data layer (internal/data). `SqlError` is what the
 * database driver reports; `Error` is what the data layer hands to handlers.
 */
module DataErrors {

  /** A driver error: no row for a single-row query, a syntax error in the statement, or any other `pq:` message. */
  datatype SqlError = NoRows | SyntaxError | Pq(message: string)

  /** ErrRecordNotFound, ErrEditConflict, ErrDuplicateName, or a driver error passed through unchanged. */
  datatype Error = RecordNotFound | EditConflict | DuplicateName | Sql(cause: SqlError)

  /** The single-row read mapping shared by the Get-style queries: no row becomes ErrRecordNotFound, everything else passes through. */
  function NoRowsToNotFound(e: SqlError): (r: Error)
    ensures r == RecordNotFound <==> e == NoRows
    ensures e != NoRows ==> r == Sql(e)
  {
    if e == NoRows then RecordNotFound else Sql(e)
  }
}
