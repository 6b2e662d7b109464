/** internal/data/models.go and the error values of the data layer. */
module Models {

  /** What a database/sql call can fail with: sql.ErrNoRows, or a driver
      error that carries its message. */
  datatype DbError = ErrNoRows | DriverError(message: string)

  /** The errors the data layer returns: its own sentinels (ErrRecordNotFound,
      ErrEditConflict, ErrDuplicateEmail) or a lower-level error passed through. */
  datatype AppError =
    | RecordNotFound
    | EditConflict
    | DuplicateEmail
    | Db(cause: DbError)
    | Failed(message: string)

  /** The text of the unique-constraint violation on users.email. */
  const DuplicateEmailMessage: string := "pq: duplicate key value violates unique constraint \"users_email_key\""

  /** The switch of every single-row lookup: a missing row becomes
      ErrRecordNotFound, every other error passes through. */
  function LookupError(e: DbError): (r: AppError)
    ensures r == RecordNotFound <==> e == ErrNoRows
    ensures r != RecordNotFound ==> r == Db(e)
  {
    if e == ErrNoRows then RecordNotFound else Db(e)
  }
}
