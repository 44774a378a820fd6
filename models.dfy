/** The `User` record of the relational user table (src/models/user.js), the
    profile projection the handlers answer with, and the failures that the
    persistence layer raises. */
module Models {
  import opened Common

  /** One row of the user table. `password` holds the bcrypt digest, never the
      plaintext; `gender` is the only nullable column; `isVerified` defaults to
      false; `createdAt`/`updatedAt` are the timestamps the ORM maintains. */
  datatype User = User(
    id: int,
    firstName: string,
    lastName: string,
    email: string,
    password: string,
    gender: Option<string>,
    isVerified: bool,
    createdAt: int,
    updatedAt: int)

  /** The public view of a user: every column except `password`, plus the
      `token` that a handler may have attached to the fetched instance. */
  datatype UserData = UserData(
    id: int,
    token: Option<string>,
    firstName: string,
    lastName: string,
    email: string,
    gender: Option<string>,
    isVerified: bool,
    createdAt: int,
    updatedAt: int)

  /** Exceptions the store raises, and the TypeError a handler raises when it
      reads a field of a record the store did not find. Their message texts
      come from the ORM and the runtime and are not modelled. */
  datatype Fault =
    | NotFound            // the store's own 'Not Found' error
    | NullRecord          // a property read on the `null` a lookup returned
    | UniqueViolation     // the unique constraint on `email`
    | NotNullViolation    // a required column left undefined
    | StringViolation     // a non-string value for a string column
}
