/** The errors the server hands back: a gRPC status with a code and a message,
    or a plain Go error passed through unwrapped. */
module Status {

  /** The gRPC status codes the core uses. */
  datatype Code = InvalidArgument | NotFound | Internal | Unimplemented | OutOfRange

  datatype Error =
    | Status(code: Code, message: string)
    | Raw(message: string)

  /** Messages shared by the adaptors and the request transaction
      (cmd/server/adaptors.go and cmd/server/transaction.go). */
  const ErrFatal := "Fatal I/O error"
  const ErrDB := "Database error"
  const ErrNoArts := "No articles in order"
  const ErrJSONEmpty := "JSON result empty"
  const ErrJSONAssert := "JSON assertion error"

  /** The text of an error a database driver reports; the model does not
      distinguish driver messages. */
  const DriverError := "driver error"
}
