/** Values shared by every handler: optional values, form input, responses and
    the error bodies declared at the top of routes/routes.go. */
module Http {

  datatype Option<T> = None | Some(value: T)

  /** An unsigned 8-bit value (Go's byte). */
  type byte = b: int | 0 <= b < 256

  /** The submitted form fields; a field that was not sent reads as "". */
  type Form = map<string, string>

  function FormValue(form: Form, key: string): string
  {
    if key in form then form[key] else ""
  }

  /** The JSON or text body a handler sends. */
  datatype Body =
    | Error(error: string)       // {"error": ...}
    | Message(message: string)   // {"message": ...}
    | Jwt(jwt: string)           // {"jwt": ...}
    | Text(text: string)         // SendString

  /** What a handler answers. Panic stands for a failed Go type assertion:
      the handler never returns normally and nothing after it runs. */
  datatype Response = Respond(status: int, body: Body) | Panic

  /** A middleware either hands the request on (c.Next()) or answers it. */
  datatype Step = Next | Stop(response: Response)

  const STATUS_OK := 200
  const STATUS_CREATED := 201
  const STATUS_BAD_REQUEST := 400
  const STATUS_UNAUTHORIZED := 401
  const STATUS_INTERNAL_SERVER_ERROR := 500

  // The package-level error bodies.
  const UNKNOWN_ERROR := Error("some unknown error occured")
  const UNDEFINED_PARAM_ERROR := Error("some params are undefined")
  const UNAUTHORIZED_ERROR := Error("unauthorized")
  const INVALID_ID := Error("invalid id")
  const INVALID_DESTINATION_ID := Error("invalid destination id")
  const INVALID_EMAIL_PASS := Error("invalid email or password")
}
