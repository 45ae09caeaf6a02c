/** The HTTP surface shared by the API routes: request methods and the
    response a handler sends (status, `Allow` header, JSON body). */
module Http {
  import opened Json
  import Users

  datatype Method = GET | POST | PUT | DELETE | PATCH | OtherMethod(name: string)

  /** What a handler writes with `.json(...)` or `.end(...)`. */
  datatype Body =
    | Message(text: string)          // `{ message: text }`
    | Text(text: string)             // a bare JSON string
    | Plain(text: string)            // the text given to `.end`
    | Value(value: Option<Json>)     // a JSON value passed through; `None` is `undefined`
    | Record(user: Users.UserRecord) // a user record
    | NoRecord                       // the literal `false`
    | LoginSuccess(userData: Users.UserRecord) // `{ message: 'Success', userData }`

  datatype Response =
    | Reply(status: int, allow: seq<string>, body: Body)
    | Uncaught // an exception escaped the handler; the framework answers it

  function Respond(status: int, body: Body): Response
  {
    Reply(status, [], body)
  }

  function MethodText(m: Method): string
  {
    match m
    case GET => "GET"
    case POST => "POST"
    case PUT => "PUT"
    case DELETE => "DELETE"
    case PATCH => "PATCH"
    case OtherMethod(name) => name
  }

  /** `response.setHeader('Allow', allowed); response.status(405).end(...)`. */
  function NotAllowed(m: Method, allowed: seq<string>): (r: Response)
    ensures r.Reply? && r.status == 405 && r.allow == allowed
  {
    Reply(405, allowed, Plain("Method " + MethodText(m) + " Not Allowed"))
  }

  const Unauthorized := Respond(403, Message("Unauthorized"))
}
