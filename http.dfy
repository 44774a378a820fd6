/** What a handler can do to the HTTP response: the status and JSON body it
    sends (if any), the `token` cookie it sets or clears, and the mail it asks
    the gateway to deliver. */
module Http {
  import opened Common
  import opened Models
  import opened Mailer

  /** The `data` member of a success body. */
  datatype Payload =
    | Text(text: string)
    | Profile(user: UserData)
    | Registered(user: UserData, emailSent: MailResult)
    | Notice(code: int, message: string)

  /** The `error.message` member of a failure body: a literal text, or the
      message of a thrown fault, whose text the model does not fix. */
  datatype Message = Literal(text: string) | Thrown(fault: Fault)

  /** `{ status: 'success', data }` or `{ status: 'fail', error: { message } }`. */
  datatype Body = Success(data: Payload) | Fail(message: Message)

  datatype Response = Response(status: int, body: Body)

  datatype CookieOp =
    | KeepCookie
    | SetToken(value: string, maxAge: int, httpOnly: bool)
    | ClearToken(httpOnly: bool)

  /** Everything one handler invocation emits. `response` is `None` when the
      handler returns without answering. */
  datatype Reply = Reply(response: Option<Response>, cookie: CookieOp, mail: Option<Mail>)

  /** The `status` member of the JSON body. */
  function StatusField(b: Body): string
  {
    if b.Success? then "success" else "fail"
  }
}
