/** What a handler does with the HTTP exchange: the cookies it sets, the JSON
    it answers with, the errors it passes on, and the calls it makes to the
    mail sender and the media store. */
module Http {
  import opened Js
  import opened Errors
  import opened Tokens
  import opened UserModel
  import opened Documents

  /** The options `res.cookie` is given. `expires` is a timestamp in
      milliseconds, when one is given; a sameSite of "" means none was given. */
  datatype CookieOptions = CookieOptions(expires: Option<Num>, maxAge: Num, httpOnly: bool,
                                         sameSite: string, secure: bool)

  /** A cookie value: the empty string a logout writes, or a signed token. */
  datatype CookieValue = Blank | Signed(token: Token)

  datatype Cookie = Cookie(value: CookieValue, options: CookieOptions)

  const AccessCookie := "accessToken"
  const RefreshCookie := "refreshToken"

  /** The token a request carries in cookie `name`; an absent cookie and the
      empty string a logout left are both falsy. */
  function TokenIn(jar: map<string, Cookie>, name: string): (t: Option<Token>)
    ensures t.Some? <==> name in jar && jar[name].value.Signed?
    ensures t.Some? ==> t.value == jar[name].value.token
  {
    if name in jar && jar[name].value.Signed? then Some(jar[name].value.token) else None
  }

  /** The payload of a `{ success: true, ... }` answer. */
  datatype Body =
    | Message(message: string)
    | Activation(message: string, activationToken: Ticket)
    | Session(user: User, accessToken: Token)
    | Refreshed(accessToken: Token)
    | Profile(user: User)
    | LayoutFound(layout: Option<Layout>)
    | OrderPlaced(order: Order)

  /** How a handler or middleware finishes: it answers with a status and a
      body, passes an error to `next(err)`, calls `next()`, or does neither,
      leaving the request without an answer. */
  datatype Reply = Sent(status: int, body: Body) | Forwarded(err: Err) | Proceed | Stalled

  /** What a handler asks the mail sender to deliver. */
  datatype MailData =
    | ActivationMail(userName: string, activationCode: string)
    | OrderMail(orderId: string, courseName: string, price: int)

  datatype Mail = Mail(to: string, subject: string, template: string, data: MailData)

  /** Whether the mail sender accepts a message, or what it fails with. */
  datatype MailOutcome = Delivered | MailFailed(message: string)

  /** A call to the media store: upload a file into a folder, or destroy a
      stored file by its public id. */
  datatype MediaCall = Upload(source: string, folder: string) | Destroy(publicId: string)

  /** What an upload answers: the new file's public id and secure url, or the
      failure's message. */
  datatype UploadOutcome = Uploaded(publicId: string, url: string) | UploadFailed(message: string)
}
