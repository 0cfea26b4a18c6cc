/** The worker's front door: which handler a request reaches, decided on its path, its
    method and, for a webhook post, the already-parsed fields of the notification. */
module Worker {
  import opened Registry

  /** The fields of a parsed webhook notification that the routing looks at. A field
      missing from the message is the empty string. */
  datatype Notification = Notification(msgType: string, event: string, eventKey: string, fromUserName: string)

  /** A request: its path, its method (`verb`), the `echostr` and `ticket` query parameters
      (None when absent) and its parsed body, consulted only for a webhook post. The
      body is None when it has no `<xml>` root element (an empty body, text that is not
      XML, another root): the parser then yields no `xml` object. */
  datatype Request = Request(path: string, verb: string, echostr: Option<string>, ticket: Option<string>, xml: Option<Notification>)

  datatype Route =
    | Echo(body: Option<string>)            // webhook validation: the echostr is sent back
    | ForwardLogin(ticket: string, uid: string)  // a scan event, delivered to the registry
    | Acknowledge                           // any other webhook post: empty body
    | Thrown                                // a webhook post without an `<xml>` root: reading its fields throws
    | OpenStream                            // a new push stream
    | QrCode(content: string)               // the image of a ticket
    | MissingTicket                         // an image request without a ticket
    | LoginPage
    | NotFound

  /** A scan of a login code: the only notification forwarded to the registry. The
      ticket must be non-empty, as a JavaScript empty string is falsy. */
  predicate IsScan(n: Notification) {
    n.msgType == "event" && n.event == "SCAN" && n.eventKey != ""
  }

  /** A ticket query parameter that is present and non-empty. */
  predicate HasTicket(q: Option<string>) {
    q.Some? && q.value != ""
  }

  /** The status of the response. An exception escaping the handler is answered by the
      runtime with a server error. */
  function StatusCode(r: Route): int {
    match r
    case MissingTicket => 400
    case NotFound => 404
    case Thrown => 500
    case _ => 200
  }

  /** The routing of the worker's fetch handler, stated as a decision table: each
      outcome together with exactly the requests that lead to it. A webhook request
      with a method other than GET or POST falls through every branch to NotFound. */
  function Dispatch(req: Request): (r: Route)
    ensures r.Echo? <==> req.path == "/" && req.verb == "GET"
    ensures r.Echo? ==> r.body == req.echostr
    ensures r.ForwardLogin? <==> req.path == "/" && req.verb == "POST" && req.xml.Some? && IsScan(req.xml.value)
    ensures r.ForwardLogin? ==> r.ticket == req.xml.value.eventKey && r.uid == req.xml.value.fromUserName
    ensures r == Acknowledge <==> req.path == "/" && req.verb == "POST" && req.xml.Some? && !IsScan(req.xml.value)
    ensures r == Thrown <==> req.path == "/" && req.verb == "POST" && req.xml.None?
    ensures r == OpenStream <==> req.path == "/sse"
    ensures r.QrCode? <==> req.path == "/qrcode" && HasTicket(req.ticket)
    ensures r.QrCode? ==> req.ticket == Some(r.content)
    ensures StatusCode(r) == 400 <==> req.path == "/qrcode" && !HasTicket(req.ticket)
    ensures r == LoginPage <==> req.path == "/login"
    ensures r == NotFound <==>
      (req.path !in {"/", "/sse", "/qrcode", "/login"} ||
       (req.path == "/" && req.verb != "GET" && req.verb != "POST"))
  {
    if req.path == "/" && req.verb == "GET" then Echo(req.echostr)
    else if req.path == "/" && req.verb == "POST" then
      if req.xml.None? then Thrown
      else if IsScan(req.xml.value) then ForwardLogin(req.xml.value.eventKey, req.xml.value.fromUserName)
      else Acknowledge
    else if req.path == "/sse" then OpenStream
    else if req.path == "/qrcode" then
      if !HasTicket(req.ticket) then MissingTicket else QrCode(req.ticket.value)
    else if req.path == "/login" then LoginPage
    else NotFound
  }

  /** What a webhook post sends back: an empty body, a reply carrying a text, or
      nothing because the handler threw. */
  datatype Reply = EmptyBody | Content(text: string) | Failed

  /** A webhook post reaching the registry: a scan is published and its reply string
      becomes the content of the reply; any other notification is acknowledged with an
      empty body; a body without an `<xml>` root makes the handler throw. The registry
      changes only for a scan of a live ticket. */
  function HandleWebhook(s: State, xml: Option<Notification>): (r: (State, Reply))
    requires Valid(s)
    ensures Valid(r.0)
    ensures r.1 == Failed <==> xml.None?
    ensures r.1 == EmptyBody <==> xml.Some? && !IsScan(xml.value)
    ensures r.1.Content? <==> xml.Some? && IsScan(xml.value)
    ensures r.1.Content? ==> r.1.text == (if xml.value.eventKey in s.clients then SuccessReply else FailureReply)
    ensures r.0 != s ==> xml.Some? && IsScan(xml.value) && xml.value.eventKey in s.clients
    ensures xml.Some? && IsScan(xml.value) ==> r.0 == Publish(s, xml.value.eventKey, xml.value.fromUserName).0
  {
    match Dispatch(Request("/", "POST", None, None, xml))
    case ForwardLogin(ticket, uid) =>
      var (s', reply) := Publish(s, ticket, uid);
      (s', Content(reply))
    case Thrown => (s, Failed)
    case _ => (s, EmptyBody)
  }
}
