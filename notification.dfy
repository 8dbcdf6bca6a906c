/** The send-notification route: validate the request body, mail the donor,
    then mark the donation unavailable at the backend. The two external calls
    are not performed here: whether each one raises is an input, and the
    model returns the calls it attempted, in order, beside the response. */
module Notification {
  import Backend

  /** A member of the JSON request body: absent, JSON null, or a string. */
  datatype Field = Missing | Null | Str(s: string)

  datatype Request = Request(email: Field, id: Field, description: Field)

  /** Python truthiness of a body member that is present: null and "" are false. */
  predicate Truthy(f: Field)
  {
    f.Str? && f.s != ""
  }

  /** What Python's f-string prints for a present member. */
  function Text(f: Field): (t: string)
    requires f != Missing
    ensures f.Str? ==> t == f.s
    ensures f.Null? ==> t == "None"
  {
    if f.Null? then "None" else f.s
  }

  /** The notification mail; subject, sender and the fixed wording of the body
      are constants of the route, so only what varies is recorded. */
  datatype Mail = Mail(recipient: string, description: string)

  /** An external call the route attempts. */
  datatype Call = SendMail(mail: Mail) | MarkUnavailable(url: string)

  /** The body of the response, one per way out of the route.
      InternalError is the framework's answer to an uncaught KeyError. */
  datatype Reply = InsufficientInfo | DeliveryFailed | UpdateFailed | Sent | InternalError

  datatype Response = Response(reply: Reply, status: int)

  /** The response together with the external calls attempted, in order. */
  datatype Dispatch = Dispatch(response: Response, calls: seq<Call>)

  /** A body from which the route goes on to contact the mail relay: email
      and id are truthy and description is present. */
  predicate Proceeds(req: Request)
  {
    Truthy(req.email) && Truthy(req.id) && req.description != Missing
  }

  /** The calls of a fully successful run, in the order the route makes them:
      first the mail to the donor, then the availability update. */
  function Plan(req: Request): (p: seq<Call>)
    requires Proceeds(req)
    ensures |p| == 2 && p[0].SendMail? && p[1].MarkUnavailable?
    ensures p[0].mail == Mail(req.email.s, Text(req.description))
    ensures p[1].url == Backend.AvailabilityUrl(req.id.s)
  {
    [SendMail(Mail(req.email.s, Text(req.description))), MarkUnavailable(Backend.AvailabilityUrl(req.id.s))]
  }

  /** The route. mailRaises and putRaises say whether mail.send and
      requests.put raise; a PUT that returns, whatever its HTTP status, does
      not raise. */
  function SendNotification(req: Request, mailRaises: bool, putRaises: bool): (d: Dispatch)
    // The calls made are always a prefix of the plan: the availability update
    // is never attempted before, or without, the mail.
    ensures d.calls != [] ==> Proceeds(req) && d.calls <= Plan(req)
    // Reading a missing email or id fails before anything is checked or sent.
    ensures req.email.Missing? || req.id.Missing? ==> d == Dispatch(Response(InternalError, 500), [])
    // A null or empty email or id: the insufficient-information error, with
    // no status of its own, so the framework's 200; no call is attempted.
    ensures !req.email.Missing? && !req.id.Missing? && (!Truthy(req.email) || !Truthy(req.id)) ==>
      d == Dispatch(Response(InsufficientInfo, 200), [])
    // The description is read only after validation, and before the mail.
    ensures Truthy(req.email) && Truthy(req.id) && req.description.Missing? ==>
      d == Dispatch(Response(InternalError, 500), [])
    // The mail relay is contacted exactly when the body is complete.
    ensures |d.calls| >= 1 <==> Proceeds(req)
    // The availability update is attempted exactly when the mail went out.
    ensures |d.calls| == 2 <==> Proceeds(req) && !mailRaises
    // A failing mail: 400, and the backend is left alone.
    ensures d.response.status == 400 <==> Proceeds(req) && mailRaises
    ensures d.response.reply == DeliveryFailed <==> Proceeds(req) && mailRaises
    // A failing update after a delivered mail: 500; the mail is not taken back.
    ensures d.response.reply == UpdateFailed <==> Proceeds(req) && !mailRaises && putRaises
    ensures d.response.reply == UpdateFailed ==> d.response.status == 500 && d.calls == Plan(req)
    // Success: both calls made, 200.
    ensures d.response.reply == Sent <==> Proceeds(req) && !mailRaises && !putRaises
    ensures d.response.reply == Sent ==> d.response.status == 200 && d.calls == Plan(req)
  {
    if req.email.Missing? || req.id.Missing? then
      Dispatch(Response(InternalError, 500), [])
    else if !Truthy(req.email) || !Truthy(req.id) then
      Dispatch(Response(InsufficientInfo, 200), [])
    else if req.description.Missing? then
      Dispatch(Response(InternalError, 500), [])
    else
      var plan := Plan(req);
      if mailRaises then
        Dispatch(Response(DeliveryFailed, 400), plan[..1])
      else if putRaises then
        Dispatch(Response(UpdateFailed, 500), plan)
      else
        Dispatch(Response(Sent, 200), plan)
  }

  /** Two requests whose updates were attempted used the same address string
      only if they carried the same id. */
  lemma UpdatesTargetDistinctDonations(r1: Request, r2: Request, p1: bool, p2: bool)
    requires |SendNotification(r1, false, p1).calls| == 2
    requires |SendNotification(r2, false, p2).calls| == 2
    requires SendNotification(r1, false, p1).calls[1] == SendNotification(r2, false, p2).calls[1]
    ensures r1.id == r2.id
  {
  }
}
