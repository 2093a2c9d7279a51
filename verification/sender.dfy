/** The sender: guards a request against the kind's data and the validator
    table, lower-cases the recipient, renders the kind's template and hands
    the message to delivery. Rendering and delivery are abstract, fallible
    functions. */
module Sender {
  import opened Wrappers
  import opened Text
  import opened Kinds
  import opened Payloads

  /** A mail as built for delivery: three headers and an HTML body. */
  datatype Message = Message(from: string, to: string, subject: string, contentType: string, body: string)

  /** Template execution: the kind's parsed template (None when none was
      loaded) applied to the payload, giving the text or an error. */
  type Renderer = (Option<string>, Payload) -> Result<string, string>

  /** Delivery over the open SMTP connection: None when the mail was
      accepted, otherwise the error. */
  type Deliverer = Message -> Option<string>

  /** The configured account and the two effects the sender uses. */
  datatype Mailer = Mailer(username: string, render: Renderer, deliver: Deliverer)

  /** What one call did: its error, whether it rendered, and the message it
      handed to delivery, if it got that far. */
  datatype Dispatch = Dispatch(err: Option<SendError>, rendered: bool, sent: Option<Message>)

  /** `generateEmail`: render, then set From, To, Subject and the HTML body. */
  function GenerateEmail(mailer: Mailer, to: string, data: EmailData, payload: Payload): (r: Result<Message, string>)
    ensures r.Err? <==> mailer.render(data.template, payload).Err?
    ensures r.Err? ==> r.error == mailer.render(data.template, payload).error
    ensures r.Ok? ==>
      && r.value.from == mailer.username && r.value.to == to && r.value.subject == data.subject
      && r.value.contentType == "text/html" && r.value.body == mailer.render(data.template, payload).value
  {
    match mailer.render(data.template, payload)
    case Err(e) => Err(e)
    case Ok(content) => Ok(Message(mailer.username, to, data.subject, "text/html", content))
  }

  /** `SendEmail`: enabled, registered, valid payload, in that order; then
      lower-case the recipient, build the message and deliver it. */
  function SendEmail(mailer: Mailer, kind: Kind, data: EmailData, target: string, payload: Payload): (d: Dispatch)
    ensures !data.enable ==> d == Dispatch(Some(ErrEmailNotEnabled), false, None)
    ensures data.enable && kind in Validators && !Validators[kind](payload) ==>
      d == Dispatch(Some(ErrEmailDataInvalid), false, None)
    ensures d.rendered <==> data.enable && kind in Validators && Validators[kind](payload)
    ensures d.sent.Some? ==> d.rendered && GenerateEmail(mailer, ToLower(target), data, payload) == Ok(d.sent.value)
    ensures d.rendered && mailer.render(data.template, payload).Err? ==>
      d == Dispatch(Some(RenderError(mailer.render(data.template, payload).error)), true, None)
    ensures d.rendered ==> (d.sent.Some? <==> mailer.render(data.template, payload).Ok?)
    ensures d.sent.Some? ==> d.err == (match mailer.deliver(d.sent.value)
                                      case None => None
                                      case Some(e) => Some(DeliveryError(e)))
    ensures d.err == None <==> d.sent.Some? && mailer.deliver(d.sent.value) == None
  {
    if !data.enable then Dispatch(Some(ErrEmailNotEnabled), false, None)
    else if kind !in Validators then Dispatch(Some(ErrEmailNotRegistered), false, None)
    else if !Validators[kind](payload) then Dispatch(Some(ErrEmailDataInvalid), false, None)
    else
      var to := ToLower(target);
      match GenerateEmail(mailer, to, data, payload)
      case Err(e) => Dispatch(Some(RenderError(e)), true, None)
      case Ok(m) =>
        match mailer.deliver(m)
        case Some(e) => Dispatch(Some(DeliveryError(e)), true, Some(m))
        case None => Dispatch(None, true, Some(m))
  }

  /** Every kind is registered, so the "not registered" error never occurs. */
  lemma NeverUnregistered(mailer: Mailer, kind: Kind, data: EmailData, target: string, payload: Payload)
    ensures SendEmail(mailer, kind, data, target, payload).err != Some(ErrEmailNotRegistered)
  {
    ValidatorAcceptsOwnType(kind, payload);
  }

  /** A disabled kind is refused whatever the payload, before validation,
      rendering or delivery. */
  lemma DisabledRefusedRegardless(mailer: Mailer, kind: Kind, data: EmailData, target: string, p: Payload, q: Payload)
    requires !data.enable
    ensures SendEmail(mailer, kind, data, target, p) == SendEmail(mailer, kind, data, target, q)
    ensures SendEmail(mailer, kind, data, target, p).sent == None
  {
  }

  /** The recipient's case does not matter: the mail goes to the lower-cased
      address either way. */
  lemma RecipientCaseIrrelevant(mailer: Mailer, kind: Kind, data: EmailData, a: string, b: string, payload: Payload)
    requires EqualFold(a, b)
    ensures SendEmail(mailer, kind, data, a, payload) == SendEmail(mailer, kind, data, b, payload)
  {
    EqualFoldSameKey(a, b);
  }

  /** A payload of the kind's own struct, on an enabled kind, is always
      rendered; only rendering or delivery can then fail. */
  lemma OwnPayloadRendered(mailer: Mailer, kind: Kind, data: EmailData, target: string, payload: Payload)
    requires data.enable && KindOf(payload) == Some(kind)
    ensures SendEmail(mailer, kind, data, target, payload).rendered
    ensures SendEmail(mailer, kind, data, target, payload).err !in {Some(ErrEmailNotEnabled), Some(ErrEmailNotRegistered), Some(ErrEmailDataInvalid)}
  {
    ValidatorAcceptsOwnType(kind, payload);
  }
}
