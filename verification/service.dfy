/** The HTTP flow for a verification code: generate, then send, then map
    the outcome to an API status. */
module HttpService {
  import opened Wrappers
  import opened Text
  import opened Kinds
  import P = Payloads
  import opened Sender
  import Templates
  import Codes
  import Dto

  /** The API statuses this flow answers with. */
  datatype ApiStatus =
    | EmailSendInterval(remaining: int)
    | ServerError
    | EmailSendFailed
    | SuccessHandleRequest

  /** The HTTP code of the statuses this service defines; the generic server
      error and the success status come from the HTTP library. */
  function HttpCode(s: ApiStatus): (r: Option<int>)
    ensures s.EmailSendInterval? ==> r == Some(400)
    ensures s == EmailSendFailed ==> r == Some(500)
    ensures s == ServerError || s == SuccessHandleRequest ==> r == None
  {
    match s
    case EmailSendInterval(_) => Some(400)
    case EmailSendFailed => Some(500)
    case _ => None
  }

  datatype ApiResponse = ApiResponse(status: ApiStatus, data: bool)

  /** The answer for a generation outcome and, when the code was issued,
      the sender's outcome. */
  function Respond(genErr: Option<Codes.CodeError>, wait: int, sendErr: Option<P.SendError>): (r: ApiResponse)
    ensures r.data <==> genErr == None && sendErr == None
    ensures r.data <==> r.status == SuccessHandleRequest
    ensures genErr == Some(Codes.ErrEmailCodeCooldown) ==> r.status == EmailSendInterval(wait) && HttpCode(r.status) == Some(400)
    ensures genErr.Some? && genErr != Some(Codes.ErrEmailCodeCooldown) ==> r.status == ServerError
    ensures genErr == None && sendErr.Some? ==> r.status == EmailSendFailed && HttpCode(r.status) == Some(500)
  {
    if genErr == Some(Codes.ErrEmailCodeCooldown) then ApiResponse(EmailSendInterval(wait), false)
    else if genErr.Some? then ApiResponse(ServerError, false)
    else if sendErr.Some? then ApiResponse(EmailSendFailed, false)
    else ApiResponse(SuccessHandleRequest, true)
  }

  /** `SendEmailCode`. `code` is the random code the manager draws;
      `dispatch` records what the sender did (None: it was not called). */
  method SendEmailCode(manager: Codes.CodeManager, reg: Templates.Registry, mailer: Mailer, form: Dto.SendEmailCodeForm, code: string)
    returns (resp: ApiResponse, dispatch: Option<Dispatch>)
    requires manager.Valid() && reg.Valid() && |code| == 6
    modifies manager
    ensures manager.Valid() && manager.clock == old(manager.clock)
    ensures var g := Codes.Generate(old(manager.State()), manager.clock, manager.expire, manager.interval, form.email, form.cid, code);
      && manager.State() == g.next
      && (g.err.Some? ==> dispatch == None && resp == Respond(g.err, g.wait, None))
      && (g.err == None ==>
           && dispatch == Some(SendEmail(mailer, EmailVerifyCode, reg.data[EmailVerifyCode], form.email,
                P.VerifyCodeEmail(FormatCid(form.cid), code, manager.formatInstant(manager.clock + manager.expire), manager.formatMinutes(manager.expire))))
           && resp == Respond(None, 0, dispatch.value.err))
  {
    var payload, wait, err := manager.GenerateEmailCode(form.email, form.cid, code);
    if err.Some? {
      return Respond(err, wait, None), None;
    }
    var d := SendEmail(mailer, EmailVerifyCode, reg.data[EmailVerifyCode], form.email, payload.value);
    resp, dispatch := Respond(None, 0, d.err), Some(d);
  }

  /** A failed delivery does not undo the issued code or its cooldown mark:
      asking again within the interval is answered with the cooldown status
      and the time still to wait. */
  lemma RetryAfterFailureCoolsDown(st: Codes.Stores, now: int, expire: int, interval: int, target: string, cid: int,
                                   code: string, code2: string, d: nat)
    requires d < interval
    requires Codes.Generate(st, now, expire, interval, target, cid, code).err == None
    ensures var g2 := Codes.Generate(Codes.Generate(st, now, expire, interval, target, cid, code).next, now + d, expire, interval, target, cid, code2);
      && g2.err == Some(Codes.ErrEmailCodeCooldown)
      && Respond(g2.err, g2.wait, None) == ApiResponse(EmailSendInterval(interval - d), false)
  {
    var g := Codes.Generate(st, now, expire, interval, target, cid, code);
    assert Codes.InCooldown(g.next, ToLower(target), now + d);
  }
}
