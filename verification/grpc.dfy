/** The RPC adapter: the required-field check, one handler per notification
    kind, the error-to-status mapping, and the code verification and removal
    handlers. */
module GrpcServer {
  import opened Wrappers
  import opened Kinds
  import P = Payloads
  import opened Sender
  import Templates
  import Codes

  datatype StatusCode = InvalidArgument | Unavailable | Internal

  /** An RPC error status. */
  datatype Status = Status(code: StatusCode, message: string)

  const MissingArgument := Status(InvalidArgument, "missing required argument")

  datatype SendResponse = SendResponse(success: bool)

  /** One field of a request message as reflection sees it: a string, or a
      value of some other kind (numbers, and the message's internal state). */
  datatype Field = StringField(value: string) | OtherField

  /** No string field is empty; other fields are never looked at. */
  predicate RequiredFieldsPresent(fields: seq<Field>)
  {
    forall i :: 0 <= i < |fields| ==> fields[i].StringField? ==> fields[i].value != ""
  }

  /** `extractAndValidateFields`: scans the fields in order and stops at the
      first empty string. */
  method ExtractAndValidateFields(fields: seq<Field>) returns (ok: bool)
    ensures ok <==> RequiredFieldsPresent(fields)
  {
    var i := 0;
    while i < |fields|
      invariant 0 <= i <= |fields|
      invariant RequiredFieldsPresent(fields[..i])
    {
      if fields[i].StringField? && fields[i].value == "" {
        return false;
      }
      i := i + 1;
    }
    assert fields[..i] == fields;
    return true;
  }

  /** The request messages of the seventeen send methods. */
  datatype SendRequest =
    | ActivityAtcJoin(targetEmail: string, cid: string, activityName: string, activityTime: string, facility: string, frequency: string)
    | ActivityAtcLeave(targetEmail: string, cid: string, activityName: string)
    | ActivityPilotJoin(targetEmail: string, cid: string, activityName: string, activityTime: string, aircraft: string, callsign: string)
    | ActivityPilotLeave(targetEmail: string, cid: string, activityName: string)
    | ApplicationPassed(targetEmail: string, cid: string, contact: string, message: string, operator: string)
    | ApplicationProcessing(targetEmail: string, cid: string, contact: string, time: string)
    | ApplicationRejected(targetEmail: string, cid: string, contact: string, operator: string, reason: string)
    | AtcRatingChange(targetEmail: string, cid: string, contact: string, newValue: string, oldValue: string, operator: string)
    | Banned(targetEmail: string, cid: string, contact: string, operator: string, reason: string, time: string)
    | InstructorChange(targetEmail: string, cid: string, contact: string, reason: string, instructor: string, operator: string)
    | KickedFromServer(targetEmail: string, cid: string, contact: string, operator: string, reason: string, time: string)
    | PasswordChange(targetEmail: string, cid: string, time: string, ip: string, userAgent: string)
    | PasswordReset(targetEmail: string, cid: string, time: string, ip: string, userAgent: string)
    | PermissionChange(targetEmail: string, cid: string, permissions: string, operator: string, contact: string)
    | RoleChange(targetEmail: string, cid: string, roles: string, operator: string, contact: string)
    | TicketReply(targetEmail: string, cid: string, reply: string, title: string)
    | Welcome(targetEmail: string, cid: string)

  /** The bookkeeping fields every generated message struct starts with (its
      state, size cache and unknown fields); none of them is a string. */
  const ProtoBookkeeping: seq<Field> := [OtherField, OtherField, OtherField]

  function Strings(ss: seq<string>): seq<Field>
  {
    seq(|ss|, i requires 0 <= i < |ss| => StringField(ss[i]))
  }

  /** The string fields of a send request: the recipient, the control id,
      then the kind's own fields. */
  function Values(m: SendRequest): (v: seq<string>)
    ensures |v| >= 2 && v[0] == m.targetEmail && v[1] == m.cid
  {
    match m
    case ActivityAtcJoin(t, c, a, at, f, fr) => [t, c, a, at, f, fr]
    case ActivityAtcLeave(t, c, a) => [t, c, a]
    case ActivityPilotJoin(t, c, a, at, ac, cs) => [t, c, a, at, ac, cs]
    case ActivityPilotLeave(t, c, a) => [t, c, a]
    case ApplicationPassed(t, c, co, me, op) => [t, c, co, me, op]
    case ApplicationProcessing(t, c, co, ti) => [t, c, co, ti]
    case ApplicationRejected(t, c, co, op, re) => [t, c, co, op, re]
    case AtcRatingChange(t, c, co, nv, ov, op) => [t, c, co, nv, ov, op]
    case Banned(t, c, co, op, re, ti) => [t, c, co, op, re, ti]
    case InstructorChange(t, c, co, re, ins, op) => [t, c, co, re, ins, op]
    case KickedFromServer(t, c, co, op, re, ti) => [t, c, co, op, re, ti]
    case PasswordChange(t, c, ti, ip, ua) => [t, c, ti, ip, ua]
    case PasswordReset(t, c, ti, ip, ua) => [t, c, ti, ip, ua]
    case PermissionChange(t, c, pe, op, co) => [t, c, pe, op, co]
    case RoleChange(t, c, ro, op, co) => [t, c, ro, op, co]
    case TicketReply(t, c, rp, ti) => [t, c, rp, ti]
    case Welcome(t, c) => [t, c]
  }

  /** The fields reflection walks for a send request. The check passes
      exactly when every string field of the message is non-empty, so in
      particular the recipient and the control id are present. */
  function Fields(m: SendRequest): (fs: seq<Field>)
    ensures RequiredFieldsPresent(fs) <==> forall i :: 0 <= i < |Values(m)| ==> Values(m)[i] != ""
    ensures RequiredFieldsPresent(fs) ==> m.targetEmail != "" && m.cid != ""
  {
    var fs := ProtoBookkeeping + Strings(Values(m));
    assert forall i :: 0 <= i < |Values(m)| ==> fs[i + 3] == StringField(Values(m)[i]);
    fs
  }

  /** The kind each send method passes to the sender. */
  function HandlerKind(m: SendRequest): (k: Kind)
    ensures k != EmailVerifyCode
  {
    match m
    case ActivityAtcJoin(_, _, _, _, _, _) => EmailActivityAtcJoin
    case ActivityAtcLeave(_, _, _) => EmailActivityAtcLeave
    case ActivityPilotJoin(_, _, _, _, _, _) => EmailActivityPilotJoin
    case ActivityPilotLeave(_, _, _) => EmailActivityPilotLeave
    case ApplicationPassed(_, _, _, _, _) => EmailApplicationPassed
    case ApplicationProcessing(_, _, _, _) => EmailApplicationProcessing
    case ApplicationRejected(_, _, _, _, _) => EmailApplicationRejected
    case AtcRatingChange(_, _, _, _, _, _) => EmailRatingChange
    case Banned(_, _, _, _, _, _) => EmailBanned
    case InstructorChange(_, _, _, _, _, _) => EmailInstructorChange
    case KickedFromServer(_, _, _, _, _, _) => EmailKickedFromServer
    case PasswordChange(_, _, _, _, _) => EmailPasswordChange
    case PasswordReset(_, _, _, _, _) => EmailPasswordReset
    case PermissionChange(_, _, _, _, _) => EmailPermissionChange
    case RoleChange(_, _, _, _, _) => EmailRoleChange
    case TicketReply(_, _, _, _) => EmailTicketReply
    case Welcome(_, _) => EmailWelcome
  }

  /** The payload struct each send method builds from its message. */
  function ToPayload(m: SendRequest): (p: P.Payload)
    ensures P.KindOf(p) == Some(HandlerKind(m))
  {
    match m
    case ActivityAtcJoin(_, c, a, at, f, fr) => P.ActivityAtcJoinEmail(c, a, at, f, fr)
    case ActivityAtcLeave(_, c, a) => P.ActivityAtcLeaveEmail(c, a)
    case ActivityPilotJoin(_, c, a, at, ac, cs) => P.ActivityPilotJoinEmail(c, a, at, cs, ac)
    case ActivityPilotLeave(_, c, a) => P.ActivityPilotLeaveEmail(c, a)
    case ApplicationPassed(_, c, co, me, op) => P.ApplicationPassedEmail(c, op, me, co)
    case ApplicationProcessing(_, c, co, ti) => P.ApplicationProcessingEmail(c, ti, co)
    case ApplicationRejected(_, c, co, op, re) => P.ApplicationRejectedEmail(c, op, re, co)
    case AtcRatingChange(_, c, co, nv, ov, op) => P.AtcRatingChangeEmail(c, nv, ov, op, co)
    case Banned(_, c, co, op, re, ti) => P.BannedEmail(c, re, ti, op, co)
    case InstructorChange(_, c, co, re, ins, op) => P.InstructorChangeEmail(c, re, ins, op, co)
    case KickedFromServer(_, c, co, op, re, ti) => P.KickedFromServerEmail(c, re, ti, op, co)
    case PasswordChange(_, c, ti, ip, ua) => P.PasswordChangeEmail(c, ti, ip, ua)
    case PasswordReset(_, c, ti, ip, ua) => P.PasswordResetEmail(c, ti, ip, ua)
    case PermissionChange(_, c, pe, op, co) => P.PermissionChangeEmail(c, pe, op, co)
    case RoleChange(_, c, ro, op, co) => P.RoleChangeEmail(c, ro, op, co)
    case TicketReply(_, c, rp, ti) => P.TicketReplyEmail(c, ti, rp)
    case Welcome(_, c) => P.WelcomeEmail(c)
  }

  /** Each send method pairs its kind with a payload of exactly the type
      that kind's validator accepts; no send method targets the
      verification-code kind. */
  lemma HandlerPairing(m: SendRequest)
    ensures P.KindOf(ToPayload(m)) == Some(HandlerKind(m))
    ensures HandlerKind(m) in P.Validators && P.Validators[HandlerKind(m)](ToPayload(m))
    ensures HandlerKind(m) != EmailVerifyCode
  {
    P.ValidatorAcceptsOwnType(HandlerKind(m), ToPayload(m));
  }

  /** Hence no send method can see "data invalid" (nor "not registered")
      from the sender. */
  lemma HandlersNeverDataInvalid(mailer: Mailer, data: EmailData, m: SendRequest)
    ensures SendEmail(mailer, HandlerKind(m), data, m.targetEmail, ToPayload(m)).err !in
      {Some(P.ErrEmailDataInvalid), Some(P.ErrEmailNotRegistered)}
  {
    HandlerPairing(m);
    NeverUnregistered(mailer, HandlerKind(m), data, m.targetEmail, ToPayload(m));
  }

  /** `handleSendError`. */
  function HandleSendError(err: Option<P.SendError>): (r: Option<Status>)
    ensures r == None <==> err == None
    ensures r.Some? && r.value.code == Unavailable <==> err == Some(P.ErrEmailNotEnabled)
    ensures r.Some? && r.value.code == InvalidArgument <==> err == Some(P.ErrEmailNotRegistered)
    ensures r.Some? && r.value.code == Internal <==>
      err.Some? && err.value != P.ErrEmailNotEnabled && err.value != P.ErrEmailNotRegistered
  {
    if err == None then None
    else if err.value == P.ErrEmailNotEnabled then Some(Status(Unavailable, "this type of email is not enabled"))
    else if err.value == P.ErrEmailNotRegistered then Some(Status(InvalidArgument, "invalid email type"))
    else Some(Status(Internal, "internal server error"))
  }

  /** `sendEmailTemplate`'s answer to what the sender did: success exactly
      when the sender returned no error; otherwise the failed response and
      the mapped status. */
  function SendAnswer(d: Dispatch): (r: (SendResponse, Option<Status>))
    ensures r.0.success <==> d.err == None
    ensures r.1 == HandleSendError(d.err)
    ensures r.0.success <==> r.1 == None
  {
    if d.err.Some? then (SendResponse(false), HandleSendError(d.err)) else (SendResponse(true), None)
  }

  /** A send method: the field check, the mapping to the payload, the sender
      and the answer. `dispatch` records what the sender did (None: not called). */
  method SendHandler(reg: Templates.Registry, mailer: Mailer, m: SendRequest)
    returns (resp: Option<SendResponse>, status: Option<Status>, dispatch: Option<Dispatch>)
    requires reg.Valid()
    ensures !RequiredFieldsPresent(Fields(m)) ==> resp == None && status == Some(MissingArgument) && dispatch == None
    ensures RequiredFieldsPresent(Fields(m)) ==>
      && dispatch == Some(SendEmail(mailer, HandlerKind(m), reg.data[HandlerKind(m)], m.targetEmail, ToPayload(m)))
      && resp == Some(SendAnswer(dispatch.value).0) && status == SendAnswer(dispatch.value).1
  {
    var ok := ExtractAndValidateFields(Fields(m));
    if !ok {
      return None, Some(MissingArgument), None;
    }
    var kind := HandlerKind(m);
    var d := SendEmail(mailer, kind, reg.data[kind], m.targetEmail, ToPayload(m));
    var answer := SendAnswer(d);
    resp, status, dispatch := Some(answer.0), answer.1, Some(d);
  }

  // ---------------------------------------------------------------------
  // Code verification and removal

  /** The verification result codes. */
  const VerifySuccess: int := 0
  const VerifyExpired: int := 1
  const VerifyInvalid: int := 2
  const VerifyUnknown: int := 3

  datatype VerifyResponse = VerifyResponse(success: bool, code: int)

  /** The verification request: address, code and control id (a number,
      so never checked for emptiness). */
  datatype VerifyCode = VerifyCode(email: string, code: string, cid: int)

  function VerifyFields(m: VerifyCode): seq<Field>
  {
    ProtoBookkeeping + [StringField(m.email), StringField(m.code), OtherField]
  }

  /** The answer to a verification result. */
  function VerifyAnswer(err: Option<Codes.CodeError>): (r: (VerifyResponse, Option<Status>))
    ensures r.0.success <==> err == None
    ensures err == None ==> r == (VerifyResponse(true, VerifySuccess), None)
    ensures err == Some(Codes.ErrEmailCodeExpired) ==> r == (VerifyResponse(false, VerifyExpired), None)
    ensures err == Some(Codes.ErrEmailCodeInvalid) ==> r == (VerifyResponse(false, VerifyInvalid), None)
    ensures r.1.Some? <==> r.0.code == VerifyUnknown
    ensures r.1.Some? ==> r.1.value.code == Internal
  {
    if err == None then (VerifyResponse(true, VerifySuccess), None)
    else if err.value == Codes.ErrEmailCodeExpired then (VerifyResponse(false, VerifyExpired), None)
    else if err.value == Codes.ErrEmailCodeInvalid then (VerifyResponse(false, VerifyInvalid), None)
    else (VerifyResponse(false, VerifyUnknown), Some(Status(Internal, "failed to verify email d")))
  }

  /** The manager's verification never reports a cooldown, so the RPC never
      answers "unknown" nor raises an internal error for it. */
  lemma VerifyNeverUnknown(st: Codes.Stores, now: int, target: string, cid: int, code: string)
    ensures VerifyAnswer(Codes.Verify(st, now, target, cid, code).err).0.code != VerifyUnknown
    ensures VerifyAnswer(Codes.Verify(st, now, target, cid, code).err).1 == None
  {
  }

  method VerifyHandler(manager: Codes.CodeManager, m: VerifyCode) returns (resp: Option<VerifyResponse>, status: Option<Status>)
    requires manager.Valid()
    modifies manager
    ensures manager.Valid() && manager.clock == old(manager.clock)
    ensures !RequiredFieldsPresent(VerifyFields(m)) ==>
      resp == None && status == Some(MissingArgument) && manager.State() == old(manager.State())
    ensures RequiredFieldsPresent(VerifyFields(m)) ==>
      var v := Codes.Verify(old(manager.State()), manager.clock, m.email, m.cid, m.code);
      manager.State() == v.next && resp == Some(VerifyAnswer(v.err).0) && status == VerifyAnswer(v.err).1
  {
    var ok := ExtractAndValidateFields(VerifyFields(m));
    if !ok {
      return None, Some(MissingArgument);
    }
    var err := manager.VerifyEmailCode(m.email, m.cid, m.code);
    var answer := VerifyAnswer(err);
    resp, status := Some(answer.0), answer.1;
  }

  datatype RemoveVerifyCode = RemoveVerifyCode(email: string)

  datatype RemoveResponse = RemoveResponse(success: bool)

  /** Removal answers success once the field check passes, and drops the
      address's code only. */
  method RemoveHandler(manager: Codes.CodeManager, m: RemoveVerifyCode) returns (resp: Option<RemoveResponse>, status: Option<Status>)
    requires manager.Valid()
    modifies manager
    ensures manager.Valid() && manager.clock == old(manager.clock)
    ensures m.email == "" ==> resp == None && status == Some(MissingArgument) && manager.State() == old(manager.State())
    ensures m.email != "" ==>
      resp == Some(RemoveResponse(true)) && status == None && manager.State() == Codes.Remove(old(manager.State()), m.email)
  {
    var ok := ExtractAndValidateFields(ProtoBookkeeping + [StringField(m.email)]);
    if !ok {
      assert (ProtoBookkeeping + [StringField(m.email)])[3] == StringField(m.email);
      return None, Some(MissingArgument);
    }
    assert (ProtoBookkeeping + [StringField(m.email)])[3] == StringField(m.email);
    manager.RemoveEmailCode(m.email);
    resp, status := Some(RemoveResponse(true)), None;
  }
}
