/** The payload structs of the notification kinds, the `Validators` table and
    the sender's error sentinels. */
module Payloads {
  import opened Kinds
  import opened Wrappers

  /** A value handed to the sender as `interface{}`: a reference to one of the
      eighteen payload structs, or any value of another type (`Other`). */
  datatype Payload =
    | ActivityAtcJoinEmail(cid: string, activityName: string, activityTime: string, facility: string, frequency: string)
    | ActivityAtcLeaveEmail(cid: string, activityName: string)
    | ActivityPilotJoinEmail(cid: string, activityName: string, activityTime: string, callsign: string, aircraft: string)
    | ActivityPilotLeaveEmail(cid: string, activityName: string)
    | ApplicationPassedEmail(cid: string, operator: string, message: string, contact: string)
    | ApplicationProcessingEmail(cid: string, time: string, contact: string)
    | ApplicationRejectedEmail(cid: string, operator: string, reason: string, contact: string)
    | AtcRatingChangeEmail(cid: string, newValue: string, oldValue: string, operator: string, contact: string)
    | BannedEmail(cid: string, reason: string, time: string, operator: string, contact: string)
    | InstructorChangeEmail(cid: string, reason: string, instructor: string, operator: string, contact: string)
    | KickedFromServerEmail(cid: string, reason: string, time: string, operator: string, contact: string)
    | PasswordChangeEmail(cid: string, time: string, ip: string, userAgent: string)
    | PasswordResetEmail(cid: string, time: string, ip: string, userAgent: string)
    | PermissionChangeEmail(cid: string, permissions: string, operator: string, contact: string)
    | RoleChangeEmail(cid: string, roles: string, operator: string, contact: string)
    | TicketReplyEmail(cid: string, title: string, reply: string)
    | VerifyCodeEmail(cid: string, code: string, expiredAt: string, expired: string)
    | WelcomeEmail(cid: string)
    | Other(typeName: string)

  /** The three sender sentinels, and the two errors the sender passes
      through from rendering and from delivery. */
  datatype SendError =
    | ErrEmailNotRegistered
    | ErrEmailNotEnabled
    | ErrEmailDataInvalid
    | RenderError(reason: string)
    | DeliveryError(reason: string)

  /** The payload struct whose type a validator asserts. The eighteen
      structs are distinct nominal types, even where two of them have the
      same fields (PasswordChangeEmail and PasswordResetEmail). */
  predicate IsType(p: Payload, k: Kind)
  {
    match k
    case EmailVerifyCode => p.VerifyCodeEmail?
    case EmailWelcome => p.WelcomeEmail?
    case EmailRatingChange => p.AtcRatingChangeEmail?
    case EmailKickedFromServer => p.KickedFromServerEmail?
    case EmailPasswordChange => p.PasswordChangeEmail?
    case EmailPasswordReset => p.PasswordResetEmail?
    case EmailApplicationPassed => p.ApplicationPassedEmail?
    case EmailApplicationRejected => p.ApplicationRejectedEmail?
    case EmailApplicationProcessing => p.ApplicationProcessingEmail?
    case EmailTicketReply => p.TicketReplyEmail?
    case EmailActivityPilotJoin => p.ActivityPilotJoinEmail?
    case EmailActivityPilotLeave => p.ActivityPilotLeaveEmail?
    case EmailActivityAtcJoin => p.ActivityAtcJoinEmail?
    case EmailActivityAtcLeave => p.ActivityAtcLeaveEmail?
    case EmailInstructorChange => p.InstructorChangeEmail?
    case EmailBanned => p.BannedEmail?
    case EmailRoleChange => p.RoleChangeEmail?
    case EmailPermissionChange => p.PermissionChangeEmail?
  }

  /** The kind whose struct a payload is, if any (an independent reading of
      the payload's type, used to state what the table accepts). */
  function KindOf(p: Payload): (r: Option<Kind>)
    ensures r.None? <==> p.Other?
  {
    match p
    case ActivityAtcJoinEmail(_, _, _, _, _) => Some(EmailActivityAtcJoin)
    case ActivityAtcLeaveEmail(_, _) => Some(EmailActivityAtcLeave)
    case ActivityPilotJoinEmail(_, _, _, _, _) => Some(EmailActivityPilotJoin)
    case ActivityPilotLeaveEmail(_, _) => Some(EmailActivityPilotLeave)
    case ApplicationPassedEmail(_, _, _, _) => Some(EmailApplicationPassed)
    case ApplicationProcessingEmail(_, _, _) => Some(EmailApplicationProcessing)
    case ApplicationRejectedEmail(_, _, _, _) => Some(EmailApplicationRejected)
    case AtcRatingChangeEmail(_, _, _, _, _) => Some(EmailRatingChange)
    case BannedEmail(_, _, _, _, _) => Some(EmailBanned)
    case InstructorChangeEmail(_, _, _, _, _) => Some(EmailInstructorChange)
    case KickedFromServerEmail(_, _, _, _, _) => Some(EmailKickedFromServer)
    case PasswordChangeEmail(_, _, _, _) => Some(EmailPasswordChange)
    case PasswordResetEmail(_, _, _, _) => Some(EmailPasswordReset)
    case PermissionChangeEmail(_, _, _, _) => Some(EmailPermissionChange)
    case RoleChangeEmail(_, _, _, _) => Some(EmailRoleChange)
    case TicketReplyEmail(_, _, _) => Some(EmailTicketReply)
    case VerifyCodeEmail(_, _, _, _) => Some(EmailVerifyCode)
    case WelcomeEmail(_) => Some(EmailWelcome)
    case Other(_) => None
  }

  /** The `Validators` table: one type-assertion predicate per kind. */
  const Validators: map<Kind, Payload -> bool> := map[
    EmailVerifyCode := (p: Payload) => p.VerifyCodeEmail?,
    EmailWelcome := (p: Payload) => p.WelcomeEmail?,
    EmailRatingChange := (p: Payload) => p.AtcRatingChangeEmail?,
    EmailKickedFromServer := (p: Payload) => p.KickedFromServerEmail?,
    EmailPasswordChange := (p: Payload) => p.PasswordChangeEmail?,
    EmailPasswordReset := (p: Payload) => p.PasswordResetEmail?,
    EmailApplicationPassed := (p: Payload) => p.ApplicationPassedEmail?,
    EmailApplicationRejected := (p: Payload) => p.ApplicationRejectedEmail?,
    EmailApplicationProcessing := (p: Payload) => p.ApplicationProcessingEmail?,
    EmailTicketReply := (p: Payload) => p.TicketReplyEmail?,
    EmailActivityPilotJoin := (p: Payload) => p.ActivityPilotJoinEmail?,
    EmailActivityPilotLeave := (p: Payload) => p.ActivityPilotLeaveEmail?,
    EmailActivityAtcJoin := (p: Payload) => p.ActivityAtcJoinEmail?,
    EmailActivityAtcLeave := (p: Payload) => p.ActivityAtcLeaveEmail?,
    EmailInstructorChange := (p: Payload) => p.InstructorChangeEmail?,
    EmailBanned := (p: Payload) => p.BannedEmail?,
    EmailRoleChange := (p: Payload) => p.RoleChangeEmail?,
    EmailPermissionChange := (p: Payload) => p.PermissionChangeEmail?
  ]

  /** Every kind of `Emails` has a validator, and nothing else has one. */
  lemma ValidatorsComplete()
    ensures forall k: Kind :: k in Validators
    ensures Validators.Keys == set i | 0 <= i < |AllKinds| :: AllKinds[i]
  {
    AllKindsEnumeration();
    forall k: Kind ensures k in Validators {
      ValidatorAcceptsOwnType(k, Other(""));
    }
    var listed := set i | 0 <= i < |AllKinds| :: AllKinds[i];
    forall k | k in Validators ensures k in listed {
      assert AllKinds[Index(k)] == k;
    }
  }

  /** A kind's validator accepts a payload exactly when the payload is that
      kind's own struct. */
  lemma ValidatorAcceptsOwnType(k: Kind, p: Payload)
    ensures k in Validators
    ensures Validators[k](p) <==> KindOf(p) == Some(k)
    ensures Validators[k](p) <==> IsType(p, k)
  {
  }

  /** No payload is valid for two kinds. */
  lemma ValidatorsDisjoint(k1: Kind, k2: Kind, p: Payload)
    requires k1 in Validators && k2 in Validators
    requires Validators[k1](p) && Validators[k2](p)
    ensures k1 == k2
  {
    ValidatorAcceptsOwnType(k1, p);
    ValidatorAcceptsOwnType(k2, p);
  }

  /** Validation looks at the type only: two payloads of the same struct are
      accepted or rejected together, whatever their fields hold (empty
      strings included). */
  lemma ValidatorIgnoresFields(k: Kind, p: Payload, q: Payload)
    requires KindOf(p) == KindOf(q)
    ensures k in Validators && (Validators[k](p) <==> Validators[k](q))
  {
    ValidatorAcceptsOwnType(k, p);
    ValidatorAcceptsOwnType(k, q);
  }

  /** A value of a foreign type is rejected by every validator. */
  lemma ForeignPayloadRejected(k: Kind, name: string)
    ensures k in Validators && !Validators[k](Other(name))
  {
    ValidatorAcceptsOwnType(k, Other(name));
  }
}
