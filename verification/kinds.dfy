/** The closed set of notification kinds (the `Email` enumeration and its
    `Emails` list) and the per-kind data each enum value points at. */
module Kinds {
  import opened Wrappers

  datatype Kind =
    | EmailVerifyCode
    | EmailWelcome
    | EmailRatingChange
    | EmailKickedFromServer
    | EmailPasswordChange
    | EmailPasswordReset
    | EmailApplicationPassed
    | EmailApplicationRejected
    | EmailApplicationProcessing
    | EmailTicketReply
    | EmailActivityPilotJoin
    | EmailActivityPilotLeave
    | EmailActivityAtcJoin
    | EmailActivityAtcLeave
    | EmailInstructorChange
    | EmailBanned
    | EmailRoleChange
    | EmailPermissionChange

  /** The mutable record an enum value points at: whether the kind may be
      sent, its parsed template (None while no template is loaded), where the
      template may be downloaded from, and the mail subject. */
  datatype EmailData = EmailData(enable: bool, template: Option<string>, remotePath: string, subject: string)

  /** The enum's string value. */
  function Id(k: Kind): string
  {
    match k
    case EmailVerifyCode => "verify_code"
    case EmailWelcome => "welcome"
    case EmailRatingChange => "rating_change"
    case EmailKickedFromServer => "kicked_from_server"
    case EmailPasswordChange => "password_change"
    case EmailPasswordReset => "password_reset"
    case EmailApplicationPassed => "application_passed"
    case EmailApplicationRejected => "application_rejected"
    case EmailApplicationProcessing => "application_processing"
    case EmailTicketReply => "ticket_reply"
    case EmailActivityPilotJoin => "activity_pilot_join"
    case EmailActivityPilotLeave => "activity_pilot_leave"
    case EmailActivityAtcJoin => "activity_atc_join"
    case EmailActivityAtcLeave => "activity_atc_leave"
    case EmailInstructorChange => "instructor_change"
    case EmailBanned => "banned"
    case EmailRoleChange => "role_change"
    case EmailPermissionChange => "permission_change"
  }

  const TemplateDir: string := "/docker/data/template/"
  const TemplateExt: string := ".template"

  /** The template file's name: the id, except for the rating-change file. */
  function FileName(k: Kind): string
  {
    if k == EmailRatingChange then "atc_rating_change" else Id(k)
  }

  /** The template's remote path: the file name inside the template
      directory, with the template extension. */
  function RemotePath(k: Kind): (p: string)
    ensures |p| == |TemplateDir| + |FileName(k)| + |TemplateExt|
    ensures p[..|TemplateDir|] == TemplateDir && p[|p| - |TemplateExt|..] == TemplateExt
    ensures p[|TemplateDir|..|p| - |TemplateExt|] == FileName(k)
  {
    TemplateDir + FileName(k) + TemplateExt
  }

  /** The data each enum value starts with: enabled, no template, no subject. */
  function InitialData(k: Kind): (d: EmailData)
    ensures d.enable && d.template == None && d.subject == ""
  {
    EmailData(true, None, RemotePath(k), "")
  }

  /** The `Emails` list, in declaration order. */
  const AllKinds: seq<Kind> := [
    EmailVerifyCode, EmailWelcome, EmailRatingChange, EmailKickedFromServer,
    EmailPasswordChange, EmailPasswordReset, EmailApplicationPassed, EmailApplicationRejected,
    EmailApplicationProcessing, EmailTicketReply, EmailActivityPilotJoin, EmailActivityPilotLeave,
    EmailActivityAtcJoin, EmailActivityAtcLeave, EmailInstructorChange, EmailBanned,
    EmailRoleChange, EmailPermissionChange
  ]

  /** Where a kind sits in `Emails`: every kind is listed. */
  function Index(k: Kind): (i: nat)
    ensures i < |AllKinds| && AllKinds[i] == k
  {
    match k
    case EmailVerifyCode => 0
    case EmailWelcome => 1
    case EmailRatingChange => 2
    case EmailKickedFromServer => 3
    case EmailPasswordChange => 4
    case EmailPasswordReset => 5
    case EmailApplicationPassed => 6
    case EmailApplicationRejected => 7
    case EmailApplicationProcessing => 8
    case EmailTicketReply => 9
    case EmailActivityPilotJoin => 10
    case EmailActivityPilotLeave => 11
    case EmailActivityAtcJoin => 12
    case EmailActivityAtcLeave => 13
    case EmailInstructorChange => 14
    case EmailBanned => 15
    case EmailRoleChange => 16
    case EmailPermissionChange => 17
  }

  /** `Emails` lists exactly 18 kinds, each once, and no kind is missing. */
  lemma AllKindsEnumeration()
    ensures |AllKinds| == 18
    ensures forall i, j :: 0 <= i < j < |AllKinds| ==> AllKinds[i] != AllKinds[j]
    ensures forall k: Kind :: k in AllKinds
  {
    forall i, j | 0 <= i < j < |AllKinds| ensures AllKinds[i] != AllKinds[j] {
      assert Index(AllKinds[i]) == i && Index(AllKinds[j]) == j;
    }
    forall k: Kind ensures k in AllKinds {
      assert AllKinds[Index(k)] == k;
    }
  }

  /** The ids are pairwise distinct, so an id names one kind. */
  lemma IdInjective(a: Kind, b: Kind)
    requires Id(a) == Id(b)
    ensures a == b
  {
  }

  /** Distinct kinds download distinct template files. */
  lemma RemotePathInjective(a: Kind, b: Kind)
    requires RemotePath(a) == RemotePath(b)
    ensures a == b
  {
    assert FileName(a) == FileName(b);
  }
}
