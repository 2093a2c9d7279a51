/** Template configuration: the per-kind `Template` entries, their defaults,
    and the start-up pass that loads each enabled template into its kind's
    shared `EmailData` (or marks the kind disabled). */
module Templates {
  import opened Wrappers
  import opened Kinds

  /** One configured template. `localPath` is copied in from the enclosing
      configuration before verification; `kind` is the enum value whose data
      the template fills in. */
  datatype Template = Template(enable: bool, fileName: string, subject: string, localPath: string, kind: Kind)

  /** The template loader: joins the download URL, reads the local file or
      downloads it, and parses it. Its inputs are the local directory, the
      file name and the kind's remote path; it yields the parsed template or
      an error message. It is abstract here. */
  type Loader = (string, string, string) -> Result<string, string>

  predicate Total(data: map<Kind, EmailData>)
  {
    forall k: Kind :: k in data
  }

  /** The error a template's verification reports, if any: only an enabled
      template reads anything, and it fails when loading fails. */
  function LoadError(d: EmailData, t: Template, load: Loader): (r: Option<string>)
    ensures !t.enable ==> r == None
    ensures t.enable ==> (r.Some? <==> load(t.localPath, t.fileName, d.remotePath).Err?)
    ensures t.enable && r.Some? ==> r.value == load(t.localPath, t.fileName, d.remotePath).error
  {
    if !t.enable then None
    else match load(t.localPath, t.fileName, d.remotePath)
      case Err(e) => Some(e)
      case Ok(_) => None
  }

  /** What verifying a template does to its kind's data. */
  function Apply(d: EmailData, t: Template, load: Loader): (r: EmailData)
    ensures r.remotePath == d.remotePath
    ensures !t.enable ==> r == d.(enable := false)
    ensures t.enable && load(t.localPath, t.fileName, d.remotePath).Err? ==> r == d
    ensures t.enable && load(t.localPath, t.fileName, d.remotePath).Ok? ==>
      r.enable && r.subject == t.subject && r.template == Some(load(t.localPath, t.fileName, d.remotePath).value)
  {
    if !t.enable then d.(enable := false)
    else match load(t.localPath, t.fileName, d.remotePath)
      case Err(_) => d
      case Ok(tpl) => d.(template := Some(tpl), subject := t.subject, enable := true)
  }

  datatype Checked = Checked(data: map<Kind, EmailData>, err: Option<string>)

  /** `Template.Verify`: a disabled template switches its kind off and
      succeeds without loading anything; an enabled one loads the template
      and, when that works, installs it with its subject and switches the
      kind on. Only the template's own kind changes. */
  function VerifyTemplate(data: map<Kind, EmailData>, t: Template, load: Loader): (r: Checked)
    requires Total(data)
    ensures Total(r.data)
    ensures r.data[t.kind] == Apply(data[t.kind], t, load)
    ensures forall k :: k != t.kind ==> r.data[k] == data[k]
    ensures !t.enable ==> r.err == None && !r.data[t.kind].enable
    ensures r.err == LoadError(data[t.kind], t, load)
  {
    Checked(data[t.kind := Apply(data[t.kind], t, load)], LoadError(data[t.kind], t, load))
  }

  /** Verifying a list of templates one after another; the reported error is
      the first one in list order. */
  function VerifyAll(data: map<Kind, EmailData>, ts: seq<Template>, load: Loader): (r: Checked)
    requires Total(data)
    ensures Total(r.data)
    decreases |ts|
  {
    if ts == [] then Checked(data, None)
    else
      var prev := VerifyAll(data, ts[..|ts| - 1], load);
      var last := VerifyTemplate(prev.data, ts[|ts| - 1], load);
      Checked(last.data, if prev.err.Some? then prev.err else last.err)
  }

  predicate DistinctKinds(ts: seq<Template>)
  {
    forall i, j :: 0 <= i < j < |ts| ==> ts[i].kind != ts[j].kind
  }

  predicate Fails(data: map<Kind, EmailData>, t: Template, load: Loader)
    requires Total(data)
  {
    LoadError(data[t.kind], t, load).Some?
  }

  /** A kind no template names is left as it was. */
  lemma {:induction false} VerifyAllUnlisted(data: map<Kind, EmailData>, ts: seq<Template>, load: Loader, k: Kind)
    requires Total(data)
    requires forall j :: 0 <= j < |ts| ==> ts[j].kind != k
    ensures VerifyAll(data, ts, load).data[k] == data[k]
    decreases |ts|
  {
    if ts != [] {
      VerifyAllUnlisted(data, ts[..|ts| - 1], load, k);
    }
  }

  /** When every template names its own kind, verifying them all leaves the
      kind of template j exactly as verifying template j alone would. */
  lemma {:induction false} VerifyAllAt(data: map<Kind, EmailData>, ts: seq<Template>, load: Loader, j: nat)
    requires Total(data) && DistinctKinds(ts) && j < |ts|
    ensures VerifyAll(data, ts, load).data[ts[j].kind] == Apply(data[ts[j].kind], ts[j], load)
    decreases |ts|
  {
    var init := ts[..|ts| - 1];
    var t := ts[|ts| - 1];
    if j < |ts| - 1 {
      assert init[j] == ts[j];
      VerifyAllAt(data, init, load, j);
    } else {
      VerifyAllUnlisted(data, init, load, t.kind);
    }
  }

  /** ... and the pass succeeds exactly when no single template fails, so
      the order (or interleaving) of the verifications does not matter. */
  lemma {:induction false} VerifyAllSucceeds(data: map<Kind, EmailData>, ts: seq<Template>, load: Loader)
    requires Total(data) && DistinctKinds(ts)
    ensures VerifyAll(data, ts, load).err == None <==> forall j :: 0 <= j < |ts| ==> !Fails(data, ts[j], load)
    decreases |ts|
  {
    if ts != [] {
      var init := ts[..|ts| - 1];
      var t := ts[|ts| - 1];
      VerifyAllSucceeds(data, init, load);
      VerifyAllUnlisted(data, init, load, t.kind);
      assert forall j :: 0 <= j < |init| ==> init[j] == ts[j];
    }
  }

  /** The default template of each kind (file name and subject). */
  function DefaultTemplate(k: Kind): (t: Template)
    ensures t.enable && t.kind == k && t.localPath == ""
  {
    match k
    case EmailVerifyCode => Template(true, "verify_code.template", "邮箱验证码", "", k)
    case EmailWelcome => Template(true, "welcome.template", "欢迎注册", "", k)
    case EmailRatingChange => Template(true, "atc_rating_change.template", "管制权限变更通知", "", k)
    case EmailKickedFromServer => Template(true, "kicked_from_server.template", "您已被踢出服务器", "", k)
    case EmailPasswordChange => Template(true, "password_change.template", "飞控密码更改通知", "", k)
    case EmailPasswordReset => Template(true, "password_reset.template", "飞控密码重置通知", "", k)
    case EmailApplicationPassed => Template(true, "application_passed.template", "管制员申请通过", "", k)
    case EmailApplicationRejected => Template(true, "application_rejected.template", "管制员申请被拒", "", k)
    case EmailApplicationProcessing => Template(true, "application_processing.template", "管制面试通知", "", k)
    case EmailTicketReply => Template(true, "ticket_reply.template", "工单回复通知", "", k)
    case EmailActivityPilotJoin => Template(true, "activity_pilot_join.template", "活动报名成功", "", k)
    case EmailActivityPilotLeave => Template(true, "activity_pilot_leave.template", "退出活动成功", "", k)
    case EmailActivityAtcJoin => Template(true, "activity_atc_join.template", "活动报名成功", "", k)
    case EmailActivityAtcLeave => Template(true, "activity_atc_leave.template", "退出活动成功", "", k)
    case EmailInstructorChange => Template(true, "instructor_change.template", "教员变更通知", "", k)
    case EmailBanned => Template(true, "banned.template", "您已被封禁", "", k)
    case EmailRoleChange => Template(true, "role_change.template", "飞控角色变更通知", "", k)
    case EmailPermissionChange => Template(true, "permission_change.template", "飞控权限变更通知", "", k)
  }

  /** The template fields in declaration order; field i serves `AllKinds[i]`. */
  function DefaultTemplates(): (ts: seq<Template>)
    ensures |ts| == |AllKinds|
    ensures forall i :: 0 <= i < |ts| ==> ts[i] == DefaultTemplate(AllKinds[i])
  {
    seq(|AllKinds|, i requires 0 <= i < |AllKinds| => DefaultTemplate(AllKinds[i]))
  }

  /** The defaults bind the eighteen fields to eighteen distinct kinds,
      covering every kind. */
  lemma DefaultTemplatesBindEveryKind()
    ensures |DefaultTemplates()| == 18
    ensures DistinctKinds(DefaultTemplates())
    ensures forall k: Kind :: DefaultTemplates()[Index(k)] == DefaultTemplate(k)
  {
    AllKindsEnumeration();
  }

  function WithLocalPath(ts: seq<Template>, path: string): (r: seq<Template>)
    ensures |r| == |ts|
    ensures forall i :: 0 <= i < |ts| ==> r[i] == ts[i].(localPath := path)
  {
    seq(|ts|, i requires 0 <= i < |ts| => ts[i].(localPath := path))
  }

  /** The shared per-kind data behind the enum values. */
  class Registry {
    var data: map<Kind, EmailData>

    ghost predicate Valid()
      reads this
    {
      Total(data)
    }

    /** The enum values as declared: every kind enabled, with its remote
        path, and nothing loaded yet. */
    constructor ()
      ensures Valid()
      ensures forall k :: data[k] == InitialData(k)
    {
      data := map k: Kind | k in AllKinds :: InitialData(k);
      new;
      AllKindsEnumeration();
    }
  }

  /** The block of eighteen template fields and the directory they are read from. */
  class TemplateConfig {
    var templates: seq<Template>
    var localPath: string

    /** Every field set to its default template (the duplicated assignments
        of the source write the same values twice, which the model folds). */
    constructor InitDefaults()
      ensures templates == DefaultTemplates() && localPath == ""
    {
      templates := DefaultTemplates();
      localPath := "";
    }

    /** Copies the directory into every template, then verifies each one;
        the pass succeeds only if all of them do. */
    method Verify(reg: Registry, load: Loader) returns (ok: bool, err: Option<string>)
      requires reg.Valid()
      modifies this, reg
      ensures reg.Valid()
      ensures localPath == old(localPath)
      ensures templates == WithLocalPath(old(templates), localPath)
      ensures reg.data == VerifyAll(old(reg.data), templates, load).data
      ensures err == VerifyAll(old(reg.data), templates, load).err
      ensures ok <==> err == None
    {
      var i := 0;
      while i < |templates|
        invariant 0 <= i <= |templates| == |old(templates)|
        invariant forall j :: 0 <= j < i ==> templates[j] == old(templates)[j].(localPath := localPath)
        invariant forall j :: i <= j < |templates| ==> templates[j] == old(templates)[j]
        invariant reg.data == old(reg.data) && localPath == old(localPath)
      {
        templates := templates[i := templates[i].(localPath := localPath)];
        i := i + 1;
      }
      assert templates == WithLocalPath(old(templates), localPath);
      err := None;
      i := 0;
      while i < |templates|
        invariant 0 <= i <= |templates|
        invariant reg.Valid()
        modifies reg
        invariant reg.data == VerifyAll(old(reg.data), templates[..i], load).data
        invariant err == VerifyAll(old(reg.data), templates[..i], load).err
      {
        var t := templates[i];
        var e := LoadError(reg.data[t.kind], t, load);
        reg.data := reg.data[t.kind := Apply(reg.data[t.kind], t, load)];
        if err == None {
          err := e;
        }
        assert templates[..i + 1][..i] == templates[..i];
        i := i + 1;
      }
      assert templates[..i] == templates;
      ok := err == None;
    }
  }

  /** Start-up with the default templates: each kind ends up exactly as its
      own template's verification leaves it... */
  lemma DefaultStartupData(data: map<Kind, EmailData>, path: string, load: Loader, k: Kind)
    requires Total(data)
    ensures VerifyAll(data, WithLocalPath(DefaultTemplates(), path), load).data[k]
         == Apply(data[k], DefaultTemplate(k).(localPath := path), load)
  {
    var ts := WithLocalPath(DefaultTemplates(), path);
    DefaultTemplatesLocalized(path);
    VerifyAllAt(data, ts, load, Index(k));
  }

  /** ... and the pass succeeds exactly when every kind's template loads. */
  lemma DefaultStartupSucceeds(data: map<Kind, EmailData>, path: string, load: Loader)
    requires Total(data)
    ensures VerifyAll(data, WithLocalPath(DefaultTemplates(), path), load).err == None <==>
          forall k: Kind :: load(path, DefaultTemplate(k).fileName, data[k].remotePath).Ok?
  {
    var ts := WithLocalPath(DefaultTemplates(), path);
    DefaultTemplatesLocalized(path);
    VerifyAllSucceeds(data, ts, load);
    if forall k: Kind :: load(path, DefaultTemplate(k).fileName, data[k].remotePath).Ok? {
      forall j | 0 <= j < |ts| ensures !Fails(data, ts[j], load) {
        assert ts[j] == DefaultTemplate(AllKinds[j]).(localPath := path);
      }
    }
    if VerifyAll(data, ts, load).err == None {
      forall k: Kind ensures load(path, DefaultTemplate(k).fileName, data[k].remotePath).Ok? {
        assert !Fails(data, ts[Index(k)], load);
      }
    }
  }

  lemma DefaultTemplatesLocalized(path: string)
    ensures DistinctKinds(WithLocalPath(DefaultTemplates(), path))
    ensures forall k: Kind :: WithLocalPath(DefaultTemplates(), path)[Index(k)] == DefaultTemplate(k).(localPath := path)
  {
    var ts := WithLocalPath(DefaultTemplates(), path);
    DefaultTemplatesBindEveryKind();
    assert forall i :: 0 <= i < |ts| ==> ts[i].kind == DefaultTemplates()[i].kind;
  }
}
