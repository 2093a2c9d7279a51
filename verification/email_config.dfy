/** The mail configuration block: its defaults and the checks run on it at
    start-up, before the templates are verified. */
module EmailSettings {
  import opened Wrappers
  import opened Templates

  datatype ConfigError =
    | HostEmpty
    | PortNotPositive
    | PortTooLarge
    | UsernameEmpty
    | PasswordEmpty
    | DialFailed(reason: string)
    | ExpireEmpty
    | ExpireInvalid
    | IntervalEmpty
    | IntervalInvalid
    | TemplateFailed(reason: string)

  /** The SMTP field checks, in their order: the first failing one is reported. */
  function SmtpCheck(host: string, port: int, username: string, password: string): (r: Option<ConfigError>)
    ensures r == None <==> host != "" && 0 < port < 65535 && username != "" && password != ""
    ensures r == Some(HostEmpty) <==> host == ""
    ensures r == Some(PortNotPositive) <==> host != "" && port <= 0
    ensures r == Some(PortTooLarge) <==> host != "" && port >= 65535
    ensures r == Some(UsernameEmpty) <==> host != "" && 0 < port < 65535 && username == ""
    ensures r == Some(PasswordEmpty) <==> host != "" && 0 < port < 65535 && username != "" && password == ""
  {
    if host == "" then Some(HostEmpty)
    else if port <= 0 then Some(PortNotPositive)
    else if port >= 65535 then Some(PortTooLarge)
    else if username == "" then Some(UsernameEmpty)
    else if password == "" then Some(PasswordEmpty)
    else None
  }

  /** The duration parser (time.ParseDuration); abstract here. */
  type DurationParser = string -> Option<int>

  /** What the checks before the template pass decide: whether the SMTP
      server was dialled, which durations were parsed (and so stored), and
      the error that stops start-up, if any. */
  datatype Settled = Settled(dialed: bool, expire: Option<int>, interval: Option<int>, err: Option<ConfigError>)

  /** The field checks, the dial (whose outcome `dial` is given: None when the
      connection succeeds) and the two duration parses, in source order. */
  function Settle(host: string, port: int, username: string, password: string, dial: Option<string>,
                  verifyExpire: string, verifyInterval: string, parse: DurationParser): (r: Settled)
    ensures r.dialed <==> SmtpCheck(host, port, username, password) == None
    ensures r.err == None <==>
      && SmtpCheck(host, port, username, password) == None && dial == None
      && verifyExpire != "" && parse(verifyExpire).Some?
      && verifyInterval != "" && parse(verifyInterval).Some?
    ensures SmtpCheck(host, port, username, password).Some? ==> r.err == SmtpCheck(host, port, username, password)
    ensures r.expire.Some? ==> r.dialed && dial == None && r.expire == parse(verifyExpire)
    ensures r.interval.Some? ==> r.err == None && r.interval == parse(verifyInterval)
    ensures r.err == None ==> r.expire == parse(verifyExpire)
    ensures SmtpCheck(host, port, username, password) == None && dial.Some? ==>
      r.err == Some(DialFailed(dial.value)) && r.expire == None
    ensures SmtpCheck(host, port, username, password) == None && dial == None ==>
      && (verifyExpire == "" ==> r.err == Some(ExpireEmpty) && r.expire == None)
      && (verifyExpire != "" && parse(verifyExpire).None? ==> r.err == Some(ExpireInvalid) && r.expire == None)
    ensures SmtpCheck(host, port, username, password) == None && dial == None && verifyExpire != "" && parse(verifyExpire).Some? ==>
      && r.expire == parse(verifyExpire)
      && (verifyInterval == "" ==> r.err == Some(IntervalEmpty) && r.interval == None)
      && (verifyInterval != "" && parse(verifyInterval).None? ==> r.err == Some(IntervalInvalid) && r.interval == None)
  {
    var fields := SmtpCheck(host, port, username, password);
    if fields.Some? then Settled(false, None, None, fields)
    else if dial.Some? then Settled(true, None, None, Some(DialFailed(dial.value)))
    else if verifyExpire == "" then Settled(true, None, None, Some(ExpireEmpty))
    else if parse(verifyExpire).None? then Settled(true, None, None, Some(ExpireInvalid))
    else if verifyInterval == "" then Settled(true, parse(verifyExpire), None, Some(IntervalEmpty))
    else if parse(verifyInterval).None? then Settled(true, parse(verifyExpire), None, Some(IntervalInvalid))
    else Settled(true, parse(verifyExpire), parse(verifyInterval), None)
  }

  /** The port bound is strict at both ends: 65535 itself is refused,
      65534 and 1 pass. */
  lemma PortBounds(host: string, username: string, password: string)
    requires host != "" && username != "" && password != ""
    ensures SmtpCheck(host, 65535, username, password) == Some(PortTooLarge)
    ensures SmtpCheck(host, 0, username, password) == Some(PortNotPositive)
    ensures SmtpCheck(host, 65534, username, password) == None
    ensures SmtpCheck(host, 1, username, password) == None
  {
  }

  class EmailConfig {
    var host: string
    var port: int
    var username: string
    var password: string
    var verifyExpire: string
    var verifyInterval: string
    var expireDuration: int
    var intervalDuration: int
    /** The template directory of the enclosing templates block. */
    var templateRoot: string
    var templates: TemplateConfig

    /** The defaults; username and password are left empty. */
    constructor InitDefaults()
      ensures host == "smtp.example.com" && port == 587
      ensures username == "" && password == ""
      ensures verifyExpire == "5m" && verifyInterval == "1m"
      ensures expireDuration == 0 && intervalDuration == 0
      ensures templateRoot == "data/templates"
      ensures fresh(templates) && templates.templates == DefaultTemplates()
    {
      host := "smtp.example.com";
      port := 587;
      username := "";
      password := "";
      verifyExpire := "5m";
      verifyInterval := "1m";
      expireDuration := 0;
      intervalDuration := 0;
      templateRoot := "data/templates";
      templates := new TemplateConfig.InitDefaults();
    }

    /** Runs the checks; parsed durations are stored as soon as they parse;
        when every check passes, the template directory is handed down and
        the template pass decides the outcome. */
    method Verify(dial: Option<string>, parse: DurationParser, reg: Registry, load: Loader)
      returns (ok: bool, err: Option<ConfigError>)
      requires reg.Valid()
      modifies this, templates, reg
      ensures reg.Valid()
      ensures host == old(host) && port == old(port) && username == old(username) && password == old(password)
      ensures verifyExpire == old(verifyExpire) && verifyInterval == old(verifyInterval)
      ensures templateRoot == old(templateRoot) && templates == old(templates)
      ensures var st := Settle(old(host), old(port), old(username), old(password), dial,
                               old(verifyExpire), old(verifyInterval), parse);
        && expireDuration == (if st.expire.Some? then st.expire.value else old(expireDuration))
        && intervalDuration == (if st.interval.Some? then st.interval.value else old(intervalDuration))
        && (st.err.Some? ==>
              && err == st.err && reg.data == old(reg.data)
              && templates.templates == old(templates.templates) && templates.localPath == old(templates.localPath))
        && (st.err.None? ==>
              && templates.localPath == templateRoot
              && templates.templates == WithLocalPath(old(templates.templates), templateRoot)
              && reg.data == VerifyAll(old(reg.data), templates.templates, load).data
              && err == (match VerifyAll(old(reg.data), templates.templates, load).err
                         case None => None
                         case Some(e) => Some(TemplateFailed(e))))
      ensures ok <==> err == None
    {
      var st := Settle(host, port, username, password, dial, verifyExpire, verifyInterval, parse);
      if st.expire.Some? {
        expireDuration := st.expire.value;
      }
      if st.interval.Some? {
        intervalDuration := st.interval.value;
      }
      if st.err.Some? {
        return false, st.err;
      }
      templates.localPath := templateRoot;
      var templatesOk, templateErr := templates.Verify(reg, load);
      if templatesOk {
        ok, err := true, None;
      } else {
        ok, err := false, Some(TemplateFailed(templateErr.value));
      }
    }
  }

  /** The defaults do not pass the checks: the username is empty, so
      start-up stops before dialling. */
  lemma DefaultsRejected(dial: Option<string>, parse: DurationParser)
    ensures var st := Settle("smtp.example.com", 587, "", "", dial, "5m", "1m", parse);
      st.err == Some(UsernameEmpty) && !st.dialed
  {
  }
}
