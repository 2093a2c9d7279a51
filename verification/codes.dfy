/** The verification-code manager: a code store and a cooldown store, both
    expiring key-value caches keyed by the lower-cased address. */
module Codes {
  import opened Wrappers
  import opened Text
  import Payloads

  /** A stored code: the control id it was issued for and the code itself. */
  datatype CodeData = CodeData(cid: int, code: string)

  /** The manager's three sentinels. */
  datatype CodeError = ErrEmailCodeCooldown | ErrEmailCodeExpired | ErrEmailCodeInvalid

  /** An entry of an expiring store: its value and the instant it expires. */
  datatype Entry<V> = Entry(value: V, expiresAt: int)

  type Store<V> = map<string, Entry<V>>

  /** A cache read: an entry is seen only before the instant it expires. */
  function Get<V>(s: Store<V>, key: string, now: int): (r: Option<V>)
    ensures r.Some? <==> key in s && now < s[key].expiresAt
    ensures r.Some? ==> r.value == s[key].value
  {
    if key in s && now < s[key].expiresAt then Some(s[key].value) else None
  }

  /** The code store and the cooldown store (whose value is the issue time). */
  datatype Stores = Stores(codes: Store<CodeData>, marks: Store<int>)

  /** Every cooldown mark was issued no later than `now` and lives for
      exactly `interval` from its issue. */
  ghost predicate Consistent(st: Stores, now: int, interval: int)
  {
    forall k :: k in st.marks ==> st.marks[k].value <= now && st.marks[k].expiresAt == st.marks[k].value + interval
  }

  predicate InCooldown(st: Stores, key: string, now: int)
  {
    Get(st.marks, key, now).Some?
  }

  datatype Generated = Generated(next: Stores, wait: int, err: Option<CodeError>)

  /** `GenerateEmailCode` at instant `now`, with `code` the freshly drawn
      random code. While a cooldown mark is live nothing is written and the
      remaining wait is reported; otherwise the code replaces whatever the
      address had and a new mark is set. */
  function Generate(st: Stores, now: int, expire: int, interval: int, target: string, cid: int, code: string): (g: Generated)
    ensures InCooldown(st, ToLower(target), now) ==>
      && g.err == Some(ErrEmailCodeCooldown) && g.next == st
      && g.wait == st.marks[ToLower(target)].value + interval - now
    ensures !InCooldown(st, ToLower(target), now) ==>
      && g.err == None && g.wait == 0
      && (forall t :: now <= t < now + expire ==> Get(g.next.codes, ToLower(target), t) == Some(CodeData(cid, code)))
      && (forall t :: t >= now + expire ==> Get(g.next.codes, ToLower(target), t) == None)
      && (forall t :: now <= t < now + interval ==> InCooldown(g.next, ToLower(target), t))
      && ToLower(target) in g.next.marks && g.next.marks[ToLower(target)] == Entry(now, now + interval)
    ensures forall k :: k != ToLower(target) ==>
      && (k in g.next.codes <==> k in st.codes) && (k in st.codes ==> g.next.codes[k] == st.codes[k])
      && (k in g.next.marks <==> k in st.marks) && (k in st.marks ==> g.next.marks[k] == st.marks[k])
  {
    var key := ToLower(target);
    match Get(st.marks, key, now)
    case Some(issuedAt) => Generated(st, issuedAt + interval - now, Some(ErrEmailCodeCooldown))
    case None =>
      var codes := st.codes[key := Entry(CodeData(cid, code), now + expire)];
      var marks := st.marks[key := Entry(now, now + interval)];
      Generated(Stores(codes, marks), 0, None)
  }

  datatype Verified = Verified(next: Stores, err: Option<CodeError>)

  /** `VerifyEmailCode` at instant `now`: no live entry means expired; a
      live entry that differs in code or control id means invalid and is
      kept; an exact match consumes the entry. The cooldown store is never
      touched. */
  function Verify(st: Stores, now: int, target: string, cid: int, code: string): (v: Verified)
    ensures v.next.marks == st.marks
    ensures Get(st.codes, ToLower(target), now) == None ==> v == Verified(st, Some(ErrEmailCodeExpired))
    ensures Get(st.codes, ToLower(target), now).Some? && Get(st.codes, ToLower(target), now) != Some(CodeData(cid, code)) ==>
      v == Verified(st, Some(ErrEmailCodeInvalid))
    ensures v.err == None <==> Get(st.codes, ToLower(target), now) == Some(CodeData(cid, code))
    ensures v.err == None ==> v.next.codes == st.codes - {ToLower(target)}
  {
    var key := ToLower(target);
    match Get(st.codes, key, now)
    case None => Verified(st, Some(ErrEmailCodeExpired))
    case Some(d) =>
      if d.code != code || d.cid != cid then Verified(st, Some(ErrEmailCodeInvalid))
      else Verified(Stores(st.codes - {key}, st.marks), None)
  }

  /** Dropping an address's code, and only its code. */
  function Remove(st: Stores, target: string): (r: Stores)
    ensures r.marks == st.marks
    ensures ToLower(target) !in r.codes
    ensures forall k :: k != ToLower(target) ==> (k in r.codes <==> k in st.codes) && (k in st.codes ==> r.codes[k] == st.codes[k])
  {
    Stores(st.codes - {ToLower(target)}, st.marks)
  }

  // ---------------------------------------------------------------------
  // Properties of the code life cycle

  /** A refused generation reports a wait that is positive and no longer
      than the interval. */
  lemma CooldownWaitBounds(st: Stores, now: int, expire: int, interval: int, target: string, cid: int, code: string)
    requires Consistent(st, now, interval)
    requires Generate(st, now, expire, interval, target, cid, code).err == Some(ErrEmailCodeCooldown)
    ensures 0 < Generate(st, now, expire, interval, target, cid, code).wait <= interval
  {
  }

  /** The addresses are compared without regard to case: addresses that
      differ only in case share one code and one cooldown. */
  lemma CaseInsensitiveKeys(st: Stores, now: int, expire: int, interval: int, a: string, b: string, cid: int, code: string)
    requires EqualFold(a, b)
    ensures Generate(st, now, expire, interval, a, cid, code) == Generate(st, now, expire, interval, b, cid, code)
    ensures Verify(st, now, a, cid, code) == Verify(st, now, b, cid, code)
    ensures Remove(st, a) == Remove(st, b)
  {
    EqualFoldSameKey(a, b);
  }

  /** A second request inside the cooldown window is refused, whatever the
      case of the address, and the wait is what is left of the window. */
  lemma SecondRequestInCooldown(st: Stores, now: int, expire: int, interval: int, target: string, cid: int, code: string,
                                later: int, target2: string, cid2: int, code2: string)
    requires Generate(st, now, expire, interval, target, cid, code).err == None
    requires now <= later < now + interval
    requires EqualFold(target, target2)
    ensures var g1 := Generate(st, now, expire, interval, target, cid, code);
      var g2 := Generate(g1.next, later, expire, interval, target2, cid2, code2);
      g2.err == Some(ErrEmailCodeCooldown) && g2.next == g1.next && g2.wait == now + interval - later
  {
    EqualFoldSameKey(target, target2);
  }

  /** A code just issued verifies once, before it expires; repeating the
      same verification then reports it expired. */
  lemma IssuedCodeVerifiesOnce(st: Stores, now: int, expire: int, interval: int, target: string, cid: int, code: string,
                               t: int, target2: string)
    requires Generate(st, now, expire, interval, target, cid, code).err == None
    requires now <= t < now + expire
    requires EqualFold(target, target2)
    ensures var g := Generate(st, now, expire, interval, target, cid, code);
      var v1 := Verify(g.next, t, target2, cid, code);
      var v2 := Verify(v1.next, t, target2, cid, code);
      v1.err == None && v2.err == Some(ErrEmailCodeExpired)
  {
    EqualFoldSameKey(target, target2);
  }

  /** A consumed code can never be replayed, at any later instant. */
  lemma NoReplay(st: Stores, now: int, target: string, cid: int, code: string, later: int)
    requires Verify(st, now, target, cid, code).err == None
    ensures Verify(Verify(st, now, target, cid, code).next, later, target, cid, code).err == Some(ErrEmailCodeExpired)
  {
  }

  /** A wrong code or a wrong control id is rejected without consuming the
      entry, so the right pair still succeeds afterwards. */
  lemma WrongAttemptKeepsEntry(st: Stores, now: int, target: string, cid: int, code: string, cid2: int, code2: string)
    requires Get(st.codes, ToLower(target), now) == Some(CodeData(cid, code))
    requires cid2 != cid || code2 != code
    ensures var v1 := Verify(st, now, target, cid2, code2);
      v1 == Verified(st, Some(ErrEmailCodeInvalid)) && Verify(v1.next, now, target, cid, code).err == None
  {
  }

  /** Once the expiry has elapsed, an issued code reports expired. */
  lemma IssuedCodeExpires(st: Stores, now: int, expire: int, interval: int, target: string, cid: int, code: string, t: int)
    requires Generate(st, now, expire, interval, target, cid, code).err == None
    requires t >= now + expire
    ensures Verify(Generate(st, now, expire, interval, target, cid, code).next, t, target, cid, code).err == Some(ErrEmailCodeExpired)
  {
  }

  /** Only the newest code is valid: after the cooldown has passed and a new
      code was issued, the earlier code is rejected as invalid. */
  lemma NewerCodeSupersedes(st: Stores, n1: int, n2: int, expire: int, interval: int, target: string,
                            cid: int, code1: string, code2: string, t: int)
    requires interval > 0
    requires Generate(st, n1, expire, interval, target, cid, code1).err == None
    requires n1 + interval <= n2 && n2 <= t < n2 + expire
    requires code1 != code2
    ensures var g1 := Generate(st, n1, expire, interval, target, cid, code1);
      var g2 := Generate(g1.next, n2, expire, interval, target, cid, code2);
      g2.err == None && Verify(g2.next, t, target, cid, code1).err == Some(ErrEmailCodeInvalid)
  {
    var g1 := Generate(st, n1, expire, interval, target, cid, code1);
    assert !InCooldown(g1.next, ToLower(target), n2);
  }

  /** Verifying does not lift the cooldown: right after a successful
      verification a new code is still refused inside the window. */
  lemma CooldownSurvivesVerify(st: Stores, now: int, expire: int, interval: int, target: string, cid: int, code: string,
                               t: int, later: int, cid2: int, code2: string)
    requires Generate(st, now, expire, interval, target, cid, code).err == None
    requires now <= t <= later < now + interval
    ensures var g := Generate(st, now, expire, interval, target, cid, code);
      var v := Verify(g.next, t, target, cid, code);
      Generate(v.next, later, expire, interval, target, cid2, code2).err == Some(ErrEmailCodeCooldown)
  {
  }

  /** Each step keeps the stores consistent with the clock. */
  lemma StepsKeepConsistency(st: Stores, now: int, expire: int, interval: int, target: string, cid: int, code: string)
    requires Consistent(st, now, interval)
    ensures Consistent(Generate(st, now, expire, interval, target, cid, code).next, now, interval)
    ensures Consistent(Verify(st, now, target, cid, code).next, now, interval)
    ensures Consistent(Remove(st, target), now, interval)
  {
  }

  // ---------------------------------------------------------------------
  // The manager object

  class CodeManager {
    /** The configured code lifetime and resend interval. */
    const expire: int
    const interval: int
    /** How an instant is written into the mail (RFC 3339) and how the
        lifetime is written in minutes; both are library formatting. */
    const formatInstant: int -> string
    const formatMinutes: int -> string

    var codes: Store<CodeData>
    var marks: Store<int>
    /** The current instant, as the manager reads it from the clock. */
    var clock: int

    function State(): Stores
      reads this
    {
      Stores(codes, marks)
    }

    ghost predicate Valid()
      reads this
    {
      Consistent(State(), clock, interval)
    }

    constructor (expire: int, interval: int, formatInstant: int -> string, formatMinutes: int -> string, start: int)
      ensures Valid()
      ensures this.expire == expire && this.interval == interval
      ensures this.formatInstant == formatInstant && this.formatMinutes == formatMinutes
      ensures codes == map[] && marks == map[] && clock == start
    {
      this.expire := expire;
      this.interval := interval;
      this.formatInstant := formatInstant;
      this.formatMinutes := formatMinutes;
      codes := map[];
      marks := map[];
      clock := start;
    }

    /** Time passes; the stores forget nothing, their entries simply expire. */
    method Advance(d: nat)
      requires Valid()
      modifies this
      ensures Valid()
      ensures clock == old(clock) + d && State() == old(State())
    {
      clock := clock + d;
    }

    /** `code` is the random six-character code drawn for this call. */
    method GenerateEmailCode(target: string, cid: int, code: string)
      returns (payload: Option<Payloads.Payload>, wait: int, err: Option<CodeError>)
      requires Valid() && |code| == 6
      modifies this
      ensures Valid() && clock == old(clock)
      ensures var g := Generate(old(State()), clock, expire, interval, target, cid, code);
        State() == g.next && wait == g.wait && err == g.err
      ensures payload == if err == None
        then Some(Payloads.VerifyCodeEmail(FormatCid(cid), code, formatInstant(clock + expire), formatMinutes(expire)))
        else None
    {
      var key := ToLower(target);
      var mark := Get(marks, key, clock);
      if mark.Some? {
        return None, mark.value + interval - clock, Some(ErrEmailCodeCooldown);
      }
      var expireAt := clock + expire;
      codes := codes[key := Entry(CodeData(cid, code), expireAt)];
      marks := marks[key := Entry(clock, clock + interval)];
      payload := Some(Payloads.VerifyCodeEmail(FormatCid(cid), code, formatInstant(expireAt), formatMinutes(expire)));
      wait, err := 0, None;
    }

    method VerifyEmailCode(target: string, cid: int, code: string) returns (err: Option<CodeError>)
      requires Valid()
      modifies this
      ensures Valid() && clock == old(clock)
      ensures var v := Verify(old(State()), clock, target, cid, code);
        State() == v.next && err == v.err
    {
      var key := ToLower(target);
      var entry := Get(codes, key, clock);
      if entry.None? {
        return Some(ErrEmailCodeExpired);
      }
      if entry.value.code != code || entry.value.cid != cid {
        return Some(ErrEmailCodeInvalid);
      }
      codes := codes - {key};
      err := None;
    }

    method RemoveEmailCode(target: string)
      requires Valid()
      modifies this
      ensures Valid() && clock == old(clock)
      ensures State() == Remove(old(State()), target)
    {
      codes := codes - {ToLower(target)};
    }
  }
}
