/** The HTTP request form for a verification code, and its validation: the
    address must match `^[\w-]+@[\w-]+(\.[\w-]+)+$` (with `\w` the ASCII
    word characters) and the control id must not be negative. */
module Dto {

  /** The body of a code request. */
  datatype SendEmailCodeForm = SendEmailCodeForm(cid: int, email: string)

  /** `\w`: an ASCII letter, digit or underscore. */
  predicate IsWordChar(c: char)
  {
    ('0' <= c <= '9') || ('A' <= c <= 'Z') || ('a' <= c <= 'z') || c == '_'
  }

  /** `[\w-]`. */
  predicate IsAtomChar(c: char)
  {
    IsWordChar(c) || c == '-'
  }

  // ---------------------------------------------------------------------
  // The pattern as an automaton

  /** Where the matcher is: before the local part, inside it, right after
      the '@', inside the first domain label, right after a dot, inside a
      later label (the only accepting state), or failed. */
  datatype State = Start | Local | AfterAt | FirstLabel | AfterDot | Label | Dead

  /** One character of input. The start state is never re-entered, failure
      is final, and only `[\w-]`, '@' and '.' can keep the match alive. */
  function Step(q: State, c: char): (r: State)
    ensures r != Start
    ensures q == Dead ==> r == Dead
    ensures r != Dead ==> IsAtomChar(c) || c == '@' || c == '.'
  {
    match q
    case Start => if IsAtomChar(c) then Local else Dead
    case Local => if IsAtomChar(c) then Local else if c == '@' then AfterAt else Dead
    case AfterAt => if IsAtomChar(c) then FirstLabel else Dead
    case FirstLabel => if IsAtomChar(c) then FirstLabel else if c == '.' then AfterDot else Dead
    case AfterDot => if IsAtomChar(c) then Label else Dead
    case Label => if IsAtomChar(c) then Label else if c == '.' then AfterDot else Dead
    case Dead => Dead
  }

  function Run(q: State, s: string): (r: State)
    ensures q == Dead ==> r == Dead
    ensures r != Dead ==> forall i :: 0 <= i < |s| ==> IsAtomChar(s[i]) || s[i] == '@' || s[i] == '.'
    decreases |s|
  {
    if s == [] then q else Run(Step(q, s[0]), s[1..])
  }

  /** The address pattern, anchored at both ends: it accepts exactly the
      addresses of the shape `AddressShape` describes. */
  function MatchesAddressPattern(s: string): (b: bool)
    ensures b <==> AddressShape(s)
  {
    PatternIsAddressShape(s);
    Run(Start, s) == Label
  }

  /** The form validation: a non-negative control id and an address of the
      accepted shape. */
  function ValidForm(f: SendEmailCodeForm): (b: bool)
    ensures b <==> f.cid >= 0 && AddressShape(f.email)
  {
    f.cid >= 0 && MatchesAddressPattern(f.email)
  }

  // ---------------------------------------------------------------------
  // The shape of an address, stated directly

  /** Only `[\w-]` characters. */
  predicate AllAtoms(t: string)
  {
    forall k :: 0 <= k < |t| ==> IsAtomChar(t[k])
  }

  /** Position `k` holds a `[\w-]` character, or a dot followed by one. */
  predicate OkAt(t: string, k: nat)
    requires k < |t|
  {
    IsAtomChar(t[k]) || (t[k] == '.' && k + 1 < |t| && IsAtomChar(t[k + 1]))
  }

  /** Every character is `[\w-]`, or a dot immediately followed by one. */
  predicate Tail(t: string)
  {
    forall k :: 0 <= k < |t| ==> OkAt(t, k)
  }

  /** A domain: labels of `[\w-]` joined by single dots, at least two of them. */
  predicate DomainShape(d: string)
  {
    |d| > 0 && IsAtomChar(d[0]) && Tail(d) && '.' in d
  }

  function IndexOf(s: string, c: char): (i: nat)
    requires c in s
    ensures i < |s| && s[i] == c && c !in s[..i]
  {
    if s[0] == c then 0 else
      var j := IndexOf(s[1..], c);
      assert s[1..][..j] == s[1..j + 1];
      j + 1
  }

  /** A non-empty local part of `[\w-]`, an '@', and a domain. */
  predicate AddressShape(s: string)
  {
    '@' in s && var i := IndexOf(s, '@');
    i > 0 && AllAtoms(s[..i]) && DomainShape(s[i + 1..])
  }

  // ---------------------------------------------------------------------
  // The automaton accepts exactly the addresses of that shape

  lemma TailCons(s: string)
    requires |s| > 0
    ensures Tail(s) <==>
      (IsAtomChar(s[0]) || (s[0] == '.' && |s| > 1 && IsAtomChar(s[1]))) && Tail(s[1..])
  {
    var r := s[1..];
    if (IsAtomChar(s[0]) || (s[0] == '.' && |s| > 1 && IsAtomChar(s[1]))) && Tail(r) {
      forall k | 0 <= k < |s| ensures OkAt(s, k) {
        if k > 0 {
          assert OkAt(r, k - 1);
        }
      }
    }
    if Tail(s) {
      assert OkAt(s, 0);
      forall k | 0 <= k < |r| ensures OkAt(r, k) {
        assert OkAt(s, k + 1);
      }
    }
  }

  lemma {:induction false} LabelRun(s: string)
    ensures Run(Label, s) == Label <==> Tail(s)
    decreases |s|
  {
    if s != [] {
      TailCons(s);
      var r := s[1..];
      if IsAtomChar(s[0]) {
        LabelRun(r);
      } else if s[0] == '.' {
        if r == [] {
        } else {
          TailCons(r);
          if IsAtomChar(r[0]) {
            LabelRun(r[1..]);
          } else {
          }
        }
      } else {
      }
    }
  }

  lemma {:induction false} FirstLabelRun(s: string)
    ensures Run(FirstLabel, s) == Label <==> Tail(s) && '.' in s
    decreases |s|
  {
    if s != [] {
      TailCons(s);
      var r := s[1..];
      assert '.' in s <==> s[0] == '.' || '.' in r;
      if IsAtomChar(s[0]) {
        FirstLabelRun(r);
      } else if s[0] == '.' {
        if r != [] {
          TailCons(r);
          if IsAtomChar(r[0]) {
            LabelRun(r[1..]);
          } else {
          }
        }
      } else {
      }
    }
  }

  lemma AfterAtRun(s: string)
    ensures Run(AfterAt, s) == Label <==> DomainShape(s)
  {
    if s != [] {
      TailCons(s);
      assert '.' in s <==> s[0] == '.' || '.' in s[1..];
      if IsAtomChar(s[0]) {
        FirstLabelRun(s[1..]);
      } else {
      }
    }
  }

  /** Inside the local part: accepted iff the rest of the local part is
      `[\w-]` up to the first '@', and a domain follows it. */
  lemma {:induction false} LocalRun(s: string)
    ensures Run(Local, s) == Label <==>
      '@' in s && AllAtoms(s[..IndexOf(s, '@')]) && DomainShape(s[IndexOf(s, '@') + 1..])
    decreases |s|
  {
    if s != [] {
      var r := s[1..];
      if s[0] == '@' {
        assert IndexOf(s, '@') == 0;
        AfterAtRun(r);
      } else if IsAtomChar(s[0]) {
        LocalRun(r);
        assert '@' in s <==> '@' in r;
        if '@' in r {
          var j := IndexOf(r, '@');
          assert s[j + 1] == '@' && '@' !in s[..j + 1] by {
            assert s[..j + 1] == [s[0]] + r[..j];
          }
          IndexOfUnique(s, '@', j + 1);
          assert s[..j + 1] == [s[0]] + r[..j];
          assert s[j + 2..] == r[j + 1..];
          AllAtomsCons(s[0], r[..j]);
        }
      } else {
        if '@' in s {
          var i := IndexOf(s, '@');
          assert i > 0;
          assert s[..i][0] == s[0];
        }
      }
    }
  }

  lemma IndexOfUnique(s: string, c: char, i: nat)
    requires i < |s| && s[i] == c && c !in s[..i]
    ensures IndexOf(s, c) == i
  {
    var j := IndexOf(s, c);
  }

  lemma AllAtomsCons(c: char, t: string)
    ensures AllAtoms([c] + t) <==> IsAtomChar(c) && AllAtoms(t)
  {
    if IsAtomChar(c) && AllAtoms(t) {
      forall k | 0 <= k < |[c] + t| ensures IsAtomChar(([c] + t)[k]) {
        if k > 0 {
          assert ([c] + t)[k] == t[k - 1];
        }
      }
    }
    if AllAtoms([c] + t) {
      assert ([c] + t)[0] == c;
      forall k | 0 <= k < |t| ensures IsAtomChar(t[k]) {
        assert ([c] + t)[k + 1] == t[k];
      }
    }
  }

  /** The automaton and the direct description agree on every string. */
  lemma PatternIsAddressShape(s: string)
    ensures Run(Start, s) == Label <==> AddressShape(s)
  {
    if s != [] {
      var r := s[1..];
      if IsAtomChar(s[0]) {
        LocalRun(r);
        assert '@' in s <==> '@' in r;
        if '@' in r {
          var j := IndexOf(r, '@');
          assert s[..j + 1] == [s[0]] + r[..j];
          IndexOfUnique(s, '@', j + 1);
          assert s[j + 2..] == r[j + 1..];
          AllAtomsCons(s[0], r[..j]);
        }
      } else {
        if '@' in s {
          var i := IndexOf(s, '@');
          if i > 0 {
            assert s[..i][0] == s[0];
          }
        }
      }
    }
  }

  // ---------------------------------------------------------------------
  // What an accepted address looks like

  /** An accepted address has exactly one '@', preceded by a non-empty
      local part that holds no '.' and no '+'. */
  lemma AcceptedLocalPart(s: string)
    requires MatchesAddressPattern(s)
    ensures '@' in s
    ensures var i := IndexOf(s, '@');
      && 0 < i && '@' !in s[..i] && '@' !in s[i + 1..]
      && forall k :: 0 <= k < i ==> s[k] != '.' && s[k] != '+'
  {
    PatternIsAddressShape(s);
    var i := IndexOf(s, '@');
    assert AllAtoms(s[..i]);
    forall k | 0 <= k < i ensures s[k] != '.' && s[k] != '+' {
      assert s[..i][k] == s[k];
    }
    var d := s[i + 1..];
    forall k | 0 <= k < |d| ensures d[k] != '@' {
      assert OkAt(d, k);
    }
  }

  /** The domain of an accepted address has at least two labels: it holds a
      dot, does not begin or end with one, and never has two in a row. */
  lemma AcceptedDomain(s: string)
    requires MatchesAddressPattern(s)
    ensures '@' in s
    ensures var d := s[IndexOf(s, '@') + 1..];
      && |d| >= 3 && '.' in d && d[0] != '.' && d[|d| - 1] != '.'
      && forall k :: 0 <= k < |d| - 1 ==> !(d[k] == '.' && d[k + 1] == '.')
  {
    PatternIsAddressShape(s);
    var d := s[IndexOf(s, '@') + 1..];
    var j := IndexOf(d, '.');
    assert OkAt(d, j) && OkAt(d, |d| - 1);
    forall k | 0 <= k < |d| - 1 ensures !(d[k] == '.' && d[k + 1] == '.') {
      assert OkAt(d, k);
    }
  }

  /** Matching a concatenation is matching its parts one after the other. */
  lemma {:induction false} RunAppend(q: State, a: string, b: string)
    ensures Run(q, a + b) == Run(Run(q, a), b)
    decreases |a|
  {
    if a == [] {
      assert a + b == b;
    } else {
      assert (a + b)[0] == a[0];
      assert (a + b)[1..] == a[1..] + b;
      RunAppend(Step(q, a[0]), a[1..], b);
    }
  }

  /** Inside a run of `[\w-]`, the matcher stays where it is. */
  lemma {:induction false} RunAtoms(q: State, u: string)
    requires q == Local || q == FirstLabel || q == Label
    requires AllAtoms(u)
    ensures Run(q, u) == q
    decreases |u|
  {
    if u != [] {
      assert IsAtomChar(u[0]);
      assert AllAtoms(u[1..]) by {
        forall k | 0 <= k < |u[1..]| ensures IsAtomChar(u[1..][k]) {
          assert u[1..][k] == u[k + 1];
        }
      }
      RunAtoms(q, u[1..]);
    }
  }

  /** A dotted local part, as in "first.last@x.com", is refused: the
      matcher fails at the dot, whatever follows it. */
  lemma DottedLocalPartRejected(u: string, v: string)
    requires |u| > 0 && AllAtoms(u)
    ensures !MatchesAddressPattern(u + "." + v)
  {
    assert u + "." + v == u + ("." + v);
    RunAppend(Start, u, "." + v);
    assert AllAtoms(u[1..]) by {
      forall k | 0 <= k < |u[1..]| ensures IsAtomChar(u[1..][k]) {
        assert u[1..][k] == u[k + 1];
      }
    }
    RunAtoms(Local, u[1..]);
    RunAppend(Local, ".", v);
    assert Run(Start, u + "." + v) == Dead;
  }

  /** The shortest case of the above. */
  lemma DottedExampleRejected()
    ensures !MatchesAddressPattern("a.b@x.com")
  {
  }

  /** An address with a '+' tag in its local part is refused. */
  lemma PlusTagRejected()
    ensures !MatchesAddressPattern("ab+c@x.com")
  {
    var s := "ab+c@x.com";
    assert !IsAtomChar(s[2]);
  }

  /** A domain without a dot is refused. */
  lemma SingleLabelDomainRejected()
    ensures !MatchesAddressPattern("abc@xcom")
  {
  }

  /** An ordinary address is accepted. */
  lemma PlainAddressAccepted()
    ensures MatchesAddressPattern("a_1@b-2.cn")
  {
  }

  /** The validation refuses a negative control id whatever the address. */
  lemma NegativeCidRejected(f: SendEmailCodeForm)
    requires f.cid < 0
    ensures !ValidForm(f)
  {
  }
}
