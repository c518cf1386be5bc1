// The email pattern `^[^\s@]+@[^\s@]+\.[^\s@]+$` shared by the register and
// login guards and the user schema, run as the automaton it denotes, and
// proved equal to its plain reading: no whitespace, exactly one '@' with
// something before it, and a '.' after the '@' with a character on each side.

module Email {
  import Text

  /** The class `[^\s@]`. */
  predicate PartChar(c: char)
  {
    !Text.IsSpace(c) && c != '@'
  }

  /** Where the match stands: `Local` has read the first part, `AfterAt` the
      '@', `Domain` at least one character after it, `Dot` a '.' that has a
      character before it, `Done` a character after such a '.'. */
  datatype State = Start | Local | AfterAt | Domain | Dot | Done | Reject

  function Step(st: State, c: char): State
  {
    if !PartChar(c) then
      (if c == '@' && st == Local then AfterAt else Reject)
    else
      match st
      case Start => Local
      case Local => Local
      case AfterAt => Domain
      case Domain => if c == '.' then Dot else Domain
      case Dot => Done
      case Done => Done
      case Reject => Reject
  }

  function Run(st: State, s: string): State
    decreases |s|
  {
    if s == [] then st else Run(Step(st, s[0]), s[1..])
  }

  /** `isValidEmail` (and the schema's `match`): the whole string matches. */
  predicate IsValidEmail(email: string)
  {
    Run(Start, email) == Done
  }

  predicate AllPart(s: string)
  {
    forall i :: 0 <= i < |s| ==> PartChar(s[i])
  }

  /** A '.' with at least one character on each side. */
  predicate DottedDomain(d: string)
  {
    exists k :: 0 < k < |d| - 1 && d[k] == '.'
  }

  /** The pattern in words. */
  predicate EmailShape(s: string)
  {
    && Text.NoSpace(s)
    && (exists a :: 0 < a < |s| && s[a] == '@'
         && (forall i :: 0 <= i < |s| && i != a ==> s[i] != '@')
         && DottedDomain(s[a + 1..]))
  }

  lemma {:induction false} RunReject(t: string)
    ensures Run(Reject, t) == Reject
  {
    if t != [] { RunReject(t[1..]); }
  }

  lemma {:induction false} RunDone(t: string)
    ensures Run(Done, t) == Done <==> AllPart(t)
  {
    if t != [] {
      if PartChar(t[0]) { RunDone(t[1..]); } else { RunReject(t[1..]); }
    }
  }

  lemma {:induction false} RunDot(t: string)
    ensures Run(Dot, t) == Done <==> t != [] && AllPart(t)
  {
    if t != [] {
      if PartChar(t[0]) { RunDone(t[1..]); } else { RunReject(t[1..]); }
    }
  }

  lemma {:induction false} RunDomain(t: string)
    ensures Run(Domain, t) == Done <==>
      AllPart(t) && exists k :: 0 <= k < |t| - 1 && t[k] == '.'
  {
    if t != [] {
      var rest := t[1..];
      if !PartChar(t[0]) {
        RunReject(rest);
      } else if t[0] == '.' {
        RunDot(rest);
        if AllPart(t) && |t| > 1 { assert 0 <= 0 < |t| - 1 && t[0] == '.'; }
      } else {
        RunDomain(rest);
        if exists k :: 0 <= k < |t| - 1 && t[k] == '.' {
          var k :| 0 <= k < |t| - 1 && t[k] == '.';
          assert rest[k - 1] == '.';
        }
        if exists k :: 0 <= k < |rest| - 1 && rest[k] == '.' {
          var k :| 0 <= k < |rest| - 1 && rest[k] == '.';
          assert t[k + 1] == '.';
        }
      }
    }
  }

  lemma {:induction false} RunAfterAt(t: string)
    ensures Run(AfterAt, t) == Done <==> AllPart(t) && DottedDomain(t)
  {
    if t != [] {
      var rest := t[1..];
      if !PartChar(t[0]) {
        RunReject(rest);
      } else {
        RunDomain(rest);
        if DottedDomain(t) {
          var k :| 0 < k < |t| - 1 && t[k] == '.';
          assert rest[k - 1] == '.';
        }
        if exists k :: 0 <= k < |rest| - 1 && rest[k] == '.' {
          var k :| 0 <= k < |rest| - 1 && rest[k] == '.';
          assert t[k + 1] == '.';
        }
      }
    }
  }

  /** After the first part: one '@' later on, and a dotted domain behind it. */
  predicate LocalRest(t: string)
  {
    exists a :: 0 <= a < |t| && t[a] == '@'
      && (forall i :: 0 <= i < |t| && i != a ==> PartChar(t[i]))
      && DottedDomain(t[a + 1..])
  }

  /** A leading '@' is the one `LocalRest` asks for. */
  lemma LocalRestAt(t: string)
    requires t != [] && t[0] == '@'
    ensures LocalRest(t) <==> AllPart(t[1..]) && DottedDomain(t[1..])
  {
    var rest := t[1..];
    if LocalRest(t) {
      var a :| 0 <= a < |t| && t[a] == '@'
        && (forall i :: 0 <= i < |t| && i != a ==> PartChar(t[i]))
        && DottedDomain(t[a + 1..]);
      assert a == 0;
      assert forall i :: 0 <= i < |rest| ==> rest[i] == t[i + 1];
    }
    if AllPart(rest) && DottedDomain(rest) {
      assert t[0 + 1..] == rest;
      assert forall i :: 0 <= i < |t| && i != 0 ==> PartChar(t[i]) by {
        forall i | 0 <= i < |t| && i != 0 ensures PartChar(t[i]) { assert t[i] == rest[i - 1]; }
      }
    }
  }

  /** A leading part character leaves `LocalRest` to the rest. */
  lemma LocalRestStep(t: string)
    requires t != [] && t[0] != '@' && PartChar(t[0])
    ensures LocalRest(t) <==> LocalRest(t[1..])
  {
    var rest := t[1..];
    if LocalRest(t) {
      var a :| 0 <= a < |t| && t[a] == '@'
        && (forall i :: 0 <= i < |t| && i != a ==> PartChar(t[i]))
        && DottedDomain(t[a + 1..]);
      assert a > 0;
      assert rest[a - 1] == '@';
      assert rest[a - 1 + 1..] == t[a + 1..];
      assert forall i :: 0 <= i < |rest| && i != a - 1 ==> PartChar(rest[i]) by {
        forall i | 0 <= i < |rest| && i != a - 1 ensures PartChar(rest[i]) { assert rest[i] == t[i + 1]; }
      }
    }
    if LocalRest(rest) {
      var a :| 0 <= a < |rest| && rest[a] == '@'
        && (forall i :: 0 <= i < |rest| && i != a ==> PartChar(rest[i]))
        && DottedDomain(rest[a + 1..]);
      assert t[a + 1] == '@';
      assert t[a + 1 + 1..] == rest[a + 1..];
      assert forall i :: 0 <= i < |t| && i != a + 1 ==> PartChar(t[i]) by {
        forall i | 0 <= i < |t| && i != a + 1 ensures PartChar(t[i]) {
          if i > 0 { assert t[i] == rest[i - 1]; }
        }
      }
    }
  }

  lemma {:induction false} RunLocal(t: string)
    ensures Run(Local, t) == Done <==> LocalRest(t)
  {
    if t != [] {
      var rest := t[1..];
      if t[0] == '@' {
        RunAfterAt(rest);
        LocalRestAt(t);
      } else if !PartChar(t[0]) {
        RunReject(rest);
      } else {
        RunLocal(rest);
        LocalRestStep(t);
      }
    }
  }

  lemma {:induction false} ShapeIsValid(s: string)
    requires EmailShape(s)
    ensures IsValidEmail(s)
  {
    var a :| 0 < a < |s| && s[a] == '@'
      && (forall i :: 0 <= i < |s| && i != a ==> s[i] != '@')
      && DottedDomain(s[a + 1..]);
    var rest := s[1..];
    assert PartChar(s[0]);
    assert rest[a - 1] == '@';
    assert rest[a - 1 + 1..] == s[a + 1..];
    forall i | 0 <= i < |rest| && i != a - 1 ensures PartChar(rest[i]) {
      assert rest[i] == s[i + 1];
    }
    assert LocalRest(rest);
    RunLocal(rest);
  }

  lemma {:induction false} ValidIsShape(s: string)
    requires IsValidEmail(s)
    ensures EmailShape(s)
  {
    assert s != [];
    var rest := s[1..];
    if !PartChar(s[0]) {
      RunReject(rest);
    } else {
      RunLocal(rest);
      var a :| 0 <= a < |rest| && rest[a] == '@'
        && (forall i :: 0 <= i < |rest| && i != a ==> PartChar(rest[i]))
        && DottedDomain(rest[a + 1..]);
      assert s[a + 1] == '@';
      assert s[a + 1 + 1..] == rest[a + 1..];
      forall i | 0 <= i < |s| ensures !Text.IsSpace(s[i]) && (i != a + 1 ==> s[i] != '@') {
        if i > 0 { assert s[i] == rest[i - 1]; }
      }
    }
  }

  /** `isValidEmail` holds exactly for strings of the shape the pattern describes. */
  lemma ValidEmailIff(s: string)
    ensures IsValidEmail(s) <==> EmailShape(s)
  {
    if IsValidEmail(s) { ValidIsShape(s); }
    if EmailShape(s) { ShapeIsValid(s); }
  }

  /** Lower-casing moves no character into or out of `[^\s@]`, and keeps '@'
      and '.', so every state of the automaton sees the same transition. */
  lemma StepLower(st: State, c: char)
    ensures Step(st, Text.LowerChar(c)) == Step(st, c)
  {
  }

  lemma {:induction false} RunLower(st: State, s: string)
    ensures Run(st, Text.ToLower(s)) == Run(st, s)
    decreases |s|
  {
    if s != [] {
      StepLower(st, s[0]);
      assert Text.ToLower(s)[1..] == Text.ToLower(s[1..]);
      RunLower(Step(st, s[0]), s[1..]);
    }
  }

  /** A valid address stays valid once lower-cased, and `trim` leaves it alone. */
  lemma {:induction false} LowerValidEmail(s: string)
    requires IsValidEmail(s)
    ensures IsValidEmail(Text.ToLower(s))
    ensures Text.NoSpace(Text.ToLower(s))
    ensures Text.Trim(Text.ToLower(s)) == Text.ToLower(s)
  {
    RunLower(Start, s);
    ValidEmailIff(s);
    Text.LowerKeepsSpaces(s);
    Text.TrimOfNoSpace(Text.ToLower(s));
  }

  /** The addresses of the registration tests: one accepted, one refused
      (it has no '@'). */
  lemma AcceptsExample(s: string)
    requires s == "alice@example.com"
    ensures IsValidEmail(s)
  {
    assert s[5] == '@';
    assert Text.NoSpace(s) by {
      forall i | 0 <= i < |s| ensures !Text.IsSpace(s[i]) {}
    }
    assert forall i :: 0 <= i < |s| && i != 5 ==> s[i] != '@';
    assert DottedDomain(s[6..]) by { assert s[6..][7] == '.'; }
    assert EmailShape(s);
    ShapeIsValid(s);
  }

  lemma RefusesExample()
    ensures !IsValidEmail("not-an-email")
  {
    var s := "not-an-email";
    assert forall i :: 0 <= i < |s| ==> s[i] != '@';
    if IsValidEmail(s) {
      ValidIsShape(s);
    }
  }
}
