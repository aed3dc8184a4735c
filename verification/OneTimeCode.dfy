/** One-time codes by email, by phone and as a second factor. The three plugins
    keep a code, the number of failed tries and the expiry in one verification
    row whose value is the text "code:tries". */
module OneTimeCode {
  import opened Strings
  import opened Decimal

  datatype Verification = Verification(value: string, expiresAt: int)

  datatype Slot = Empty | Row(v: Verification)

  type Rows = map<string, Verification>

  function SlotAt(rows: Rows, identifier: string): Slot
  {
    if identifier in rows then Row(rows[identifier]) else Empty
  }

  function Put(rows: Rows, identifier: string, slot: Slot): Rows
  {
    match slot
    case Empty => rows - {identifier}
    case Row(v) => rows[identifier := v]
  }

  function Encode(code: string, tries: int): string
  {
    code + ":" + Itoa(tries)
  }

  /** `splitEmailOTPValue`, `splitPhoneOTPValue`, `splitTwoFactorOTPValue`. */
  function SplitCode(value: string): (string, int)
  {
    var colon := Index(value, ":");
    if colon < 0 then (value, 0)
    else
      match Atoi(value[colon + 1..])
      case Malformed => (value[..colon], 0)
      case Number(n) => (value[..colon], n)
  }

  /** The first colon of the value is the one after the code, or one inside it. */
  lemma FirstColon(code: string, tail: string)
    ensures var colon := Index(code + (":" + tail), ":");
            if ':' in code then 0 <= colon < |code| else colon == |code|
  {
    var value := code + (":" + tail);
    var colon := Index(value, ":");
    assert value[|code|..] == ":" + tail;
    assert ":" <= value[|code|..];
    assert ":" <= value[colon..] && ":"[0] == ':';
    assert value[colon] == value[colon..][0] == ':';
    if ':' in code {
      var i :| 0 <= i < |code| && code[i] == ':';
      assert value[i..][0] == ':' && ":" <= value[i..];
    }
  }

  lemma SplitText(code: string, tail: string, n: int)
    requires Atoi(tail) == Number(n)
    ensures SplitCode(code + (":" + tail)) == (code, n) <==> ':' !in code
  {
    var value := code + (":" + tail);
    FirstColon(code, tail);
    var colon := Index(value, ":");
    if ':' !in code {
      assert value[..colon] == code && value[colon + 1..] == tail;
    } else {
      assert |value[..colon]| < |code|;
    }
  }

  /** The value splits back into code and tries exactly when the code has no colon. */
  lemma SplitInvertsEncode(code: string, tries: int)
    requires IsInt64(tries)
    ensures SplitCode(Encode(code, tries)) == (code, tries) <==> ':' !in code
  {
    AtoiItoa(tries);
    SplitText(code, Itoa(tries), tries);
    assert Encode(code, tries) == code + (":" + Itoa(tries));
  }

  datatype Verdict = Missing | Expired | Exhausted | Mismatch | Accepted

  /** What a plugin does with the row of an identifier when a guess comes in. */
  function Check(slot: Slot, guess: string, allowed: int, consume: bool, now: int): (Verdict, Slot)
  {
    match slot
    case Empty => (Missing, Empty)
    case Row(v) =>
      var (code, tries) := SplitCode(v.value);
      if now > v.expiresAt then (Expired, Empty)
      else if tries >= allowed then (Exhausted, Empty)
      else if code != guess then (Mismatch, Row(v.(value := Encode(code, tries + 1))))
      else (Accepted, if consume then Empty else slot)
  }

  /** What becomes of a code: it is accepted exactly while it is not expired, has tries
      left and is guessed, and a wrong guess then costs a try and nothing else. */
  lemma CheckAnswers(code: string, tries: int, expiresAt: int, guess: string, allowed: int, consume: bool, now: int)
    requires ':' !in code && IsInt64(tries)
    ensures var row := Row(Verification(Encode(code, tries), expiresAt));
            var (verdict, slot) := Check(row, guess, allowed, consume, now);
            && (verdict == Accepted <==> now <= expiresAt && tries < allowed && guess == code)
            && (verdict == Mismatch <==> now <= expiresAt && tries < allowed && guess != code)
            && (verdict == Exhausted <==> now <= expiresAt && tries >= allowed)
            && (verdict == Expired <==> now > expiresAt)
            && slot == (if verdict == Mismatch then Row(Verification(Encode(code, tries + 1), expiresAt))
                        else if verdict == Accepted && !consume then row else Empty)
    ensures Check(Empty, guess, allowed, consume, now) == (Missing, Empty)
  {
    SplitInvertsEncode(code, tries);
  }

  /** The verification store as the one-time-code plugins use it. */
  class CodeStore {
    var rows: Rows

    constructor ()
      ensures rows == map[]
    {
      rows := map[];
    }

    /** `CreateVerification` with a fresh code: replaces any earlier code. */
    method Issue(identifier: string, code: string, expires: int, now: int)
      modifies this
      ensures rows == old(rows)[identifier := Verification(Encode(code, 0), now + expires)]
    {
      assert Itoa(0) == "0" && code + ":" + "0" == code + ":0";
      rows := rows[identifier := Verification(code + ":0", now + expires)];
    }

    /** `sendOTPForType`: the row is written first and taken back when there is
        nobody to send to, which also discards any earlier code. */
    method SendCode(identifier: string, code: string, expires: int, now: int, userKnown: bool, signIn: bool, disableSignUp: bool)
      returns (sent: bool)
      modifies this
      ensures sent <==> userKnown || (signIn && !disableSignUp)
      ensures sent ==> rows == old(rows)[identifier := Verification(Encode(code, 0), now + expires)]
      ensures !sent ==> rows == old(rows) - {identifier}
    {
      Issue(identifier, code, expires, now);
      if !userKnown && (!signIn || disableSignUp) {
        rows := rows - {identifier};
        return false;
      }
      return true;
    }

    /** `saveEmailOTPAttempts`, `savePhoneOTPAttempts`, `saveTwoFactorOTPAttempts`. */
    method SaveTries(identifier: string, v: Verification, tries: int)
      modifies this
      ensures rows == old(rows)[identifier := Verification(Encode(SplitCode(v.value).0, tries), v.expiresAt)]
    {
      var (code, _) := SplitCode(v.value);
      rows := rows[identifier := Verification(code + ":" + Itoa(tries), v.expiresAt)];
    }

    /** `verifyStoredOTP`, `consumePhoneOTP`, `consumeTwoFactorOTP`. Only the
        email plugin's check endpoint leaves a matching code in place. */
    method VerifyCode(identifier: string, guess: string, allowed: int, consume: bool, now: int)
      returns (verdict: Verdict)
      modifies this
      ensures var (result, slot) := Check(SlotAt(old(rows), identifier), guess, allowed, consume, now);
              verdict == result && rows == Put(old(rows), identifier, slot)
    {
      if identifier !in rows {
        assert rows == rows - {identifier};
        return Missing;
      }
      var v := rows[identifier];
      if now > v.expiresAt {
        rows := rows - {identifier};
        return Expired;
      }
      var (code, tries) := SplitCode(v.value);
      if tries >= allowed {
        rows := rows - {identifier};
        return Exhausted;
      }
      if code != guess {
        SaveTries(identifier, v, tries + 1);
        return Mismatch;
      }
      if consume {
        rows := rows - {identifier};
      }
      return Accepted;
    }
  }

  /** `numericEmailOTP`, `numericOTP`: a random byte becomes a decimal digit. */
  method NumericCode(raw: seq<int>) returns (code: string)
    requires forall i :: 0 <= i < |raw| ==> 0 <= raw[i] < 256
    ensures |code| == |raw| && AllDigits(code) && ':' !in code
    ensures forall i :: 0 <= i < |raw| ==> code[i] == DigitChar(raw[i] % 10)
  {
    code := "";
    for i := 0 to |raw|
      invariant |code| == i
      invariant forall j :: 0 <= j < i ==> code[j] == DigitChar(raw[j] % 10)
    {
      code := code + [DigitChar(raw[i] % 10)];
    }
  }

  /** The record that the encoded row stands for. */
  datatype Code = NoCode | Live(code: string, tries: nat, expiresAt: int)

  ghost predicate Represents(slot: Slot, c: Code)
  {
    match c
    case NoCode => slot == Empty
    case Live(code, tries, expiresAt) =>
      ':' !in code && tries <= MAX_INT64 && slot == Row(Verification(Encode(code, tries), expiresAt))
  }

  function CheckRecord(c: Code, guess: string, allowed: int, consume: bool, now: int): (Verdict, Code)
  {
    if c.NoCode? then (Missing, NoCode)
    else if now > c.expiresAt then (Expired, NoCode)
    else if c.tries >= allowed then (Exhausted, NoCode)
    else if c.code != guess then (Mismatch, c.(tries := c.tries + 1))
    else (Accepted, if consume then NoCode else c)
  }

  /** The string-encoded row refines the record. */
  lemma CheckRefines(slot: Slot, c: Code, guess: string, allowed: int, consume: bool, now: int)
    requires Represents(slot, c) && IsInt64(allowed)
    ensures Check(slot, guess, allowed, consume, now).0 == CheckRecord(c, guess, allowed, consume, now).0
    ensures Represents(Check(slot, guess, allowed, consume, now).1, CheckRecord(c, guess, allowed, consume, now).1)
  {
    if c.Live? {
      SplitInvertsEncode(c.code, c.tries);
    }
  }

  /** One call to a plugin at a time: a code is issued, tried or withdrawn. */
  datatype Step =
    | Issue(id: string, code: string, expires: int)
    | Try(id: string, guess: string, allowed: int, consume: bool)
    | Withdraw(id: string)

  datatype Timed = Timed(now: int, step: Step)

  function Do(rows: Rows, t: Timed): (Rows, Verdict)
  {
    match t.step
    case Issue(id, code, expires) => (rows[id := Verification(Encode(code, 0), t.now + expires)], Missing)
    case Withdraw(id) => (rows - {id}, Missing)
    case Try(id, guess, allowed, consume) =>
      var (verdict, slot) := Check(SlotAt(rows, id), guess, allowed, consume, t.now);
      (Put(rows, id, slot), verdict)
  }

  /** How many tries on `id` in the run satisfy `wanted`, a test of time, step and verdict. */
  ghost function Tally(rows: Rows, run: seq<Timed>, id: string, wanted: (Timed, Verdict) -> bool): nat
    decreases run
  {
    if run == [] then 0
    else
      var (rows', verdict) := Do(rows, run[0]);
      (if run[0].step.Try? && run[0].step.id == id && wanted(run[0], verdict) then 1 else 0)
      + Tally(rows', run[1..], id, wanted)
  }

  ghost function RowsAfter(rows: Rows, run: seq<Timed>): Rows
    decreases run
  {
    if run == [] then rows else RowsAfter(Do(rows, run[0]).0, run[1..])
  }

  function WrongGuess(): (Timed, Verdict) -> bool
  {
    (t: Timed, verdict: Verdict) => verdict == Mismatch
  }

  function Consumption(): (Timed, Verdict) -> bool
  {
    (t: Timed, verdict: Verdict) => verdict == Accepted && t.step.Try? && t.step.consume
  }

  function BadAcceptance(code: string, expiresAt: int): (Timed, Verdict) -> bool
  {
    (t: Timed, verdict: Verdict) =>
      verdict == Accepted && (t.now > expiresAt || (t.step.Try? && t.step.guess != code))
  }

  /** The part of a run that belongs to one issued code: nothing reissues `id`
      and all its tries are held to the same number of attempts. */
  ghost predicate SameCode(run: seq<Timed>, id: string, allowed: int)
  {
    forall i :: 0 <= i < |run| ==>
      (run[i].step.Issue? ==> run[i].step.id != id)
      && (run[i].step.Try? && run[i].step.id == id ==> run[i].step.allowed == allowed)
  }

  /** The record after one step, seen from the identifier's own code. */
  function Advance(c: Code, t: Timed, id: string): Code
  {
    if t.step.id != id then c
    else if t.step.Try? then CheckRecord(c, t.step.guess, t.step.allowed, t.step.consume, t.now).1
    else NoCode
  }

  lemma StepAdvances(rows: Rows, t: Timed, id: string, c: Code)
    requires Represents(SlotAt(rows, id), c)
    requires t.step.Issue? ==> t.step.id != id
    requires t.step.Try? && t.step.id == id ==> IsInt64(t.step.allowed)
    ensures Represents(SlotAt(Do(rows, t).0, id), Advance(c, t, id))
    ensures t.step.Try? && t.step.id == id ==>
              Do(rows, t).1 == CheckRecord(c, t.step.guess, t.step.allowed, t.step.consume, t.now).0
  {
    if t.step.Try? && t.step.id == id {
      CheckRefines(SlotAt(rows, id), c, t.step.guess, t.step.allowed, t.step.consume, t.now);
    } else {
      assert t.step.id != id ==> SlotAt(Do(rows, t).0, id) == SlotAt(rows, id);
    }
  }

  lemma {:induction false} LifeOfACode(rows: Rows, run: seq<Timed>, id: string, allowed: int, c: Code, code: string, expiresAt: int)
    requires Represents(SlotAt(rows, id), c) && SameCode(run, id, allowed) && IsInt64(allowed)
    requires c.Live? ==> c.code == code && c.expiresAt == expiresAt
    ensures Tally(rows, run, id, WrongGuess()) <= if c.Live? && c.tries < allowed then allowed - c.tries else 0
    ensures Tally(rows, run, id, Consumption()) <= if c.Live? then 1 else 0
    ensures Tally(rows, run, id, BadAcceptance(code, expiresAt)) == 0
    ensures id in RowsAfter(rows, run) ==> RowsAfter(rows, run)[id].expiresAt == expiresAt
    decreases run
  {
    if run != [] {
      assert SameCode([run[0]], id, allowed);
      StepAdvances(rows, run[0], id, c);
      LifeOfACode(Do(rows, run[0]).0, run[1..], id, allowed, Advance(c, run[0], id), code, expiresAt);
    }
  }

  /** Of one issued code, whatever else happens and in whatever order: at most
      `allowed` wrong guesses are compared, at most one try consumes it, none is
      accepted after the expiry or with another code, and failed tries leave the
      expiry where it was. */
  lemma IssuedCodeSafety(rows: Rows, run: seq<Timed>, id: string, code: string, expires: int, issuedAt: int, allowed: int)
    requires ':' !in code && IsInt64(allowed) && SameCode(run, id, allowed)
    ensures var issued := Do(rows, Timed(issuedAt, Issue(id, code, expires))).0;
            && Tally(issued, run, id, WrongGuess()) <= (if allowed > 0 then allowed else 0)
            && Tally(issued, run, id, Consumption()) <= 1
            && Tally(issued, run, id, BadAcceptance(code, issuedAt + expires)) == 0
            && (id in RowsAfter(issued, run) ==> RowsAfter(issued, run)[id].expiresAt == issuedAt + expires)
  {
    var issued := Do(rows, Timed(issuedAt, Issue(id, code, expires))).0;
    LifeOfACode(issued, run, id, allowed, Live(code, 0, issuedAt + expires), code, issuedAt + expires);
  }

}
