/**
 One-time codes, kept locally: one row per code sent, an attempt counter and a lock on the
 row. The hash comparison of codes is equality; times are in milliseconds.
 */
module Otp {
  import opened Prelude

  type Phone = nat
  type Code = nat
  type RowId = nat

  datatype Config = Config(expiry: nat, lock: nat, cooldown: nat, maxAttempts: int)

  datatype Row = Row(phone: Phone, code: Code, createdAt: int, expiresAt: int,
                     attempts: nat, lockedUntil: Option<int>, consumed: bool)

  datatype State = State(now: int, rows: seq<Row>)

  /** The provider took the message, was unavailable (the row stays), or failed otherwise. */
  datatype Sms = Sent | Unavailable | Failed

  datatype Step =
    | Request(phone: Phone, code: Code, sms: Sms, last: Option<RowId>)
    | Verify(phone: Phone, code: Code, found: Option<RowId>)
    | Clock(time: int)

  datatype Verdict = NoCode | Locked | Expired | Wrong | WrongAndLocked | Accepted

  // ----------------------------------------------------------------- the queries

  ghost predicate Matches(s: State, phone: Phone, unconsumed: bool, i: RowId) {
    i < |s.rows| && s.rows[i].phone == phone && (unconsumed ==> !s.rows[i].consumed)
  }

  /** `found` is a most recent row of the phone, among the unconsumed ones if so asked. */
  ghost predicate IsLatest(s: State, phone: Phone, unconsumed: bool, found: Option<RowId>) {
    if found.Some? then
      Matches(s, phone, unconsumed, found.value) &&
      forall i: RowId :: Matches(s, phone, unconsumed, i) ==> s.rows[i].createdAt <= s.rows[found.value].createdAt
    else forall i: RowId :: !Matches(s, phone, unconsumed, i)
  }

  // ------------------------------------------------------------------ the service

  predicate IsCooling(c: Config, s: State, last: Option<RowId>) {
    last.Some? && last.value < |s.rows| && s.now - s.rows[last.value].createdAt < c.cooldown
  }

  function RequestOtp(c: Config, s: State, phone: Phone, code: Code, sms: Sms, last: Option<RowId>): State {
    if IsCooling(c, s, last) || sms == Failed then s
    else s.(rows := s.rows + [Row(phone, code, s.now, s.now + c.expiry, 0, None, false)])
  }

  function Judge(c: Config, s: State, code: Code, found: Option<RowId>): Verdict {
    if found == None || found.value >= |s.rows| then NoCode
    else
      var row := s.rows[found.value];
      if row.lockedUntil.Some? && row.lockedUntil.value > s.now then Locked
      else if row.expiresAt < s.now then Expired
      else if row.code == code then Accepted
      else if row.attempts + 1 >= c.maxAttempts then WrongAndLocked
      else Wrong
  }

  function VerifyOtp(c: Config, s: State, code: Code, found: Option<RowId>): State {
    match Judge(c, s, code, found)
    case Wrong => Write(s, found.value, s.rows[found.value].(attempts := s.rows[found.value].attempts + 1))
    case WrongAndLocked =>
      Write(s, found.value, s.rows[found.value].(attempts := s.rows[found.value].attempts + 1,
                                                 lockedUntil := Some(s.now + c.lock)))
    case Accepted => Write(s, found.value, s.rows[found.value].(consumed := true))
    case _ => s
  }

  function Write(s: State, i: RowId, row: Row): State
    requires i < |s.rows|
  {
    s.(rows := s.rows[i := row])
  }

  // ---------------------------------------------------------------------- runs

  function Next(c: Config, s: State, step: Step): State {
    match step
    case Request(phone, code, sms, last) => RequestOtp(c, s, phone, code, sms, last)
    case Verify(_, code, found) => VerifyOtp(c, s, code, found)
    case Clock(time) => s.(now := time)
  }

  ghost predicate Possible(s: State, step: Step) {
    match step
    case Request(phone, _, _, last) => IsLatest(s, phone, false, last)
    case Verify(phone, _, found) => IsLatest(s, phone, true, found)
    case Clock(time) => s.now <= time
  }

  function After(c: Config, run: seq<Step>): State {
    if run == [] then State(0, [])
    else Next(c, After(c, run[..|run| - 1]), run[|run| - 1])
  }

  ghost predicate IsRun(c: Config, run: seq<Step>) {
    run == [] ||
    (IsRun(c, run[..|run| - 1]) && Possible(After(c, run[..|run| - 1]), run[|run| - 1]))
  }

  /** Does this step compare a wrong code with row `i`; does it grant a login with it? */
  predicate ComparesWrong(c: Config, s: State, step: Step, i: RowId) {
    step.Verify? && step.found == Some(i) && Judge(c, s, step.code, step.found) in {Wrong, WrongAndLocked}
  }

  predicate Grants(c: Config, s: State, step: Step, i: RowId) {
    step.Verify? && step.found == Some(i) && Judge(c, s, step.code, step.found) == Accepted
  }

  function WrongCodes(c: Config, run: seq<Step>, i: RowId): nat {
    if run == [] then 0
    else
      var front := run[..|run| - 1];
      WrongCodes(c, front, i) + if ComparesWrong(c, After(c, front), run[|run| - 1], i) then 1 else 0
  }

  function Logins(c: Config, run: seq<Step>, i: RowId): nat {
    if run == [] then 0
    else
      var front := run[..|run| - 1];
      Logins(c, front, i) + if Grants(c, After(c, front), run[|run| - 1], i) then 1 else 0
  }

  function AttemptBound(c: Config): nat {
    if c.maxAttempts < 1 then 1 else c.maxAttempts
  }

  // ------------------------------------------------------------------- invariant

  ghost predicate RowAgrees(c: Config, now: int, row: Row) {
    row.createdAt <= now && row.expiresAt == row.createdAt + c.expiry &&
    (row.attempts >= c.maxAttempts && row.attempts > 0 ==> row.lockedUntil.Some?) &&
    (row.lockedUntil.Some? ==> row.lockedUntil.value >= row.createdAt + c.lock)
  }

  ghost predicate Agrees(c: Config, s: State) {
    forall i :: 0 <= i < |s.rows| ==> RowAgrees(c, s.now, s.rows[i])
  }

  ghost predicate Counted(c: Config, run: seq<Step>, s: State) {
    (forall i :: 0 <= i < |s.rows| ==>
      s.rows[i].attempts == WrongCodes(c, run, i) && Logins(c, run, i) == if s.rows[i].consumed then 1 else 0) &&
    (forall i :: i >= |s.rows| ==> WrongCodes(c, run, i) == 0 && Logins(c, run, i) == 0)
  }

  lemma StepAgrees(c: Config, s: State, step: Step)
    requires Agrees(c, s) && Possible(s, step)
    ensures Agrees(c, Next(c, s, step))
  {}

  lemma {:induction false} RunAgrees(c: Config, run: seq<Step>)
    requires IsRun(c, run)
    ensures Agrees(c, After(c, run))
  {
    if run != [] {
      RunAgrees(c, run[..|run| - 1]);
      StepAgrees(c, After(c, run[..|run| - 1]), run[|run| - 1]);
    }
  }

  /** The counter of a row counts the wrong codes compared with it; a login consumes the row. */
  lemma {:induction false} RunIsCounted(c: Config, run: seq<Step>)
    requires IsRun(c, run)
    ensures Counted(c, run, After(c, run))
  {
    if run != [] {
      var front, step := run[..|run| - 1], run[|run| - 1];
      RunIsCounted(c, front);
      var s, s' := After(c, front), After(c, run);
      forall i: RowId
        ensures i < |s'.rows| ==>
          s'.rows[i].attempts == WrongCodes(c, run, i) &&
          Logins(c, run, i) == if s'.rows[i].consumed then 1 else 0
        ensures i >= |s'.rows| ==> WrongCodes(c, run, i) == 0 && Logins(c, run, i) == 0
      {
        StepIsCounted(c, s, step, i);
      }
    }
  }

  lemma StepIsCounted(c: Config, s: State, step: Step, i: RowId)
    requires Possible(s, step)
    ensures var s' := Next(c, s, step);
      |s.rows| <= |s'.rows| &&
      (i < |s.rows| ==>
        s'.rows[i].attempts == s.rows[i].attempts + (if ComparesWrong(c, s, step, i) then 1 else 0) &&
        (Grants(c, s, step, i) ==> !s.rows[i].consumed) &&
        (s'.rows[i].consumed <==> s.rows[i].consumed || Grants(c, s, step, i))) &&
      (|s.rows| <= i ==> !ComparesWrong(c, s, step, i) && !Grants(c, s, step, i)) &&
      (|s.rows| <= i < |s'.rows| ==> s'.rows[i].attempts == 0 && !s'.rows[i].consumed)
  {}

  // -------------------------------------------------------------------- theorems

  /** A code opens at most one session, in any run and whatever the configuration. */
  lemma AtMostOneLogin(c: Config, run: seq<Step>, i: RowId)
    requires IsRun(c, run)
    ensures Logins(c, run, i) <= 1
  {
    RunIsCounted(c, run);
  }

  /** While the lock outlasts the code, a row at its limit never has a code compared again. */
  lemma ExhaustedIsClosed(c: Config, s: State, step: Step, i: RowId)
    requires Agrees(c, s) && c.lock > c.expiry && i < |s.rows| && s.rows[i].attempts >= AttemptBound(c)
    ensures !ComparesWrong(c, s, step, i) && !Grants(c, s, step, i)
  {
    assert RowAgrees(c, s.now, s.rows[i]);
  }

  lemma {:induction false} WrongCodesAreBounded(c: Config, run: seq<Step>, i: RowId)
    requires IsRun(c, run) && c.lock > c.expiry
    ensures WrongCodes(c, run, i) <= AttemptBound(c)
  {
    if run != [] {
      var front, step := run[..|run| - 1], run[|run| - 1];
      var s := After(c, front);
      WrongCodesAreBounded(c, front, i);
      RunAgrees(c, front);
      RunIsCounted(c, front);
      StepIsCounted(c, s, step, i);
      if i < |s.rows| && s.rows[i].attempts >= AttemptBound(c) {
        ExhaustedIsClosed(c, s, step, i);
      }
    }
  }

  ghost predicate Spaced(c: Config, s: State) {
    forall i, j :: 0 <= i < j < |s.rows| && s.rows[i].phone == s.rows[j].phone ==>
      s.rows[i].createdAt + c.cooldown <= s.rows[j].createdAt
  }

  lemma StepKeepsSpacing(c: Config, s: State, step: Step)
    requires Spaced(c, s) && Possible(s, step)
    ensures Spaced(c, Next(c, s, step))
  {
    if step.Request? && !IsCooling(c, s, step.last) {
      forall i: RowId | i < |s.rows| && s.rows[i].phone == step.phone
        ensures s.rows[i].createdAt + c.cooldown <= s.now
      {
        assert Matches(s, step.phone, false, i);
      }
    }
  }

  /** Two codes for one phone are never sent less than the cooldown apart. */
  lemma {:induction false} CodesAreSpaced(c: Config, run: seq<Step>)
    requires IsRun(c, run)
    ensures Spaced(c, After(c, run))
  {
    if run != [] {
      CodesAreSpaced(c, run[..|run| - 1]);
      StepKeepsSpacing(c, After(c, run[..|run| - 1]), run[|run| - 1]);
    }
  }

  // ------------------------------------------- the bound needs the lock to outlast the code

  const PHONE: Phone := 1
  const RIGHT: Code := 1
  const WRONG: Code := 2

  /** A request, then `n` wrong codes at the same instant. */
  function Burst(n: nat): seq<Step> {
    if n == 0 then [Request(PHONE, RIGHT, Sent, None)]
    else Burst(n - 1) + [Verify(PHONE, WRONG, Some(0))]
  }

  lemma Extend(c: Config, run: seq<Step>, step: Step)
    requires IsRun(c, run) && Possible(After(c, run), step)
    ensures IsRun(c, run + [step]) && After(c, run + [step]) == Next(c, After(c, run), step)
    ensures WrongCodes(c, run + [step], 0) ==
            WrongCodes(c, run, 0) + if ComparesWrong(c, After(c, run), step, 0) then 1 else 0
  {
    var longer := run + [step];
    assert longer[..|longer| - 1] == run && longer[|longer| - 1] == step;
  }

  lemma OnlyRowIsLatest(s: State)
    requires |s.rows| == 1 && s.rows[0].phone == PHONE && !s.rows[0].consumed
    ensures IsLatest(s, PHONE, true, Some(0))
  {
    assert Matches(s, PHONE, true, 0);
    forall i: RowId | Matches(s, PHONE, true, i) ensures s.rows[i].createdAt <= s.rows[0].createdAt {
      assert i == 0;
    }
  }

  function BurstState(c: Config, n: nat): State {
    State(0, [Row(PHONE, RIGHT, 0, c.expiry, n, if n == AttemptBound(c) then Some(c.lock) else None, false)])
  }

  lemma BurstBegins(c: Config)
    ensures IsRun(c, Burst(0)) && WrongCodes(c, Burst(0), 0) == 0 && After(c, Burst(0)) == BurstState(c, 0)
  {
    Extend(c, [], Request(PHONE, RIGHT, Sent, None));
    assert [] + [Request(PHONE, RIGHT, Sent, None)] == Burst(0);
  }

  lemma BurstGoesOn(c: Config, run: seq<Step>, n: nat)
    requires n < AttemptBound(c) && IsRun(c, run) && WrongCodes(c, run, 0) == n && After(c, run) == BurstState(c, n)
    ensures var longer := run + [Verify(PHONE, WRONG, Some(0))];
      IsRun(c, longer) && WrongCodes(c, longer, 0) == n + 1 && After(c, longer) == BurstState(c, n + 1)
  {
    OnlyRowIsLatest(BurstState(c, n));
    Extend(c, run, Verify(PHONE, WRONG, Some(0)));
  }

  lemma {:induction false} BurstIsCompared(c: Config, n: nat)
    requires n <= AttemptBound(c)
    ensures IsRun(c, Burst(n)) && WrongCodes(c, Burst(n), 0) == n && After(c, Burst(n)) == BurstState(c, n)
  {
    if n == 0 {
      BurstBegins(c);
    } else {
      BurstIsCompared(c, n - 1);
      BurstGoesOn(c, Burst(n - 1), n - 1);
    }
  }

  /** When the lock ends before the code does, one more code is compared after the burst. */
  lemma ShortLockReopens(c: Config) returns (run: seq<Step>)
    requires c.lock <= c.expiry
    ensures IsRun(c, run) && WrongCodes(c, run, 0) == AttemptBound(c) + 1
  {
    var n := AttemptBound(c);
    BurstIsCompared(c, n);
    Extend(c, Burst(n), Clock(c.lock));
    var waited := Burst(n) + [Clock(c.lock)];
    LateStep(c);
    Extend(c, waited, Verify(PHONE, WRONG, Some(0)));
    run := waited + [Verify(PHONE, WRONG, Some(0))];
  }

  lemma LateStep(c: Config)
    requires c.lock <= c.expiry
    ensures var s := BurstState(c, AttemptBound(c)).(now := c.lock);
      var step := Verify(PHONE, WRONG, Some(0));
      Possible(s, step) && ComparesWrong(c, s, step, 0)
  {
    OnlyRowIsLatest(BurstState(c, AttemptBound(c)).(now := c.lock));
  }

  /**
   In every run at most `AttemptBound` wrong codes are compared with any one row, exactly
   when the lock lasts longer than the code: 30 minutes against 5 by default.
   */
  lemma AttemptBoundIff(c: Config)
    ensures (forall run, i :: IsRun(c, run) ==> WrongCodes(c, run, i) <= AttemptBound(c))
       <==> c.lock > c.expiry
  {
    if c.lock > c.expiry {
      forall run, i: RowId | IsRun(c, run) ensures WrongCodes(c, run, i) <= AttemptBound(c) {
        WrongCodesAreBounded(c, run, i);
      }
    } else {
      var run := ShortLockReopens(c);
      assert WrongCodes(c, run, 0) > AttemptBound(c);
    }
  }

}

/** The service that sends and verifies codes, as it runs. */
module OtpSystem {
  import opened Prelude
  import opened Otp

  /** The code rows as the service writes them; `history` is the run so far. */
  class OtpService {
    const config: Config
    var now: int
    var rows: seq<Row>
    ghost var history: seq<Step>

    ghost function View(): State
      reads this
    {
      State(now, rows)
    }

    ghost predicate Valid()
      reads this
    {
      IsRun(config, history) && View() == After(config, history)
    }

    constructor (config: Config)
      ensures Valid() && history == [] && this.config == config
    {
      this.config := config;
      now, rows, history := 0, [], [];
    }

    ghost method Log(step: Step, before: State)
      requires IsRun(config, history) && before == After(config, history)
      requires Possible(before, step) && View() == Next(config, before, step)
      modifies this`history
      ensures Valid() && history == old(history) + [step]
    {
      Extend(config, history, step);
      history := history + [step];
    }

    /** The most recent row of the phone; with `unconsumed`, among its unconsumed rows. */
    method FindLatest(phone: Phone, unconsumed: bool) returns (found: Option<RowId>)
      ensures IsLatest(View(), phone, unconsumed, found)
    {
      found := None;
      for i := 0 to |rows|
        invariant found.Some? ==> found.value < i && Matches(View(), phone, unconsumed, found.value)
        invariant forall j: RowId :: j < i && Matches(View(), phone, unconsumed, j) ==>
          found.Some? && rows[j].createdAt <= rows[found.value].createdAt
      {
        if rows[i].phone == phone && !(unconsumed && rows[i].consumed) {
          if found == None || rows[found.value].createdAt <= rows[i].createdAt {
            found := Some(i);
          }
        }
      }
    }

    method RequestOtp(phone: Phone, code: Code, sms: Sms) returns (accepted: bool, ghost last: Option<RowId>)
      requires Valid()
      modifies this
      ensures Valid() && history == old(history) + [Request(phone, code, sms, last)]
      ensures IsLatest(old(View()), phone, false, last)
      ensures View() == Otp.RequestOtp(config, old(View()), phone, code, sms, last)
      ensures accepted <==> !IsCooling(config, old(View()), last) && sms == Sent
    {
      ghost var s := View();
      var lastOtp := FindLatest(phone, false);
      last := lastOtp;
      if lastOtp.Some? && now - rows[lastOtp.value].createdAt < config.cooldown {
        accepted := false;
      } else {
        rows := rows + [Row(phone, code, now, now + config.expiry, 0, None, false)];
        if sms == Failed {
          rows := rows[..|rows| - 1];
        }
        accepted := sms == Sent;
      }
      Log(Request(phone, code, sms, last), s);
    }

    method VerifyOtp(phone: Phone, code: Code) returns (verdict: Verdict, ghost found: Option<RowId>)
      requires Valid()
      modifies this
      ensures Valid() && history == old(history) + [Verify(phone, code, found)]
      ensures IsLatest(old(View()), phone, true, found)
      ensures View() == Otp.VerifyOtp(config, old(View()), code, found)
      ensures verdict == Judge(config, old(View()), code, found)
    {
      ghost var s := View();
      var latest := FindLatest(phone, true);
      found := latest;
      verdict := Check(code, latest);
      Log(Verify(phone, code, found), s);
    }

    method Check(code: Code, found: Option<RowId>) returns (verdict: Verdict)
      requires found.Some? ==> found.value < |rows|
      modifies this`rows
      ensures View() == Otp.VerifyOtp(config, old(View()), code, found)
      ensures verdict == Judge(config, old(View()), code, found)
    {
      if found == None {
        return NoCode;
      }
      var row := rows[found.value];
      if row.lockedUntil.Some? && row.lockedUntil.value > now {
        return Locked;
      }
      if row.expiresAt < now {
        return Expired;
      }
      if row.code != code {
        var attempts := row.attempts + 1;
        var shouldLock := attempts >= config.maxAttempts;
        rows := rows[found.value := row.(attempts := attempts,
                                         lockedUntil := if shouldLock then Some(now + config.lock) else row.lockedUntil)];
        return if shouldLock then WrongAndLocked else Wrong;
      }
      rows := rows[found.value := row.(consumed := true)];
      verdict := Accepted;
    }

    method AdvanceClock(time: int)
      requires Valid() && now <= time
      modifies this
      ensures Valid() && history == old(history) + [Clock(time)] && rows == old(rows) && now == time
    {
      ghost var s := View();
      now := time;
      Log(Clock(time), s);
    }
  }
}
