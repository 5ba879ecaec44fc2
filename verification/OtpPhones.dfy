/**
 One-time codes per phone: the lock sits on the row of one code, so what a locked phone may
 still try depends on the codes requested since, and these are a cooldown apart.
 */
module OtpPhones {
  import opened Prelude
  import opened Otp
  import opened OtpCodes

  // ------------------------------------------------------------ while a row is locked

  /** Row `i` is the phone's most recent unconsumed one, and no other is as recent. */
  ghost predicate IsOnlyLatest(s: State, phone: Phone, i: RowId) {
    Matches(s, phone, true, i) &&
    forall j: RowId :: Matches(s, phone, true, j) && j != i ==> s.rows[j].createdAt < s.rows[i].createdAt
  }

  /** With a cooldown every latest row is the only one. */
  lemma LatestIsOnly(c: Config, run: seq<Step>, phone: Phone, i: RowId)
    requires IsRun(c, run) && c.cooldown > 0 && IsLatest(After(c, run), phone, true, Some(i))
    ensures IsOnlyLatest(After(c, run), phone, i)
  {
    CodesAreSpaced(c, run);
    var s := After(c, run);
    forall j: RowId | Matches(s, phone, true, j) && j != i ensures s.rows[j].createdAt < s.rows[i].createdAt {
      var former, latter := if i < j then i else j, if i < j then j else i;
      assert s.rows[former].createdAt + c.cooldown <= s.rows[latter].createdAt;
    }
  }

  /** Row `i` is unchanged; rows are only added, and keep phone, time and consumption. */
  ghost predicate RowsKept(a: State, b: State, i: RowId) {
    a.now <= b.now && i < |a.rows| <= |b.rows| && b.rows[i] == a.rows[i] &&
    forall j :: 0 <= j < |a.rows| ==>
      b.rows[j].phone == a.rows[j].phone && b.rows[j].createdAt == a.rows[j].createdAt &&
      (a.rows[j].consumed ==> b.rows[j].consumed)
  }

  lemma StepKeepsLockedRow(c: Config, s: State, step: Step, i: RowId)
    requires Possible(s, step) && i < |s.rows| && IsLockedAt(s.rows[i], s.now)
    ensures RowsKept(s, Next(c, s, step), i)
  {}

  lemma RowsKeptIsTransitive(a: State, b: State, d: State, i: RowId)
    requires RowsKept(a, b, i) && RowsKept(b, d, i)
    ensures RowsKept(a, d, i)
  {}

  lemma PrefixStep(c: Config, run: seq<Step>, m: nat)
    requires IsRun(c, run) && 0 < m <= |run|
    ensures After(c, run[..m]) == Next(c, After(c, run[..m - 1]), run[m - 1])
    ensures Possible(After(c, run[..m - 1]), run[m - 1])
    decreases |run|
  {
    assert run[..m][..m - 1] == run[..m - 1];
    if m < |run| {
      var front := run[..|run| - 1];
      assert front[..m] == run[..m] && front[..m - 1] == run[..m - 1];
      PrefixStep(c, front, m);
    } else {
      assert run[..m] == run;
    }
  }

  lemma {:induction false} TimePasses(c: Config, run: seq<Step>, k: nat, m: nat)
    requires IsRun(c, run) && k <= m <= |run|
    ensures After(c, run[..k]).now <= After(c, run[..m]).now
    decreases m
  {
    if k < m {
      TimePasses(c, run, k, m - 1);
      PrefixStep(c, run, m);
    }
  }

  /** Until its lock ends nothing happens to a locked row. */
  lemma {:induction false} LockedRowStays(c: Config, run: seq<Step>, k: nat, m: nat, i: RowId)
    requires IsRun(c, run) && k <= m <= |run|
    requires var a := After(c, run[..k]); i < |a.rows| && IsLockedAt(a.rows[i], After(c, run[..m]).now)
    ensures RowsKept(After(c, run[..k]), After(c, run[..m]), i)
    decreases m
  {
    if k < m {
      TimePasses(c, run, m - 1, m);
      LockedRowStays(c, run, k, m - 1, i);
      PrefixStep(c, run, m);
      StepKeepsLockedRow(c, After(c, run[..m - 1]), run[m - 1], i);
      RowsKeptIsTransitive(After(c, run[..k]), After(c, run[..m - 1]), After(c, run[..m]), i);
    }
  }

  /** The code is compared with a row's code, whatever comes out. */
  predicate Compares(c: Config, s: State, code: Code, found: Option<RowId>) {
    Judge(c, s, code, found) in {Accepted, Wrong, WrongAndLocked}
  }

  lemma OldRowIsTheLockedOne(a: State, b: State, phone: Phone, i: RowId, found: RowId)
    requires IsOnlyLatest(a, phone, i) && RowsKept(a, b, i)
    requires IsLatest(b, phone, true, Some(found)) && found < |a.rows|
    ensures found == i
  {
    assert Matches(a, phone, true, found) && Matches(b, phone, true, i);
  }

  /**
   Row `i` was the phone's latest unconsumed one after `k` steps. Until its lock ends, a code
   sent for the phone is compared if and only if the row found was requested meanwhile and
   is itself open.
   */
  lemma ComparedDuringLockIff(c: Config, run: seq<Step>, k: nat, m: nat, phone: Phone, i: RowId,
                              code: Code, found: Option<RowId>)
    requires IsRun(c, run) && k <= m <= |run| && IsOnlyLatest(After(c, run[..k]), phone, i)
    requires IsLockedAt(After(c, run[..k]).rows[i], After(c, run[..m]).now)
    requires IsLatest(After(c, run[..m]), phone, true, found)
    ensures var b := After(c, run[..m]);
      Compares(c, b, code, found) <==>
      found.Some? && |After(c, run[..k]).rows| <= found.value && IsOpen(b.rows[found.value], b.now)
  {
    LockedRowStays(c, run, k, m, i);
    if found.Some? && found.value < |After(c, run[..k]).rows| {
      OldRowIsTheLockedOne(After(c, run[..k]), After(c, run[..m]), phone, i, found.value);
    }
  }

  /** No code of the phone was requested between the two states. */
  ghost predicate NothingRequested(a: State, b: State, phone: Phone) {
    forall j :: |a.rows| <= j < |b.rows| ==> b.rows[j].phone != phone
  }

  /** Without a new request no code of a locked phone is compared until the lock ends. */
  lemma LockHoldsUnlessRequested(c: Config, run: seq<Step>, k: nat, m: nat, phone: Phone, i: RowId,
                                 code: Code, found: Option<RowId>)
    requires IsRun(c, run) && k <= m <= |run| && IsOnlyLatest(After(c, run[..k]), phone, i)
    requires IsLockedAt(After(c, run[..k]).rows[i], After(c, run[..m]).now)
    requires NothingRequested(After(c, run[..k]), After(c, run[..m]), phone)
    requires IsLatest(After(c, run[..m]), phone, true, found)
    ensures found == Some(i) && Judge(c, After(c, run[..m]), code, found) == Locked
  {
    LockedRowStays(c, run, k, m, i);
    assert Matches(After(c, run[..m]), phone, true, i);
    OldRowIsTheLockedOne(After(c, run[..k]), After(c, run[..m]), phone, i, found.value);
  }

  /**
   A request ends the lock for the phone, if the cooldown is over: whatever row the next
   verification finds for it is the new one, or as recent, and the new one is compared.
   */
  lemma RequestReopens(c: Config, s: State, phone: Phone, sent: Code, sms: Sms, last: Option<RowId>, code: Code)
    requires Agrees(c, s) && Possible(s, Request(phone, sent, sms, last))
    ensures var s' := Next(c, s, Request(phone, sent, sms, last));
      var added := Some(|s.rows|);
      (IsLatest(s', phone, true, added) && Compares(c, s', code, added)) <==>
      !IsCooling(c, s, last) && sms != Failed
  {
    var s' := Next(c, s, Request(phone, sent, sms, last));
    if !IsCooling(c, s, last) && sms != Failed {
      assert Matches(s', phone, true, |s.rows|);
      forall j: RowId | Matches(s', phone, true, j) ensures s'.rows[j].createdAt <= s.now {
        assert j < |s.rows| ==> RowAgrees(c, s.now, s.rows[j]);
      }
    }
  }

  // --------------------------------------------------------- wrong codes in a window of time

  predicate ComparesWrongFor(c: Config, s: State, step: Step, phone: Phone) {
    step.Verify? && step.phone == phone && Judge(c, s, step.code, step.found) in {Wrong, WrongAndLocked}
  }

  /** The wrong codes compared for the phone at times from `lo` to `hi`. */
  function WrongCodesFor(c: Config, run: seq<Step>, phone: Phone, lo: int, hi: int): nat {
    if run == [] then 0
    else
      var front := run[..|run| - 1];
      var s := After(c, front);
      WrongCodesFor(c, front, phone, lo, hi) +
      if ComparesWrongFor(c, s, run[|run| - 1], phone) && lo <= s.now <= hi then 1 else 0
  }

  predicate IsSentWithin(row: Row, phone: Phone, lo: int, hi: int) {
    row.phone == phone && lo <= row.createdAt <= hi
  }

  /** How many of the rows are the phone's and were created from `lo` to `hi`. */
  function CodesSent(rows: seq<Row>, phone: Phone, lo: int, hi: int): nat {
    if rows == [] then 0
    else
      var n := |rows| - 1;
      CodesSent(rows[..n], phone, lo, hi) + if IsSentWithin(rows[n], phone, lo, hi) then 1 else 0
  }

  /** The attempts counted on those rows. */
  function AttemptsOn(rows: seq<Row>, phone: Phone, lo: int, hi: int): nat {
    if rows == [] then 0
    else
      var n := |rows| - 1;
      AttemptsOn(rows[..n], phone, lo, hi) + if IsSentWithin(rows[n], phone, lo, hi) then rows[n].attempts else 0
  }

  lemma {:induction false} AttemptsOnUpdated(rows: seq<Row>, i: nat, row: Row, phone: Phone, lo: int, hi: int)
    requires i < |rows| && row.phone == rows[i].phone && row.createdAt == rows[i].createdAt
    requires rows[i].attempts <= row.attempts
    ensures AttemptsOn(rows[i := row], phone, lo, hi) ==
      AttemptsOn(rows, phone, lo, hi) + if IsSentWithin(row, phone, lo, hi) then row.attempts - rows[i].attempts else 0
    decreases |rows|
  {
    var n := |rows| - 1;
    if i < n {
      AttemptsOnUpdated(rows[..n], i, row, phone, lo, hi);
      assert rows[i := row][..n] == rows[..n][i := row];
    } else {
      assert rows[i := row][..n] == rows[..n];
    }
  }

  lemma VerifyCountsAttempts(c: Config, s: State, step: Step, lo: int, hi: int)
    requires Agrees(c, s) && Possible(s, step) && step.Verify? && step.found.Some?
    ensures var row := s.rows[step.found.value]; var row' := Next(c, s, step).rows[step.found.value];
      Next(c, s, step).rows == s.rows[step.found.value := row'] &&
      row'.phone == row.phone == step.phone && row'.createdAt == row.createdAt &&
      row'.attempts == row.attempts + (if ComparesWrongFor(c, s, step, step.phone) then 1 else 0) &&
      (ComparesWrongFor(c, s, step, step.phone) && lo <= s.now <= hi ==> IsSentWithin(row, step.phone, lo - c.expiry, hi))
  {
    assert RowAgrees(c, s.now, s.rows[step.found.value]);
  }

  lemma RequestCountsNothing(c: Config, s: State, step: Step, phone: Phone, lo: int, hi: int)
    requires step.Request?
    ensures AttemptsOn(Next(c, s, step).rows, phone, lo, hi) == AttemptsOn(s.rows, phone, lo, hi)
  {
    var rows := Next(c, s, step).rows;
    assert rows != s.rows ==> rows[..|s.rows|] == s.rows;
  }

  lemma StepCountsAttempts(c: Config, s: State, step: Step, phone: Phone, lo: int, hi: int)
    requires Agrees(c, s) && Possible(s, step)
    ensures AttemptsOn(s.rows, phone, lo - c.expiry, hi) +
            (if ComparesWrongFor(c, s, step, phone) && lo <= s.now <= hi then 1 else 0)
         <= AttemptsOn(Next(c, s, step).rows, phone, lo - c.expiry, hi)
  {
    match step
    case Request(_, _, _, _) => RequestCountsNothing(c, s, step, phone, lo - c.expiry, hi);
    case Verify(_, code, found) =>
      if found.Some? {
        VerifyCountsAttempts(c, s, step, lo, hi);
        AttemptsOnUpdated(s.rows, found.value, Next(c, s, step).rows[found.value], phone, lo - c.expiry, hi);
      }
    case Clock(_) =>
  }

  lemma {:induction false} WrongCodesAreAttempts(c: Config, run: seq<Step>, phone: Phone, lo: int, hi: int)
    requires IsRun(c, run)
    ensures WrongCodesFor(c, run, phone, lo, hi) <= AttemptsOn(After(c, run).rows, phone, lo - c.expiry, hi)
  {
    if run != [] {
      var front := run[..|run| - 1];
      WrongCodesAreAttempts(c, front, phone, lo, hi);
      RunAgrees(c, front);
      StepCountsAttempts(c, After(c, front), run[|run| - 1], phone, lo, hi);
    }
  }

  lemma AddsUp(n: nat, each: nat)
    ensures (n + 1) * each == n * each + each
  {}

  lemma {:induction false} AttemptsAreFew(rows: seq<Row>, most: nat, phone: Phone, lo: int, hi: int)
    requires forall i :: 0 <= i < |rows| ==> rows[i].attempts <= most
    ensures AttemptsOn(rows, phone, lo, hi) <= CodesSent(rows, phone, lo, hi) * most
  {
    if rows != [] {
      var n := |rows| - 1;
      AttemptsAreFew(rows[..n], most, phone, lo, hi);
      AddsUp(CodesSent(rows[..n], phone, lo, hi), most);
    }
  }

  /** Spaced rows: the last one found within the window lies late in it. */
  lemma {:induction false} LastSentIsLate(c: Config, s: State, n: nat, phone: Phone, lo: int, hi: int) returns (last: nat)
    requires Spaced(c, s) && n <= |s.rows| && CodesSent(s.rows[..n], phone, lo, hi) > 0
    ensures last < n && IsSentWithin(s.rows[last], phone, lo, hi)
    ensures lo + (CodesSent(s.rows[..n], phone, lo, hi) - 1) * c.cooldown <= s.rows[last].createdAt
  {
    var front := s.rows[..n][..n - 1];
    assert front == s.rows[..n - 1];
    var before := CodesSent(front, phone, lo, hi);
    if !IsSentWithin(s.rows[n - 1], phone, lo, hi) {
      last := LastSentIsLate(c, s, n - 1, phone, lo, hi);
    } else {
      last := n - 1;
      if before > 0 {
        var earlier := LastSentIsLate(c, s, n - 1, phone, lo, hi);
        AddsUp(before - 1, c.cooldown);
      }
    }
  }

  lemma TimesIsMonotone(a: nat, b: nat, each: nat)
    ensures a <= b ==> a * each <= b * each
  {}

  lemma QuotientBounds(n: nat, d: nat, total: nat)
    requires d > 0 && n * d <= total
    ensures n <= total / d
  {
    AddsUp(total / d, d);
    TimesIsMonotone(total / d + 1, n, d);
  }

  lemma CodesSentAreFew(c: Config, s: State, phone: Phone, lo: int, hi: int)
    requires Spaced(c, s) && c.cooldown > 0 && lo <= hi
    ensures CodesSent(s.rows, phone, lo, hi) <= (hi - lo) / c.cooldown + 1
  {
    assert s.rows[..|s.rows|] == s.rows;
    var codes := CodesSent(s.rows, phone, lo, hi);
    if codes > 0 {
      var last := LastSentIsLate(c, s, |s.rows|, phone, lo, hi);
      QuotientBounds(codes - 1, c.cooldown, hi - lo);
    }
  }

  /** No row has more attempts than the limit, in any run, while the lock outlasts the code. */
  lemma AttemptsStayBounded(c: Config, run: seq<Step>)
    requires IsRun(c, run) && c.lock > c.expiry
    ensures var rows := After(c, run).rows; forall i :: 0 <= i < |rows| ==> rows[i].attempts <= AttemptBound(c)
  {
    RunIsCounted(c, run);
    forall i: nat | i < |After(c, run).rows| ensures After(c, run).rows[i].attempts <= AttemptBound(c) {
      WrongCodesAreBounded(c, run, i);
    }
  }

  /**
   In every run the wrong codes compared for one phone from `lo` to `hi` are at most the
   limit per code, times one more than the cooldowns that fit into that time and the life
   of a code: requesting new codes is all a locked phone can do.
   */
  lemma WrongCodesPerPhone(c: Config, run: seq<Step>, phone: Phone, lo: int, hi: int)
    requires IsRun(c, run) && c.lock > c.expiry && c.cooldown > 0 && lo <= hi
    ensures WrongCodesFor(c, run, phone, lo, hi) <= ((hi - lo + c.expiry) / c.cooldown + 1) * AttemptBound(c)
  {
    WrongCodesAreAttempts(c, run, phone, lo, hi);
    AttemptsStayBounded(c, run);
    CodesAreSpaced(c, run);
    assert hi - (lo - c.expiry) == hi - lo + c.expiry;
    AttemptsInWindow(c, After(c, run), phone, lo - c.expiry, hi);
  }

  lemma AttemptsInWindow(c: Config, s: State, phone: Phone, lo: int, hi: int)
    requires forall i :: 0 <= i < |s.rows| ==> s.rows[i].attempts <= AttemptBound(c)
    requires Spaced(c, s) && c.cooldown > 0 && lo <= hi
    ensures AttemptsOn(s.rows, phone, lo, hi) <= ((hi - lo) / c.cooldown + 1) * AttemptBound(c)
  {
    AttemptsAreFew(s.rows, AttemptBound(c), phone, lo, hi);
    CodesSentAreFew(c, s, phone, lo, hi);
    TimesIsMonotone(CodesSent(s.rows, phone, lo, hi), (hi - lo) / c.cooldown + 1, AttemptBound(c));
  }
}
