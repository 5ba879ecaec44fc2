/**
 What a code decides: the right one, sent while its row is open, is what logs in, and a wrong
 one is what counts against the row.
 */
module OtpCodes {
  import opened Prelude
  import opened Otp

  predicate IsLockedAt(row: Row, time: int) {
    row.lockedUntil.Some? && row.lockedUntil.value > time
  }

  predicate IsOpen(row: Row, time: int) {
    !IsLockedAt(row, time) && time <= row.expiresAt
  }

  /**
   A request stores the code it sends, with a full life and no attempts, if and only if no code
   of the phone is younger than the cooldown and the message was not rejected.
   */
  lemma RequestDecides(c: Config, s: State, phone: Phone, code: Code, sms: Sms, last: Option<RowId>)
    requires Possible(s, Request(phone, code, sms, last))
    ensures var s' := Next(c, s, Request(phone, code, sms, last));
      var cooling := exists i :: 0 <= i < |s.rows| && s.rows[i].phone == phone && s.now < s.rows[i].createdAt + c.cooldown;
      s'.now == s.now &&
      s'.rows == if cooling || sms == Failed then s.rows
                 else s.rows + [Row(phone, code, s.now, s.now + c.expiry, 0, None, false)]
  {
    if i :| 0 <= i < |s.rows| && s.rows[i].phone == phone && s.now < s.rows[i].createdAt + c.cooldown {
      assert Matches(s, phone, false, i);
    }
    if last.Some? {
      assert Matches(s, phone, false, last.value);
    }
  }

  /** The code is sent while row `i` is the one found, neither locked nor expired. */
  predicate Meets(s: State, step: Step, i: RowId)
    requires i < |s.rows|
  {
    step.Verify? && step.found == Some(i) && IsOpen(s.rows[i], s.now)
  }

  /**
   A row becomes consumed if and only if the right code meets it, earlier wrong ones or not;
   its attempts rise by one if and only if a wrong code meets it, and the one that reaches
   the limit locks it. No other column and no other row ever changes.
   */
  lemma VerifyDecides(c: Config, s: State, phone: Phone, code: Code, found: Option<RowId>, i: RowId)
    requires i < |s.rows|
    ensures var step := Verify(phone, code, found); var s' := Next(c, s, step); var row := s.rows[i];
      |s'.rows| == |s.rows| && s'.now == s.now &&
      (s'.rows[i].consumed <==> row.consumed || (Meets(s, step, i) && code == row.code)) &&
      s'.rows[i].attempts == row.attempts + (if Meets(s, step, i) && code != row.code then 1 else 0) &&
      s'.rows[i].lockedUntil == (if Meets(s, step, i) && code != row.code && row.attempts + 1 >= c.maxAttempts
                                 then Some(s.now + c.lock) else row.lockedUntil) &&
      s'.rows[i].phone == row.phone && s'.rows[i].code == row.code &&
      s'.rows[i].createdAt == row.createdAt && s'.rows[i].expiresAt == row.expiresAt
  {}

  /** The answer tells what was done: a login exactly for the right code, a wrong code exactly otherwise. */
  lemma VerdictTellsTheCode(c: Config, s: State, step: Step, i: RowId)
    ensures Grants(c, s, step, i) <==> i < |s.rows| && Meets(s, step, i) && step.code == s.rows[i].code
    ensures ComparesWrong(c, s, step, i) <==> i < |s.rows| && Meets(s, step, i) && step.code != s.rows[i].code
    ensures step.Verify? && step.found == Some(i) && i < |s.rows| ==>
      var verdict := Judge(c, s, step.code, step.found);
      (verdict == Locked <==> IsLockedAt(s.rows[i], s.now)) &&
      (verdict == Expired <==> !IsLockedAt(s.rows[i], s.now) && s.now > s.rows[i].expiresAt) &&
      (verdict == WrongAndLocked <==> ComparesWrong(c, s, step, i) && s.rows[i].attempts + 1 >= c.maxAttempts)
  {}

  /** The right code for row `i` met it in step `k` of the run. */
  ghost predicate RightCodeAt(c: Config, run: seq<Step>, i: RowId, k: nat)
    requires k < |run|
  {
    var s := After(c, run[..k]);
    i < |s.rows| && Meets(s, run[k], i) && run[k].code == s.rows[i].code
  }

  ghost predicate RightCodeSent(c: Config, run: seq<Step>, i: RowId) {
    exists k :: 0 <= k < |run| && RightCodeAt(c, run, i, k)
  }

  lemma RightCodeBefore(c: Config, run: seq<Step>, i: RowId, k: nat)
    requires k < |run|
    ensures k < |run| - 1 ==> (RightCodeAt(c, run, i, k) <==> RightCodeAt(c, run[..|run| - 1], i, k))
  {
    if k < |run| - 1 {
      assert run[..|run| - 1][..k] == run[..k];
    }
  }

  lemma RightCodeOneMore(c: Config, run: seq<Step>, i: RowId)
    requires run != []
    ensures RightCodeSent(c, run, i) <==> RightCodeSent(c, run[..|run| - 1], i) || RightCodeAt(c, run, i, |run| - 1)
  {
    var front := run[..|run| - 1];
    if RightCodeSent(c, front, i) {
      var k :| 0 <= k < |front| && RightCodeAt(c, front, i, k);
      RightCodeBefore(c, run, i, k);
    }
    if RightCodeSent(c, run, i) {
      var k :| 0 <= k < |run| && RightCodeAt(c, run, i, k);
      RightCodeBefore(c, run, i, k);
    }
  }

  lemma StepConsumesIff(c: Config, s: State, step: Step, i: RowId)
    ensures var s' := Next(c, s, step);
      (i < |s'.rows| && s'.rows[i].consumed) <==>
      i < |s.rows| && (s.rows[i].consumed || (Meets(s, step, i) && step.code == s.rows[i].code))
  {
    if step.Verify? && i < |s.rows| {
      VerifyDecides(c, s, step.phone, step.code, step.found, i);
    }
  }

  /** In every run a row has granted its login if and only if the right code has met it open. */
  lemma {:induction false} ConsumedIffRightCode(c: Config, run: seq<Step>, i: RowId)
    requires IsRun(c, run)
    ensures var s := After(c, run); (i < |s.rows| && s.rows[i].consumed) <==> RightCodeSent(c, run, i)
  {
    if run != [] {
      ConsumedIffRightCode(c, run[..|run| - 1], i);
      RightCodeOneMore(c, run, i);
      StepConsumesIff(c, After(c, run[..|run| - 1]), run[|run| - 1], i);
    }
  }
}
