/**
 When a refresh token is good: exactly while it is stored, unexpired and not revoked; and
 what revokes it: its one accepted use, or a logout of its own user.
 */
module RefreshRevocation {
  import opened Prelude
  import opened RefreshTokens

  /** A stored token has this value, has not expired and has not been revoked. */
  ghost predicate IsGood(s: State, value: Value) {
    exists i :: 0 <= i < |s.tokens| && s.tokens[i].value == value && !s.tokens[i].revoked && s.now <= s.tokens[i].expiresAt
  }

  /** A refresh is let in if and only if the signature is right and the token is good; else nothing changes. */
  lemma RefreshIsAcceptedIff(s: State, step: Step)
    requires ValuesUnique(s) && step.Refresh?
    ensures Respond(s, step) != Unauthorized <==> step.subject.Some? && IsGood(s, step.value)
    ensures Respond(s, step) == Unauthorized ==> Next(s, step) == s
  {
    FindFinds(s.tokens, step.value);
  }

  /** A logout revokes the user's own token with that value, and leaves every other as it is. */
  lemma LogoutRevokes(s: State, user: UserId, value: Value, i: TokenId)
    requires ValuesUnique(s) && i < |s.tokens|
    ensures var s' := Next(s, Logout(user, value)); var token := s.tokens[i];
      |s'.tokens| == |s.tokens| && s'.now == s.now &&
      s'.tokens[i] == token.(revoked := token.revoked || (token.value == value && token.user == user))
  {
    FindFinds(s.tokens, value);
  }

  /** What a login or a refresh issues: a good token with the new value, for that user and lifetime. */
  lemma IssuedTokenIsGood(s: State, step: Step)
    requires step.Login? || step.Refresh?
    requires Respond(s, step).Issued?
    ensures var s' := Next(s, step); var n := |s.tokens|;
      Respond(s, step) == Issued(n) && |s'.tokens| == n + 1 && !s'.tokens[n].revoked &&
      s'.tokens[n].value == (if step.Login? then step.value else step.newValue) &&
      s'.tokens[n].expiresAt == s.now + step.lifetime &&
      Some(s'.tokens[n].user) == (if step.Login? then Some(step.user) else step.subject)
  {
    if step.Refresh? {
      FindFinds(s.tokens, step.value);
    }
  }

  // ---------------------------------------------------------------------- every run

  /** Step `k` is a logout, by the user of the token with this value. */
  ghost predicate LoggedOutAt(run: seq<Step>, k: nat, value: Value)
    requires k < |run|
  {
    var s := After(run[..k]);
    run[k].Logout? && run[k].value == value &&
    exists i :: 0 <= i < |s.tokens| && s.tokens[i].value == value && s.tokens[i].user == run[k].user
  }

  ghost predicate LoggedOut(run: seq<Step>, value: Value) {
    exists k :: 0 <= k < |run| && LoggedOutAt(run, k, value)
  }

  lemma LoggedOutBefore(run: seq<Step>, k: nat, value: Value)
    requires k < |run|
    ensures k < |run| - 1 ==> (LoggedOutAt(run, k, value) <==> LoggedOutAt(run[..|run| - 1], k, value))
  {
    if k < |run| - 1 {
      assert run[..|run| - 1][..k] == run[..k];
    }
  }

  lemma LoggedOutOneMore(run: seq<Step>, value: Value)
    requires run != []
    ensures LoggedOut(run, value) <==> LoggedOut(run[..|run| - 1], value) || LoggedOutAt(run, |run| - 1, value)
  {
    var front := run[..|run| - 1];
    if LoggedOut(front, value) {
      var k :| 0 <= k < |front| && LoggedOutAt(front, k, value);
      LoggedOutBefore(run, k, value);
    }
    if LoggedOut(run, value) {
      var k :| 0 <= k < |run| && LoggedOutAt(run, k, value);
      LoggedOutBefore(run, k, value);
    }
  }

  /** The step accepts the value, or logs its token out. */
  ghost predicate Revokes(s: State, step: Step, value: Value) {
    match step
    case Refresh(v, subject, _, _, _) => v == value && subject.Some? && IsGood(s, value)
    case Logout(user, v) =>
      v == value && exists i :: 0 <= i < |s.tokens| && s.tokens[i].value == value && s.tokens[i].user == user
    case _ => false
  }

  lemma StepSpendsIf(s: State, step: Step, value: Value)
    requires ValuesUnique(s) && (IsSpent(s, value) || Revokes(s, step, value))
    ensures IsSpent(Next(s, step), value)
  {
    FindFinds(s.tokens, value);
    if IsSpent(s, value) {
      StepKeepsSpent(s, step, value);
    } else if step.Refresh? {
      AcceptanceSpends(s, step);
    } else {
      var i :| 0 <= i < |s.tokens| && s.tokens[i].value == value && s.tokens[i].user == step.user;
      LogoutRevokes(s, step.user, value, i);
    }
  }

  lemma RevokedByStep(s: State, step: Step, i: TokenId)
    requires ValuesUnique(s) && i < |Next(s, step).tokens| && Next(s, step).tokens[i].revoked
    ensures i < |s.tokens| && Next(s, step).tokens[i].value == s.tokens[i].value
    ensures s.tokens[i].revoked || Revokes(s, step, s.tokens[i].value)
  {
    match step
    case Refresh(value, _, _, _, _) => FindFinds(s.tokens, value);
    case Logout(user, value) => FindFinds(s.tokens, value);
    case _ =>
  }

  lemma StepSpendsIff(s: State, step: Step, value: Value)
    requires ValuesUnique(s)
    ensures IsSpent(Next(s, step), value) <==> IsSpent(s, value) || Revokes(s, step, value)
  {
    if IsSpent(s, value) || Revokes(s, step, value) {
      StepSpendsIf(s, step, value);
    } else if IsSpent(Next(s, step), value) {
      var s' := Next(s, step);
      var i :| 0 <= i < |s'.tokens| && s'.tokens[i].value == value && s'.tokens[i].revoked;
      RevokedByStep(s, step, i);
    }
  }

  lemma AcceptedIffGood(s: State, value: Value, subject: Option<UserId>)
    requires ValuesUnique(s)
    ensures IsAccepted(s, value, subject) <==> subject.Some? && IsGood(s, value)
  {
    FindFinds(s.tokens, value);
  }

  /**
   In every run a stored token is revoked if and only if a refresh with it has been accepted
   or its own user has logged it out; from then on it is never let in again.
   */
  lemma {:induction false} RevokedIff(run: seq<Step>, value: Value)
    requires IsRun(run)
    ensures IsSpent(After(run), value) <==> Acceptances(run, value) > 0 || LoggedOut(run, value)
    ensures IsSpent(After(run), value) ==> !IsGood(After(run), value)
  {
    if run != [] {
      var front, step := run[..|run| - 1], run[|run| - 1];
      RevokedIff(front, value);
      RunKeepsLinks(front);
      LoggedOutOneMore(run, value);
      StepSpendsIff(After(front), step, value);
      if step.Refresh? { AcceptedIffGood(After(front), value, step.subject); }
    }
    RunKeepsLinks(run);
  }
}
