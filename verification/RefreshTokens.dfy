/**
 Refresh tokens: rows kept by hash, rotated on use. A row's `replacedBy` column first
 points back at the row it replaced and later forward at the row that replaced it. Token
 values stand for their hashes; the column of hashes is unique.
 */
module RefreshTokens {
  import opened Prelude

  type UserId = nat
  type Value = nat
  type TokenId = nat

  datatype Token = Token(user: UserId, value: Value, revoked: bool, expiresAt: int, replacedBy: Option<TokenId>)

  datatype State = State(now: int, tokens: seq<Token>)

  /** `subject` is the user a signed token names, absent when the signature check fails. */
  datatype Step =
    | Login(user: UserId, value: Value, lifetime: nat)
    | Refresh(value: Value, subject: Option<UserId>, userExists: bool, newValue: Value, lifetime: nat)
    | Logout(user: UserId, value: Value)
    | Clock(time: int)

  datatype Outcome = Issued(id: TokenId) | Unauthorized | Failed

  // ----------------------------------------------------------------- the service

  predicate IsTaken(s: State, value: Value) {
    exists i :: 0 <= i < |s.tokens| && s.tokens[i].value == value
  }

  /** The row with this hash; the unique column leaves no choice. */
  function Find(tokens: seq<Token>, value: Value): Option<TokenId> {
    if tokens == [] then None
    else if tokens[|tokens| - 1].value == value then Some(|tokens| - 1)
    else Find(tokens[..|tokens| - 1], value)
  }

  /** Refused, with an error, when the hash is already stored. */
  function IssueToken(s: State, user: UserId, value: Value, lifetime: nat, replaced: Option<TokenId>): State
    requires replaced.Some? ==> replaced.value < |s.tokens|
  {
    if IsTaken(s, value) then s
    else
      var tokens := s.tokens + [Token(user, value, false, s.now + lifetime, replaced)];
      s.(tokens := if replaced.Some?
                   then tokens[replaced.value := tokens[replaced.value].(replacedBy := Some(|s.tokens|))]
                   else tokens)
  }

  predicate IsLive(s: State, i: TokenId) {
    i < |s.tokens| && !s.tokens[i].revoked && s.tokens[i].expiresAt >= s.now
  }

  /** The checks before rotation. */
  predicate IsAccepted(s: State, value: Value, subject: Option<UserId>) {
    var found := Find(s.tokens, value);
    subject.Some? && found.Some? && IsLive(s, found.value)
  }

  function Revoke(s: State, i: TokenId): State
    requires i < |s.tokens|
  {
    s.(tokens := s.tokens[i := s.tokens[i].(revoked := true)])
  }

  /** The old token is revoked first; only then can the user be missing or the new hash taken. */
  function RefreshToken(s: State, step: Step): State
    requires step.Refresh?
  {
    if !IsAccepted(s, step.value, step.subject) then s
    else
      var i := Find(s.tokens, step.value).value;
      var s1 := Revoke(s, i);
      if !step.userExists then s1 else IssueToken(s1, step.subject.value, step.newValue, step.lifetime, Some(i))
  }

  function LogoutUser(s: State, user: UserId, value: Value): State {
    var found := Find(s.tokens, value);
    if found.Some? && found.value < |s.tokens| && s.tokens[found.value].user == user then Revoke(s, found.value) else s
  }

  function Next(s: State, step: Step): State {
    match step
    case Login(user, value, lifetime) => IssueToken(s, user, value, lifetime, None)
    case Refresh(_, _, _, _, _) => RefreshToken(s, step)
    case Logout(user, value) => LogoutUser(s, user, value)
    case Clock(time) => s.(now := time)
  }

  function Respond(s: State, step: Step): Outcome
    requires step.Login? || step.Refresh?
  {
    match step
    case Login(_, value, _) => if IsTaken(s, value) then Failed else Issued(|s.tokens|)
    case Refresh(value, subject, userExists, newValue, _) =>
      if !IsAccepted(s, value, subject) then Unauthorized
      else if !userExists || IsTaken(s, newValue) then Failed
      else Issued(|s.tokens|)
  }

  // ------------------------------------------------------------------------ runs

  predicate Possible(s: State, step: Step) {
    step.Clock? ==> s.now <= step.time
  }

  function After(run: seq<Step>): State {
    if run == [] then State(0, []) else Next(After(run[..|run| - 1]), run[|run| - 1])
  }

  ghost predicate IsRun(run: seq<Step>) {
    run == [] || (IsRun(run[..|run| - 1]) && Possible(After(run[..|run| - 1]), run[|run| - 1]))
  }

  /** The sessions after a step: a login opens one, a rotation stays in the old token's. */
  function SessionsAfter(s: State, sessions: seq<nat>, step: Step): seq<nat> {
    match step
    case Login(_, value, _) => if IsTaken(s, value) then sessions else sessions + [|sessions|]
    case Refresh(value, subject, userExists, newValue, _) =>
      if IsAccepted(s, value, subject) && userExists && !IsTaken(s, newValue)
         && Find(s.tokens, value).value < |sessions|
      then sessions + [sessions[Find(s.tokens, value).value]] else sessions
    case _ => sessions
  }

  /** Per token, the login its chain of rotations started from. */
  function Sessions(run: seq<Step>): seq<nat> {
    if run == [] then []
    else SessionsAfter(After(run[..|run| - 1]), Sessions(run[..|run| - 1]), run[|run| - 1])
  }

  /** How often a refresh with this value was accepted. */
  function Acceptances(run: seq<Step>, value: Value): nat {
    if run == [] then 0
    else
      var s, step := After(run[..|run| - 1]), run[|run| - 1];
      Acceptances(run[..|run| - 1], value) +
      if step.Refresh? && step.value == value && IsAccepted(s, value, step.subject) then 1 else 0
  }

  /** The token that replaced token `i`. */
  function Successor(s: State, i: TokenId): Option<TokenId> {
    if i < |s.tokens| && s.tokens[i].replacedBy.Some? && i < s.tokens[i].replacedBy.value
    then s.tokens[i].replacedBy else None
  }

  // ------------------------------------------------------------------- invariant

  ghost predicate ValuesUnique(s: State) {
    forall i, j :: 0 <= i < j < |s.tokens| ==> s.tokens[i].value != s.tokens[j].value
  }

  ghost predicate Links(s: State, sessions: seq<nat>) {
    |sessions| == |s.tokens| &&
    (forall i :: 0 <= i < |sessions| ==> sessions[i] <= i && sessions[sessions[i]] == sessions[i]) &&
    (forall i, j :: 0 <= i < j < |sessions| && sessions[i] == sessions[j] ==>
      s.tokens[i].revoked && Successor(s, i).Some? && Successor(s, i).value <= j) &&
    (forall i :: 0 <= i < |sessions| && Successor(s, i).Some? ==>
      Successor(s, i).value < |sessions| && sessions[Successor(s, i).value] == sessions[i])
  }

  /** Points at its predecessor, unless it came from a login. */
  ghost predicate IsTail(s: State, sessions: seq<nat>, i: TokenId) {
    i < |sessions| && i < |s.tokens| &&
    if sessions[i] == i then s.tokens[i].replacedBy == None
    else s.tokens[i].replacedBy.Some? && Successor(s, s.tokens[i].replacedBy.value) == Some(i)
  }

  ghost predicate PointsBack(s: State, sessions: seq<nat>) {
    |sessions| == |s.tokens| &&
    forall i: TokenId :: i < |sessions| && Successor(s, i) == None ==> IsTail(s, sessions, i)
  }

  lemma {:induction false} FindFinds(tokens: seq<Token>, value: Value)
    ensures match Find(tokens, value)
      case Some(i) => i < |tokens| && tokens[i].value == value
      case None => forall i :: 0 <= i < |tokens| ==> tokens[i].value != value
  {
    if tokens != [] && tokens[|tokens| - 1].value != value {
      FindFinds(tokens[..|tokens| - 1], value);
    }
  }

  lemma StepKeepsUnique(s: State, step: Step)
    requires ValuesUnique(s)
    ensures ValuesUnique(Next(s, step))
  {
    match step
    case Refresh(value, _, _, _, _) => FindFinds(s.tokens, value);
    case Logout(_, value) => FindFinds(s.tokens, value);
    case _ =>
  }

  lemma SameColumnsKeepLinks(s: State, s': State, sessions: seq<nat>)
    requires Links(s, sessions) && |s'.tokens| == |s.tokens|
    requires forall k :: 0 <= k < |s.tokens| ==>
      s'.tokens[k].replacedBy == s.tokens[k].replacedBy && (s.tokens[k].revoked ==> s'.tokens[k].revoked)
    ensures Links(s', sessions)
  {
    forall k: nat ensures Successor(s', k) == Successor(s, k) {}
  }

  lemma SameColumnsPointBack(s: State, s': State, sessions: seq<nat>)
    requires PointsBack(s, sessions) && |s'.tokens| == |s.tokens|
    requires forall k :: 0 <= k < |s.tokens| ==> s'.tokens[k].replacedBy == s.tokens[k].replacedBy
    ensures PointsBack(s', sessions)
  {
    forall k: nat ensures Successor(s', k) == Successor(s, k) {}
    forall k: TokenId | k < |sessions| && Successor(s', k) == None ensures IsTail(s', sessions, k) {
      assert IsTail(s, sessions, k);
    }
  }

  lemma RevokeKeepsLinks(s: State, sessions: seq<nat>, i: TokenId)
    requires Links(s, sessions) && PointsBack(s, sessions) && i < |s.tokens|
    ensures Links(Revoke(s, i), sessions) && PointsBack(Revoke(s, i), sessions)
  {
    SameColumnsKeepLinks(s, Revoke(s, i), sessions);
    SameColumnsPointBack(s, Revoke(s, i), sessions);
  }

  lemma LoginKeepsLinks(s: State, sessions: seq<nat>, user: UserId, value: Value, lifetime: nat)
    requires Links(s, sessions) && PointsBack(s, sessions) && !IsTaken(s, value)
    ensures var s' := IssueToken(s, user, value, lifetime, None);
      Links(s', sessions + [|sessions|]) && PointsBack(s', sessions + [|sessions|])
  {
    var s' := IssueToken(s, user, value, lifetime, None);
    var grown := sessions + [|sessions|];
    forall k: TokenId ensures Successor(s', k) == Successor(s, k) {}
    forall k: TokenId | k < |grown| && Successor(s', k) == None ensures IsTail(s', grown, k) {
      if k < |sessions| { assert IsTail(s, sessions, k); }
    }
  }

  /** One token more, which replaces token `i`. */
  ghost predicate Rotates(s: State, s': State, i: TokenId) {
    var n := |s.tokens|;
    i < n && |s'.tokens| == n + 1 && s'.tokens[n].replacedBy == Some(i) &&
    s'.tokens[i] == s.tokens[i].(replacedBy := Some(n)) &&
    forall k :: 0 <= k < n && k != i ==> s'.tokens[k] == s.tokens[k]
  }

  /** `i` was live before: nothing of its session comes after it. */
  ghost predicate IsLastOfSession(s: State, sessions: seq<nat>, i: TokenId) {
    i < |sessions| && forall j :: i < j < |sessions| ==> sessions[j] != sessions[i]
  }

  lemma RotationSuccessors(s: State, s': State, sessions: seq<nat>, i: TokenId, k: TokenId)
    requires Links(s, sessions) && Rotates(s, s', i) && IsLastOfSession(s, sessions, i)
    ensures Successor(s, i) == None
    ensures Successor(s', k) == if k == i then Some(|s.tokens|) else Successor(s, k)
  {}

  lemma RotationKeepsLinks(s: State, s': State, sessions: seq<nat>, i: TokenId)
    requires Links(s, sessions) && Rotates(s, s', i) && IsLastOfSession(s, sessions, i) && s.tokens[i].revoked
    ensures Links(s', sessions + [sessions[i]])
  {
    var grown := sessions + [sessions[i]];
    forall k: TokenId ensures Successor(s', k) == if k == i then Some(|s.tokens|) else Successor(s, k) {
      RotationSuccessors(s, s', sessions, i, k);
    }
    forall k, j | 0 <= k < j < |grown| && grown[k] == grown[j]
      ensures s'.tokens[k].revoked && Successor(s', k).Some? && Successor(s', k).value <= j
    {
      if j == |sessions| && k != i {
        assert k < i;
        assert s.tokens[k].revoked && Successor(s, k).Some? && Successor(s, k).value <= i;
      }
    }
  }

  lemma OldTailStays(s: State, s': State, sessions: seq<nat>, i: TokenId, k: TokenId)
    requires Links(s, sessions) && Rotates(s, s', i) && IsLastOfSession(s, sessions, i)
    requires k != i && IsTail(s, sessions, k)
    ensures IsTail(s', sessions + [sessions[i]], k)
  {
    if sessions[k] != k {
      RotationSuccessors(s, s', sessions, i, s.tokens[k].replacedBy.value);
    }
  }

  lemma NewTailPointsBack(s: State, s': State, sessions: seq<nat>, i: TokenId)
    requires Links(s, sessions) && Rotates(s, s', i) && IsLastOfSession(s, sessions, i)
    ensures IsTail(s', sessions + [sessions[i]], |s.tokens|)
  {
    RotationSuccessors(s, s', sessions, i, i);
  }

  lemma RotationPointsBack(s: State, s': State, sessions: seq<nat>, i: TokenId)
    requires Links(s, sessions) && PointsBack(s, sessions)
    requires Rotates(s, s', i) && IsLastOfSession(s, sessions, i)
    ensures PointsBack(s', sessions + [sessions[i]])
  {
    forall k: TokenId | k <= |sessions| && Successor(s', k) == None
      ensures IsTail(s', sessions + [sessions[i]], k)
    {
      RotationSuccessors(s, s', sessions, i, k);
      if k == |sessions| {
        NewTailPointsBack(s, s', sessions, i);
      } else {
        OldTailStays(s, s', sessions, i, k);
      }
    }
  }

  lemma IssueRotates(s: State, user: UserId, value: Value, lifetime: nat, i: TokenId)
    requires i < |s.tokens| && !IsTaken(s, value)
    ensures Rotates(s, IssueToken(s, user, value, lifetime, Some(i)), i)
  {}

  lemma LiveIsLast(s: State, sessions: seq<nat>, i: TokenId)
    requires Links(s, sessions) && IsLive(s, i)
    ensures IsLastOfSession(s, sessions, i)
  {}

  lemma RefreshKeepsLinks(s: State, sessions: seq<nat>, step: Step)
    requires Links(s, sessions) && PointsBack(s, sessions) && step.Refresh?
    ensures var sessions' := SessionsAfter(s, sessions, step);
      Links(RefreshToken(s, step), sessions') && PointsBack(RefreshToken(s, step), sessions')
  {
    if IsAccepted(s, step.value, step.subject) {
      FindFinds(s.tokens, step.value);
      var i := Find(s.tokens, step.value).value;
      LiveIsLast(s, sessions, i);
      RevokeKeepsLinks(s, sessions, i);
      var s1 := Revoke(s, i);
      RevokeKeepsTaken(s, i, step.newValue);
      if step.userExists && !IsTaken(s1, step.newValue) {
        var s2 := IssueToken(s1, step.subject.value, step.newValue, step.lifetime, Some(i));
        IssueRotates(s1, step.subject.value, step.newValue, step.lifetime, i);
        RotationKeepsLinks(s1, s2, sessions, i);
        RotationPointsBack(s1, s2, sessions, i);
      }
    }
  }

  lemma RevokeKeepsTaken(s: State, i: TokenId, value: Value)
    requires i < |s.tokens|
    ensures IsTaken(Revoke(s, i), value) <==> IsTaken(s, value)
  {
    var s' := Revoke(s, i);
    assert forall k :: 0 <= k < |s.tokens| ==> s'.tokens[k].value == s.tokens[k].value;
  }

  lemma StepKeepsLinks(s: State, sessions: seq<nat>, step: Step)
    requires Links(s, sessions) && PointsBack(s, sessions)
    ensures var sessions' := SessionsAfter(s, sessions, step);
      Links(Next(s, step), sessions') && PointsBack(Next(s, step), sessions')
  {
    match step
    case Login(user, value, lifetime) =>
      if !IsTaken(s, value) { LoginKeepsLinks(s, sessions, user, value, lifetime); }
    case Refresh(_, _, _, _, _) => RefreshKeepsLinks(s, sessions, step);
    case Logout(user, value) =>
      FindFinds(s.tokens, value);
      if Find(s.tokens, value).Some? { RevokeKeepsLinks(s, sessions, Find(s.tokens, value).value); }
    case Clock(_) =>
      SameColumnsKeepLinks(s, Next(s, step), sessions);
      SameColumnsPointBack(s, Next(s, step), sessions);
  }

  lemma {:induction false} RunKeepsLinks(run: seq<Step>)
    requires IsRun(run)
    ensures Links(After(run), Sessions(run)) && PointsBack(After(run), Sessions(run)) && ValuesUnique(After(run))
  {
    if run != [] {
      var front, step := run[..|run| - 1], run[|run| - 1];
      RunKeepsLinks(front);
      StepKeepsLinks(After(front), Sessions(front), step);
      StepKeepsUnique(After(front), step);
    }
  }

  // -------------------------------------------------------------------- theorems

  /** The shape of a session: its tokens in order, each but the last revoked and naming the next. */
  ghost predicate IsChain(s: State, sessions: seq<nat>) {
    |sessions| == |s.tokens| &&
    (forall i, j :: 0 <= i < j < |sessions| && sessions[i] == sessions[j] ==>
      s.tokens[i].revoked && Successor(s, i).Some? &&
      Successor(s, i).value <= j && sessions[Successor(s, i).value] == sessions[i]) &&
    (forall i: TokenId :: IsLastOfSession(s, sessions, i) ==> IsTail(s, sessions, i))
  }

  lemma LastHasNoSuccessor(s: State, sessions: seq<nat>, i: TokenId)
    requires Links(s, sessions) && IsLastOfSession(s, sessions, i)
    ensures Successor(s, i) == None
  {}

  lemma LinksFormChains(s: State, sessions: seq<nat>)
    requires Links(s, sessions) && PointsBack(s, sessions)
    ensures IsChain(s, sessions)
  {
    forall i: TokenId | IsLastOfSession(s, sessions, i) ensures IsTail(s, sessions, i) {
      LastHasNoSuccessor(s, sessions, i);
    }
  }

  /**
   Along a session every token but the last is revoked and names the next one; the last one
   still points back at its predecessor, or nowhere when the login issued it. So at most
   one token of a session is live.
   */
  lemma SessionsAreChains(run: seq<Step>, i: TokenId, j: TokenId)
    requires IsRun(run)
    ensures var s, sessions := After(run), Sessions(run);
      IsChain(s, sessions) &&
      (i < |sessions| && j < |sessions| && sessions[i] == sessions[j] && IsLive(s, i) && IsLive(s, j) ==> i == j)
  {
    RunKeepsLinks(run);
    LinksFormChains(After(run), Sessions(run));
  }

  /** No two tokens are replaced by the same one. */
  lemma SuccessorsDiffer(run: seq<Step>, i: TokenId, j: TokenId)
    requires IsRun(run) && i < j && Successor(After(run), i).Some?
    ensures Successor(After(run), i) != Successor(After(run), j)
  {
    RunKeepsLinks(run);
    LinksAreInjective(After(run), Sessions(run), i, j);
  }

  lemma LinksAreInjective(s: State, sessions: seq<nat>, i: TokenId, j: TokenId)
    requires Links(s, sessions) && i < j && Successor(s, i).Some?
    ensures Successor(s, i) != Successor(s, j)
  {
    if Successor(s, j).Some? && sessions[i] == sessions[j] {
      assert Successor(s, i).value <= j;
    }
  }

  /** Values stay put and a revocation is for good. */
  lemma StepKeepsRevoked(s: State, step: Step, i: TokenId)
    requires i < |s.tokens|
    ensures var s' := Next(s, step);
      i < |s'.tokens| && s'.tokens[i].value == s.tokens[i].value && s'.tokens[i].expiresAt == s.tokens[i].expiresAt &&
      (s.tokens[i].revoked ==> s'.tokens[i].revoked)
  {
    match step
    case Refresh(value, _, _, _, _) => FindFinds(s.tokens, value);
    case Logout(_, value) => FindFinds(s.tokens, value);
    case _ =>
  }

  ghost predicate IsSpent(s: State, value: Value) {
    exists i :: 0 <= i < |s.tokens| && s.tokens[i].value == value && s.tokens[i].revoked
  }

  lemma StepKeepsSpent(s: State, step: Step, value: Value)
    requires IsSpent(s, value)
    ensures IsSpent(Next(s, step), value)
  {
    var i :| 0 <= i < |s.tokens| && s.tokens[i].value == value && s.tokens[i].revoked;
    StepKeepsRevoked(s, step, i);
  }

  lemma SpentIsRefused(s: State, value: Value, subject: Option<UserId>)
    requires ValuesUnique(s) && IsSpent(s, value)
    ensures !IsAccepted(s, value, subject)
  {
    var i :| 0 <= i < |s.tokens| && s.tokens[i].value == value && s.tokens[i].revoked;
    FindFinds(s.tokens, value);
  }

  lemma AcceptanceSpends(s: State, step: Step)
    requires step.Refresh? && IsAccepted(s, step.value, step.subject)
    ensures IsSpent(Next(s, step), step.value)
  {
    FindFinds(s.tokens, step.value);
    var i := Find(s.tokens, step.value).value;
    var s' := Next(s, step);
    assert s'.tokens[i].value == step.value && s'.tokens[i].revoked;
  }

  lemma {:induction false} AcceptedIsSpent(run: seq<Step>, value: Value)
    requires IsRun(run)
    ensures Acceptances(run, value) <= 1 && (Acceptances(run, value) == 1 ==> IsSpent(After(run), value))
  {
    if run != [] {
      var front, step := run[..|run| - 1], run[|run| - 1];
      AcceptedIsSpent(front, value);
      RunKeepsLinks(front);
      SpendingIsCounted(After(front), step, value, Acceptances(front, value));
    }
  }

  lemma SpendingIsCounted(s: State, step: Step, value: Value, before: nat)
    requires ValuesUnique(s) && before <= 1 && (before == 1 ==> IsSpent(s, value))
    ensures var after := before + if step.Refresh? && step.value == value && IsAccepted(s, value, step.subject) then 1 else 0;
      after <= 1 && (after == 1 ==> IsSpent(Next(s, step), value))
  {
    if before == 1 {
      StepKeepsSpent(s, step, value);
      if step.Refresh? { SpentIsRefused(s, value, step.subject); }
    } else if step.Refresh? && step.value == value && IsAccepted(s, value, step.subject) {
      AcceptanceSpends(s, step);
    }
  }

  /** No token value is ever accepted twice, even when the rotation fails half-way. */
  lemma NoValueIsAcceptedTwice(run: seq<Step>, value: Value)
    requires IsRun(run)
    ensures Acceptances(run, value) <= 1
  {
    AcceptedIsSpent(run, value);
  }

  // -------------------------------------------------------------- closed sessions

  ghost predicate IsClosed(s: State, sessions: seq<nat>, x: nat) {
    forall i :: 0 <= i < |sessions| && sessions[i] == x ==> !IsLive(s, i)
  }

  /** The session of token `i` goes on with a new live token if `completes`, and is closed if not. */
  ghost predicate KeepsOrCloses(s: State, s': State, sessions: seq<nat>, sessions': seq<nat>, i: TokenId, completes: bool) {
    var n := |sessions|;
    i < n &&
    if completes then
      sessions' == sessions + [sessions[i]] && IsLive(s', n) &&
      Successor(s', i) == Some(n) && s'.tokens[n].replacedBy == Some(i)
    else sessions' == sessions && IsClosed(s', sessions, sessions[i])
  }

  /** Known before the call: the user still exists and the new hash is not stored yet. */
  predicate WillComplete(s: State, step: Step)
    requires step.Refresh?
  {
    step.userExists && !IsTaken(s, step.newValue)
  }

  lemma RevocationCloses(s: State, sessions: seq<nat>, i: TokenId)
    requires Links(s, sessions) && i < |sessions| && IsLive(s, i)
    ensures IsClosed(Revoke(s, i), sessions, sessions[i])
  {
    LiveIsLast(s, sessions, i);
  }

  lemma RotationOutcome(s: State, sessions: seq<nat>, step: Step, i: TokenId)
    requires Links(s, sessions) && step.Refresh? && IsAccepted(s, step.value, step.subject)
    requires i < |sessions| && Find(s.tokens, step.value) == Some(i)
    ensures KeepsOrCloses(s, RefreshToken(s, step), sessions, SessionsAfter(s, sessions, step), i, WillComplete(s, step))
    ensures Respond(s, step) == if WillComplete(s, step) then Issued(|s.tokens|) else Failed
  {
    RevokeKeepsTaken(s, i, step.newValue);
    RevocationCloses(s, sessions, i);
    if step.userExists && !IsTaken(s, step.newValue) {
      IssueRotates(Revoke(s, i), step.subject.value, step.newValue, step.lifetime, i);
    }
  }

  /**
   An accepted refresh of an existing user with a hash that is not stored yet leaves its
   session with the new token live; any other leaves it with no live token at all, since the
   old one is revoked regardless.
   */
  lemma RotationKeepsOrClosesSession(run: seq<Step>, step: Step)
    requires IsRun(run) && step.Refresh? && IsAccepted(After(run), step.value, step.subject)
    ensures var s, sessions := After(run), Sessions(run);
      Find(s.tokens, step.value).Some? &&
      KeepsOrCloses(s, Next(s, step), sessions, SessionsAfter(s, sessions, step),
                    Find(s.tokens, step.value).value, WillComplete(s, step))
  {
    RunKeepsLinks(run);
    var s, sessions := After(run), Sessions(run);
    FindFinds(s.tokens, step.value);
    RotationOutcome(s, sessions, step, Find(s.tokens, step.value).value);
  }

  lemma StepKeepsClosed(s: State, sessions: seq<nat>, step: Step, x: nat)
    requires Links(s, sessions) && x < |sessions| && IsClosed(s, sessions, x) && Possible(s, step)
    ensures var sessions' := SessionsAfter(s, sessions, step);
      |sessions| <= |sessions'| && IsClosed(Next(s, step), sessions', x)
  {
    var sessions' := SessionsAfter(s, sessions, step);
    var s' := Next(s, step);
    forall i | 0 <= i < |sessions'| ensures sessions'[i] == x ==> !IsLive(s', i) {
      if i < |sessions| {
        assert sessions[i] == x ==> !IsLive(s, i);
        StepKeepsRevoked(s, step, i);
      } else if step.Refresh? {
        FindFinds(s.tokens, step.value);
        assert IsLive(s, Find(s.tokens, step.value).value);
      }
    }
  }

  /** A session without a live token never gets one again; the user has to log in anew. */
  lemma {:induction false} ClosedForGood(run: seq<Step>, k: nat, x: nat)
    requires IsRun(run) && k <= |run| && x < |Sessions(run[..k])|
    requires IsClosed(After(run[..k]), Sessions(run[..k]), x)
    ensures x < |Sessions(run)| && IsClosed(After(run), Sessions(run), x)
    decreases |run|
  {
    if k == |run| {
      assert run[..k] == run;
    } else {
      var front := run[..|run| - 1];
      assert front[..k] == run[..k];
      ClosedForGood(front, k, x);
      RunKeepsLinks(front);
      StepKeepsClosed(After(front), Sessions(front), run[|run| - 1], x);
    }
  }
}

/** The token half of the authentication service, as it runs. */
module RefreshTokensSystem {
  import opened Prelude
  import opened RefreshTokens

  class TokenService {
    var now: int
    var tokens: seq<Token>
    ghost var history: seq<Step>

    ghost function View(): State
      reads this
    {
      State(now, tokens)
    }

    ghost predicate Valid()
      reads this
    {
      IsRun(history) && View() == After(history)
    }

    constructor ()
      ensures Valid() && history == []
    {
      now, tokens, history := 0, [], [];
    }

    ghost method Log(step: Step, before: State)
      requires IsRun(history) && before == After(history)
      requires Possible(before, step) && View() == Next(before, step)
      modifies this`history
      ensures Valid() && history == old(history) + [step]
    {
      assert (history + [step])[..|history|] == history;
      history := history + [step];
    }

    method IsStored(value: Value) returns (taken: bool)
      ensures taken <==> IsTaken(View(), value)
    {
      taken := exists i :: 0 <= i < |tokens| && tokens[i].value == value;
    }

    method FindUnique(value: Value) returns (found: Option<TokenId>)
      ensures found == Find(tokens, value)
      ensures found.Some? ==> found.value < |tokens|
    {
      found := Find(tokens, value);
      FindFinds(tokens, value);
    }

    /** Creates the row, then lets the replaced row name it. */
    method IssueTokenPair(user: UserId, value: Value, lifetime: nat, replaced: Option<TokenId>) returns (outcome: Outcome)
      requires replaced.Some? ==> replaced.value < |tokens|
      modifies this`tokens
      ensures View() == IssueToken(old(View()), user, value, lifetime, replaced)
      ensures outcome == if IsTaken(old(View()), value) then Failed else Issued(|old(tokens)|)
    {
      var taken := IsStored(value);
      if taken {
        return Failed;
      }
      var id := |tokens|;
      tokens := tokens + [Token(user, value, false, now + lifetime, replaced)];
      if replaced.Some? {
        tokens := tokens[replaced.value := tokens[replaced.value].(replacedBy := Some(id))];
      }
      outcome := Issued(id);
    }

    method LogIn(user: UserId, value: Value, lifetime: nat) returns (outcome: Outcome)
      requires Valid()
      modifies this
      ensures Valid() && history == old(history) + [Login(user, value, lifetime)]
      ensures View() == Next(old(View()), Login(user, value, lifetime))
      ensures outcome == Respond(old(View()), Login(user, value, lifetime))
    {
      ghost var s := View();
      outcome := IssueTokenPair(user, value, lifetime, None);
      Log(Login(user, value, lifetime), s);
    }

    method Rotate(value: Value, subject: Option<UserId>, userExists: bool, newValue: Value, lifetime: nat)
      returns (outcome: Outcome)
      requires Valid()
      modifies this
      ensures Valid() && history == old(history) + [Refresh(value, subject, userExists, newValue, lifetime)]
      ensures View() == Next(old(View()), Refresh(value, subject, userExists, newValue, lifetime))
      ensures outcome == Respond(old(View()), Refresh(value, subject, userExists, newValue, lifetime))
    {
      ghost var s := View();
      outcome := TryRotate(value, subject, userExists, newValue, lifetime);
      Log(Refresh(value, subject, userExists, newValue, lifetime), s);
    }

    method TryRotate(value: Value, subject: Option<UserId>, userExists: bool, newValue: Value, lifetime: nat)
      returns (outcome: Outcome)
      modifies this`tokens
      ensures View() == Next(old(View()), Refresh(value, subject, userExists, newValue, lifetime))
      ensures outcome == Respond(old(View()), Refresh(value, subject, userExists, newValue, lifetime))
    {
      if subject == None {
        return Unauthorized;
      }
      var stored := FindUnique(value);
      if stored == None || tokens[stored.value].revoked || tokens[stored.value].expiresAt < now {
        return Unauthorized;
      }
      RevokeKeepsTaken(View(), stored.value, newValue);
      tokens := tokens[stored.value := tokens[stored.value].(revoked := true)];
      if !userExists {
        return Failed;
      }
      outcome := IssueTokenPair(subject.value, newValue, lifetime, stored);
    }

    method LogOut(user: UserId, value: Value)
      requires Valid()
      modifies this
      ensures Valid() && history == old(history) + [Logout(user, value)]
      ensures View() == Next(old(View()), Logout(user, value))
    {
      ghost var s := View();
      var stored := FindUnique(value);
      if stored.Some? && tokens[stored.value].user == user && !tokens[stored.value].revoked {
        tokens := tokens[stored.value := tokens[stored.value].(revoked := true)];
      }
      Log(Logout(user, value), s);
    }

    method AdvanceClock(time: int)
      requires Valid() && now <= time
      modifies this
      ensures Valid() && history == old(history) + [Clock(time)] && tokens == old(tokens) && now == time
    {
      ghost var s := View();
      now := time;
      Log(Clock(time), s);
    }
  }
}
