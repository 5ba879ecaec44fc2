/**
 Who a wave reaches: among the candidates it takes the nearest first, and passes over
 nobody who was free.
 */
module DispatchOrder {
  import opened DispatchModel

  ghost predicate EachOnce(ds: seq<DriverId>) {
    forall i, j :: 0 <= i < j < |ds| ==> ds[i] != ds[j]
  }

  /** The wave `AttemptDispatch` sends for trip `t` from state `s`. */
  function WaveOf(setup: Setup, s: State, t: TripId, service: Service, near: seq<DriverId>): WaveResult {
    var s1 := BumpRounds(s, t);
    Wave(setup.config(service), s1, t, Take(Candidates(s1, near), setup.config(service).maxAttempts))
  }

  /** Candidates keep the order of the position query. */
  lemma {:induction false} CandidatesKeepOrder(s: State, near: seq<DriverId>, j: nat)
    returns (b: nat)
    requires j < |near| && !HasYoungTrip(s, near[j])
    ensures b < |Candidates(s, near)| && Candidates(s, near)[b] == near[j]
    ensures forall i :: 0 <= i < j && !HasYoungTrip(s, near[i]) ==> near[i] in Candidates(s, near)[..b]
  {
    var rest := Candidates(s, near[1..]);
    var head := if HasYoungTrip(s, near[0]) then [] else [near[0]];
    assert Candidates(s, near) == head + rest;
    if j == 0 {
      b := 0;
    } else {
      var r := CandidatesKeepOrder(s, near[1..], j - 1);
      b := |head| + r;
      assert (head + rest)[..b] == head + rest[..r];
      forall i | 0 <= i < j && !HasYoungTrip(s, near[i]) ensures near[i] in (head + rest)[..b] {
        if i > 0 { assert near[1..][i - 1] == near[i]; }
      }
    }
  }

  lemma {:induction false} CandidatesAreNear(s: State, near: seq<DriverId>, d: DriverId)
    requires d in Candidates(s, near)
    ensures d in near && !HasYoungTrip(s, d)
  {
    if near != [] {
      if d in Candidates(s, near[1..]) { CandidatesAreNear(s, near[1..], d); }
    }
  }

  /** A wave notifies the drivers it was given whose lock was free, each once, and no others. */
  lemma {:induction false} WaveTakesTheFree(c: DispatchConfig, s: State, t: TripId, ds: seq<DriverId>, d: DriverId)
    ensures var r := Wave(c, s, t, ds);
      (d in r.notified <==> d in ds && d !in s.locks) && (d in r.state.locks <==> d in s.locks || d in ds)
  {
    if ds != [] {
      var n := |ds| - 1;
      WaveTakesTheFree(c, s, t, ds[..n], d);
      assert ds == ds[..n] + [ds[n]];
      WaveTakesTheFree(c, s, t, ds[..n], ds[n]);
    }
  }

  lemma {:induction false} SameDriverSamePlace(ds: seq<DriverId>, a: nat, b: nat)
    requires EachOnce(ds) && a < |ds| && b < |ds| && ds[a] == ds[b]
    ensures a == b
  {}

  lemma {:induction false} CandidatesAreOnce(s: State, near: seq<DriverId>)
    requires EachOnce(near)
    ensures EachOnce(Candidates(s, near))
  {
    if near != [] {
      assert forall i :: 0 <= i < |near| - 1 ==> near[1..][i] == near[i + 1];
      CandidatesAreOnce(s, near[1..]);
      var rest := Candidates(s, near[1..]);
      forall i | 0 <= i < |rest| ensures rest[i] != near[0] {
        CandidatesAreNear(s, near[1..], rest[i]);
      }
    }
  }

  /**
   Nearest first: when a wave notifies a driver, it notifies every nearer one who is in
   range, without a young active trip and without a lock.
   */
  lemma NearestFirst(setup: Setup, s: State, t: TripId, service: Service, near: seq<DriverId>, i: nat, j: nat)
    requires EachOnce(near) && i < j < |near|
    requires near[j] in WaveOf(setup, s, t, service, near).notified
    requires !HasYoungTrip(s, near[i]) && near[i] !in s.locks
    ensures near[i] in WaveOf(setup, s, t, service, near).notified
  {
    var s1 := BumpRounds(s, t);
    var c := setup.config(service);
    var candidates := Candidates(s1, near);
    var wave := Take(candidates, c.maxAttempts);
    WaveTakesTheFree(c, s1, t, wave, near[j]);
    WaveTakesTheFree(c, s1, t, wave, near[i]);
    var k :| 0 <= k < |wave| && wave[k] == near[j];
    assert candidates[k] == near[j];
    CandidatesAreNear(s1, near, near[j]);
    assert HasYoungTrip(s1, near[i]) <==> HasYoungTrip(s, near[i]);
    var b := CandidatesKeepOrder(s1, near, j);
    CandidatesAreOnce(s1, near);
    SameDriverSamePlace(candidates, k, b);
    assert near[i] in candidates[..b];
    assert candidates[..b] <= wave;
  }
}
