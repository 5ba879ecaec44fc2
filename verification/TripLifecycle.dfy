/** A value that may be absent: the nullable columns of the data store. */
module Prelude {
  datatype Option<+T> = None | Some(value: T)
}

/**
 The trip state machine: the transition table, the two extra edges that only the
 stale-trip sweep writes, and the rank that makes every run of a trip short.
 */
module TripLifecycle {

  datatype TripStatus =
    | Pending
    | Accepted
    | DriverArriving
    | InProgress
    | Completed
    | CancelledByClient
    | CancelledByDriver
    | CancelledAuto

  function ValidTransitions(from: TripStatus): seq<TripStatus> {
    match from
    case Pending => [Accepted, CancelledByClient, CancelledByDriver, CancelledAuto]
    case Accepted => [DriverArriving, CancelledByClient, CancelledByDriver]
    case DriverArriving => [InProgress, CancelledByClient, CancelledByDriver]
    case InProgress => [Completed]
    case Completed => []
    case CancelledByClient => []
    case CancelledByDriver => []
    case CancelledAuto => []
  }

  predicate CanTransition(from: TripStatus, to: TripStatus) {
    to in ValidTransitions(from)
  }

  /** A trip that holds its driver, for the candidate query of the dispatcher. */
  predicate IsActive(status: TripStatus) {
    status in {Accepted, DriverArriving, InProgress}
  }

  predicate IsTerminal(status: TripStatus) {
    ValidTransitions(status) == []
  }

  /** The edges the stale-trip sweep writes without consulting the table. */
  predicate StaleEdge(from: TripStatus, to: TripStatus) {
    from in {Accepted, DriverArriving} && to == CancelledAuto
  }

  function Rank(status: TripStatus): nat {
    match status
    case Pending => 0
    case Accepted => 1
    case DriverArriving => 2
    case InProgress => 3
    case _ => 4
  }

  predicate IsOnTheWay(status: TripStatus) {
    status in {Pending, Accepted, DriverArriving, InProgress, Completed}
  }

  /** The table in one sentence: one stage further, or cancelled before the ride, by the system only while pending. */
  lemma TableAllowsIff(from: TripStatus, to: TripStatus)
    ensures CanTransition(from, to) <==>
      (IsOnTheWay(from) && IsOnTheWay(to) && Rank(to) == Rank(from) + 1) ||
      (to in {CancelledByClient, CancelledByDriver} && Rank(from) < Rank(InProgress)) ||
      (to == CancelledAuto && from == Pending)
  {}

  /** `path` lists the statuses one trip had, moment after moment. */
  ghost predicate IsStatusPath(path: seq<TripStatus>) {
    forall i :: 0 < i < |path| ==>
      path[i] == path[i - 1] || CanTransition(path[i - 1], path[i]) || StaleEdge(path[i - 1], path[i])
  }

  function Changes(path: seq<TripStatus>): nat {
    if |path| < 2 then 0
    else Changes(path[..|path| - 1]) + if path[|path| - 1] == path[|path| - 2] then 0 else 1
  }

  lemma {:induction false} TerminalStays(path: seq<TripStatus>, i: nat, j: nat)
    requires IsStatusPath(path) && i <= j < |path| && IsTerminal(path[i])
    ensures path[j] == path[i]
    decreases j
  {
    if i < j {
      TerminalStays(path, i, j - 1);
    }
  }

  /**
   A trip changes status at most four times, and never again once it is completed or
   cancelled. No stale edge leaves a terminal status, so the table's empty rows settle it.
   */
  lemma {:induction false} ChangesAreBoundedByRank(path: seq<TripStatus>)
    requires |path| > 0 && IsStatusPath(path)
    ensures Changes(path) + Rank(path[0]) <= Rank(path[|path| - 1]) <= 4
    ensures forall i, j :: 0 <= i <= j < |path| && IsTerminal(path[i]) ==> path[j] == path[i]
  {
    if |path| > 1 {
      var front := path[..|path| - 1];
      assert forall i :: 0 <= i < |front| ==> front[i] == path[i];
      ChangesAreBoundedByRank(front);
    }
    forall i, j | 0 <= i <= j < |path| && IsTerminal(path[i]) ensures path[j] == path[i] {
      TerminalStays(path, i, j);
    }
  }
}
