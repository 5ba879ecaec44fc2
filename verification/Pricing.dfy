/**
 The pricing engine: rules kept in priority order and applied one after the other to a
 breakdown, with the two built-in rules that round twice. Arithmetic is exact.
 */
module Pricing {
  import opened Prelude
  import opened Rounding

  type ServiceType = nat
  type VehicleTypeId = nat

  datatype Point = Point(lat: real, lng: real)

  datatype Context = Context(
    service: ServiceType, vehicleType: VehicleTypeId,
    baseFare: real, pricePerKm: real, pricePerMin: real, commissionPercentage: real,
    distanceMeters: real, durationSeconds: real,
    pickup: Point, minuteOfDay: nat,
    surge: Option<real>)

  datatype Breakdown = Breakdown(baseFare: real, distanceCost: real, durationCost: real,
                                 surgeMultiplier: real, total: real)

  datatype Rule = Rule(name: string, priority: int,
                       isApplicable: Context -> bool, apply: (Context, Breakdown) -> Breakdown)

  datatype Quote = Quote(estimatedPrice: real, commissionAmount: real, breakdown: Breakdown)

  // -------------------------------------------------------------- built-in rules

  function DistanceCost(c: Context): real { Times(c.distanceMeters / 1000.0, c.pricePerKm) }

  function DurationCost(c: Context): real { Times(c.durationSeconds / 60.0, c.pricePerMin) }

  function RawPrice(c: Context): real {
    c.baseFare + DistanceCost(c) + DurationCost(c)
  }

  function SurgeOf(c: Context): real {
    if c.surge.Some? then c.surge.value else 1.0
  }

  const BASE_FARE_RULE :=
    Rule("BaseFare", 10,
         (c: Context) => true,
         (c: Context, b: Breakdown) =>
           Breakdown(c.baseFare, DistanceCost(c), DurationCost(c), b.surgeMultiplier, Round(RawPrice(c)) as real))

  const SURGE_RULE :=
    Rule("SurgeMultiplier", 20,
         (c: Context) => SurgeOf(c) != 1.0,
         (c: Context, b: Breakdown) =>
           b.(surgeMultiplier := SurgeOf(c), total := Round(Times(b.total, SurgeOf(c))) as real))

  // ------------------------------------------------------------------- registry

  /** A stable sort by priority: equal priorities keep their order. */
  function Sort(rules: seq<Rule>): seq<Rule> {
    if rules == [] then [] else Insert(Sort(rules[..|rules| - 1]), rules[|rules| - 1])
  }

  function Insert(sorted: seq<Rule>, r: Rule): seq<Rule> {
    if sorted == [] || sorted[|sorted| - 1].priority <= r.priority then sorted + [r]
    else Insert(sorted[..|sorted| - 1], r) + [sorted[|sorted| - 1]]
  }

  /** The list after registering `rules` one by one: each is pushed, then the list is sorted. */
  function Registry(rules: seq<Rule>): seq<Rule> {
    if rules == [] then [] else Sort(Registry(rules[..|rules| - 1]) + [rules[|rules| - 1]])
  }

  ghost predicate IsSorted(rules: seq<Rule>) {
    forall i, j :: 0 <= i < j < |rules| ==> rules[i].priority <= rules[j].priority
  }

  /** The rules of one priority, in order. */
  function OfPriority(rules: seq<Rule>, p: int): seq<Rule> {
    if rules == [] then []
    else OfPriority(rules[..|rules| - 1], p) +
         if rules[|rules| - 1].priority == p then [rules[|rules| - 1]] else []
  }

  ghost predicate SameByPriority(a: seq<Rule>, b: seq<Rule>) {
    forall p :: OfPriority(a, p) == OfPriority(b, p)
  }

  // ---------------------------------------------------------------- calculation

  const INITIAL_BREAKDOWN := Breakdown(0.0, 0.0, 0.0, 1.0, 0.0)

  function ApplyAll(rules: seq<Rule>, c: Context): Breakdown {
    if rules == [] then INITIAL_BREAKDOWN
    else
      var b := ApplyAll(rules[..|rules| - 1], c);
      var r := rules[|rules| - 1];
      if r.isApplicable(c) then r.apply(c, b) else b
  }

  function QuoteWith(rules: seq<Rule>, c: Context): Quote {
    var b := ApplyAll(rules, c);
    Quote(b.total, Commission(b.total, c.commissionPercentage), b)
  }

  class PricingEngine {
    var rules: seq<Rule>
    ghost var registered: seq<Rule>

    ghost predicate Valid()
      reads this
    {
      rules == Registry(registered)
    }

    constructor ()
      ensures Valid() && registered == [BASE_FARE_RULE, SURGE_RULE]
    {
      rules, registered := [], [];
      new;
      RegisterRule(BASE_FARE_RULE);
      RegisterRule(SURGE_RULE);
    }

    method RegisterRule(rule: Rule)
      requires Valid()
      modifies this
      ensures Valid() && registered == old(registered) + [rule]
      ensures rules == Sort(old(rules) + [rule])
    {
      rules := rules + [rule];
      rules := Sort(rules);
      registered := registered + [rule];
      assert registered[..|registered| - 1] == old(registered);
    }

    method Calculate(context: Context) returns (quote: Quote)
      requires Valid()
      ensures quote == QuoteWith(Registry(registered), context)
    {
      var breakdown := INITIAL_BREAKDOWN;
      for i := 0 to |rules|
        invariant breakdown == ApplyAll(rules[..i], context)
      {
        assert rules[..i + 1][..i] == rules[..i];
        if rules[i].isApplicable(context) {
          breakdown := rules[i].apply(context, breakdown);
        }
      }
      assert rules[..|rules|] == rules;
      var commission := Commission(breakdown.total, context.commissionPercentage);
      quote := Quote(breakdown.total, commission, breakdown);
    }
  }
}

/** Theorems about the registry and about the price the built-in rules produce. */
module PricingLaws {
  import opened Prelude
  import opened Rounding
  import opened Pricing

  // ------------------------------------------------------------------- registry

  lemma OfPriorityOfPush(a: seq<Rule>, r: Rule, p: int)
    ensures OfPriority(a + [r], p) == OfPriority(a, p) + if r.priority == p then [r] else []
  {
    assert (a + [r])[..|a|] == a;
  }

  lemma {:induction false} NoneAbove(a: seq<Rule>, p: int)
    requires forall i :: 0 <= i < |a| ==> a[i].priority != p
    ensures OfPriority(a, p) == []
  {
    if a != [] {
      NoneAbove(a[..|a| - 1], p);
    }
  }

  lemma {:induction false} InsertKeepsTies(sorted: seq<Rule>, r: Rule, p: int)
    ensures OfPriority(Insert(sorted, r), p) == OfPriority(sorted + [r], p)
  {
    if sorted != [] && sorted[|sorted| - 1].priority > r.priority {
      var n := |sorted| - 1;
      var front, last := sorted[..n], sorted[n];
      assert sorted == front + [last];
      InsertKeepsTies(front, r, p);
      OfPriorityOfPush(Insert(front, r), last, p);
      OfPriorityOfPush(front, r, p);
      OfPriorityOfPush(front, last, p);
      OfPriorityOfPush(sorted, r, p);
    }
  }

  lemma {:induction false} InsertPermutes(sorted: seq<Rule>, r: Rule)
    ensures multiset(Insert(sorted, r)) == multiset(sorted) + multiset{r}
  {
    if sorted != [] && sorted[|sorted| - 1].priority > r.priority {
      var n := |sorted| - 1;
      assert sorted == sorted[..n] + [sorted[n]];
      InsertPermutes(sorted[..n], r);
    }
  }

  lemma {:induction false} InsertStaysBelow(sorted: seq<Rule>, r: Rule, p: int)
    requires r.priority <= p && forall i :: 0 <= i < |sorted| ==> sorted[i].priority <= p
    ensures forall i :: 0 <= i < |Insert(sorted, r)| ==> Insert(sorted, r)[i].priority <= p
  {
    if sorted != [] && sorted[|sorted| - 1].priority > r.priority {
      InsertStaysBelow(sorted[..|sorted| - 1], r, p);
    }
  }

  lemma {:induction false} InsertKeepsOrder(sorted: seq<Rule>, r: Rule)
    requires IsSorted(sorted)
    ensures IsSorted(Insert(sorted, r))
  {
    if sorted != [] && sorted[|sorted| - 1].priority > r.priority {
      var n := |sorted| - 1;
      InsertKeepsOrder(sorted[..n], r);
      InsertStaysBelow(sorted[..n], r, sorted[n].priority);
    }
  }

  /** The sort orders by priority, drops and invents nothing, and keeps ties in order. */
  lemma {:induction false} SortFacts(rules: seq<Rule>)
    ensures IsSorted(Sort(rules)) && SameByPriority(Sort(rules), rules)
    ensures multiset(Sort(rules)) == multiset(rules)
  {
    if rules != [] {
      var n := |rules| - 1;
      var front, last := rules[..n], rules[n];
      assert rules == front + [last];
      SortFacts(front);
      InsertKeepsOrder(Sort(front), last);
      InsertPermutes(Sort(front), last);
      forall p ensures OfPriority(Sort(rules), p) == OfPriority(rules, p) {
        InsertKeepsTies(Sort(front), last, p);
        OfPriorityOfPush(Sort(front), last, p);
        OfPriorityOfPush(front, last, p);
      }
    }
  }

  /** After any registrations the list is a priority-sorted permutation of them, ties in order. */
  lemma {:induction false} RegistryIsSorted(rules: seq<Rule>)
    ensures IsSorted(Registry(rules)) && SameByPriority(Registry(rules), rules)
    ensures multiset(Registry(rules)) == multiset(rules)
  {
    if rules != [] {
      var n := |rules| - 1;
      var front, last := rules[..n], rules[n];
      assert rules == front + [last];
      RegistryIsSorted(front);
      var pushed := Registry(front) + [last];
      SortFacts(pushed);
      forall p ensures OfPriority(Registry(rules), p) == OfPriority(rules, p) {
        OfPriorityOfPush(Registry(front), last, p);
        OfPriorityOfPush(front, last, p);
      }
    }
  }

  lemma {:induction false} LastOfPriority(a: seq<Rule>)
    requires a != []
    ensures var last := a[|a| - 1];
      OfPriority(a, last.priority) == OfPriority(a[..|a| - 1], last.priority) + [last]
  {}

  lemma {:induction false} InOfPriority(a: seq<Rule>, p: int)
    requires OfPriority(a, p) != []
    ensures exists i :: 0 <= i < |a| && a[i].priority == p
  {
    if forall i :: 0 <= i < |a| ==> a[i].priority != p {
      NoneAbove(a, p);
    }
  }

  lemma SomeTies(a: seq<Rule>)
    requires a != []
    ensures exists p :: OfPriority(a, p) != []
  {
    LastOfPriority(a);
    assert OfPriority(a, a[|a| - 1].priority) != [];
  }

  lemma TiesOfFronts(a: seq<Rule>, b: seq<Rule>, last: Rule)
    requires SameByPriority(a + [last], b + [last])
    ensures SameByPriority(a, b)
  {
    forall p ensures OfPriority(a, p) == OfPriority(b, p) {
      assert OfPriority(a + [last], p) == OfPriority(b + [last], p);
      OfPriorityOfPush(a, last, p);
      OfPriorityOfPush(b, last, p);
      var x, y := OfPriority(a, p), OfPriority(b, p);
      if last.priority == p {
        assert (x + [last])[..|x|] == x && (y + [last])[..|y|] == y;
      } else {
        assert x + [] == x && y + [] == y;
      }
    }
  }

  lemma TopIsReached(a: seq<Rule>, b: seq<Rule>)
    requires a != [] && IsSorted(b) && SameByPriority(a, b)
    ensures b != [] && a[|a| - 1].priority <= b[|b| - 1].priority
  {
    var p := a[|a| - 1].priority;
    LastOfPriority(a);
    assert OfPriority(b, p) == OfPriority(a, p);
    InOfPriority(b, p);
  }

  lemma SameTop(a: seq<Rule>, b: seq<Rule>)
    requires a != [] && IsSorted(a) && IsSorted(b) && SameByPriority(a, b)
    ensures b != [] && a[|a| - 1] == b[|b| - 1]
  {
    TopIsReached(a, b);
    TopIsReached(b, a);
    var p := a[|a| - 1].priority;
    LastOfPriority(a);
    LastOfPriority(b);
    var ties := OfPriority(a, p);
    assert ties == OfPriority(b, p);
    assert ties[|ties| - 1] == a[|a| - 1];
  }

  lemma SortedFront(a: seq<Rule>)
    requires IsSorted(a) && a != []
    ensures IsSorted(a[..|a| - 1]) && a == a[..|a| - 1] + [a[|a| - 1]]
  {}

  /** A sorted list is determined by its tie groups. */
  lemma {:induction false} SortedIsUnique(a: seq<Rule>, b: seq<Rule>)
    requires IsSorted(a) && IsSorted(b) && SameByPriority(a, b)
    ensures a == b
    decreases |a|
  {
    if a == [] {
      if b != [] {
        SomeTies(b);
      }
    } else {
      SameTop(a, b);
      SortedFront(a);
      SortedFront(b);
      TiesOfFronts(a[..|a| - 1], b[..|b| - 1], a[|a| - 1]);
      SortedIsUnique(a[..|a| - 1], b[..|b| - 1]);
    }
  }

  /** Two registration orders give the same list exactly when they order ties alike. */
  lemma RegistriesAgreeIff(a: seq<Rule>, b: seq<Rule>)
    ensures Registry(a) == Registry(b) <==> SameByPriority(a, b)
  {
    RegistryIsSorted(a);
    RegistryIsSorted(b);
    if SameByPriority(a, b) {
      SortedIsUnique(Registry(a), Registry(b));
    } else {
      var p :| OfPriority(a, p) != OfPriority(b, p);
      assert OfPriority(Registry(a), p) == OfPriority(a, p);
      assert OfPriority(Registry(b), p) == OfPriority(b, p);
    }
  }

  ghost predicate DistinctPriorities(rules: seq<Rule>) {
    forall i, j :: 0 <= i < j < |rules| ==> rules[i].priority != rules[j].priority
  }

  lemma {:induction false} OnlyOneOfPriority(rules: seq<Rule>, i: nat)
    requires DistinctPriorities(rules) && i < |rules|
    ensures OfPriority(rules, rules[i].priority) == [rules[i]]
  {
    var n := |rules| - 1;
    if i == n {
      NoneAbove(rules[..n], rules[n].priority);
    } else {
      OnlyOneOfPriority(rules[..n], i);
    }
  }

  /** With distinct priorities a quote does not depend on the order of registration. */
  lemma OrderOfRegistrationIsIrrelevant(a: seq<Rule>, b: seq<Rule>, c: Context)
    requires multiset(a) == multiset(b) && DistinctPriorities(a) && DistinctPriorities(b)
    ensures Registry(a) == Registry(b) && QuoteWith(Registry(a), c) == QuoteWith(Registry(b), c)
  {
    forall p ensures OfPriority(a, p) == OfPriority(b, p) {
      if i :| 0 <= i < |a| && a[i].priority == p {
        assert a[i] in multiset(b);
        var j :| 0 <= j < |b| && b[j] == a[i];
        OnlyOneOfPriority(a, i);
        OnlyOneOfPriority(b, j);
      } else {
        NoneAbove(a, p);
        forall j | 0 <= j < |b| ensures b[j].priority != p { assert b[j] in multiset(a); }
        NoneAbove(b, p);
      }
    }
    RegistriesAgreeIff(a, b);
  }

  // ----------------------------------------------------------------------- price

  function BuiltIn(c: Context): Quote {
    QuoteWith(Registry([BASE_FARE_RULE, SURGE_RULE]), c)
  }

  lemma BuiltInRules()
    ensures Registry([BASE_FARE_RULE, SURGE_RULE]) == [BASE_FARE_RULE, SURGE_RULE]
  {
    var rules := [BASE_FARE_RULE, SURGE_RULE];
    assert IsSorted(rules);
    RegistryIsSorted(rules);
    SortedIsUnique(Registry(rules), rules);
  }

  function TwiceRounded(raw: real, surge: real): real {
    Round(Times(Round(raw) as real, surge)) as real
  }

  /** A multiplier of 1 changes nothing, so skipping the surge rule then is the same. */
  lemma SurgeOfOneIsNeutral(raw: real)
    ensures TwiceRounded(raw, 1.0) == Round(raw) as real
  {
    RoundIsNearest(Times(Round(raw) as real, 1.0), Round(raw));
  }

  /** The engine as constructed: the base fare rounded, then surge, rounded again. */
  lemma BuiltInPrice(c: Context)
    ensures BuiltIn(c).estimatedPrice == TwiceRounded(RawPrice(c), SurgeOf(c))
    ensures BuiltIn(c).breakdown ==
      Breakdown(c.baseFare, DistanceCost(c), DurationCost(c), SurgeOf(c), BuiltIn(c).estimatedPrice)
  {
    var rules := [BASE_FARE_RULE, SURGE_RULE];
    BuiltInRules();
    assert rules[..1] == [BASE_FARE_RULE] && rules[..1][..0] == [];
    assert ApplyAll(rules[..1], c) == BASE_FARE_RULE.apply(c, INITIAL_BREAKDOWN);
    SurgeOfOneIsNeutral(RawPrice(c));
  }

  /** Two roundings: the price is within surge/2 + 1/2 of the exact one, and is a whole number. */
  lemma PriceError(c: Context)
    requires SurgeOf(c) >= 0.0
    ensures var exact := Times(c.baseFare + Times(c.distanceMeters / 1000.0, c.pricePerKm)
                               + Times(c.durationSeconds / 60.0, c.pricePerMin), SurgeOf(c));
      var price := BuiltIn(c).estimatedPrice;
      -(SurgeOf(c) / 2.0 + 0.5) <= price - exact <= SurgeOf(c) / 2.0 + 0.5 &&
      price == price.Floor as real
  {
    BuiltInPrice(c);
    ErrorOfTwiceRounded(RawPrice(c), SurgeOf(c));
  }

  lemma ErrorOfTwiceRounded(raw: real, surge: real)
    requires surge >= 0.0
    ensures -(surge / 2.0 + 0.5) <= TwiceRounded(raw, surge) - Times(raw, surge) <= surge / 2.0 + 0.5
  {
    var base := Round(raw) as real;
    RoundIsNearest(raw, Round(raw));
    RoundIsNearest(Times(base, surge), Round(Times(base, surge)));
    TimesScalesError(base, raw, surge);
  }

  predicate NonNegative(c: Context) {
    c.baseFare >= 0.0 && c.pricePerKm >= 0.0 && c.pricePerMin >= 0.0 &&
    c.distanceMeters >= 0.0 && c.durationSeconds >= 0.0 && SurgeOf(c) >= 0.0
  }

  predicate Dearer(c: Context, c': Context) {
    c.baseFare <= c'.baseFare && c.pricePerKm <= c'.pricePerKm && c.pricePerMin <= c'.pricePerMin &&
    c.distanceMeters <= c'.distanceMeters && c.durationSeconds <= c'.durationSeconds && SurgeOf(c) <= SurgeOf(c')
  }

  /** Raising any input never lowers the price, in spite of the two roundings. */
  lemma PriceIsMonotone(c: Context, c': Context)
    requires NonNegative(c) && Dearer(c, c')
    ensures 0.0 <= BuiltIn(c).estimatedPrice <= BuiltIn(c').estimatedPrice
  {
    BuiltInPrice(c);
    BuiltInPrice(c');
    RawIsMonotone(c, c');
    TwiceRoundedIsMonotone(RawPrice(c), SurgeOf(c), RawPrice(c'), SurgeOf(c'));
  }

  lemma RawIsMonotone(c: Context, c': Context)
    requires NonNegative(c) && Dearer(c, c')
    ensures 0.0 <= RawPrice(c) <= RawPrice(c')
  {
    TimesIsMonotone(c.distanceMeters / 1000.0, c.pricePerKm, c'.distanceMeters / 1000.0, c'.pricePerKm);
    TimesIsMonotone(c.durationSeconds / 60.0, c.pricePerMin, c'.durationSeconds / 60.0, c'.pricePerMin);
  }

  lemma TwiceRoundedIsMonotone(raw: real, surge: real, raw': real, surge': real)
    requires 0.0 <= raw <= raw' && 0.0 <= surge <= surge'
    ensures 0.0 <= TwiceRounded(raw, surge) <= TwiceRounded(raw', surge')
  {
    RoundIsMonotone(0.0, raw);
    RoundIsMonotone(raw, raw');
    var base, base' := Round(raw) as real, Round(raw') as real;
    TimesIsMonotone(base, surge, base', surge');
    RoundIsMonotone(0.0, Times(base, surge));
    RoundIsMonotone(Times(base, surge), Times(base', surge'));
  }

  // ------------------------------------------------------------------ commission

  /** The commission shown to a driver with the offer; without an estimate the price counts as 0. */
  function OfferedCommission(estimatedPrice: Option<real>, percentage: real): real {
    var price := if estimatedPrice.Some? then estimatedPrice.value else 0.0;
    Round(Times(price, percentage) / 100.0) as real
  }

  lemma OfferIsCommission(price: real, percentage: real)
    ensures OfferedCommission(Some(price), percentage) == Commission(price, percentage)
  {
    assert Times(price, percentage / 100.0) == Times(price, percentage) / 100.0;
  }

  /** The commission is the whole number nearest to that percentage of the price, halves up. */
  lemma CommissionIsNearest(price: real, percentage: real, n: int)
    ensures Commission(price, percentage) == n as real <==>
      n as real - 0.5 <= Times(price, percentage / 100.0) < n as real + 0.5
  {
    RoundIsNearest(Times(price, percentage / 100.0), n);
  }

  /** For a whole price and a percentage from 0 to 100 the commission never exceeds the price. */
  lemma CommissionIsAShare(price: int, percentage: real)
    requires price >= 0 && 0.0 <= percentage <= 100.0
    ensures 0.0 <= Commission(price as real, percentage) <= price as real
  {
    var rate := percentage / 100.0;
    TimesIsMonotone(price as real, rate, price as real, 1.0);
    RoundIsMonotone(0.0, Times(price as real, rate));
    RoundIsMonotone(Times(price as real, rate), price as real);
    RoundIsNearest(price as real, price);
  }

  /** The percentage has no upper bound in the service; the commission stays within a whole price exactly below this. */
  lemma CommissionWithinPriceIff(price: int, percentage: real)
    ensures Commission(price as real, percentage) <= price as real
       <==> Times(price as real, percentage / 100.0) < price as real + 0.5
  {
    RoundAtMostIff(Times(price as real, percentage / 100.0), price);
  }

  /** With an amount that is not whole it can exceed it: 100% of 0.60 rounds up to 1. */
  lemma RoundedCommissionCanExceedPrice()
    ensures Commission(0.6, 100.0) == 1.0 > 0.6
  {
    RoundIsNearest(Times(0.6, 100.0 / 100.0), 1);
  }

  /**
   The commission quoted, the one offered to drivers and the one charged on completion are
   the same amount, between nothing and the price; the driver's share is the rest.
   */
  lemma CommissionsAgree(c: Context)
    requires NonNegative(c) && 0.0 <= c.commissionPercentage <= 100.0
    ensures var q := BuiltIn(c);
      q.commissionAmount == OfferedCommission(Some(q.estimatedPrice), c.commissionPercentage) &&
      q.commissionAmount == Commission(q.estimatedPrice, c.commissionPercentage) &&
      0.0 <= q.commissionAmount <= q.estimatedPrice
  {
    var q := BuiltIn(c);
    PriceError(c);
    PriceIsMonotone(c, c);
    CommissionIsAShare(q.estimatedPrice.Floor, c.commissionPercentage);
    OfferIsCommission(q.estimatedPrice, c.commissionPercentage);
  }
}
