/**
 Dynamic pricing: the multiplier of the zone around the pickup times the modifiers of the
 applicable rules, read through a cache that every admin write drops. A listing is any
 answer the store may give to a query; its order is not specified.
 */
module Surge {
  import opened Prelude
  import opened Rounding
  import opened Pricing

  type ZoneId = nat
  type RuleId = nat

  datatype Zone = Zone(id: ZoneId, center: Point, radiusKm: real, surge: real, active: bool)

  /** `None` stands for a missing field; a time is in minutes after midnight. */
  datatype Condition =
    | InZone(zone: Option<ZoneId>)
    | TimeRange(from: Option<int>, to: Option<int>)
    | Unknown

  datatype DynamicRule = DynamicRule(id: RuleId, service: Option<ServiceType>, vehicleType: Option<VehicleTypeId>,
                                     zone: Option<ZoneId>, condition: Condition, modifier: real,
                                     priority: int, active: bool)

  datatype Cache = Cache(zones: seq<Zone>, rules: seq<DynamicRule>, loadedAt: int)

  const CACHE_TTL_MS := 60_000

  /** The geometry of the zones is a parameter: `within(p, z)` says that `z` contains `p`. */
  type Geometry = (Point, Zone) -> bool

  predicate IsConditionMatched(condition: Condition, c: Context, matchedZone: Option<ZoneId>) {
    match condition
    case InZone(zone) => zone.Some? && zone == matchedZone
    case TimeRange(from, to) => from.Some? && to.Some? && from.value <= c.minuteOfDay < to.value
    case Unknown => false
  }

  /** The minutes of the day a range from `from` to `to` covers, read around the clock. */
  predicate Covers(from: int, to: int, minute: nat) {
    if from < to then from <= minute < to else from <= minute || minute < to
  }

  const MINUTES_PER_DAY := 1440

  predicate MatchesAt(from: int, to: int, c: Context, minute: nat) {
    IsConditionMatched(TimeRange(Some(from), Some(to)), c.(minuteOfDay := minute), None)
  }

  /**
   A range of times of the day matches at some minute if and only if it starts before it
   ends. Then it matches exactly the minutes it covers; a range across midnight covers some
   and loses every one of them.
   */
  lemma RangeMatchesIff(from: int, to: int, c: Context)
    requires 0 <= from < MINUTES_PER_DAY && 0 <= to < MINUTES_PER_DAY
    ensures (exists minute: nat :: minute < MINUTES_PER_DAY && MatchesAt(from, to, c, minute)) <==> from < to
    ensures (forall minute: nat :: minute < MINUTES_PER_DAY ==>
              (MatchesAt(from, to, c, minute) <==> Covers(from, to, minute))) <==> from < to
    ensures forall minute: nat :: Covers(from, to, minute) && !MatchesAt(from, to, c, minute) <==>
              to <= from && (from <= minute || minute < to)
  {
    if from < to {
      assert MatchesAt(from, to, c, from);
    } else {
      assert Covers(from, to, from) && !MatchesAt(from, to, c, from);
    }
  }

  predicate Applies(r: DynamicRule, c: Context, matchedZone: Option<ZoneId>) {
    (r.service.Some? ==> r.service.value == c.service) &&
    (r.vehicleType.Some? ==> r.vehicleType.value == c.vehicleType) &&
    IsConditionMatched(r.condition, c, matchedZone)
  }

  function IdOf(zone: Option<Zone>): Option<ZoneId> {
    if zone.Some? then Some(zone.value.id) else None
  }

  function ZoneSurge(zone: Option<Zone>): real {
    if zone.Some? then zone.value.surge else 1.0
  }

  /** To two decimals. */
  function Hundredths(x: real): real {
    Round(Times(x, 100.0)) as real / 100.0
  }

  /** The nearest hundredth, the upper one on a tie. */
  lemma HundredthsIsNearest(x: real, n: int)
    ensures Hundredths(x) == n as real / 100.0 <==> n as real - 0.5 <= Times(x, 100.0) < n as real + 0.5
  {
    RoundIsNearest(Times(x, 100.0), n);
  }

  // --------------------------------------------------- the order-free definition

  /** The product of the modifiers of a set of rules. */
  ghost function Product(rules: set<DynamicRule>): real {
    if rules == {} then 1.0
    else
      var r :| r in rules;
      Times(r.modifier, Product(rules - {r}))
  }

  function Applicable(rules: map<RuleId, DynamicRule>, c: Context, zone: Option<Zone>): set<DynamicRule> {
    set i | i in rules && rules[i].active && Applies(rules[i], c, IdOf(zone)) :: rules[i]
  }

  /** The multiplier computed directly from the stored rules, given the containing zone. */
  ghost function Multiplier(rules: map<RuleId, DynamicRule>, c: Context, zone: Option<Zone>): real {
    Hundredths(Times(ZoneSurge(zone), Product(Applicable(rules, c, zone))))
  }

  predicate Contains(within: Geometry, zones: map<ZoneId, Zone>, p: Point, z: Zone) {
    z.id in zones && zones[z.id] == z && z.active && within(p, z)
  }

  /** `zone` is an active zone around the pickup, or there is none. */
  ghost predicate IsContaining(within: Geometry, zones: map<ZoneId, Zone>, p: Point, zone: Option<Zone>) {
    if zone.Some? then Contains(within, zones, p, zone.value)
    else forall z :: !Contains(within, zones, p, z)
  }

  // ------------------------------------------------------------------- listings

  ghost predicate RowsNamed(zones: map<ZoneId, Zone>, rules: map<RuleId, DynamicRule>) {
    (forall i :: i in zones ==> zones[i].id == i) && (forall i :: i in rules ==> rules[i].id == i)
  }

  ghost predicate NoRepeats<T>(s: seq<T>) {
    forall i, j :: 0 <= i < j < |s| ==> s[i] != s[j]
  }

  ghost predicate IsZoneListing(zones: map<ZoneId, Zone>, listing: seq<Zone>) {
    NoRepeats(listing) && forall z :: z in listing <==> z.id in zones && zones[z.id] == z && z.active
  }

  ghost predicate IsRuleListing(rules: map<RuleId, DynamicRule>, listing: seq<DynamicRule>) {
    NoRepeats(listing) &&
    (forall r :: r in listing <==> r.id in rules && rules[r.id] == r && r.active) &&
    forall i, j :: 0 <= i < j < |listing| ==> listing[i].priority <= listing[j].priority
  }

  // -------------------------------------------------------- the computation as run

  function FindZone(within: Geometry, zones: seq<Zone>, p: Point): Option<Zone> {
    if zones == [] then None
    else if within(p, zones[0]) then Some(zones[0])
    else FindZone(within, zones[1..], p)
  }

  function Accumulate(start: real, rules: seq<DynamicRule>, c: Context, zone: Option<ZoneId>): real {
    if rules == [] then start
    else
      var m := Accumulate(start, rules[..|rules| - 1], c, zone);
      var r := rules[|rules| - 1];
      if Applies(r, c, zone) then Times(m, r.modifier) else m
  }

  /** The multiplier computed from one listing of the zones and one of the rules. */
  function Compute(within: Geometry, zones: seq<Zone>, rules: seq<DynamicRule>, c: Context): real {
    var zone := FindZone(within, zones, c.pickup);
    Hundredths(Accumulate(ZoneSurge(zone), rules, c, IdOf(zone)))
  }

  // ---------------------------------------------------------------------- products

  lemma TimesReorders(a: real, b: real, x: real)
    ensures Times(a, Times(b, x)) == Times(b, Times(a, x))
  {}

  lemma TimesRegroups(a: real, b: real, x: real)
    ensures Times(Times(a, x), b) == Times(a, Times(b, x))
  {}

  lemma {:induction false} ProductMinus(rules: set<DynamicRule>, r: DynamicRule)
    requires r in rules
    ensures Product(rules) == Times(r.modifier, Product(rules - {r}))
    decreases |rules|
  {
    var q :| q in rules && Product(rules) == Times(q.modifier, Product(rules - {q}));
    if q != r {
      ProductMinus(rules - {q}, r);
      ProductMinus(rules - {r}, q);
      assert rules - {q} - {r} == rules - {r} - {q};
      TimesReorders(q.modifier, r.modifier, Product(rules - {q} - {r}));
    }
  }

  function ApplicableIn(rules: seq<DynamicRule>, c: Context, zone: Option<ZoneId>): set<DynamicRule> {
    set r | r in rules && Applies(r, c, zone)
  }

  lemma {:induction false} AccumulateIsProduct(start: real, rules: seq<DynamicRule>, c: Context, zone: Option<ZoneId>)
    requires NoRepeats(rules)
    ensures Accumulate(start, rules, c, zone) == Times(start, Product(ApplicableIn(rules, c, zone)))
  {
    if rules == [] {
      assert ApplicableIn(rules, c, zone) == {};
    } else {
      var n := |rules| - 1;
      var front, r := rules[..n], rules[n];
      assert rules == front + [r];
      AccumulateIsProduct(start, front, c, zone);
      var some, all := ApplicableIn(front, c, zone), ApplicableIn(rules, c, zone);
      if Applies(r, c, zone) {
        assert all == some + {r} && r !in some;
        ProductMinus(all, r);
        assert all - {r} == some;
        TimesRegroups(start, r.modifier, Product(some));
      } else {
        assert all == some;
      }
    }
  }

  /**
   One more rule multiplies the price by its modifier if and only if it names no other
   service and no other vehicle type, and its condition names the matched zone or a range
   around the minute of the pickup; otherwise the price is as without it.
   */
  lemma RuleCountsIff(start: real, rules: seq<DynamicRule>, r: DynamicRule, c: Context, zone: Option<ZoneId>)
    ensures var without, with := Accumulate(start, rules, c, zone), Accumulate(start, rules + [r], c, zone);
      var asked := (r.service == None || r.service == Some(c.service)) &&
                   (r.vehicleType == None || r.vehicleType == Some(c.vehicleType));
      var here := r.condition.InZone? && zone.Some? && r.condition.zone == zone;
      var now := r.condition.TimeRange? && r.condition.from.Some? && r.condition.to.Some? &&
                 r.condition.from.value <= c.minuteOfDay < r.condition.to.value;
      with == if asked && (here || now) then Times(without, r.modifier) else without
  {
    assert (rules + [r])[..|rules|] == rules;
  }

  lemma {:induction false} FindZoneFinds(within: Geometry, zones: seq<Zone>, p: Point)
    ensures match FindZone(within, zones, p)
      case Some(z) => z in zones && within(p, z)
      case None => forall z :: z in zones ==> !within(p, z)
  {
    if zones != [] && !within(p, zones[0]) {
      FindZoneFinds(within, zones[1..], p);
      assert zones == [zones[0]] + zones[1..];
    }
  }

  /** Without rules the multiplier is that of a zone around the pickup, or 1 when there is none. */
  lemma ZoneAlone(within: Geometry, zones: seq<Zone>, c: Context)
    ensures var bare := Compute(within, zones, [], c);
      if exists z :: z in zones && within(c.pickup, z)
      then exists z :: z in zones && within(c.pickup, z) && bare == Hundredths(z.surge)
      else bare == Hundredths(1.0)
  {
    FindZoneFinds(within, zones, c.pickup);
  }

  /**
   Whatever listings the store returns, the loop computes the surge of an active zone
   around the pickup, times the product over all active applicable rules, to two decimals.
   */
  lemma ComputeIsMultiplier(within: Geometry, zones: map<ZoneId, Zone>, rules: map<RuleId, DynamicRule>,
                            zoneList: seq<Zone>, ruleList: seq<DynamicRule>, c: Context)
    requires RowsNamed(zones, rules) && IsZoneListing(zones, zoneList) && IsRuleListing(rules, ruleList)
    ensures var zone := FindZone(within, zoneList, c.pickup);
      IsContaining(within, zones, c.pickup, zone) &&
      Compute(within, zoneList, ruleList, c) == Multiplier(rules, c, zone)
  {
    var zone := FindZone(within, zoneList, c.pickup);
    FindZoneFinds(within, zoneList, c.pickup);
    AccumulateIsProduct(ZoneSurge(zone), ruleList, c, IdOf(zone));
    assert ApplicableIn(ruleList, c, IdOf(zone)) == Applicable(rules, c, zone) by {
      forall r | r in Applicable(rules, c, zone) ensures r in ruleList {
        var i :| i in rules && rules[i].active && Applies(rules[i], c, IdOf(zone)) && rules[i] == r;
      }
    }
  }

  /** The order in which the store lists the rules does not matter. */
  lemma RuleOrderIsIrrelevant(within: Geometry, zones: seq<Zone>, a: seq<DynamicRule>, b: seq<DynamicRule>, c: Context)
    requires NoRepeats(a) && NoRepeats(b) && multiset(a) == multiset(b)
    ensures Compute(within, zones, a, c) == Compute(within, zones, b, c)
  {
    var zone := FindZone(within, zones, c.pickup);
    AccumulateIsProduct(ZoneSurge(zone), a, c, IdOf(zone));
    AccumulateIsProduct(ZoneSurge(zone), b, c, IdOf(zone));
    forall r ensures r in a <==> r in b {
      assert r in a <==> r in multiset(a);
      assert r in b <==> r in multiset(b);
    }
    assert ApplicableIn(a, c, IdOf(zone)) == ApplicableIn(b, c, IdOf(zone));
  }

  /** Any zone around the pickup can be the one the store lists first. */
  lemma ListedFirst(within: Geometry, zones: seq<Zone>, rules: seq<DynamicRule>, c: Context, z: Zone)
    returns (listing: seq<Zone>)
    requires z in zones && within(c.pickup, z)
    ensures multiset(listing) == multiset(zones)
    ensures Compute(within, listing, rules, c) == ComputeVia(z, rules, c)
  {
    var i :| 0 <= i < |zones| && zones[i] == z;
    listing := [z] + zones[..i] + zones[i + 1..];
    assert zones == zones[..i] + [z] + zones[i + 1..];
  }

  /**
   Every listing of the zones gives the same multiplier exactly when all the active zones
   around the pickup do: overlapping zones make the price depend on the store's order.
   */
  lemma ZoneOrderIsIrrelevantIff(within: Geometry, zones: seq<Zone>, rules: seq<DynamicRule>, c: Context)
    ensures (forall listing :: multiset(listing) == multiset(zones) ==>
               Compute(within, listing, rules, c) == Compute(within, zones, rules, c))
       <==> (forall z, z' :: z in zones && z' in zones && within(c.pickup, z) && within(c.pickup, z') ==>
               ComputeVia(z, rules, c) == ComputeVia(z', rules, c))
  {
    if forall listing :: multiset(listing) == multiset(zones) ==>
         Compute(within, listing, rules, c) == Compute(within, zones, rules, c) {
      forall z | z in zones && within(c.pickup, z)
        ensures ComputeVia(z, rules, c) == Compute(within, zones, rules, c)
      {
        var listing := ListedFirst(within, zones, rules, c, z);
        assert Compute(within, listing, rules, c) == Compute(within, zones, rules, c);
      }
    } else {
      var listing :| multiset(listing) == multiset(zones) &&
        Compute(within, listing, rules, c) != Compute(within, zones, rules, c);
      FindZoneFinds(within, listing, c.pickup);
      FindZoneFinds(within, zones, c.pickup);
      SameElements(listing, zones);
      assert FindZone(within, listing, c.pickup).Some? && FindZone(within, zones, c.pickup).Some?;
    }
  }

  function ComputeVia(z: Zone, rules: seq<DynamicRule>, c: Context): real {
    Hundredths(Accumulate(z.surge, rules, c, Some(z.id)))
  }

  lemma SameElements<T>(a: seq<T>, b: seq<T>)
    requires multiset(a) == multiset(b)
    ensures forall x :: x in a <==> x in b
  {
    forall x ensures x in a <==> x in b {
      assert x in a <==> x in multiset(a);
      assert x in b <==> x in multiset(b);
    }
  }

  // ----------------------------------------------------- the service and its cache

  /** The stored zones and rules, their admin writes, and the cached multiplier. */
  class DynamicPricing {
    const within: Geometry
    var zones: map<ZoneId, Zone>
    var rules: map<RuleId, DynamicRule>
    var cache: Option<Cache>

    /** The cache holds what the store would answer now. */
    ghost predicate Valid()
      reads this
    {
      RowsNamed(zones, rules) &&
      (cache.Some? ==> IsZoneListing(zones, cache.value.zones) && IsRuleListing(rules, cache.value.rules))
    }

    constructor (within: Geometry)
      ensures Valid() && this.within == within && zones == map[] && rules == map[] && cache == None
    {
      this.within := within;
      zones, rules, cache := map[], map[], None;
    }

    method InvalidateCache()
      modifies this`cache
      ensures cache == None
    {
      cache := None;
    }

    method CreateZone(z: Zone)
      requires Valid() && z.id !in zones
      modifies this
      ensures Valid() && zones == old(zones)[z.id := z] && rules == old(rules)
    {
      zones := zones[z.id := z];
      InvalidateCache();
    }

    /** False, and no change at all, when the row does not exist. */
    method UpdateZone(id: ZoneId, z: Zone) returns (ok: bool)
      requires Valid() && z.id == id
      modifies this
      ensures Valid() && ok == (id in old(zones)) && rules == old(rules)
      ensures zones == if ok then old(zones)[id := z] else old(zones)
      ensures !ok ==> cache == old(cache)
    {
      if id !in zones {
        return false;
      }
      zones := zones[id := z];
      InvalidateCache();
      ok := true;
    }

    /** Rules of the deleted zone lose their zone column; their conditions keep naming it. */
    method DeleteZone(id: ZoneId) returns (ok: bool)
      requires Valid()
      modifies this
      ensures Valid() && ok == (id in old(zones)) && zones == old(zones) - {id}
      ensures rules == if ok then Detached(old(rules), id) else old(rules)
      ensures !ok ==> cache == old(cache)
    {
      if id !in zones {
        return false;
      }
      zones := zones - {id};
      rules := Detached(rules, id);
      InvalidateCache();
      ok := true;
    }

    static function Detached(rules: map<RuleId, DynamicRule>, id: ZoneId): map<RuleId, DynamicRule> {
      map i | i in rules :: if rules[i].zone == Some(id) then rules[i].(zone := None) else rules[i]
    }

    method CreatePricingRule(r: DynamicRule)
      requires Valid() && r.id !in rules
      modifies this
      ensures Valid() && rules == old(rules)[r.id := r] && zones == old(zones)
    {
      rules := rules[r.id := r];
      InvalidateCache();
    }

    method UpdatePricingRule(id: RuleId, r: DynamicRule) returns (ok: bool)
      requires Valid() && r.id == id
      modifies this
      ensures Valid() && ok == (id in old(rules)) && zones == old(zones)
      ensures rules == if ok then old(rules)[id := r] else old(rules)
      ensures !ok ==> cache == old(cache)
    {
      if id !in rules {
        return false;
      }
      rules := rules[id := r];
      InvalidateCache();
      ok := true;
    }

    method DeletePricingRule(id: RuleId) returns (ok: bool)
      requires Valid()
      modifies this
      ensures Valid() && ok == (id in old(rules)) && rules == old(rules) - {id} && zones == old(zones)
      ensures !ok ==> cache == old(cache)
    {
      if id !in rules {
        return false;
      }
      rules := rules - {id};
      InvalidateCache();
      ok := true;
    }

    /** The query for the active zones, in whatever order the store returns them. */
    method FindZones() returns (listing: seq<Zone>)
      requires Valid()
      ensures IsZoneListing(zones, listing)
    {
      listing := [];
      var todo := set i | i in zones && zones[i].active :: zones[i];
      ghost var all := todo;
      while todo != {}
        invariant todo <= all && NoRepeats(listing)
        invariant forall z :: z in listing <==> z in all && z !in todo
      {
        var z :| z in todo;
        listing := listing + [z];
        todo := todo - {z};
      }
    }

    /** The query for the active rules, by ascending priority. */
    method FindRules() returns (listing: seq<DynamicRule>)
      requires Valid()
      ensures IsRuleListing(rules, listing)
    {
      listing := [];
      var todo := set i | i in rules && rules[i].active :: rules[i];
      ghost var all := todo;
      while todo != {}
        invariant todo <= all && NoRepeats(listing)
        invariant forall r :: r in listing <==> r in all && r !in todo
        invariant forall r, q :: r in listing && q in todo ==> r.priority <= q.priority
        invariant forall i, j :: 0 <= i < j < |listing| ==> listing[i].priority <= listing[j].priority
      {
        LowestExists(todo);
        var r :| r in todo && forall q :: q in todo ==> r.priority <= q.priority;
        listing := listing + [r];
        todo := todo - {r};
      }
    }

    /** Serves the cache for 60 seconds, then loads it again. */
    method LoadData(now: int) returns (zoneList: seq<Zone>, ruleList: seq<DynamicRule>)
      requires Valid()
      modifies this`cache
      ensures Valid() && IsZoneListing(zones, zoneList) && IsRuleListing(rules, ruleList)
      ensures cache.Some? && zoneList == cache.value.zones && ruleList == cache.value.rules
      ensures if old(cache).Some? && now - old(cache).value.loadedAt < CACHE_TTL_MS
              then cache == old(cache) else cache.value.loadedAt == now
    {
      if cache.Some? && now - cache.value.loadedAt < CACHE_TTL_MS {
        return cache.value.zones, cache.value.rules;
      }
      zoneList := FindZones();
      ruleList := FindRules();
      cache := Some(Cache(zoneList, ruleList, now));
    }

    /**
     The quoted multiplier, cached or not, is the one computed directly from the stored
     active zones and rules, for an active zone around the pickup if there is one.
     */
    method GetSurgeMultiplier(c: Context, now: int) returns (multiplier: real, ghost zone: Option<Zone>)
      requires Valid()
      modifies this`cache
      ensures Valid() && IsContaining(within, zones, c.pickup, zone)
      ensures multiplier == Multiplier(rules, c, zone)
    {
      var zoneList, ruleList := LoadData(now);
      var containing := FirstContaining(zoneList, c.pickup);
      zone := containing;
      var m := 1.0;
      if containing.Some? {
        m := Times(m, containing.value.surge);
      }
      ghost var start := ZoneSurge(containing);
      for i := 0 to |ruleList|
        invariant m == Accumulate(start, ruleList[..i], c, IdOf(containing))
      {
        assert ruleList[..i + 1][..i] == ruleList[..i];
        var rule := ruleList[i];
        if !(rule.service.Some? && rule.service.value != c.service) &&
           !(rule.vehicleType.Some? && rule.vehicleType.value != c.vehicleType) &&
           IsConditionMatched(rule.condition, c, IdOf(containing)) {
          m := Times(m, rule.modifier);
        }
      }
      assert ruleList[..|ruleList|] == ruleList;
      multiplier := Hundredths(m);
      ComputeIsMultiplier(within, zones, rules, zoneList, ruleList, c);
    }

    method FirstContaining(zoneList: seq<Zone>, p: Point) returns (zone: Option<Zone>)
      ensures zone == FindZone(within, zoneList, p)
    {
      zone := None;
      for i := 0 to |zoneList|
        invariant FindZone(within, zoneList, p) == FindZone(within, zoneList[i..], p)
      {
        if within(p, zoneList[i]) {
          return Some(zoneList[i]);
        }
      }
    }
  }

  lemma {:induction false} LowestExists(rules: set<DynamicRule>)
    requires rules != {}
    ensures exists r :: r in rules && forall q :: q in rules ==> r.priority <= q.priority
  {
    var r :| r in rules;
    var rest := rules - {r};
    if rest != {} {
      LowestExists(rest);
      var q :| q in rest && forall x :: x in rest ==> q.priority <= x.priority;
      var lowest := if r.priority <= q.priority then r else q;
      forall x | x in rules ensures lowest.priority <= x.priority {
        if x != r { assert x in rest; }
      }
      assert lowest in rules;
    } else {
      assert rules == rest + {r};
    }
  }
}
