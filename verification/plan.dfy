/** The order in which (template, zone, model, machine) tuples are tried for one
    generation, and how a later callback resumes that order. */
module CreationPlans {
  import opened Types

  const STANDARD_FALLBACK_FAMILIES: nat := 2

  // ----- specification

  ghost predicate Distinct<T(!new)>(s: seq<T>) {
    forall i, j :: 0 <= i < j < |s| ==> s[i] != s[j]
  }

  /** Every zone once, starting at the hash-picked one. */
  function Rotation(zones: seq<Id>, start: nat): seq<Id> {
    if |zones| == 0 then []
    else seq(|zones|, i requires 0 <= i => zones[(start + i) % |zones|])
  }

  function Filter(s: seq<Id>, drop: set<Id>, benched: bool): seq<Id> {
    if s == [] then []
    else if (s[0] in drop) == benched then [s[0]] + Filter(s[1..], drop, benched)
    else Filter(s[1..], drop, benched)
  }

  /** Benched zones go last; if that leaves no healthy zone the order stands. */
  function BenchedLast(ordered: seq<Id>, benched: set<Id>): seq<Id> {
    if Filter(ordered, benched, false) == [] then ordered
    else Filter(ordered, benched, false) + Filter(ordered, benched, true)
  }

  function Healthy(ordered: seq<Id>, benched: set<Id>): seq<Id> {
    if Filter(ordered, benched, false) == [] then ordered else Filter(ordered, benched, false)
  }

  /** First occurrences only, in order. */
  function Firsts(s: seq<Id>): seq<Id> {
    if s == [] then []
    else
      var init := Firsts(s[..|s| - 1]);
      if s[|s| - 1] in s[..|s| - 1] then init else init + [s[|s| - 1]]
  }

  function Sweep(template: Id, model: Provisioning, zones: seq<Id>, machine: Id): seq<Attempt> {
    seq(|zones|, i requires 0 <= i < |zones| => Attempt(template, zones[i], model, machine))
  }

  function FamilyWalk(template: Id, model: Provisioning, zones: seq<Id>, families: seq<Id>): seq<Attempt>
    requires |zones| > 0
  {
    seq(|families|, i requires 0 <= i < |families| => Attempt(template, zones[i % |zones|], model, families[i]))
  }

  function PrimaryModel(cfg: Config): Provisioning {
    if cfg.fallback != NONE then Spot else Standard
  }

  function LegacyPlan(cfg: Config, zones: seq<Id>, machine: Id): seq<Attempt> {
    Sweep(cfg.template, PrimaryModel(cfg), zones, machine) +
    if cfg.fallback != NONE then Sweep(cfg.fallback, Standard, zones, machine) else []
  }

  function FamilyPlan(cfg: Config, zones: seq<Id>): seq<Attempt>
    requires |zones| > 0
  {
    var fams := Firsts(cfg.families);
    var n := if |fams| < STANDARD_FALLBACK_FAMILIES then |fams| else STANDARD_FALLBACK_FAMILIES;
    FamilyWalk(cfg.template, PrimaryModel(cfg), zones, fams) +
    if cfg.fallback != NONE then FamilyWalk(cfg.fallback, Standard, zones, fams[..n]) else []
  }

  function Plan(cfg: Config, start: nat, override: Option<Id>, benched: set<Id>): seq<Attempt> {
    var zones := BenchedLast(Rotation(cfg.zones, start), benched);
    if zones == [] then []
    else if override.None? && |cfg.families| > 0 then FamilyPlan(cfg, Healthy(zones, benched))
    else LegacyPlan(cfg, zones, if override.Some? then override.value else NONE)
  }

  /** attemptsAfter: the attempts following the first one equal to failed, or the
      whole plan when it is not part of it. */
  function AttemptsAfter(plan: seq<Attempt>, failed: Attempt): seq<Attempt> {
    if failed in plan then Following(plan, failed) else plan
  }

  function Following(plan: seq<Attempt>, failed: Attempt): seq<Attempt>
    requires failed in plan
  {
    if plan[0] == failed then plan[1..] else Following(plan[1..], failed)
  }

  // ----- the loops of the source, against that specification

  method OrderedZones(zones: seq<Id>, start: nat) returns (ordered: seq<Id>)
    ensures ordered == Rotation(zones, start)
  {
    ordered := [];
    if |zones| == 0 { return; }
    for i := 0 to |zones|
      invariant |ordered| == i
      invariant forall j :: 0 <= j < i ==> ordered[j] == zones[(start + j) % |zones|]
    {
      ordered := ordered + [zones[(start + i) % |zones|]];
    }
  }

  lemma {:induction false} FilterSnoc(s: seq<Id>, z: Id, drop: set<Id>, benched: bool)
    ensures Filter(s + [z], drop, benched)
         == Filter(s, drop, benched) + if (z in drop) == benched then [z] else []
  {
    if s == [] {
      assert s + [z] == [z];
    } else {
      assert (s + [z])[1..] == s[1..] + [z];
      FilterSnoc(s[1..], z, drop, benched);
    }
  }

  lemma {:induction false} FilterNothingBenched(s: seq<Id>)
    ensures Filter(s, {}, false) == s && Filter(s, {}, true) == []
  {
    if s != [] {
      FilterNothingBenched(s[1..]);
      assert s == [s[0]] + s[1..];
    }
  }

  method OrderedZonesBenched(zones: seq<Id>, start: nat, benched: set<Id>) returns (r: seq<Id>)
    ensures r == BenchedLast(Rotation(zones, start), benched)
  {
    var ordered := OrderedZones(zones, start);
    if benched == {} {
      FilterNothingBenched(ordered);
      assert ordered + [] == ordered;
      return ordered;
    }
    var healthy, bad := [], [];
    for i := 0 to |ordered|
      invariant healthy == Filter(ordered[..i], benched, false)
      invariant bad == Filter(ordered[..i], benched, true)
    {
      var z := ordered[i];
      FilterSnoc(ordered[..i], z, benched, false);
      FilterSnoc(ordered[..i], z, benched, true);
      assert ordered[..i + 1] == ordered[..i] + [z];
      if z in benched { bad := bad + [z]; } else { healthy := healthy + [z]; }
    }
    assert ordered[..|ordered|] == ordered;
    r := if |healthy| == 0 then ordered else healthy + bad;
  }

  method HealthyZones(ordered: seq<Id>, benched: set<Id>) returns (healthy: seq<Id>)
    ensures healthy == Healthy(ordered, benched)
  {
    if benched == {} {
      FilterNothingBenched(ordered);
      return ordered;
    }
    healthy := [];
    for i := 0 to |ordered|
      invariant healthy == Filter(ordered[..i], benched, false)
    {
      FilterSnoc(ordered[..i], ordered[i], benched, false);
      assert ordered[..i + 1] == ordered[..i] + [ordered[i]];
      if ordered[i] !in benched { healthy := healthy + [ordered[i]]; }
    }
    assert ordered[..|ordered|] == ordered;
    if |healthy| == 0 { healthy := ordered; }
  }

  method DedupePreserveOrder(input: seq<Id>) returns (out: seq<Id>)
    ensures out == Firsts(input)
  {
    var seen: set<Id> := {};
    out := [];
    for i := 0 to |input|
      invariant out == Firsts(input[..i])
      invariant forall v :: v in seen <==> v in input[..i]
    {
      var v := input[i];
      assert input[..i + 1][..i] == input[..i];
      if v !in seen {
        seen := seen + {v};
        out := out + [v];
      }
    }
    assert input[..|input|] == input;
  }

  method BuildLegacyPlan(cfg: Config, zones: seq<Id>, machine: Id) returns (plan: seq<Attempt>)
    ensures plan == LegacyPlan(cfg, zones, machine)
  {
    var templates := [(cfg.template, PrimaryModel(cfg))];
    if cfg.fallback != NONE { templates := templates + [(cfg.fallback, Standard)]; }
    plan := [];
    for k := 0 to |templates|
      invariant k == 0 ==> plan == []
      invariant k == 1 ==> plan == Sweep(cfg.template, PrimaryModel(cfg), zones, machine)
      invariant k == 2 ==> plan == LegacyPlan(cfg, zones, machine)
    {
      ghost var before := plan;
      for i := 0 to |zones|
        invariant plan == before + Sweep(templates[k].0, templates[k].1, zones[..i], machine)
      {
        plan := plan + [Attempt(templates[k].0, zones[i], templates[k].1, machine)];
        assert Sweep(templates[k].0, templates[k].1, zones[..i + 1], machine)
            == Sweep(templates[k].0, templates[k].1, zones[..i], machine)
             + [Attempt(templates[k].0, zones[i], templates[k].1, machine)];
      }
      assert zones[..|zones|] == zones;
    }
  }

  method BuildFamilyPlan(cfg: Config, zones: seq<Id>) returns (plan: seq<Attempt>)
    requires |zones| > 0
    ensures plan == FamilyPlan(cfg, zones)
  {
    var fams := DedupePreserveOrder(cfg.families);
    plan := [];
    for i := 0 to |fams|
      invariant plan == FamilyWalk(cfg.template, PrimaryModel(cfg), zones, fams[..i])
    {
      plan := plan + [Attempt(cfg.template, zones[i % |zones|], PrimaryModel(cfg), fams[i])];
    }
    assert fams[..|fams|] == fams;
    if cfg.fallback != NONE {
      ghost var primary := plan;
      var n := STANDARD_FALLBACK_FAMILIES;
      if n > |fams| { n := |fams|; }
      for i := 0 to n
        invariant plan == primary + FamilyWalk(cfg.fallback, Standard, zones, fams[..i])
      {
        plan := plan + [Attempt(cfg.fallback, zones[i % |zones|], Standard, fams[i])];
        assert FamilyWalk(cfg.fallback, Standard, zones, fams[..i + 1])
            == FamilyWalk(cfg.fallback, Standard, zones, fams[..i])
             + [Attempt(cfg.fallback, zones[i % |zones|], Standard, fams[i])];
      }
    }
  }

  method BuildPlan(cfg: Config, start: nat, override: Option<Id>, benched: set<Id>) returns (plan: seq<Attempt>)
    ensures plan == Plan(cfg, start, override, benched)
  {
    var zones := OrderedZonesBenched(cfg.zones, start, benched);
    if |zones| == 0 { return []; }
    if override.None? && |cfg.families| > 0 {
      var walk := HealthyZones(zones, benched);
      plan := BuildFamilyPlan(cfg, walk);
    } else {
      plan := BuildLegacyPlan(cfg, zones, if override.Some? then override.value else NONE);
    }
  }

  method FindAttemptsAfter(plan: seq<Attempt>, failed: Attempt) returns (rest: seq<Attempt>)
    ensures rest == AttemptsAfter(plan, failed)
  {
    for i := 0 to |plan|
      invariant failed !in plan[..i]
      invariant failed in plan ==> failed in plan[i..] && Following(plan, failed) == Following(plan[i..], failed)
    {
      if plan[i] == failed { return plan[i + 1..]; }
      assert plan[i..][1..] == plan[i + 1..];
    }
    return plan;
  }

  // ----- what the specification promises

  lemma ProductGap(a: int, b: int, n: nat)
    requires a < b
    ensures a * n + n <= b * n
  {
    assert b * n == a * n + (b - a) * n;
    assert (b - a) * n == n + (b - a - 1) * n;
  }

  lemma ModUnique(x: nat, q: nat, r: nat, n: nat)
    requires n > 0 && r < n && x == q * n + r
    ensures x % n == r
  {
    var d := x / n;
    assert x == d * n + x % n;
    if d < q {
      ProductGap(d, q, n);
    } else if q < d {
      ProductGap(q, d, n);
    }
  }

  lemma WrappedIndex(start: nat, i: nat, n: nat)
    requires i < n
    ensures (start + i) % n == if i < n - start % n then start % n + i else i - (n - start % n)
  {
    var q, s := start / n, start % n;
    assert start == q * n + s;
    if i < n - s {
      ModUnique(start + i, q, s + i, n);
    } else {
      assert (q + 1) * n == q * n + n;
      ModUnique(start + i, q + 1, i - (n - s), n);
    }
  }

  lemma RotationShape(zones: seq<Id>, start: nat)
    requires |zones| > 0
    ensures Rotation(zones, start) == zones[start % |zones|..] + zones[..start % |zones|]
  {
    var r := Rotation(zones, start);
    var t := zones[start % |zones|..] + zones[..start % |zones|];
    assert |r| == |t|;
    forall i | 0 <= i < |r| ensures r[i] == t[i] {
      WrappedIndex(start, i, |zones|);
    }
  }

  /** Every zone exactly once, in any rotation and with any zones benched: the
      order is a permutation of the configured zones. */
  lemma OrderIsPermutation(zones: seq<Id>, start: nat, benched: set<Id>)
    ensures multiset(BenchedLast(Rotation(zones, start), benched)) == multiset(zones)
  {
    var ordered := Rotation(zones, start);
    if |zones| > 0 {
      RotationShape(zones, start);
      var s := start % |zones|;
      assert zones == zones[..s] + zones[s..];
    }
    FilterSplits(ordered, benched);
  }

  lemma {:induction false} FilterSplits(s: seq<Id>, drop: set<Id>)
    ensures multiset(Filter(s, drop, false) + Filter(s, drop, true)) == multiset(s)
  {
    if s != [] {
      FilterSplits(s[1..], drop);
      assert s == [s[0]] + s[1..];
    }
  }

  lemma {:induction false} FilterMembers(s: seq<Id>, drop: set<Id>, benched: bool)
    ensures forall z :: z in Filter(s, drop, benched) <==> z in s && (z in drop) == benched
  {
    if s != [] {
      FilterMembers(s[1..], drop, benched);
      assert s == [s[0]] + s[1..];
    }
  }

  /** While some zone is healthy, no benched zone is tried before a healthy one. */
  lemma BenchedZonesComeLast(zones: seq<Id>, start: nat, benched: set<Id>, i: nat, j: nat)
    requires exists z :: z in zones && z !in benched
    requires i < j < |BenchedLast(Rotation(zones, start), benched)|
    requires BenchedLast(Rotation(zones, start), benched)[i] in benched
    ensures BenchedLast(Rotation(zones, start), benched)[j] in benched
  {
    var ordered := Rotation(zones, start);
    RotationShape(zones, start);
    FilterMembers(ordered, benched, false);
    FilterMembers(ordered, benched, true);
    var z :| z in zones && z !in benched;
    assert zones == zones[..start % |zones|] + zones[start % |zones|..];
    assert z in ordered;
    assert z in Filter(ordered, benched, false);
  }

  lemma DistinctByCount(s: seq<Id>)
    requires forall z :: z in s ==> multiset(s)[z] == 1
    ensures Distinct(s)
  {
    forall i, j | 0 <= i < j < |s| ensures s[i] != s[j] {
      assert s == s[..j] + [s[j]] + s[j + 1..];
      assert s[i] in s[..j];
      assert multiset(s)[s[j]] >= multiset(s[..j])[s[j]] + 1;
    }
  }

  lemma {:induction false} DistinctCounts(s: seq<Id>, z: Id)
    requires Distinct(s)
    ensures multiset(s)[z] == if z in s then 1 else 0
  {
    if s != [] {
      assert s == [s[0]] + s[1..];
      assert forall i, j :: 0 <= i < j < |s[1..]| ==> s[1..][i] == s[i + 1] && s[1..][j] == s[j + 1];
      DistinctCounts(s[1..], z);
      assert multiset(s) == multiset{s[0]} + multiset(s[1..]);
      assert s[0] !in s[1..];
    }
  }

  lemma OrderIsDistinct(zones: seq<Id>, start: nat, benched: set<Id>)
    requires Distinct(zones)
    ensures Distinct(BenchedLast(Rotation(zones, start), benched))
    ensures forall z :: z in BenchedLast(Rotation(zones, start), benched) <==> z in zones
  {
    var order := BenchedLast(Rotation(zones, start), benched);
    OrderIsPermutation(zones, start, benched);
    SameMembers(order, zones);
    forall z | z in order ensures multiset(order)[z] == 1 {
      DistinctCounts(zones, z);
    }
    DistinctByCount(order);
  }

  lemma SameMembers(a: seq<Id>, b: seq<Id>)
    requires multiset(a) == multiset(b)
    ensures forall z :: z in a <==> z in b
  {
    forall z ensures z in a <==> z in b {
      assert z in a <==> z in multiset(a);
      assert z in b <==> z in multiset(b);
    }
  }

  lemma {:induction false} FirstsDistinct(s: seq<Id>)
    ensures Distinct(Firsts(s))
    ensures forall v :: v in Firsts(s) <==> v in s
  {
    if s != [] {
      FirstsDistinct(s[..|s| - 1]);
      assert s == s[..|s| - 1] + [s[|s| - 1]];
    }
  }

  lemma LegacyIsDistinct(cfg: Config, zones: seq<Id>, machine: Id)
    requires Distinct(zones)
    ensures Distinct(LegacyPlan(cfg, zones, machine)) && SpotFirst(LegacyPlan(cfg, zones, machine))
  {
  }

  lemma FamilyIsDistinct(cfg: Config, zones: seq<Id>)
    requires |zones| > 0
    ensures Distinct(FamilyPlan(cfg, zones)) && SpotFirst(FamilyPlan(cfg, zones))
  {
    FirstsDistinct(cfg.families);
  }

  ghost predicate SpotFirst(p: seq<Attempt>) {
    forall i, j :: 0 <= i < |p| && 0 <= j < |p| && p[i].model == Spot && p[j].model == Standard ==> i < j
  }

  /** With distinct zones no attempt is tried twice, and every SPOT attempt
      precedes every STANDARD one. */
  lemma PlanIsDistinctAndSpotFirst(cfg: Config, start: nat, override: Option<Id>, benched: set<Id>)
    requires Distinct(cfg.zones)
    ensures Distinct(Plan(cfg, start, override, benched))
    ensures SpotFirst(Plan(cfg, start, override, benched))
  {
    OrderIsDistinct(cfg.zones, start, benched);
    var zones := BenchedLast(Rotation(cfg.zones, start), benched);
    if zones != [] {
      if override.None? && |cfg.families| > 0 {
        FamilyIsDistinct(cfg, Healthy(zones, benched));
      } else {
        LegacyIsDistinct(cfg, zones, if override.Some? then override.value else NONE);
      }
    }
  }

  lemma LegacyCoverage(cfg: Config, zones: seq<Id>, machine: Id)
    ensures var p := LegacyPlan(cfg, zones, machine);
            && (forall z :: z in zones ==> Attempt(cfg.template, z, PrimaryModel(cfg), machine) in p)
            && (forall z :: z in zones && cfg.fallback != NONE ==> Attempt(cfg.fallback, z, Standard, machine) in p)
            && |p| == |zones| * (if cfg.fallback != NONE then 2 else 1)
  {
    var p := LegacyPlan(cfg, zones, machine);
    forall z | z in zones
      ensures Attempt(cfg.template, z, PrimaryModel(cfg), machine) in p
      ensures cfg.fallback != NONE ==> Attempt(cfg.fallback, z, Standard, machine) in p
    {
      var i :| 0 <= i < |zones| && zones[i] == z;
      assert p[i] == Attempt(cfg.template, z, PrimaryModel(cfg), machine);
      if cfg.fallback != NONE {
        assert p[|zones| + i] == Attempt(cfg.fallback, z, Standard, machine);
      }
    }
  }

  /** Every distinct family once, and the first two of them again on demand. */
  function FamilyLength(cfg: Config): nat {
    var n := |Firsts(cfg.families)|;
    n + if cfg.fallback == NONE then 0 else if n < STANDARD_FALLBACK_FAMILIES then n else STANDARD_FALLBACK_FAMILIES
  }

  lemma FamilyCoverage(cfg: Config, zones: seq<Id>)
    requires |zones| > 0
    ensures var p := FamilyPlan(cfg, zones);
            && (forall f :: f in cfg.families ==> exists i :: 0 <= i < |p| && PrimaryFor(cfg, p[i], f))
            && (forall i, j :: 0 <= i < j < |p| && p[i].model == p[j].model ==> p[i].machine != p[j].machine)
            && |p| == FamilyLength(cfg)
  {
    var p := FamilyPlan(cfg, zones);
    FirstsDistinct(cfg.families);
    var fams := Firsts(cfg.families);
    forall f | f in cfg.families ensures exists i :: 0 <= i < |p| && PrimaryFor(cfg, p[i], f) {
      var i :| 0 <= i < |fams| && fams[i] == f;
      assert PrimaryFor(cfg, p[i], f);
    }
  }

  /** The zone-sweep shape tries each template in every zone; the family shape
      tries each distinct family once on the primary template and the first two of
      them on demand; no attempt more. */
  lemma PlanCoverage(cfg: Config, start: nat, override: Option<Id>, benched: set<Id>)
    requires Distinct(cfg.zones) && |cfg.zones| > 0
    ensures var p := Plan(cfg, start, override, benched);
            if override.None? && |cfg.families| > 0 then
              && (forall f :: f in cfg.families ==> exists i :: 0 <= i < |p| && PrimaryFor(cfg, p[i], f))
              && (forall i, j :: 0 <= i < j < |p| && p[i].model == p[j].model ==> p[i].machine != p[j].machine)
              && |p| == FamilyLength(cfg)
            else
              var machine := if override.Some? then override.value else NONE;
              && (forall z :: z in cfg.zones ==> Attempt(cfg.template, z, PrimaryModel(cfg), machine) in p)
              && (cfg.fallback != NONE ==>
                    forall z :: z in cfg.zones ==> Attempt(cfg.fallback, z, Standard, machine) in p)
              && |p| == |cfg.zones| * (if cfg.fallback != NONE then 2 else 1)
  {
    hide LegacyPlan, FamilyPlan, Rotation, BenchedLast, Distinct, Firsts, PrimaryFor, FamilyLength;
    var zones := BenchedLast(Rotation(cfg.zones, start), benched);
    OrderIsDistinct(cfg.zones, start, benched);
    OrderIsPermutation(cfg.zones, start, benched);
    assert |multiset(zones)| == |zones| && |multiset(cfg.zones)| == |cfg.zones|;
    assert zones != [];
    if override.None? && |cfg.families| > 0 {
      FamilyCoverage(cfg, Healthy(zones, benched));
      assert Plan(cfg, start, override, benched) == FamilyPlan(cfg, Healthy(zones, benched));
    } else {
      LegacyCoverage(cfg, zones, if override.Some? then override.value else NONE);
    }
  }

  lemma FamilyAt(cfg: Config, zones: seq<Id>, i: nat)
    requires |zones| > 0
    ensures var p, fams := FamilyPlan(cfg, zones), Firsts(cfg.families);
            && (i < |fams| ==> i < |p| && p[i].zone == zones[i % |zones|] && p[i].machine == fams[i])
            && (|fams| + i < |p| ==>
                  i < |fams| && p[|fams| + i].zone == zones[i % |zones|] && p[|fams| + i].machine == fams[i])
  {
    hide Firsts;
  }

  lemma LegacyAt(cfg: Config, zones: seq<Id>, machine: Id, i: nat)
    requires i < |zones|
    ensures var p := LegacyPlan(cfg, zones, machine);
            && i < |p| && p[i].zone == zones[i] && p[i].machine == machine
            && (|zones| + i < |p| ==> p[|zones| + i].zone == zones[i] && p[|zones| + i].machine == machine)
  {
  }

  /** With no zone benched the zones are tried in turn from the hash-picked one on, once per
      template, or one per family in the order of the families, and so again on demand. */
  lemma ZonesInTurn(cfg: Config, start: nat, override: Option<Id>, i: nat)
    requires |cfg.zones| > 0
    ensures var first := start % |cfg.zones|;
            var turn := cfg.zones[first..] + cfg.zones[..first];
            var p, fams, n := Plan(cfg, start, override, {}), Firsts(cfg.families), |turn|;
            if override.None? && |cfg.families| > 0 then
              && (i < |fams| ==> i < |p| && p[i].zone == turn[i % n] && p[i].machine == fams[i])
              && (|fams| + i < |p| ==>
                    i < |fams| && p[|fams| + i].zone == turn[i % n] && p[|fams| + i].machine == fams[i])
            else i < n ==>
              i < |p| && p[i].zone == turn[i] && (n + i < |p| ==> p[n + i].zone == turn[i])
  {
    var order := Rotation(cfg.zones, start);
    RotationShape(cfg.zones, start);
    hide Firsts, Rotation, FamilyPlan, LegacyPlan;
    FilterNothingBenched(order);
    assert BenchedLast(order, {}) == order + [] == order && Healthy(order, {}) == order;
    if override.None? && |cfg.families| > 0 {
      FamilyAt(cfg, order, i);
    } else if i < |order| {
      LegacyAt(cfg, order, if override.Some? then override.value else NONE, i);
    }
  }

  /** By family, no benched zone is tried while some zone is healthy. */
  lemma FamiliesAvoidBenched(cfg: Config, start: nat, benched: set<Id>, i: nat)
    requires |cfg.families| > 0 && (exists z :: z in cfg.zones && z !in benched)
    requires i < |Plan(cfg, start, None, benched)|
    ensures Plan(cfg, start, None, benched)[i].zone !in benched
  {
    hide Firsts;
    var zones := BenchedLast(Rotation(cfg.zones, start), benched);
    OrderIsPermutation(cfg.zones, start, benched);
    SameMembers(zones, cfg.zones);
    FilterMembers(zones, benched, false);
    var z :| z in cfg.zones && z !in benched;
    assert z in Filter(zones, benched, false);
    forall k | 0 <= k < |Healthy(zones, benched)| ensures Healthy(zones, benched)[k] !in benched {
      assert Healthy(zones, benched)[k] in Filter(zones, benched, false);
    }
  }

  predicate PrimaryFor(cfg: Config, a: Attempt, family: Id) {
    a.template == cfg.template && a.model == PrimaryModel(cfg) && a.machine == family
  }

  lemma {:induction false} FollowingAt(plan: seq<Attempt>, i: nat)
    requires i < |plan| && Distinct(plan)
    ensures AttemptsAfter(plan, plan[i]) == plan[i + 1..]
  {
    if i > 0 {
      assert forall a, b :: 0 <= a < b < |plan[1..]| ==> plan[1..][a] == plan[a + 1] && plan[1..][b] == plan[b + 1];
      assert plan[1..][i - 1] == plan[i];
      FollowingAt(plan[1..], i - 1);
      assert plan[0] != plan[i];
      assert plan[1..][i..] == plan[i + 1..];
    }
  }

  /** Resuming is exact: whichever attempt of a plan failed, a later callback that
      computes the same plan tries exactly the attempts after it, and one that
      retries a saved attempt first tries exactly the attempts from it on. */
  lemma ResumeIsExact(cfg: Config, start: nat, override: Option<Id>, benched: set<Id>, i: nat)
    requires Distinct(cfg.zones)
    requires i < |Plan(cfg, start, override, benched)|
    ensures var p := Plan(cfg, start, override, benched);
            && AttemptsAfter(p, p[i]) == p[i + 1..]
            && [p[i]] + AttemptsAfter(p, p[i]) == p[i..]
  {
    PlanIsDistinctAndSpotFirst(cfg, start, override, benched);
    FollowingAt(Plan(cfg, start, override, benched), i);
  }

  // ----- what the worker needs of every attempt it is handed

  predicate Submittable(a: Attempt) {
    a.template != NONE && a.zone != NONE && a.model != NoModel
  }

  ghost predicate AllSubmittable(plan: seq<Attempt>) {
    forall a :: a in plan ==> Submittable(a)
  }

  lemma LegacySubmittable(cfg: Config, zones: seq<Id>, machine: Id)
    requires cfg.Valid() && forall z :: z in zones ==> z != NONE
    ensures AllSubmittable(LegacyPlan(cfg, zones, machine))
  {
    var p := LegacyPlan(cfg, zones, machine);
    forall a | a in p ensures Submittable(a) {
      var i :| 0 <= i < |p| && p[i] == a;
      assert a.zone == zones[if i < |zones| then i else i - |zones|];
      assert a.zone in zones;
    }
  }

  lemma FamilySubmittable(cfg: Config, zones: seq<Id>)
    requires cfg.Valid() && |zones| > 0 && forall z :: z in zones ==> z != NONE
    ensures AllSubmittable(FamilyPlan(cfg, zones))
  {
    var p := FamilyPlan(cfg, zones);
    var n := |Firsts(cfg.families)|;
    forall a | a in p ensures Submittable(a) {
      var i :| 0 <= i < |p| && p[i] == a;
      assert a.zone == zones[(if i < n then i else i - n) % |zones|];
      assert a.zone in zones;
    }
  }

  lemma PlanSubmittable(cfg: Config, start: nat, override: Option<Id>, benched: set<Id>)
    requires cfg.Valid()
    ensures AllSubmittable(Plan(cfg, start, override, benched))
  {
    var ordered := Rotation(cfg.zones, start);
    var zones := BenchedLast(ordered, benched);
    OrderIsPermutation(cfg.zones, start, benched);
    SameMembers(zones, cfg.zones);
    FilterMembers(zones, benched, false);
    if zones != [] {
      if override.None? && |cfg.families| > 0 {
        FamilySubmittable(cfg, Healthy(zones, benched));
      } else {
        LegacySubmittable(cfg, zones, if override.Some? then override.value else NONE);
      }
    }
  }

  lemma {:induction false} AfterSubmittable(plan: seq<Attempt>, failed: Attempt)
    requires AllSubmittable(plan)
    ensures AllSubmittable(AttemptsAfter(plan, failed))
  {
    if failed in plan && plan[0] != failed {
      assert plan == [plan[0]] + plan[1..];
      AfterSubmittable(plan[1..], failed);
    }
  }
}
