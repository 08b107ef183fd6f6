/** The points-based garrison policy of GarrisonGenerator.py (`generate_garrisons` and the tier
    table of `__init__`), stated as functions of explicit random streams.

    The source draws from a global pseudo-random generator. Here the draws are inputs:
    - `gate(n)` is the n-th gate outcome; it is true when the n-th `rand.random()` is at most
      0.9, that is when the gate lets the purchase go ahead;
    - `pick(n)` is the n-th unit draw; it selects `list[pick(n) % |list|]` from the rank list the
      draw is made from.
    Every property below holds for every pair of streams.
 */
module Garrisons {

  /** The settlement tiers, in order; a tier's position is its tier number. */
  const Tiers: seq<string> := ["village", "town", "large_town", "city", "large_city", "huge_city"]

  /** Starting points at a village. */
  const PtsDef: nat := 4
  /** Additional points per tier. */
  const PtsPer: nat := 2
  /** At most this many uncommons per tier. */
  const MaxUncommon: seq<nat> := [0, 1, 2, 3, 4, 5]
  /** At most this many rares per tier. */
  const MaxRare: seq<nat> := [0, 0, 0, 1, 2, 3]

  /** Price of one unit of each rank, as the generator subtracts them. */
  const RareCost: nat := 3
  const UncommonCost: nat := 2

  /** Positions of the rank lists in a faction template. */
  const StandardRank: nat := 0
  const UncommonRank: nat := 1
  const RareRank: nat := 2

  /** Why a generation request fails. */
  datatype GenError =
    | UnknownFaction          // the faction has no template (`list.index` raises)
    | UnknownTier             // the tier is not one of Tiers (`list.index` raises)
    | MissingRank(rank: nat)  // the template has no rank list at this position (IndexError)
    | EmptyRank(rank: nat)    // a unit is drawn from an empty rank list (numpy `choice` raises)

  datatype Result<T> = Ok(value: T) | Err(error: GenError)

  /** A generated garrison, block by block, each block in draw order. */
  datatype Garrison = Garrison(rares: seq<string>, uncommons: seq<string>, standards: seq<string>) {
    /** The unit list handed to the caller. */
    function Units(): seq<string> {
      rares + uncommons + standards
    }
  }

  function Flatten(r: Result<Garrison>): Result<seq<string>> {
    match r
    case Ok(g) => Ok(g.Units())
    case Err(e) => Err(e)
  }

  function Min(a: nat, b: nat): nat {
    if a <= b then a else b
  }

  /** Position of the first occurrence of x in s, or |s| when x does not occur. */
  function IndexOf<T(==)>(s: seq<T>, x: T): (i: nat)
    ensures i <= |s|
    ensures i < |s| ==> s[i] == x
    ensures forall j :: 0 <= j < i ==> s[j] != x
  {
    if s == [] then 0
    else if s[0] == x then 0
    else 1 + IndexOf(s[1..], x)
  }

  /** The points a settlement of tier number t starts with. */
  function Budget(t: nat): nat {
    PtsDef + PtsPer * t
  }

  /** The number of consecutive passed gates starting at `from`, looking at no more than `cap`. */
  function Run(gate: nat -> bool, from: nat, cap: nat): (n: nat)
    ensures n <= cap
    ensures forall k :: from <= k < from + n ==> gate(k)
    ensures n < cap ==> !gate(from + n)
    decreases cap
  {
    if cap == 0 || !gate(from) then 0 else 1 + Run(gate, from + 1, cap - 1)
  }

  /** The gates a phase with at most `max` attempts consumes when it buys `bought` units: one per
      purchase, and one more for the attempt that ended the phase early. */
  function Consumed(bought: nat, max: nat): nat {
    if bought < max then bought + 1 else bought
  }

  /** The unit the n-th pick selects from `list`. */
  function Pick(list: seq<string>, pick: nat -> nat, n: nat): (u: string)
    requires |list| > 0
    ensures u in list
  {
    list[pick(n) % |list|]
  }

  /** `n` units drawn from `list`, using the picks from position `from` on. */
  function Draws(list: seq<string>, pick: nat -> nat, from: nat, n: nat): (units: seq<string>)
    requires n == 0 || |list| > 0
    ensures |units| == n
    ensures forall k :: 0 <= k < n ==> units[k] in list
  {
    if n == 0 then [] else Draws(list, pick, from, n - 1) + [Pick(list, pick, from + n - 1)]
  }

  /** The rank list at position k of a template, or the empty list when there is none. */
  function RankOr(allowed: seq<seq<string>>, k: nat): seq<string> {
    if k < |allowed| then allowed[k] else []
  }

  /** Units a buying phase gets: the passed gates in a row from `from` on, capped by the phase's
      maximum `max` and by what `points` pay at `cost` each. */
  function PhaseCount(gate: nat -> bool, from: nat, max: nat, points: nat, cost: nat): nat
    requires cost > 0
  {
    Run(gate, from, Min(max, points / cost))
  }

  /** Rares bought at tier t: the leading passed gates, capped by the tier's maximum and by what
      the budget can pay. */
  function RareCount(t: nat, gate: nat -> bool): nat
    requires t < |Tiers|
  {
    PhaseCount(gate, 0, MaxRare[t], Budget(t), RareCost)
  }

  /** Points left after the rares. */
  function AfterRares(t: nat, gate: nat -> bool): nat
    requires t < |Tiers|
  {
    Budget(t) - RareCost * RareCount(t, gate)
  }

  /** Uncommons bought at tier t: the passed gates that follow those the rare phase consumed,
      capped by the tier's maximum and by the points left. */
  function UncommonCount(t: nat, gate: nat -> bool): nat
    requires t < |Tiers|
  {
    PhaseCount(gate, Consumed(RareCount(t, gate), MaxRare[t]), MaxUncommon[t], AfterRares(t, gate), UncommonCost)
  }

  /** Points left after the uncommons: the number of standards. */
  function AfterUncommons(t: nat, gate: nat -> bool): nat
    requires t < |Tiers|
  {
    AfterRares(t, gate) - UncommonCost * UncommonCount(t, gate)
  }

  /** The garrison of `nr` rares, `nu` uncommons and `ns` standards drawn from the template
      `allowed`, phase after phase, or the error the first impossible draw raises. */
  function Assemble(allowed: seq<seq<string>>, pick: nat -> nat, nr: nat, nu: nat, ns: nat): Result<Garrison> {
    if nr > 0 && |allowed| <= RareRank then Err(MissingRank(RareRank))
    else if nr > 0 && allowed[RareRank] == [] then Err(EmptyRank(RareRank))
    else if nu > 0 && |allowed| <= UncommonRank then Err(MissingRank(UncommonRank))
    else if nu > 0 && allowed[UncommonRank] == [] then Err(EmptyRank(UncommonRank))
    else if |allowed| <= StandardRank then Err(MissingRank(StandardRank))
    else if ns > 0 && allowed[StandardRank] == [] then Err(EmptyRank(StandardRank))
    else Ok(Garrison(Draws(RankOr(allowed, RareRank), pick, 0, nr),
                     Draws(RankOr(allowed, UncommonRank), pick, nr, nu),
                     Draws(allowed[StandardRank], pick, nr + nu, ns)))
  }

  /** The garrison of a settlement of tier number t for a faction whose template is `allowed`,
      or the error the source raises for that template. */
  function Plan(allowed: seq<seq<string>>, t: nat, gate: nat -> bool, pick: nat -> nat): Result<Garrison>
    requires t < |Tiers|
  {
    Assemble(allowed, pick, RareCount(t, gate), UncommonCount(t, gate), AfterUncommons(t, gate))
  }

  /** A generation request: look the faction up, then the tier, then plan the garrison. */
  function Generate(facnames: seq<string>, templates: seq<seq<seq<string>>>, fac: string, tier: string,
                    gate: nat -> bool, pick: nat -> nat): Result<Garrison>
    requires |facnames| == |templates|
  {
    var fi := IndexOf(facnames, fac);
    if fi == |facnames| then Err(UnknownFaction)
    else
      var t := IndexOf(Tiers, tier);
      if t == |Tiers| then Err(UnknownTier)
      else Plan(templates[fi], t, gate, pick)
  }

  // ---------------------------------------------------------------------------------------------
  // Lemmas
  // ---------------------------------------------------------------------------------------------

  /** A phase never buys more than its points pay for. */
  lemma PhaseAffordable(gate: nat -> bool, from: nat, max: nat, points: nat, cost: nat)
    requires cost > 0
    ensures cost * PhaseCount(gate, from, max, points, cost) <= points
  {
    var n := PhaseCount(gate, from, max, points, cost);
    var q := points / cost;
    assert n <= q;
    assert cost * q <= points;
    assert cost * q == cost * n + cost * (q - n);
  }

  /** What the points left after `i` purchases tell about `points / cost`: at least `i` units
      were affordable, and exactly `i` when fewer than `cost` points are left. */
  lemma Quotient(points: nat, cost: nat, i: nat, exhausted: bool)
    requires cost > 0 && cost * i <= points
    requires exhausted ==> points < cost * i + cost
    ensures i <= points / cost
    ensures exhausted ==> points / cost == i
  {
    var q := points / cost;
    assert cost * q <= points < cost * q + cost;
    assert cost * (i - q) == cost * i - cost * q;
    Below(cost, i - q);
    if exhausted {
      assert cost * (q - i) == cost * q - cost * i;
      Below(cost, q - i);
    }
  }

  lemma MulStep(c: nat, i: nat)
    ensures c * (i + 1) == c * i + c
  {
  }

  lemma Below(c: int, j: int)
    requires c > 0 && c * j < c
    ensures j < 1
  {
  }

  /** A phase that stops early, with a purchase still allowed by its maximum and its points,
      was stopped by a failed gate; every gate before it passed. */
  lemma PhaseStop(gate: nat -> bool, from: nat, max: nat, points: nat, cost: nat)
    requires cost > 0
    ensures forall k :: from <= k < from + PhaseCount(gate, from, max, points, cost) ==> gate(k)
    ensures PhaseCount(gate, from, max, points, cost) < max &&
            points - cost * PhaseCount(gate, from, max, points, cost) >= cost ==>
              !gate(from + PhaseCount(gate, from, max, points, cost))
  {
    var n := PhaseCount(gate, from, max, points, cost);
    if n < max && points - cost * n >= cost {
      MulStep(cost, n);
      Quotient(points, cost, n + 1, false);
    }
  }

  /** The leading run is determined by its three defining properties. */
  lemma RunUnique(gate: nat -> bool, from: nat, cap: nat, n: nat)
    requires n <= cap
    requires forall k :: from <= k < from + n ==> gate(k)
    requires n < cap ==> !gate(from + n)
    ensures Run(gate, from, cap) == n
  {
  }

  /** `m` passed gates in a row, within the cap, are all counted. */
  lemma RunFrom(gate: nat -> bool, from: nat, cap: nat, m: nat)
    requires m <= cap
    requires forall k :: from <= k < from + m ==> gate(k)
    ensures Run(gate, from, cap) >= m
  {
  }

  /** Every tier label names its own position: the labels are distinct. */
  lemma TierNumbers()
    ensures forall t :: 0 <= t < |Tiers| ==> IndexOf(Tiers, Tiers[t]) == t
  {
    forall t | 0 <= t < |Tiers| ensures IndexOf(Tiers, Tiers[t]) == t {
      var i := IndexOf(Tiers, Tiers[t]);
      assert Tiers[i] == Tiers[t];
      assert |Tiers[i]| == |Tiers[t]| && Tiers[i][0] == Tiers[t][0];
      assert |Tiers[i]| > 5 ==> Tiers[i][6] == Tiers[t][6];
    }
  }

  /** The starting budget of the tiers, from village to huge city: 4, 6, 8, 10, 12 and 14
      points. */
  lemma BudgetByTier(t: nat)
    requires t < |Tiers|
    ensures Budget(t) == [4, 6, 8, 10, 12, 14][t]
  {
  }

  /** Every unit bought was affordable when it was bought, so the points never go negative;
      the points left for standards are exactly the budget minus the rares and uncommons. */
  lemma PointsNeverNegative(t: nat, gate: nat -> bool)
    requires t < |Tiers|
    ensures forall k :: 0 <= k < RareCount(t, gate) ==> Budget(t) - RareCost * k >= RareCost
    ensures forall k :: 0 <= k < UncommonCount(t, gate) ==> AfterRares(t, gate) - UncommonCost * k >= UncommonCost
    ensures RareCost * RareCount(t, gate) + UncommonCost * UncommonCount(t, gate) + AfterUncommons(t, gate) == Budget(t)
  {
  }

  /** Budget conservation: three points per rare, two per uncommon and one per standard add up to
      exactly the tier's starting budget. */
  lemma BudgetConserved(allowed: seq<seq<string>>, t: nat, gate: nat -> bool, pick: nat -> nat)
    requires t < |Tiers|
    ensures Plan(allowed, t, gate, pick).Ok? ==>
              var g := Plan(allowed, t, gate, pick).value;
              RareCost * |g.rares| + UncommonCost * |g.uncommons| + |g.standards| == PtsDef + PtsPer * t
  {
  }

  /** The per-rank caps: villages, towns and large towns never get rares, villages never get
      uncommons. */
  lemma RankCaps(allowed: seq<seq<string>>, t: nat, gate: nat -> bool, pick: nat -> nat)
    requires t < |Tiers|
    ensures Plan(allowed, t, gate, pick).Ok? ==>
              var g := Plan(allowed, t, gate, pick).value;
              |g.rares| <= MaxRare[t] && |g.uncommons| <= MaxUncommon[t] &&
              (t <= 2 ==> g.rares == []) && (t == 0 ==> g.uncommons == [])
  {
  }

  /** The size of a garrison lies between a third of the budget and the budget. */
  lemma GarrisonSize(allowed: seq<seq<string>>, t: nat, gate: nat -> bool, pick: nat -> nat)
    requires t < |Tiers|
    ensures Plan(allowed, t, gate, pick).Ok? ==>
              var n := |Plan(allowed, t, gate, pick).value.Units()|;
              Budget(t) <= RareCost * n && n <= Budget(t)
  {
  }

  /** A village garrison is exactly four standards. */
  lemma VillageGarrison(allowed: seq<seq<string>>, gate: nat -> bool, pick: nat -> nat)
    ensures Plan(allowed, 0, gate, pick).Ok? ==>
              var g := Plan(allowed, 0, gate, pick).value;
              g.rares == [] && g.uncommons == [] && |g.standards| == 4
  {
  }

  /** The rare phase stops at its first failed gate: the rares are bought on consecutive passed
      gates, and when the phase ends before its cap with points to spare, the gate after the
      last purchase failed. */
  lemma RaresStopAtFirstFailure(t: nat, gate: nat -> bool)
    requires t < |Tiers|
    ensures forall k :: 0 <= k < RareCount(t, gate) ==> gate(k)
    ensures RareCount(t, gate) < MaxRare[t] && AfterRares(t, gate) >= RareCost ==> !gate(RareCount(t, gate))
  {
    PhaseStop(gate, 0, MaxRare[t], Budget(t), RareCost);
  }

  /** The same of the uncommon phase, on the gates that follow those the rare phase consumed. */
  lemma UncommonsStopAtFirstFailure(t: nat, gate: nat -> bool)
    requires t < |Tiers|
    ensures forall k :: Consumed(RareCount(t, gate), MaxRare[t]) <= k < Consumed(RareCount(t, gate), MaxRare[t]) + UncommonCount(t, gate) ==>
              gate(k)
    ensures UncommonCount(t, gate) < MaxUncommon[t] && AfterUncommons(t, gate) >= UncommonCost ==>
              !gate(Consumed(RareCount(t, gate), MaxRare[t]) + UncommonCount(t, gate))
  {
    var g1, left, nu := Consumed(RareCount(t, gate), MaxRare[t]), AfterRares(t, gate), UncommonCount(t, gate);
    assert nu == PhaseCount(gate, g1, MaxUncommon[t], left, UncommonCost);
    assert AfterUncommons(t, gate) == left - UncommonCost * nu;
    PhaseStop(gate, g1, MaxUncommon[t], left, UncommonCost);
  }


  /** A failed gate ends its phase: no rare is bought at or after the first failed gate. */
  lemma NoRareAfterFailedGate(t: nat, gate: nat -> bool, k: nat)
    requires t < |Tiers|
    requires !gate(k)
    ensures RareCount(t, gate) <= k
  {
  }

  /** The k-th draw of a block is the rank list's element selected by the k-th pick. */
  lemma {:induction false} DrawsAt(list: seq<string>, pick: nat -> nat, from: nat, n: nat, k: nat)
    requires |list| > 0
    requires k < n
    ensures Draws(list, pick, from, n)[k] == Pick(list, pick, from + k)
    decreases n
  {
    if k < n - 1 {
      DrawsAt(list, pick, from, n - 1, k);
    }
  }

  /** The k-th unit of `block` is the element of `list` that pick `from + k` selects. */
  ghost predicate DrawnInOrder(block: seq<string>, list: seq<string>, pick: nat -> nat, from: nat)
    requires |list| > 0
  {
    forall k :: 0 <= k < |block| ==> block[k] == Pick(list, pick, from + k)
  }

  /** Every unit of a block of draws is the element its pick selects. */
  lemma BlockDraws(list: seq<string>, pick: nat -> nat, from: nat, block: seq<string>)
    requires |list| > 0
    requires block == Draws(list, pick, from, |block|)
    ensures DrawnInOrder(block, list, pick, from)
  {
    forall k | 0 <= k < |block| ensures block[k] == Pick(list, pick, from + k) {
      DrawsAt(list, pick, from, |block|, k);
    }
  }

  /** What a successful assembly consists of: three blocks of draws of the requested lengths,
      each from a rank list the template has and that is non-empty whenever the block is, the
      picks used in order across the blocks. */
  lemma AssembleOk(allowed: seq<seq<string>>, pick: nat -> nat, nr: nat, nu: nat, ns: nat, g: Garrison)
    requires Assemble(allowed, pick, nr, nu, ns) == Ok(g)
    ensures |g.rares| == nr && |g.uncommons| == nu && |g.standards| == ns
    ensures g.rares != [] ==>
              RareRank < |allowed| && allowed[RareRank] != [] &&
              g.rares == Draws(allowed[RareRank], pick, 0, |g.rares|)
    ensures g.uncommons != [] ==>
              UncommonRank < |allowed| && allowed[UncommonRank] != [] &&
              g.uncommons == Draws(allowed[UncommonRank], pick, |g.rares|, |g.uncommons|)
    ensures StandardRank < |allowed|
    ensures g.standards != [] ==>
              allowed[StandardRank] != [] &&
              g.standards == Draws(allowed[StandardRank], pick, |g.rares| + |g.uncommons|, |g.standards|)
  {
  }

  lemma PlanOk(allowed: seq<seq<string>>, t: nat, gate: nat -> bool, pick: nat -> nat, g: Garrison)
    requires t < |Tiers|
    requires Plan(allowed, t, gate, pick) == Ok(g)
    ensures |g.rares| == RareCount(t, gate)
    ensures |g.uncommons| == UncommonCount(t, gate)
    ensures |g.standards| == AfterUncommons(t, gate)
    ensures g.rares != [] ==>
              RareRank < |allowed| && allowed[RareRank] != [] &&
              g.rares == Draws(allowed[RareRank], pick, 0, |g.rares|)
    ensures g.uncommons != [] ==>
              UncommonRank < |allowed| && allowed[UncommonRank] != [] &&
              g.uncommons == Draws(allowed[UncommonRank], pick, |g.rares|, |g.uncommons|)
    ensures StandardRank < |allowed|
    ensures g.standards != [] ==>
              allowed[StandardRank] != [] &&
              g.standards == Draws(allowed[StandardRank], pick, |g.rares| + |g.uncommons|, |g.standards|)
  {
    AssembleOk(allowed, pick, RareCount(t, gate), UncommonCount(t, gate), AfterUncommons(t, gate), g);
  }

  /** The blocks of a successful plan, as PlanOk describes them, are drawn in order. */
  lemma DrawOrder(allowed: seq<seq<string>>, pick: nat -> nat, g: Garrison)
    requires g.rares != [] ==>
               RareRank < |allowed| && allowed[RareRank] != [] &&
               g.rares == Draws(allowed[RareRank], pick, 0, |g.rares|)
    requires g.uncommons != [] ==>
               UncommonRank < |allowed| && allowed[UncommonRank] != [] &&
               g.uncommons == Draws(allowed[UncommonRank], pick, |g.rares|, |g.uncommons|)
    requires g.standards != [] ==>
               StandardRank < |allowed| && allowed[StandardRank] != [] &&
               g.standards == Draws(allowed[StandardRank], pick, |g.rares| + |g.uncommons|, |g.standards|)
    ensures g.rares != [] ==> DrawnInOrder(g.rares, allowed[RareRank], pick, 0)
    ensures g.uncommons != [] ==> DrawnInOrder(g.uncommons, allowed[UncommonRank], pick, |g.rares|)
    ensures g.standards != [] ==>
              DrawnInOrder(g.standards, allowed[StandardRank], pick, |g.rares| + |g.uncommons|)
  {
    if g.rares != [] {
      BlockDraws(allowed[RareRank], pick, 0, g.rares);
    }
    if g.uncommons != [] {
      BlockDraws(allowed[UncommonRank], pick, |g.rares|, g.uncommons);
    }
    if g.standards != [] {
      BlockDraws(allowed[StandardRank], pick, |g.rares| + |g.uncommons|, g.standards);
    }
  }

  /** Block order and draw order: the unit list is the rares, then the uncommons, then the
      standards; each block is drawn, in order, from its own rank list, the picks being used
      in order across the three blocks. */
  lemma BlocksFromTheirRanks(allowed: seq<seq<string>>, t: nat, gate: nat -> bool, pick: nat -> nat, g: Garrison)
    requires t < |Tiers|
    requires Plan(allowed, t, gate, pick) == Ok(g)
    ensures g.Units() == g.rares + g.uncommons + g.standards
    ensures StandardRank < |allowed|
    ensures g.rares != [] ==>
              RareRank < |allowed| && allowed[RareRank] != [] &&
              DrawnInOrder(g.rares, allowed[RareRank], pick, 0)
    ensures g.uncommons != [] ==>
              UncommonRank < |allowed| && allowed[UncommonRank] != [] &&
              DrawnInOrder(g.uncommons, allowed[UncommonRank], pick, |g.rares|)
    ensures g.standards != [] ==>
              allowed[StandardRank] != [] &&
              DrawnInOrder(g.standards, allowed[StandardRank], pick, |g.rares| + |g.uncommons|)
  {
    PlanOk(allowed, t, gate, pick, g);
    DrawOrder(allowed, pick, g);
  }

  /** Rank membership: every unit of a block belongs to the rank list it was drawn from. */
  lemma BlocksWithinRanks(allowed: seq<seq<string>>, t: nat, gate: nat -> bool, pick: nat -> nat, g: Garrison)
    requires t < |Tiers|
    requires Plan(allowed, t, gate, pick) == Ok(g)
    ensures forall u :: u in g.rares ==> RareRank < |allowed| && u in allowed[RareRank]
    ensures forall u :: u in g.uncommons ==> UncommonRank < |allowed| && u in allowed[UncommonRank]
    ensures forall u :: u in g.standards ==> StandardRank < |allowed| && u in allowed[StandardRank]
  {
  }

  /** A template whose standard, uncommon and rare lists are all non-empty never makes the
      generator fail, whatever the random streams. */
  lemma CompleteTemplateSucceeds(allowed: seq<seq<string>>, t: nat, gate: nat -> bool, pick: nat -> nat)
    requires t < |Tiers|
    requires |allowed| > RareRank
    requires allowed[StandardRank] != [] && allowed[UncommonRank] != [] && allowed[RareRank] != []
    ensures Plan(allowed, t, gate, pick).Ok?
  {
  }

  /** Every failure of a plan points at a real gap in the template. A rare or uncommon list is
      missing or empty only where its phase bought a unit. The standard list is indexed whatever
      the points left, so a missing one fails even when no standard is drawn; an empty one fails
      only when standards are drawn. */
  lemma PlanErrorsAreTemplateGaps(allowed: seq<seq<string>>, t: nat, gate: nat -> bool, pick: nat -> nat)
    requires t < |Tiers|
    ensures match Plan(allowed, t, gate, pick)
            case Ok(_) => true
            case Err(MissingRank(k)) =>
              k <= RareRank && |allowed| <= k &&
              (k == RareRank ==> RareCount(t, gate) > 0) &&
              (k == UncommonRank ==> UncommonCount(t, gate) > 0)
            case Err(EmptyRank(k)) =>
              k <= RareRank && k < |allowed| && allowed[k] == [] &&
              (k == RareRank ==> RareCount(t, gate) > 0) &&
              (k == UncommonRank ==> UncommonCount(t, gate) > 0) &&
              (k == StandardRank ==> AfterUncommons(t, gate) > 0)
            case Err(_) => false
  {
  }

  /** The two lookups: an unknown faction fails first, then an unknown tier; otherwise the plan
      for the faction's first template and the tier's number decides. */
  lemma GenerateLookups(facnames: seq<string>, templates: seq<seq<seq<string>>>, fac: string, tier: string,
                        gate: nat -> bool, pick: nat -> nat)
    requires |facnames| == |templates|
    ensures Generate(facnames, templates, fac, tier, gate, pick) == Err(UnknownFaction) <==> fac !in facnames
    ensures Generate(facnames, templates, fac, tier, gate, pick) == Err(UnknownTier) <==>
              fac in facnames && tier !in Tiers
    ensures fac in facnames && tier in Tiers ==>
              Generate(facnames, templates, fac, tier, gate, pick) ==
              Plan(templates[IndexOf(facnames, fac)], IndexOf(Tiers, tier), gate, pick)
  {
    var fi := IndexOf(facnames, fac);
    var t := IndexOf(Tiers, tier);
    if fi < |facnames| && t < |Tiers| {
      PlanErrorsAreTemplateGaps(templates[fi], t, gate, pick);
    }
  }
}
