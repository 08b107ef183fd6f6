/** The garrison generator object of GarrisonGenerator.py: it holds the faction keys and the
    templates that `__load_templates__` fills in, and `generate_garrisons` spends a settlement's
    points on rares, then uncommons, then standards.

    The point constants and tier table that `__init__` stores are never reassigned by the
    source; they are the constants of module Garrisons. The random generator is replaced by the
    two streams `gate` and `pick` described there.
 */
module Generator {
  import opened Templates
  import opened Garrisons

  class GarrisonGenerator {
    /** The faction keys, parallel to `templates`. */
    var facnames: seq<string>
    /** One template per faction: its rank lists, standards first, then uncommons, then rares. */
    var templates: seq<seq<seq<string>>>

    ghost predicate Valid()
      reads this
    {
      |facnames| == |templates|
    }

    /** No templates are loaded yet. */
    constructor ()
      ensures Valid()
      ensures facnames == [] && templates == []
    {
      facnames := [];
      templates := [];
    }

    /** Loads the templates of a directory listing: file i gives faction key i and template i.
        Both fields are replaced, not extended. */
    method LoadTemplates(files: seq<TemplateFile>)
      modifies this
      ensures Valid()
      ensures facnames == FacNames(files)
      ensures templates == ParseAll(files)
    {
      var factions: seq<seq<seq<string>>> := [];
      for f := 0 to |files|
        invariant |factions| == f
        invariant forall j :: 0 <= j < f ==> factions[j] == ParseTemplate(files[j].content)
      {
        var units := ReadTemplate(files[f].content);
        factions := factions + [units];
      }
      facnames := FacNames(files);
      templates := factions;
    }

    /** Generates the garrison of a settlement of the given tier for the given faction: the unit
        list of the planned garrison, or the error the source raises. */
    method GenerateGarrisons(fac: string, tier: string, gate: nat -> bool, pick: nat -> nat)
      returns (r: Result<seq<string>>)
      requires Valid()
      ensures r == Flatten(Generate(facnames, templates, fac, tier, gate, pick))
    {
      var fi := IndexOf(facnames, fac);
      if fi == |facnames| {
        return Err(UnknownFaction);
      }
      var allowed := templates[fi];
      var tierNum := IndexOf(Tiers, tier);
      if tierNum == |Tiers| {
        return Err(UnknownTier);
      }
      var points := PtsDef + PtsPer * tierNum;
      ghost var nr, nu, ns;
      r, nr, nu, ns := SpendPoints(allowed, points, MaxRare[tierNum], MaxUncommon[tierNum], gate, pick);
      assert points == Budget(tierNum);
      assert nr == RareCount(tierNum, gate);
      assert points - RareCost * nr == AfterRares(tierNum, gate);
      assert nu == UncommonCount(tierNum, gate);
      assert ns == AfterUncommons(tierNum, gate);
      assert Plan(allowed, tierNum, gate, pick) == Assemble(allowed, pick, nr, nu, ns);
      assert Generate(facnames, templates, fac, tier, gate, pick) == Plan(allowed, tierNum, gate, pick);
    }
  }

  /** One template text of `__load_templates__`: split at the headers, and each section after
      the first split into lines, its last line dropped when it has more than one. */
  method ReadTemplate(content: string) returns (units: seq<seq<string>>)
    ensures units == ParseTemplate(content)
  {
    var army := Sections(content);
    units := [];
    for r := 1 to |army|
      invariant |units| == r - 1
      invariant forall j :: 0 <= j < r - 1 ==> units[j] == RankUnits(army[j + 1])
    {
      var rankUnits := Lines(army[r]);
      rankUnits := if |rankUnits| > 1 then rankUnits[..|rankUnits| - 1] else rankUnits;
      assert rankUnits == RankUnits(army[r]);
      units := units + [rankUnits];
    }
  }

  /** The points-spending part of `generate_garrisons` for the template `allowed`, `points` to
      spend and a tier allowing at most `maxRare` rares and `maxUncommon` uncommons: rares, then
      uncommons, then standards for the points left. The ghost results are the numbers of units
      of each rank the phases buy. */
  method SpendPoints(allowed: seq<seq<string>>, points: nat, maxRare: nat, maxUncommon: nat,
                     gate: nat -> bool, pick: nat -> nat)
    returns (r: Result<seq<string>>, ghost nr: nat, ghost nu: nat, ghost ns: nat)
    ensures nr == PhaseCount(gate, 0, maxRare, points, RareCost) && RareCost * nr <= points
    ensures nu == PhaseCount(gate, Consumed(nr, maxRare), maxUncommon, points - RareCost * nr, UncommonCost)
    ensures ns == points - RareCost * nr - UncommonCost * nu
    ensures r == Flatten(Assemble(allowed, pick, nr, nu, ns))
  {
    nr := PhaseCount(gate, 0, maxRare, points, RareCost);
    PhaseAffordable(gate, 0, maxRare, points, RareCost);
    nu := PhaseCount(gate, Consumed(nr, maxRare), maxUncommon, points - RareCost * nr, UncommonCost);
    PhaseAffordable(gate, Consumed(nr, maxRare), maxUncommon, points - RareCost * nr, UncommonCost);
    ns := points - RareCost * nr - UncommonCost * nu;

    // First add rares
    var rares, g, left := BuyPhase(allowed, RareRank, RareCost, maxRare, points, gate, pick, 0, 0);
    if rares.Err? {
      assert Assemble(allowed, pick, nr, nu, ns) == Err(rares.error);
      return Err(rares.error), nr, nu, ns;
    }
    var garrison := rares.value;
    assert garrison == Draws(RankOr(allowed, RareRank), pick, 0, nr);
    assert g == Consumed(nr, maxRare) && left == points - RareCost * nr;
    assert nu == PhaseCount(gate, g, maxUncommon, left, UncommonCost);

    // Then add uncommons
    var uncommons, g', left' := BuyPhase(allowed, UncommonRank, UncommonCost, maxUncommon, left, gate, pick, g, |garrison|);
    if uncommons.Err? {
      assert Assemble(allowed, pick, nr, nu, ns) == Err(uncommons.error);
      return Err(uncommons.error), nr, nu, ns;
    }
    assert uncommons.value == Draws(RankOr(allowed, UncommonRank), pick, nr, nu);
    assert left' == ns;
    garrison := garrison + uncommons.value;

    // Round it out with standards
    if |allowed| <= StandardRank {
      assert Assemble(allowed, pick, nr, nu, ns) == Err(MissingRank(StandardRank));
      return Err(MissingRank(StandardRank)), nr, nu, ns;
    }
    if left' > 0 && allowed[StandardRank] == [] {
      assert Assemble(allowed, pick, nr, nu, ns) == Err(EmptyRank(StandardRank));
      return Err(EmptyRank(StandardRank)), nr, nu, ns;
    }
    AssembleAll(allowed, pick, nr, nu, ns, |garrison|);
    garrison := garrison + Draws(allowed[StandardRank], pick, |garrison|, left');
    return Ok(garrison), nr, nu, ns;
  }

  /** One buying phase of `generate_garrisons`: at most `max` attempts, each consuming the next
      gate outcome (from position `g0` on); the phase ends at the first failed gate or when fewer
      than `cost` points are left, and each purchase draws the next pick (from position `d0` on)
      from rank list `rank` and pays `cost` points. Returns the units bought, the next unused gate
      position and the points left, or the error of the first impossible draw. */
  method BuyPhase(allowed: seq<seq<string>>, rank: nat, cost: nat, max: nat, points: nat,
                  gate: nat -> bool, pick: nat -> nat, g0: nat, d0: nat)
    returns (r: Result<seq<string>>, g: nat, left: nat)
    requires cost > 0
    ensures PhaseCount(gate, g0, max, points, cost) > 0 && |allowed| <= rank ==>
              r == Err(MissingRank(rank))
    ensures PhaseCount(gate, g0, max, points, cost) > 0 && rank < |allowed| && allowed[rank] == [] ==>
              r == Err(EmptyRank(rank))
    ensures PhaseCount(gate, g0, max, points, cost) == 0 || (rank < |allowed| && allowed[rank] != []) ==>
              r == Ok(Draws(RankOr(allowed, rank), pick, d0, PhaseCount(gate, g0, max, points, cost))) &&
              g == g0 + Consumed(PhaseCount(gate, g0, max, points, cost), max) &&
              left == points - cost * PhaseCount(gate, g0, max, points, cost)
  {
    var bought: seq<string> := [];
    left := points;
    g := g0;
    var d := d0;
    for i := 0 to max
      invariant g == g0 + i && d == d0 + i && |bought| == i
      invariant left + cost * i == points
      invariant forall k :: g0 <= k < g0 + i ==> gate(k)
      invariant i > 0 ==> rank < |allowed| && allowed[rank] != []
      invariant bought == Draws(RankOr(allowed, rank), pick, d0, i)
    {
      var passed := gate(g);
      g := g + 1;
      if !passed || left < cost {
        PhaseEnds(gate, g0, max, points, cost, i, left);
        return Ok(bought), g, left;
      }
      PhaseGoesOn(gate, g0, max, points, cost, i, left);
      if |allowed| <= rank {
        return Err(MissingRank(rank)), g, left;
      }
      if allowed[rank] == [] {
        return Err(EmptyRank(rank)), g, left;
      }
      bought := bought + [Pick(allowed[rank], pick, d)];
      d := d + 1;
      MulStep(cost, i);
      left := left - cost;
    }
    PhaseEnds(gate, g0, max, points, cost, max, left);
    r := Ok(bought);
  }

  /** A phase that has bought `i` units and then stops (all attempts used, a failed gate, or
      fewer than `cost` points left) has bought exactly the leading run of passed gates. */
  lemma PhaseEnds(gate: nat -> bool, g0: nat, max: nat, points: nat, cost: nat, i: nat, left: int)
    requires cost > 0 && i <= max && left + cost * i == points && left >= 0
    requires forall k :: g0 <= k < g0 + i ==> gate(k)
    requires i == max || !gate(g0 + i) || left < cost
    ensures PhaseCount(gate, g0, max, points, cost) == i
  {
    Quotient(points, cost, i, left < cost);
    RunUnique(gate, g0, Min(max, points / cost), i);
  }

  /** A phase that has bought `i` units and passes its next gate with `cost` points left buys
      more than `i` units. */
  lemma PhaseGoesOn(gate: nat -> bool, g0: nat, max: nat, points: nat, cost: nat, i: nat, left: int)
    requires cost > 0 && i < max && left + cost * i == points && left >= cost
    requires forall k :: g0 <= k <= g0 + i ==> gate(k)
    ensures PhaseCount(gate, g0, max, points, cost) > i
  {
    MulStep(cost, i);
    Quotient(points, cost, i + 1, false);
    RunFrom(gate, g0, Min(max, points / cost), i + 1);
  }

  lemma AssembleAll(allowed: seq<seq<string>>, pick: nat -> nat, nr: nat, nu: nat, ns: nat, d: nat)
    requires d == nr + nu
    requires !(nr > 0 && |allowed| <= RareRank) && !(nr > 0 && allowed[RareRank] == [])
    requires !(nu > 0 && |allowed| <= UncommonRank) && !(nu > 0 && allowed[UncommonRank] == [])
    requires StandardRank < |allowed| && !(ns > 0 && allowed[StandardRank] == [])
    ensures Assemble(allowed, pick, nr, nu, ns) ==
            Ok(Garrison(Draws(RankOr(allowed, RareRank), pick, 0, nr),
                        Draws(RankOr(allowed, UncommonRank), pick, nr, nu),
                        Draws(allowed[StandardRank], pick, d, ns)))
  {
  }

  /** Loading then generating: a faction whose file is "<base>.txt" (".txt" not occurring in
      base, and no earlier file giving the same key) is generated from that file's parsed
      template. */
  lemma LoadedFactionGenerates(files: seq<TemplateFile>, i: nat, base: string, tier: string,
                               gate: nat -> bool, pick: nat -> nat)
    requires i < |files| && files[i].name == base + Extension
    requires forall k: nat :: !TxtAt(base, k)
    requires forall j :: 0 <= j < i ==> RemoveTxt(files[j].name) != base
    requires tier in Tiers
    ensures Generate(FacNames(files), ParseAll(files), base, tier, gate, pick) ==
            Plan(ParseTemplate(files[i].content), IndexOf(Tiers, tier), gate, pick)
  {
    FactionKeyOfFileName(base);
    var names := FacNames(files);
    assert names[i] == base;
    var fi := IndexOf(names, base);
    assert fi == i;
    GenerateLookups(names, ParseAll(files), base, tier, gate, pick);
  }

  /** A loaded template never makes the generator fail on an empty rank list: every parsed rank
      list holds at least one identifier, so a plan for it fails only where the template has
      too few sections. */
  lemma ParsedTemplateErrors(content: string, t: nat, gate: nat -> bool, pick: nat -> nat)
    requires t < |Tiers|
    ensures Plan(ParseTemplate(content), t, gate, pick).Err? ==>
              Plan(ParseTemplate(content), t, gate, pick).error.MissingRank? &&
              |ParseTemplate(content)| <= Plan(ParseTemplate(content), t, gate, pick).error.rank
  {
    PlanErrorsAreTemplateGaps(ParseTemplate(content), t, gate, pick);
  }
}
