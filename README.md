# Garrison generator model

This project models the settlement-garrison generator of DynDaC, `GarrisonGenerator.py`. The
generator has two parts.

- **Template loading** (`__load_templates__`). Each faction has an army template file. The
  loader splits the file's text on header lines `#TAG` followed by a newline, where TAG is one or
  more upper-case letters. It throws away the text before the first header. Each section becomes
  one *rank list*: the section split on newlines, with the last piece dropped when there is more
  than one piece. Rank list 0 holds standards, 1 uncommons and 2 rares. The faction key is the
  file name with every `.txt` removed. `facnames[i]` is the key of file `i` and `templates[i]`
  is its template.
- **Garrison generation** (`generate_garrisons`). It looks up the faction, then the tier, among
  village, town, large_town, city, large_city and huge_city. The budget is `4 + 2 * tier`
  points. The generator then spends them in three phases:
  1. Rares cost 3 points each, up to `[0,0,0,1,2,3][tier]` of them.
  2. Uncommons cost 2 points each, up to `[0,1,2,3,4,5][tier]` of them.
  3. Standards cost 1 point each and take every point left.

  Each rare or uncommon attempt first consumes a random gate outcome. The phase stops at the
  first failed gate, or as soon as the points left cannot pay for one more unit.

The random generator is replaced by two caller-supplied streams:

- `gate(n)` is whether the n-th gate passes, i.e. whether the n-th `rand.random()` is at most 0.9;
- `pick(n)` selects element `pick(n) % |list|` of the rank list the n-th unit is drawn from.

Every property holds for all streams.

Module layout:

- `templates.dfy` (module `Templates`) covers header splitting, line splitting and faction keys,
  plus a writer of template files that parsing inverts.
- `garrisons.dfy` (module `Garrisons`) holds the tier table and the specification of a garrison
  as functions of the streams (`Run`, `PhaseCount`, `Assemble`, `Plan`, `Generate`). The
  properties of the point budget are lemmas about them.
- `generator.dfy` (module `Generator`) holds the class `GarrisonGenerator`. Its fields are
  `facnames` and `templates`, and its methods carry the source's loops. Each method is proved
  against the specification functions.

Errors are results, not preconditions:

- `UnknownFaction`: `facnames.index` raises;
- `UnknownTier`: `CITY_TIERS.index` raises;
- `MissingRank(k)`: the template has no rank list `k` when the code indexes it;
- `EmptyRank(k)`: numpy `choice` of at least one unit from an empty list.

`choice` of zero units from an empty list succeeds, and so it does here.

## Model

| member | source | states |
|---|---|---|
| Generator.GarrisonGenerator.constructor | GarrisonGenerator.py:69-77 | A new generator holds no faction keys and no templates, and the two fields are parallel |
| Generator.GarrisonGenerator.LoadTemplates | GarrisonGenerator.py:13-33 | After loading, faction key i is file i's name without ".txt" and template i is file i's parsed text; both fields are replaced, not extended |
| Generator.ReadTemplate | GarrisonGenerator.py:24-31 | The loop over the sections after the first yields exactly the parsed template of the text |
| Generator.GarrisonGenerator.GenerateGarrisons | GarrisonGenerator.py:35-67 | The result is the unit list of the planned garrison, or the first error: unknown faction, unknown tier, then a missing or empty rank list |
| Generator.SpendPoints | GarrisonGenerator.py:46-66 | The rares, uncommons and standards bought equal the specification's phase counts, and the unit list is the assembled garrison or its error |
| Generator.BuyPhase | GarrisonGenerator.py:50-63 | One capped buying loop buys exactly the leading run of passed gates that the points pay for, draws them in pick order, consumes one extra gate when it stops early, and fails only when a unit must come from a missing or empty list |
| Generator.PhaseEnds | GarrisonGenerator.py:50-52 | A loop that stops after i purchases, by cap, failed gate or lack of points, has bought exactly the phase count |
| Generator.PhaseGoesOn | GarrisonGenerator.py:50-55 | A loop that passes its gate with enough points buys more than it has bought so far |
| Generator.AssembleAll | GarrisonGenerator.py:54-66 | When no draw fails, the garrison is the three blocks, each drawn from its own rank list from the right pick position |
| Generator.LoadedFactionGenerates | GarrisonGenerator.py:22-46 | Loading files and asking for the faction "base" of file "base.txt" generates from that file's parsed template (the first file with that key wins) |
| Generator.ParsedTemplateErrors | GarrisonGenerator.py:25-66 | A garrison for a loaded template never fails on an empty rank list, only on a rank list the template lacks |
| Templates.UpperRun | GarrisonGenerator.py:25 | The leading run of upper-case letters: every character in it is upper case and the one after it is not |
| Templates.Sections | GarrisonGenerator.py:25 | Defines `re.split` on the header pattern: the text before the first header, then one piece per header |
| Templates.Lines | GarrisonGenerator.py:28 | `re.split` on newlines gives at least one piece, and no piece holds a newline |
| Templates.RankUnits | GarrisonGenerator.py:28-29 | A section's rank list holds at least one identifier, and no identifier holds a newline |
| Templates.ParseTemplate | GarrisonGenerator.py:25-30 | One rank list per section after the first, and every rank list is non-empty (an empty section gives the empty identifier) |
| Templates.FacNames | GarrisonGenerator.py:32 | Defines the faction keys: key i is file i's name with every ".txt" removed |
| Templates.ParseAll | GarrisonGenerator.py:22-31 | Defines the templates: template i is file i's parsed text |
| Templates.HeaderLen | GarrisonGenerator.py:25 | A recognised header is '#', one or more upper-case letters and a newline |
| Templates.SplitHeaders | GarrisonGenerator.py:25 | The header split always yields at least one piece |
| Templates.SplitLines | GarrisonGenerator.py:28 | The newline split yields newline-free pieces that join back to the text, and a single piece exactly when the text has no newline |
| Templates.RemoveTxt | GarrisonGenerator.py:32 | Removing ".txt" never lengthens a name |
| Templates.HeaderLenOfTag | GarrisonGenerator.py:25 | `#TAG\n` is recognised as a header of its exact length whatever follows it |
| Templates.SkipHeaderFree | GarrisonGenerator.py:25 | Text in which no header starts is carried into the current piece |
| Templates.HashFreeNoHeader | GarrisonGenerator.py:25 | No header starts in text without '#' |
| Templates.SkipHashFree | GarrisonGenerator.py:25 | Text without '#' is carried into the current piece |
| Templates.SplitHeadersTail | GarrisonGenerator.py:25-27 | The pieces after the first do not depend on the text before the first header |
| Templates.PreambleDiscarded | GarrisonGenerator.py:25-27 | Text in which no header starts, '#' lines with a lower-case or empty tag included, does not change the parsed template when put before it |
| Templates.CommentLineDiscarded | GarrisonGenerator.py:25-27 | A "#notes" line before the first header is not a header and is discarded |
| Templates.NoHeaderNoRanks | GarrisonGenerator.py:25-27 | A text in which no header starts has no rank lists |
| Templates.HeaderStep | GarrisonGenerator.py:25 | A header closes the current piece and starts an empty one |
| Templates.FirstHeader | GarrisonGenerator.py:25 | A written template's first header ends the preamble piece |
| Templates.SectionsOfRender | GarrisonGenerator.py:25 | Splitting a written template gives the preamble, then each written rank list |
| Templates.SkipNewlineFree | GarrisonGenerator.py:28 | Newline-free text is carried into the current line |
| Templates.SplitJoinLines | GarrisonGenerator.py:28 | Splitting newline-free pieces joined by newlines gives the pieces back |
| Templates.LinesOfJoin | GarrisonGenerator.py:28 | The newline split inverts joining newline-free lines |
| Templates.SplitLinesNewlineEnded | GarrisonGenerator.py:28 | A trailing newline adds exactly one empty last piece |
| Templates.RankUnitsDropsLastLine | GarrisonGenerator.py:28-29 | A section with a newline is its kept lines, a newline and the dropped last line; the dropped line is lost even when it is not empty |
| Templates.RankUnitsOfNewlineEnded | GarrisonGenerator.py:28-29 | A newline-ended section loses only its empty last piece, and writing the rank list back gives the section |
| Templates.RankUnitsOneLine | GarrisonGenerator.py:28-29 | A section without a newline is a rank list of one identifier, the section itself (an empty section gives [""]) |
| Templates.RankUnitsOfRender | GarrisonGenerator.py:28-30 | A rank list written one identifier per line parses back to itself |
| Templates.HashFreeRank | GarrisonGenerator.py:25-28 | A written rank list contains no '#', so it cannot contain a header |
| Templates.ParseRendered | GarrisonGenerator.py:25-31 | Parsing a written template, with any header tags and any preamble in which no header starts, gives back exactly its rank lists, one per header |
| Templates.RemoveTxtSuffix | GarrisonGenerator.py:32 | Appending ".txt" does not change the faction key |
| Templates.RemoveTxtIdentity | GarrisonGenerator.py:32 | A name without ".txt" is its own faction key |
| Templates.FactionKeyOfFileName | GarrisonGenerator.py:32 | The key of "base.txt" is base when base has no ".txt" |
| Garrisons.Budget | GarrisonGenerator.py:46 | Defines the starting points of tier number t: 4 plus 2 per tier |
| Garrisons.Consumed | GarrisonGenerator.py:50-52 | Defines the gates a phase uses: one per purchase, plus one for the attempt that broke the loop before its maximum |
| Garrisons.PhaseCount | GarrisonGenerator.py:50-63 | Defines the units a phase buys: the passed gates in a row, capped by the phase's maximum and by the points divided by the cost |
| Garrisons.RareCount | GarrisonGenerator.py:50-55 | Defines the rares: the rare phase from gate 0, at most `max_rare[t]`, at 3 points each |
| Garrisons.AfterRares | GarrisonGenerator.py:50-55 | Defines the points left after the rares |
| Garrisons.UncommonCount | GarrisonGenerator.py:58-63 | Defines the uncommons: the uncommon phase from the first gate the rare phase left, at most `max_uncommon[t]`, at 2 points each |
| Garrisons.AfterUncommons | GarrisonGenerator.py:58-66 | Defines the points left after the uncommons, which is the number of standards |
| Garrisons.Assemble | GarrisonGenerator.py:49-66 | Defines a garrison of given block sizes: the first missing or empty rank list that must be indexed or drawn from, phase by phase, or the three blocks drawn with consecutive picks |
| Garrisons.Plan | GarrisonGenerator.py:46-66 | Defines the garrison of a template at tier number t: the assembly of the three phase counts |
| Garrisons.Generate | GarrisonGenerator.py:43-66 | Defines one request: unknown faction, then unknown tier, then the plan for the faction's first template |
| Garrisons.IndexOf | GarrisonGenerator.py:43-44 | The lookup gives the first position holding the value, or the length when it does not occur |
| Garrisons.Run | GarrisonGenerator.py:50-52 | The run counts passed gates in a row up to the cap, and a run shorter than the cap ends at a failed gate |
| Garrisons.Pick | GarrisonGenerator.py:54 | A drawn unit belongs to its rank list |
| Garrisons.Draws | GarrisonGenerator.py:54-66 | A block of n draws has n units, all from the rank list |
| Garrisons.PhaseAffordable | GarrisonGenerator.py:51-55 | A phase never spends more points than it has |
| Garrisons.Quotient | GarrisonGenerator.py:51 | Having paid for i units leaves `points / cost` at least i, and exactly i once fewer than `cost` points remain |
| Garrisons.PhaseStop | GarrisonGenerator.py:50-63 | All gates of the phase's purchases passed; a phase ended below its cap with points to spare was ended by a failed gate |
| Garrisons.RunUnique | GarrisonGenerator.py:50-52 | The run is the only count that is within the cap, all passed, and ended by a failed gate unless at the cap |
| Garrisons.RunFrom | GarrisonGenerator.py:50-52 | m passed gates in a row within the cap are all counted |
| Garrisons.TierNumbers | GarrisonGenerator.py:77 | The tier labels are distinct, so each label's number is its position |
| Garrisons.BudgetByTier | GarrisonGenerator.py:69-77 | The starting budgets from village to huge city are 4, 6, 8, 10, 12 and 14 points |
| Garrisons.PointsNeverNegative | GarrisonGenerator.py:50-66 | Each rare and uncommon was bought with at least its cost in hand, and the standards are the points left |
| Garrisons.BudgetConserved | GarrisonGenerator.py:46-66 | 3 × rares + 2 × uncommons + standards equals 4 + 2 × tier for every successful garrison |
| Garrisons.RankCaps | GarrisonGenerator.py:50-74 | Rares and uncommons stay within the tier's caps; villages, towns and large towns get no rares, villages no uncommons |
| Garrisons.GarrisonSize | GarrisonGenerator.py:46-66 | The number of units lies between a third of the budget and the budget |
| Garrisons.VillageGarrison | GarrisonGenerator.py:46-74 | A village garrison is exactly four standards |
| Garrisons.RaresStopAtFirstFailure | GarrisonGenerator.py:50-55 | Rares are bought on consecutive passed gates, and a rare phase below its cap with 3 points left ended at a failed gate |
| Garrisons.UncommonsStopAtFirstFailure | GarrisonGenerator.py:58-63 | The same for uncommons, on the gates after those the rare phase consumed |
| Garrisons.NoRareAfterFailedGate | GarrisonGenerator.py:50-52 | No rare is bought at or after a failed gate |
| Garrisons.DrawsAt | GarrisonGenerator.py:54 | The k-th unit of a block is chosen by the block's k-th pick |
| Garrisons.BlockDraws | GarrisonGenerator.py:54 | Every unit of a block of draws is the one its pick selects |
| Garrisons.AssembleOk | GarrisonGenerator.py:49-66 | A successful assembly has blocks of the requested sizes, each drawn from an existing, non-empty rank list, with the picks used in order across the blocks |
| Garrisons.PlanOk | GarrisonGenerator.py:46-66 | A successful plan has as many rares and uncommons as its phases buy and as many standards as points left, with blocks drawn as above |
| Garrisons.DrawOrder | GarrisonGenerator.py:49-66 | Each block is drawn unit by unit in pick order |
| Garrisons.BlocksFromTheirRanks | GarrisonGenerator.py:49-67 | The unit list is rares, then uncommons, then standards, each block drawn in order from its own rank list, with no reordering |
| Garrisons.BlocksWithinRanks | GarrisonGenerator.py:54-66 | Every rare is in rank list 2, every uncommon in list 1, every standard in list 0 |
| Garrisons.CompleteTemplateSucceeds | GarrisonGenerator.py:50-66 | A template with non-empty standard, uncommon and rare lists never fails, whatever the streams |
| Garrisons.PlanErrorsAreTemplateGaps | GarrisonGenerator.py:43-66 | A plan fails only with a missing or empty rank list 0, 1 or 2, never with a lookup error; a rare or uncommon list fails only when its phase bought a unit, an empty standard list only when standards are drawn, while a missing standard list fails even with no points left |
| Garrisons.GenerateLookups | GarrisonGenerator.py:43-44 | A request fails with UnknownFaction exactly when the faction is unknown, with UnknownTier exactly when the faction is known and the tier is not, and otherwise plans the faction's first template at the tier's number |

## Left out

- The numpy generator and its global seed are replaced by the `gate` and `pick` streams, and so
  is the float comparison with 0.9. The source draws gates and picks from one stream; the model
  keeps two, each consumed in source order.
- `rand.choice` draws uniformly. The model selects `pick(n) % |list|` instead, so it states which
  element is drawn, but not with what probability.
- Successive calls of `generate_garrisons` share numpy's global generator, so each call's gates
  and picks continue where the previous call stopped. `GenerateGarrisons` starts both streams at
  position 0 and does not return where it stopped, so a series of calls on one generator is not
  modelled; a caller can only pass each call its own shifted streams.
- Directory listing and file reading: `LoadTemplates` is given the (name, content) pairs in the
  listing's order. The order itself is up to the operating system.
- Unicode: strings are sequences of characters, and `[A-Z]` is the ASCII range.
- The `costs` field of `__init__` is never read by the generator. It is not modelled; the costs
  3 and 2 the code subtracts are the constants `RareCost` and `UncommonCost`.
- `pts_def`, `pts_per`, `max_uncommon`, `max_rare` and `CITY_TIERS` are module constants, not
  fields of the class, because the source never reassigns them.
- text_extraction.py, main.py, Faction.py, Settlement.py and Character.py are not part of this
  model.
- Python lets a caller mutate the fields between the two methods. The class guards them with
  `Valid()`, which requires as many faction keys as templates.
