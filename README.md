# CS2 round-feature extraction and validation, modelled in Dafny

The repository turns Counter-Strike 2 demo files into a table with one row per
round. The row holds each side's money, equipment, weapons and utility at a
snapshot taken 2 seconds (256 ticks at 128 ticks per second) after freeze time
ends. It also holds the score, the win/loss streaks, what survivors carried
over from the previous round, and the round winner. A separate script then
checks the table against the game's rules and reports checks, warnings, errors
and a summary.

The model covers two parts:

- `bad/src/data/parser.py`:
  - the item catalogue and its price list;
  - the three inventory counters;
  - the filtering and normalising part of the grenade table;
  - the per-round feature extraction;
  - the loop over a demo's rounds.
- `validation_script.py`: `validate_features`, with all eight checks and the summary.

Modules:

| module | models |
|---|---|
| `Catalog` (`catalog.dfy`) | the weapon categories, the item price list and the weapon price map |
| `Snapshot` (`snapshot.dfy`) | one player's row at a tick, and the split by side |
| `Grenades` (`grenades.dfy`) | the per-round thrown-grenade table |
| `Inventory` (`inventory.dfy`) | `count_weapon`, `count_all_weapon` (a loop over the price map) and `count_items` |
| `Features` (`features.dfy`) | `extract_round_features`: per-side economy and utility, side switches, overtime, streaks, carry-over |
| `Driver` (`driver.dfy`) | the `parse_demo` round loop |
| `Validation` (`validation.dfy`) | the checks; `ValidateFeatures` runs them in the script's order |
| `ValidationProperties` (`validation_properties.dfy`) | what the report says about the table |
| `Pipeline` (`pipeline.dfy`) | what the validator concludes about a table the round loop produced |

The loop-bearing code becomes methods proved against specification functions:

- `Inventory.ValueByPriceList` iterates over the keys of a price map.
- The four row-scanning checks collect issues row by row.
- `Validation.ValidateFeatures` appends each check's outcome in turn.
- `Driver.ParseDemo` appends one row per round and threads the previous row and the previous end-of-round snapshot.

Everything else is functions and lemmas.

Three behaviours of `validation_script.py` shape the validator model:

- When no row has round number 1, `validation_script.py:217` raises `IndexError` instead of producing a report. The model returns `Failure(NoPistolRound)`.
- Rows are not grouped by match, so the row-to-row checks compare the last round of one match with the first round of the next.
- The summary counts 8 checks, the number of entries in `results['checks']`.

## Model

| member | source | states |
|---|---|---|
| Catalog.WeaponsPriced | bad/src/data/parser.py:139-145 | every pistol, SMG, heavy weapon, rifle and sniper has a list price; the weapon price map has exactly those weapons as keys, each at its list price |
| Catalog.CategoriesDisjoint | bad/src/data/parser.py:21-50 | the pistol, SMG, heavy and rifle categories share no weapon, so the per-category counts never count one item twice |
| Catalog.NonWeaponsUnpriced | bad/src/data/parser.py:52-145 | grenades, knives and the equipment (vest, vest and helmet, Zeus, defuse kit, bomb) are not keys of the weapon price map, so the weapon value never includes them |
| Catalog.GrenadePricesListed | bad/src/data/parser.py:108-114 | the six grenade prices used for utility value are the catalogue's list prices (300, 200, 300, 400, 500, 50) |
| Catalog.EquipmentPricesListed | bad/src/data/parser.py:63-66 | the vest price 650 and the defuse-kit price 400 used for the equipment value are the catalogue's list prices |
| Snapshot.SideOf | bad/src/data/parser.py:592-594 | team name "CT" maps to the CT side, "TERRORIST" to the T side, and any other name to no side |
| Snapshot.SideRows | bad/src/data/parser.py:294-298 | a side's rows are exactly the input rows whose team maps to that side, each kept as many times as it occurs in the input, and are no more than the input |
| Snapshot.SidesPartition | bad/src/data/parser.py:294-298 | the CT rows and the T rows together are exactly the rows that carry a side: none is lost and none is counted twice |
| Snapshot.PlayerNames | bad/src/data/parser.py:301-302 | the set of a side's player names is exactly the names found in its rows |
| Snapshot.ArmoredCount | bad/src/data/parser.py:332-333 | the number of players with armour is at most the number of players |
| Snapshot.HelmetCount | bad/src/data/parser.py:335-336 | the number of players with a helmet is at most the number of players |
| Snapshot.DefuserCount | bad/src/data/parser.py:338 | the number of players with a defuse kit is at most the number of players |
| Grenades.WindowRows | bad/src/data/parser.py:220 | keeps exactly the records with start < tick <= end |
| Grenades.PositionedRows | bad/src/data/parser.py:225-226 | keeps exactly the records with all three coordinates present |
| Grenades.SortByTick | bad/src/data/parser.py:231 | the result is in tick order and a permutation of its input |
| Grenades.FirstPerEntity | bad/src/data/parser.py:231 | keeps only input records and keeps at least one record of every projectile entity |
| Grenades.FirstPerEntityUnique | bad/src/data/parser.py:231 | after dropping duplicates each projectile entity appears once |
| Grenades.FirstPerEntitySorted | bad/src/data/parser.py:231 | dropping duplicates from a tick-ordered table keeps it in tick order |
| Grenades.FirstPerEntityEarliest | bad/src/data/parser.py:231 | the record kept for an entity has the earliest tick among that entity's records |
| Grenades.StripPlain | bad/src/data/parser.py:234-236 | a label with no leading "C" and no trailing "Projectile" is left unchanged |
| Grenades.StripPrefixOnly | bad/src/data/parser.py:235 | a leading "C" on a label without the "Projectile" suffix is dropped and nothing else changes |
| Grenades.StripSuffixOnly | bad/src/data/parser.py:236 | a trailing "Projectile" on a label without a leading "C" is dropped and nothing else changes |
| Grenades.StripEngineClass | bad/src/data/parser.py:234-236 | the engine class name "C" + kind + "Projectile" is stripped to the bare kind |
| Grenades.NormaliseLabel | bad/src/data/parser.py:238-246 | a stripped label in the label map becomes its display name; any other label passes through unchanged |
| Grenades.EngineClassNormalised | bad/src/data/parser.py:234-246 | every engine projectile class whose kind is in the label map becomes that kind's display name |
| Grenades.SmokeProjectileNormalised | bad/src/data/parser.py:234-246 | "CSmokeGrenadeProjectile" becomes "Smoke Grenade", the name the price list uses |
| Grenades.GrenadeTable | bad/src/data/parser.py:248-252 | there is one output row per kept record, carrying its tick, thrower and normalised type |
| Grenades.KeptRowsCorrect | bad/src/data/parser.py:217-231 | every kept record is an input record inside the window with a position; each entity appears once with its earliest qualifying tick; every entity with a qualifying record appears; the records are in tick order |
| Grenades.GrenadeTableShape | bad/src/data/parser.py:217-252 | the table is in tick order and inside the window, and it is empty exactly when no record qualifies (both early returns) |
| Inventory.CountWeapon | bad/src/data/parser.py:153-163 | for a single item name the count is its number of occurrences across the side's exploded inventories |
| Inventory.CountAllWeapon | bad/src/data/parser.py:166-174 | the weapon value of a side is the weapon list price of every held weapon, summed over all inventories |
| Inventory.ValueByPriceList | bad/src/data/parser.py:170-172 | looping over the keys of a price map in any order and adding count x price gives the priced value of all held items |
| Inventory.UnpricedAddsNothing | bad/src/data/parser.py:170-172 | an item absent from the price map adds nothing to the value |
| Inventory.ThrownTypes | bad/src/data/parser.py:197-200 | the thrown types are the grenade types of the thrown-grenade table, row by row |
| Inventory.ThrownCount | bad/src/data/parser.py:197-200 | with no grenade table the thrown count is 0; otherwise it is at most the number of thrown rows |
| Inventory.CountItems | bad/src/data/parser.py:177-202 | an item count is the held count plus the thrown count; with no table or an empty table it is the held count |
| Inventory.CountItemsSingle | bad/src/data/parser.py:177-202 | for one name the count is its occurrences in the inventories plus its occurrences in the thrown types |
| Inventory.TwoThrownOneHeld | bad/src/data/parser.py:177-202 | a player holding one smoke who has thrown two is counted as three smokes |
| Inventory.CountInDisjointUnion | bad/src/data/parser.py:153-163 | counting a union of disjoint name sets is the sum of the two counts |
| Features.RegulationSwitch | bad/src/data/parser.py:444-446 | within regulation (round <= 24) sides switch only at round 13 |
| Features.OvertimeSwitches | bad/src/data/parser.py:444-446 | in overtime sides switch at rounds 25, 28, 31, ... and at no other round |
| Features.IsOvertime | bad/src/data/parser.py:478 | the overtime flag is 1 exactly for rounds after 24 and 0 otherwise |
| Features.ThrownBy | bad/src/data/parser.py:304-313 | keeps exactly the thrown rows whose thrower is one of the side's players, each as many times as it occurs in the table |
| Features.SideThrows | bad/src/data/parser.py:301-313 | a side has a thrown table exactly when the round has one |
| Features.CountItemsAsOne | bad/src/data/parser.py:365-389 | held plus thrown counts equal the count over one list of held and thrown grenades |
| Features.UtilityIsGrenadeListValue | bad/src/data/parser.py:391-411 | the utility value is the grenade list price of every held or thrown grenade |
| Features.GrenadeValueByType | bad/src/data/parser.py:391-411 | pricing grenades item by item equals summing count x price per grenade type |
| Features.MolotovCountSplits | bad/src/data/parser.py:372-377 | the Molotov count is the Molotov count plus the incendiary count |
| Features.SideEconomy | bad/src/data/parser.py:319-433 | money is balance plus equipment value at round start; cash is the snapshot balance; both averages are per five players; the equipment value is 650 per armour, 350 per helmet, 400 per kit on CT only, plus utility and weapon value |
| Features.SideUtility | bad/src/data/parser.py:365-411 | a side's utility value and Molotov count are computed from its own players' held and thrown grenades |
| Features.SideCountsBounded | bad/src/data/parser.py:332-359 | weapon counts are between 0 and the number of held items; armour and helmet counts are between 0 and the number of players |
| Features.StreaksReset | bad/src/data/parser.py:449-453 | on the first round and at a side switch all four streaks are 0 |
| Features.StreaksAdvance | bad/src/data/parser.py:454-475 | after a CT win the CT win streak and T loss streak grow by one and the others restart; after a T win the reverse |
| Features.StreaksStayMirrored | bad/src/data/parser.py:449-475 | with a winner bit of 0 or 1, CT's wins stay T's losses and the reverse, and no side is on a win and a loss streak at once |
| Features.CarryReset | bad/src/data/parser.py:484-490 | with no previous round, or at a side switch, nothing is carried over |
| Features.CarryCounts | bad/src/data/parser.py:484-501 | otherwise each side's survivors are its rows in the previous end snapshot, together no more than those rows, and its saved value is their equipment value |
| Features.IsSideSwitch | bad/src/data/parser.py:444-446 | the side-switch test; its meaning is stated by Features.RegulationSwitch (only round 13 in regulation) and Features.OvertimeSwitches (rounds 25, 28, 31, ...) |
| Features.NextStreaks | bad/src/data/parser.py:449-475 | the streak update; Features.StreaksReset, Features.StreaksAdvance and Features.StreaksStayMirrored state what it does |
| Features.CarryOver | bad/src/data/parser.py:484-501 | the carry-over of survivors; Features.CarryReset and Features.CarryCounts state what it does |
| Features.UtilityValue | bad/src/data/parser.py:391-411 | the utility value; Features.UtilityIsGrenadeListValue and Features.GrenadeValueByType state that it is the grenade list value of held and thrown grenades |
| Features.ExtractSide | bad/src/data/parser.py:294-433 | one side's features; Features.SideEconomy, Features.SideUtility and Features.SideCountsBounded state its money, equipment, utility and count fields |
| Features.ExtractRoundFeatures | bad/src/data/parser.py:260-509 | one round's row; Features.StreaksReset states its streak reset, Features.SideEconomy, Features.SideUtility and Features.SideCountsBounded state its side records, and Driver.RowFields states every one of its fields inside the round loop |
| Grenades.StripLabel | bad/src/data/parser.py:234-236 | drops one leading "C", then one trailing "Projectile", and is never longer than the label; Grenades.StripPlain, Grenades.StripPrefixOnly, Grenades.StripSuffixOnly and Grenades.StripEngineClass state each of the four cases |
| Grenades.KeptRows | bad/src/data/parser.py:217-231 | the kept grenade records; Grenades.KeptRowsCorrect states their window, position, uniqueness, earliest-tick, completeness and order properties |
| Driver.RoundRow | bad/src/data/parser.py:582-628 | one iteration of the round loop; Driver.RowFields states every field of the row it builds (scores, both side records, defuser and AK-47 counts, overtime, winner, streaks, carry), and Driver.ThreadedWinners, Driver.ThreadedResets and Driver.ThreadedCarry state what those fields mean |
| Validation.Validate | validation_script.py:10-264 | the whole validation; ValidationProperties.ValidateFailsWithoutPistolRound, ValidationProperties.ReportChecksInOrder, the per-check lemmas and ValidationProperties.ReportSummary state its result |
| Driver.StripLeft | bad/src/data/parser.py:608 | removes exactly the leading white space |
| Driver.StripRight | bad/src/data/parser.py:608 | removes exactly the trailing white space |
| Driver.Lower | bad/src/data/parser.py:608 | lower-cases every letter and keeps the length |
| Driver.LowerChar | bad/src/data/parser.py:608 | an upper-case ASCII letter becomes its lower-case form; any other character is unchanged |
| Driver.WinnerBit | bad/src/data/parser.py:607-609 | the winner feature is always 0 or 1 |
| Driver.StripPadded | bad/src/data/parser.py:608 | stripping a label padded with white space on both sides gives the label |
| Driver.CtLabelWins | bad/src/data/parser.py:607-609 | "ct" in any letter case, with any white-space padding, gives winner bit 1 |
| Driver.CtWinIsPadded | bad/src/data/parser.py:607-609 | conversely, winner bit 1 means the label is "ct" in some case, padded only by white space |
| Driver.SideScore | bad/src/data/parser.py:602-604 | a side's score is the rounds total of the first row on that side, or 0 when no row is on that side |
| Driver.Alive | bad/src/data/parser.py:636-638 | keeps exactly the rows of living players, each as many times as it occurs in the input |
| Driver.RoundGrenadeWindow | bad/src/data/parser.py:582-588 | every grenade of a round is thrown after freeze_end + 1 and no later than freeze_end + 256 |
| Driver.ParseDemo | bad/src/data/parser.py:573-638 | produces one row per round, each built from that round's snapshots, the previous row and the previous round's surviving players |
| Driver.RowFields | bad/src/data/parser.py:582-628 | each row has its round's number, the map name, the two sides' scores read from the round-start rows, each side's features from the round's start and snapshot rows and its grenade window, the CT defuser and AK-47 counts, the overtime flag, the round's winner bit, streaks from the previous row and carry-over from the previous round's end |
| Driver.ThreadedWinners | bad/src/data/parser.py:607-609 | every winner bit in the table is 0 or 1, and it is 1 exactly when the round's stripped, lower-cased winner label is "ct" |
| Driver.ThreadedResets | bad/src/data/parser.py:444-501 | on the first row and at every side switch, streaks and carry-over are 0 |
| Driver.ThreadedCarry | bad/src/data/parser.py:630-638 | otherwise streaks follow the previous row; each side's survivor count is the number of its living players at the previous round's end, and its saved value is their summed equipment value |
| Driver.ThreadedStreaksMirrored | bad/src/data/parser.py:449-475 | in every row of the table, CT's win streak equals T's loss streak and the reverse, and no side is on a win and a loss streak at once |
| Validation.CountWhere | validation_script.py:37-76 | a count of matching rows is at most the number of rows, and 0 exactly when no row matches |
| Validation.PlayerCountOutcome | validation_script.py:30-34 | the player-count check always passes and adds no message |
| Validation.MoneyRangeOutcome | validation_script.py:37-54 | passes exactly when no side has more than 80000 money in any row; otherwise one error giving the CT rows plus the T rows over the limit |
| Validation.AwpCountOutcome | validation_script.py:61-76 | passes exactly when every AWP count is between 0 and 5; otherwise one error |
| Validation.ScoreRowIssues | validation_script.py:83-97 | a row has a score issue exactly when it is not the first row, is not at a side switch, and the total score did not rise by one |
| Validation.StreakRowIssues | validation_script.py:118-128 | a row has a streak issue exactly when it is at a side switch and a streak is not 0 |
| Validation.EquipmentRowIssues | validation_script.py:149-159 | a row has an equipment issue exactly when it is at a side switch and some carry-over is not 0 |
| Validation.WinnerRowIssues | validation_script.py:180-196 | a row has winner issues exactly when it is not the first row, not at a side switch, and the winner does not account for the score rise; there are at most two |
| Validation.CollectedEmpty | validation_script.py:99-107 | the collected issues are empty exactly when no row has an issue |
| Validation.CollectedCount | validation_script.py:99-105 | the number of collected issues lies between the number of failing rows and that number times the per-row maximum |
| Validation.ScoreProgressionIssues | validation_script.py:83-97 | the loop collects exactly the per-row score issues, in row order |
| Validation.StreakResetIssues | validation_script.py:118-128 | the loop collects exactly the per-row streak issues, in row order |
| Validation.EquipmentResetIssues | validation_script.py:149-159 | the loop collects exactly the per-row equipment issues, in row order |
| Validation.WinnerConsistencyIssues | validation_script.py:180-196 | the loop collects exactly the per-row winner issues, in row order |
| Validation.Shown | validation_script.py:103 | the report keeps a prefix of the issues, at most five, and all of them when there are at most five |
| Validation.FirstPistolRow | validation_script.py:217 | finds the first row numbered 1, or none exactly when no row is numbered 1 |
| Validation.PistolOutcome | validation_script.py:219-247 | the pistol check passes exactly when both sides have money total exactly 4000 and neither has an AWP or a rifle; otherwise no error and exactly the one unusual-pistol-round warning |
| Validation.PassedCount | validation_script.py:254 | the number of passed checks is at most the number of checks, and equals it exactly when all pass |
| Validation.Summarize | validation_script.py:253-262 | passed plus failed is the number of checks, failed is 0 exactly when every check passed, and the warning and error counts are the list lengths |
| Validation.ValidateFeatures | validation_script.py:10-264 | running the eight checks in order and summarising gives the specified report, or the missing-pistol-round failure |
| ValidationProperties.ValidateFailsWithoutPistolRound | validation_script.py:217 | validation fails exactly when no row is numbered 1 |
| ValidationProperties.ReportChecksInOrder | validation_script.py:18-247 | a report covers every row and lists the eight checks by name in the script's order |
| ValidationProperties.ReportColumnChecks | validation_script.py:30-76 | player count always passes; money and AWP pass exactly when every row is within range |
| ValidationProperties.ScoreCheckPasses | validation_script.py:83-111 | score progression passes exactly when every row after the first, except at side switches, raises the total score by one |
| ValidationProperties.StreakCheckPasses | validation_script.py:118-142 | streak resets pass exactly when every side-switch row has all streaks 0 |
| ValidationProperties.EquipmentCheckPasses | validation_script.py:149-173 | equipment resets pass exactly when every side-switch row carries nothing over |
| ValidationProperties.WinnerCheckPasses | validation_script.py:180-210 | winner consistency passes exactly when, outside side switches, every winner accounts for the score rise |
| ValidationProperties.PistolCheckPasses | validation_script.py:217-247 | the pistol check judges the first row numbered 1: it passes exactly when both sides have money total exactly 4000 and neither has an AWP or a rifle |
| ValidationProperties.IssuesCountRows | validation_script.py:83-167 | the score, streak and equipment error messages count exactly the failing rows |
| ValidationProperties.WinnerIssuesCount | validation_script.py:180-204 | the winner warning counts at least the failing rows, and exactly those when every winner is 0 or 1 |
| ValidationProperties.ReportWarnings | validation_script.py:199-241 | the warnings are one winner message if that check failed, then one pistol message if that check failed |
| ValidationProperties.ReportErrors | validation_script.py:42-167 | the errors are one message per failed money, AWP, score, streak and equipment check, in that order |
| ValidationProperties.ReportIssuesKept | validation_script.py:99-210 | score and winner checks show the first min(5, n) issues; streak and equipment checks show them all |
| ValidationProperties.PassedCountAppend | validation_script.py:254 | the passed count of two check lists joined is the sum of their passed counts |
| ValidationProperties.FailedOfEight | validation_script.py:253-258 | the failed count of eight checks is the number of failed checks among them |
| ValidationProperties.ReportSummary | validation_script.py:253-262 | 8 checks; passed plus failed is 8; failed is 0 exactly when all 8 passed; warnings and errors count the lists |
| ValidationProperties.FailedChecksHaveMessages | validation_script.py:253-262 | the number of failed checks equals the number of errors plus warnings |
| Pipeline.ParsedTableValidates | validation_script.py:217 | a table built by the round loop is validated exactly when some round is numbered 1 |
| Pipeline.ParsedTablePassesResets | bad/src/data/parser.py:444-501 | on a table built by the round loop, the streak and equipment checks always pass and the only errors can come from money, AWP and score |
| Pipeline.ParsedWinnerWarningCountsRows | validation_script.py:199-204 | on a table built by the round loop, the winner warning counts exactly the failing rows |

## Left out

- Decoding a demo file is outside the model. This covers `DemoParser` and awpy's `Demo`, `parse_ticks`, the round and grenade tables, and the demo header's `map_name`. The round metadata, the three player snapshots per round and the raw grenade records are parameters (`Driver.RoundInput`, `Grenades.RawGrenade`); the map name is one too.
- `print` output and the `print_validation_report` function at `validation_script.py:267-338` are not modelled. The script's command-line entry is left out too.
- Demo downloading is not part of this model.
- pandas sorting is not guaranteed to be stable. `Grenades.SortByTick` is a stable insertion sort, so records with equal ticks keep their input order. As a result, among records of one entity with the same tick, which one is kept may differ from the source. The final re-sort by tick at `bad/src/data/parser.py:248-251` is not modelled as a second sort: `Grenades.GrenadeTable` keeps the order left after dropping duplicates, which is already in tick order, but rows of different entities with equal ticks may come out of the source in another order.
- Grenades.StripLabel: the regular expression `Projectile$` at `bad/src/data/parser.py:236` also matches just before a final line feed, so the source strips "CHEGrenadeProjectile\n" to "HEGrenade\n". The model strips the suffix only at the very end of the label. Engine class names carry no line feed.
- Floating point is left out. Averages are `real`, and a missing coordinate (NaN) is `None`. pandas/numpy integer overflow is not modelled: integers are unbounded.
- `Driver.Lower` and `Driver.StripLeft`/`Driver.StripRight`: Python's `str.lower` and `str.strip` cover Unicode. The model lower-cases the ASCII letters A-Z only, and strips only the ASCII characters Python counts as white space (tab through carriage return, U+001C-U+001F, space); non-ASCII white space such as U+0085 or U+00A0 is kept.
- Messages are structured values (`Issue`, `Message`) rather than formatted strings. Their text is not modelled, but the numbers they carry are.
- `Validation.WinnerConsistencyIssues`: the script's warning says "issues in N rounds" but N counts issues. A row whose winner bit is neither 0 nor 1 can add two. `ValidationProperties.WinnerIssuesCount` and `Pipeline.ParsedWinnerWarningCountsRows` show that N counts rows on every table the round loop produces.
- `Validation.MoneyRangeOutcome`: the error's "N rounds" counts CT rows plus T rows, so a row over the limit on both sides counts twice. The model carries exactly that number.
- `Driver.SideScore` assumes the rounds-total column is never missing. pandas `groupby().first()` would skip a missing value.
- Iteration over `ALL_WEAPON_DICT` follows insertion order in Python. `Inventory.ValueByPriceList` is proved for every iteration order.
- Rows are not grouped by match in the validator, and neither are they in the model.

