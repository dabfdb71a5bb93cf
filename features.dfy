/**
 * The per-round feature record computed at freeze time: economy, armament,
 * utility and equipment value per side, score context, win/loss streaks and
 * what survived the previous round, plus the round's winner as the target.
 */
module Features {
  import opened Wrappers
  import opened Catalog
  import opened Snapshot
  import opened Grenades
  import opened Inventory

  /** The features computed for one side from its players' rows. */
  datatype SideFeatures = SideFeatures(
    moneyTotal: int,
    cash: int,
    cashAvg: real,
    armorCount: int,
    helmetCount: int,
    awpCount: int,
    ssgCount: int,
    rifleCount: int,
    smgCount: int,
    heavyCount: int,
    smokeCount: int,
    moloCount: int,
    flashCount: int,
    heCount: int,
    utilityValue: int,
    equipmentValue: int,
    equipmentValueAvg: real)

  /** Consecutive rounds won and lost, per side, before this round. */
  datatype Streaks = Streaks(ctWon: int, ctLost: int, tWon: int, tLost: int)

  /** Survivors of the previous round and the equipment value they kept, per side. */
  datatype Carry = Carry(ctSurvivors: int, tSurvivors: int, ctSavedValue: int, tSavedValue: int)

  /**
   * One row of the feature table. The defuser and AK-47 counts exist for the
   * CT side only. All numbers are plain integers so that a table read back
   * from elsewhere may hold any value; `roundWinner` is 1 for CT, 0 for T.
   */
  datatype RoundFeatures = RoundFeatures(
    roundNumber: int,
    mapName: string,
    ctScore: int,
    tScore: int,
    ct: SideFeatures,
    t: SideFeatures,
    ctDefuserCount: int,
    ctAkCount: int,
    streaks: Streaks,
    carry: Carry,
    isOvertime: int,
    roundWinner: int)

  // ---------------------------------------------------------------------------
  // Round context
  // ---------------------------------------------------------------------------

  /** Sides swap after round 12 and, in overtime, every three rounds from round 25 on. */
  predicate IsSideSwitch(r: int)
  {
    r == 13 || (r > 24 && (r - 25) % 3 == 0)
  }

  /** In regulation only round 13 is a side switch. */
  lemma {:induction false} RegulationSwitch(r: int)
    requires r <= 24
    ensures IsSideSwitch(r) <==> r == 13
  {}

  /** In overtime the switches are rounds 25, 28, 31, ... and no round between them. */
  lemma {:induction false} OvertimeSwitches(k: nat)
    ensures IsSideSwitch(25 + 3 * k)
    ensures !IsSideSwitch(26 + 3 * k) && !IsSideSwitch(27 + 3 * k)
  {
    assert (25 + 3 * k - 25) % 3 == 0 by {
      assert 25 + 3 * k - 25 == 3 * k;
    }
    assert (26 + 3 * k - 25) % 3 == 1 by {
      assert 26 + 3 * k - 25 == 3 * k + 1;
    }
    assert (27 + 3 * k - 25) % 3 == 2 by {
      assert 27 + 3 * k - 25 == 3 * k + 2;
    }
  }

  function IsOvertime(r: int): (b: int)
    ensures b == 1 <==> r > 24
    ensures b == 0 <==> r <= 24
  {
    if r > 24 then 1 else 0
  }

  /**
   * Streaks entering a round. They restart on a side switch and on the first
   * round; otherwise the previous round's winner extends one side's win
   * streak and the other's loss streak. A winner that is neither 1 nor 0
   * counts as a loss for both sides.
   */
  function NextStreaks(isSwitch: bool, prev: Option<RoundFeatures>): Streaks
  {
    if isSwitch || prev.None? then Streaks(0, 0, 0, 0)
    else
      var p := prev.value;
      var ctWon := if p.roundWinner == 1 then 1 + p.streaks.ctWon else 0;
      var ctLost := if p.roundWinner == 1 then 0 else 1 + p.streaks.ctLost;
      var tWon := if p.roundWinner == 0 then 1 + p.streaks.tWon else 0;
      var tLost := if p.roundWinner == 0 then 0 else 1 + p.streaks.tLost;
      Streaks(ctWon, ctLost, tWon, tLost)
  }

  /** What the previous round left behind, read from the rows of its surviving players. */
  function CarryOver(isSwitch: bool, prevEnd: Option<seq<PlayerRow>>): Carry
  {
    if prevEnd.Some? && !isSwitch then
      var ct := SideRows(prevEnd.value, CT);
      var t := SideRows(prevEnd.value, T);
      Carry(|ct|, |t|, SumEquipValue(ct), SumEquipValue(t))
    else Carry(0, 0, 0, 0)
  }

  // ---------------------------------------------------------------------------
  // Utility
  // ---------------------------------------------------------------------------

  /** The throws whose thrower is one of `names`, in their original order. */
  function ThrownBy(g: seq<GrenadeThrow>, names: set<string>): (r: seq<GrenadeThrow>)
    ensures |r| <= |g|
    ensures forall x :: x in r <==> x in g && x.thrower in names
    ensures forall x :: multiset(r)[x] == if x.thrower in names then multiset(g)[x] else 0
  {
    assert g != [] ==> g == [g[0]] + g[1..];
    if g == [] then []
    else if g[0].thrower in names then [g[0]] + ThrownBy(g[1..], names)
    else ThrownBy(g[1..], names)
  }

  /** A side's share of the grenade table: no table stays no table. */
  function SideThrows(g: Option<seq<GrenadeThrow>>, team: seq<PlayerRow>): (r: Option<seq<GrenadeThrow>>)
    ensures r.None? <==> g.None?
  {
    match g
    case None => None
    case Some(rows) => Some(ThrownBy(rows, PlayerNames(team)))
  }

  const MolotovNames: set<string> := {"Incendiary Grenade", "Molotov"}

  /** Every utility item a team holds or has thrown in the window. */
  function UtilityItems(team: seq<PlayerRow>, g: Option<seq<GrenadeThrow>>): seq<string>
  {
    Flatten(team) + (match g case None => [] case Some(rows) => ThrownTypes(rows))
  }

  /** Counting held and thrown items separately is counting them in one list. */
  lemma {:induction false} CountItemsAsOne(team: seq<PlayerRow>, g: Option<seq<GrenadeThrow>>, sel: Selector)
    ensures CountItems(team, g, sel) == CountIn(UtilityItems(team, g), Names(sel))
  {
    var thrown := match g case None => [] case Some(rows) => ThrownTypes(rows);
    CountInAppend(Flatten(team), thrown, Names(sel));
  }

  /** Grenade value held or thrown, priced by the extractor's per-grenade terms. */
  function UtilityValue(team: seq<PlayerRow>, g: Option<seq<GrenadeThrow>>): int
  {
    CountItems(team, g, Item("Smoke Grenade")) * SmokePrice
    + CountItems(team, g, Item("Flashbang")) * FlashPrice
    + CountItems(team, g, Item("High Explosive Grenade")) * HePrice
    + CountItems(team, g, Item("Molotov")) * MolotovPrice
    + CountItems(team, g, Item("Incendiary Grenade")) * IncendiaryPrice
    + CountItems(team, g, Item("Decoy Grenade")) * DecoyPrice
  }

  /**
   * The utility value is the list price of every grenade held or thrown:
   * each grenade type is counted once, at its own price, with Molotov and
   * Incendiary priced apart.
   */
  lemma {:induction false} UtilityIsGrenadeListValue(team: seq<PlayerRow>, g: Option<seq<GrenadeThrow>>)
    ensures UtilityValue(team, g) == HeldValue(UtilityItems(team, g), GrenadePrices)
  {
    var items := UtilityItems(team, g);
    CountItemsAsOne(team, g, Item("Smoke Grenade"));
    CountItemsAsOne(team, g, Item("Flashbang"));
    CountItemsAsOne(team, g, Item("High Explosive Grenade"));
    CountItemsAsOne(team, g, Item("Molotov"));
    CountItemsAsOne(team, g, Item("Incendiary Grenade"));
    CountItemsAsOne(team, g, Item("Decoy Grenade"));
    GrenadeValueByType(items);
  }

  /** Summing grenade list prices item by item equals summing count x price per type. */
  lemma {:induction false} GrenadeValueByType(items: seq<string>)
    ensures HeldValue(items, GrenadePrices) ==
      CountIn(items, {"Smoke Grenade"}) * SmokePrice
      + CountIn(items, {"Flashbang"}) * FlashPrice
      + CountIn(items, {"High Explosive Grenade"}) * HePrice
      + CountIn(items, {"Molotov"}) * MolotovPrice
      + CountIn(items, {"Incendiary Grenade"}) * IncendiaryPrice
      + CountIn(items, {"Decoy Grenade"}) * DecoyPrice
  {
    var p := GrenadePrices;
    var s0: set<string> := {};
    var s1 := s0 + {"Smoke Grenade"};
    var s2 := s1 + {"Flashbang"};
    var s3 := s2 + {"High Explosive Grenade"};
    var s4 := s3 + {"Molotov"};
    var s5 := s4 + {"Incendiary Grenade"};
    var s6 := s5 + {"Decoy Grenade"};
    HeldValueAmongNone(items, p);
    HeldValueAmongAdd(items, s0, "Smoke Grenade", p);
    HeldValueAmongAdd(items, s1, "Flashbang", p);
    HeldValueAmongAdd(items, s2, "High Explosive Grenade", p);
    HeldValueAmongAdd(items, s3, "Molotov", p);
    HeldValueAmongAdd(items, s4, "Incendiary Grenade", p);
    HeldValueAmongAdd(items, s5, "Decoy Grenade", p);
    GrenadeKeys();
    HeldValueAmongPriced(items, s6, p);
  }

  lemma {:induction false} GrenadeKeys()
    ensures GrenadePrices.Keys <= {"Smoke Grenade", "Flashbang", "High Explosive Grenade",
                                   "Molotov", "Incendiary Grenade", "Decoy Grenade"}
  {}

  /** Molotovs and incendiaries are one count, the sum of the two. */
  lemma {:induction false} MolotovCountSplits(team: seq<PlayerRow>, g: Option<seq<GrenadeThrow>>)
    ensures CountItems(team, g, Category(MolotovNames))
         == CountItems(team, g, Item("Molotov")) + CountItems(team, g, Item("Incendiary Grenade"))
  {
    var items := UtilityItems(team, g);
    CountItemsAsOne(team, g, Category(MolotovNames));
    CountItemsAsOne(team, g, Item("Molotov"));
    CountItemsAsOne(team, g, Item("Incendiary Grenade"));
    assert MolotovNames == {"Molotov"} + {"Incendiary Grenade"};
    CountInDisjointUnion(items, {"Molotov"}, {"Incendiary Grenade"});
  }

  // ---------------------------------------------------------------------------
  // One side, one round
  // ---------------------------------------------------------------------------

  /**
   * The features of one side. `start` and `snap` are all players' rows at
   * round start and at the snapshot, `g` the round's grenade table. The
   * defuse kit enters the equipment value on the CT side only.
   */
  function ExtractSide(side: Side, start: seq<PlayerRow>, snap: seq<PlayerRow>,
                       g: Option<seq<GrenadeThrow>>): SideFeatures
  {
    var team := SideRows(snap, side);
    var thrown := SideThrows(g, team);
    var cash := SumBalance(team);
    var armor := ArmoredCount(team);
    var helmet := HelmetCount(team);
    var utility := UtilityValue(team, thrown);
    var kits := if side == CT then DefuserCount(team) * DefuseKitPrice else 0;
    var equipment := armor * VestPrice + helmet * 350 + kits + utility + TeamWeaponValue(team);
    SideFeatures(
      MoneyTotal(SideRows(start, side)),
      cash, cash as real / 5.0,
      armor, helmet,
      CountWeapon(team, Item("AWP")),
      CountWeapon(team, Item("SSG 08")),
      CountWeapon(team, Category(Rifles)),
      CountWeapon(team, Category(Smgs)),
      CountWeapon(team, Category(Heavy)),
      CountItems(team, thrown, Item("Smoke Grenade")),
      CountItems(team, thrown, Category(MolotovNames)),
      CountItems(team, thrown, Item("Flashbang")),
      CountItems(team, thrown, Item("High Explosive Grenade")),
      utility, equipment, equipment as real / 5.0)
  }

  /** The features of one round. */
  function ExtractRoundFeatures(
    start: seq<PlayerRow>, roundNumber: int, snap: seq<PlayerRow>,
    g: Option<seq<GrenadeThrow>>, mapName: string, ctScore: int, tScore: int,
    roundWinner: int, prev: Option<RoundFeatures>, prevEnd: Option<seq<PlayerRow>>): RoundFeatures
  {
    var isSwitch := IsSideSwitch(roundNumber);
    var ctTeam := SideRows(snap, CT);
    RoundFeatures(
      roundNumber, mapName, ctScore, tScore,
      ExtractSide(CT, start, snap, g),
      ExtractSide(T, start, snap, g),
      DefuserCount(ctTeam),
      CountWeapon(ctTeam, Item("AK-47")),
      NextStreaks(isSwitch, prev),
      CarryOver(isSwitch, prevEnd),
      IsOvertime(roundNumber),
      roundWinner)
  }

  // ---------------------------------------------------------------------------
  // Properties of the extracted features
  // ---------------------------------------------------------------------------

  /**
   * The economy of a side: money is balance plus equipment value at round
   * start, the averages are per five players, and the equipment value is
   * armour, helmets, kits (CT only), utility and weapons.
   */
  lemma {:induction false} SideEconomy(side: Side, start: seq<PlayerRow>, snap: seq<PlayerRow>,
                    g: Option<seq<GrenadeThrow>>)
    ensures var f := ExtractSide(side, start, snap, g);
      var team := SideRows(snap, side);
      && f.moneyTotal == SumBalance(SideRows(start, side)) + SumEquipValue(SideRows(start, side))
      && f.cash == SumBalance(team)
      && f.cashAvg * 5.0 == f.cash as real
      && f.equipmentValueAvg * 5.0 == f.equipmentValue as real
      && f.equipmentValue ==
           650 * f.armorCount + 350 * f.helmetCount
           + (if side == CT then 400 * DefuserCount(team) else 0)
           + f.utilityValue + TeamWeaponValue(team)
  {}

  /**
   * Utility of a side: the value is the list price of every grenade its
   * players hold or threw, and the Molotov count is Molotovs plus incendiaries.
   */
  lemma {:induction false} SideUtility(side: Side, start: seq<PlayerRow>, snap: seq<PlayerRow>,
                    g: Option<seq<GrenadeThrow>>)
    ensures var f := ExtractSide(side, start, snap, g);
      var team := SideRows(snap, side);
      var thrown := SideThrows(g, team);
      && f.utilityValue == HeldValue(UtilityItems(team, thrown), GrenadePrices)
      && f.moloCount == CountItems(team, thrown, Item("Molotov"))
                        + CountItems(team, thrown, Item("Incendiary Grenade"))
  {
    var team := SideRows(snap, side);
    var thrown := SideThrows(g, team);
    UtilityIsGrenadeListValue(team, thrown);
    MolotovCountSplits(team, thrown);
  }

  /** Counts of held items never exceed the number of items the side holds. */
  lemma {:induction false} SideCountsBounded(side: Side, start: seq<PlayerRow>, snap: seq<PlayerRow>,
                          g: Option<seq<GrenadeThrow>>)
    ensures var f := ExtractSide(side, start, snap, g);
      var n := |Flatten(SideRows(snap, side))|;
      && 0 <= f.awpCount <= n && 0 <= f.ssgCount <= n && 0 <= f.rifleCount <= n
      && 0 <= f.smgCount <= n && 0 <= f.heavyCount <= n
      && 0 <= f.armorCount <= |SideRows(snap, side)| && 0 <= f.helmetCount <= |SideRows(snap, side)|
  {}

  /** No side without a previous round or across a side switch carries a streak. */
  lemma {:induction false} StreaksReset(r: RoundFeatures, start: seq<PlayerRow>, roundNumber: int, snap: seq<PlayerRow>,
                     g: Option<seq<GrenadeThrow>>, mapName: string, ctScore: int, tScore: int,
                     roundWinner: int, prev: Option<RoundFeatures>, prevEnd: Option<seq<PlayerRow>>)
    requires r == ExtractRoundFeatures(start, roundNumber, snap, g, mapName, ctScore, tScore,
                                       roundWinner, prev, prevEnd)
    requires IsSideSwitch(roundNumber) || prev.None?
    ensures r.streaks == Streaks(0, 0, 0, 0)
  {}

  /**
   * After a round won by CT the CT win streak and the T loss streak grow by
   * one and the other two restart; after a round won by T the reverse.
   */
  lemma {:induction false} StreaksAdvance(isSwitch: bool, p: RoundFeatures)
    requires !isSwitch
    ensures p.roundWinner == 1 ==>
      NextStreaks(isSwitch, Some(p)) == Streaks(p.streaks.ctWon + 1, 0, 0, p.streaks.tLost + 1)
    ensures p.roundWinner == 0 ==>
      NextStreaks(isSwitch, Some(p)) == Streaks(0, p.streaks.ctLost + 1, p.streaks.tWon + 1, 0)
  {}

  /** The two sides' streaks mirror each other: one side's wins are the other's losses. */
  predicate Mirrored(s: Streaks)
  {
    s.ctWon == s.tLost && s.ctLost == s.tWon
  }

  /** A side is never on a win streak and a loss streak at once. */
  predicate OneWay(s: Streaks)
  {
    (s.ctWon == 0 || s.ctLost == 0) && (s.tWon == 0 || s.tLost == 0)
  }

  /** A winner bit of 0 or 1 keeps the mirror; any previous round gives a one-way streak. */
  lemma {:induction false} StreaksStayMirrored(isSwitch: bool, prev: Option<RoundFeatures>)
    requires prev.Some? ==> Mirrored(prev.value.streaks) && prev.value.roundWinner in {0, 1}
    ensures Mirrored(NextStreaks(isSwitch, prev))
    ensures OneWay(NextStreaks(isSwitch, prev))
  {}

  /** Without an end-of-round snapshot, or across a side switch, nothing is carried over. */
  lemma {:induction false} CarryReset(isSwitch: bool, prevEnd: Option<seq<PlayerRow>>)
    requires isSwitch || prevEnd.None?
    ensures CarryOver(isSwitch, prevEnd) == Carry(0, 0, 0, 0)
  {}

  /**
   * Otherwise the survivors are the previous end-of-round rows of each side,
   * counted together no more than the rows themselves, and each side's saved
   * value is the equipment value of its survivors.
   */
  lemma {:induction false} CarryCounts(prevEnd: seq<PlayerRow>)
    ensures var c := CarryOver(false, Some(prevEnd));
      && c.ctSurvivors == |SideRows(prevEnd, CT)| && c.tSurvivors == |SideRows(prevEnd, T)|
      && c.ctSurvivors + c.tSurvivors == SidedCount(prevEnd) <= |prevEnd|
      && c.ctSavedValue == SumEquipValue(SideRows(prevEnd, CT))
      && c.tSavedValue == SumEquipValue(SideRows(prevEnd, T))
  {
    SidesPartition(prevEnd);
    SidedCountBounded(prevEnd);
  }

  lemma {:induction false} SidedCountBounded(rows: seq<PlayerRow>)
    ensures SidedCount(rows) <= |rows|
  {
    if rows != [] {
      SidedCountBounded(rows[1..]);
    }
  }
}
