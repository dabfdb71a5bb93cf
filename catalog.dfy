/**
 * The item catalogue of the feature extractor: five weapon categories, the
 * in-game price list and the weapon-only price map derived from both.
 */
module Catalog {

  const Pistols: set<string> := {
    "Glock-18", "USP-S", "Tec-9", "P2000", "P250",
    "Dual Berettas", "CZ75-Auto", "Five-SeveN", "R8 Revolver", "Desert Eagle"
  }

  const Smgs: set<string> := {"MAC-10", "MP9", "UMP-45", "PP-Bizon", "MP5-SD", "MP7", "P90"}

  const Heavy: set<string> := {"Nova", "Sawed-Off", "MAG-7", "XM1014", "M249", "Negev"}

  const Rifles: set<string> := {
    "Galil AR", "FAMAS", "AK-47", "M4A1-S", "M4A4", "AUG", "SG 553", "G3SG1", "SCAR-20"
  }

  const Snipers: set<string> := {"SSG 08", "AWP"}

  const Grenades: set<string> := {
    "High Explosive Grenade", "Flashbang", "Smoke Grenade",
    "Molotov", "Incendiary Grenade", "Decoy Grenade"
  }

  const Knives: set<string> := {
    "Stock Knife", "Bayonet", "Butterfly Knife", "Falchion Knife", "Flip Knife",
    "Gut Knife", "Huntsman Knife", "Karambit", "M9 Bayonet", "Shadow Daggers",
    "Bowie Knife", "Ursus Knife", "Navaja Knife", "Stiletto Knife", "Talon Knife",
    "Classic Knife", "Skeleton Knife", "Paracord Knife", "Survival Knife",
    "Nomad Knife", "Kukri Knife"
  }

  /**
   * The price list. It is one dictionary literal with distinct keys; here it is
   * written as the union of its blocks (equipment and bomb, pistols, SMGs, heavy
   * weapons, rifles and sniper rifles, grenades, knives).
   */
  const ItemPrices: map<string, int> :=
    KnifePrices + PistolPrices + SmgPrices + HeavyPrices + RiflePrices
    + EquipmentPrices + GrenadePrices

  const EquipmentPrices: map<string, int> := map[
    "Kevlar Vest" := 650, "Kevlar & Helmet" := 1000, "Zeus x27" := 200,
    "Defuse Kit" := 400, "C4 Explosive" := 0
  ]

  const PistolPrices: map<string, int> := map[
    "Glock-18" := 200, "USP-S" := 200, "P2000" := 200,
    "Dual Berettas" := 300, "P250" := 300, "Tec-9" := 500, "Five-SeveN" := 500,
    "CZ75-Auto" := 500, "Desert Eagle" := 700, "R8 Revolver" := 600
  ]

  const SmgPrices: map<string, int> := map[
    "MAC-10" := 1050, "MP9" := 1250, "MP7" := 1500, "MP5-SD" := 1500,
    "UMP-45" := 1200, "P90" := 2350, "PP-Bizon" := 1400
  ]

  const HeavyPrices: map<string, int> := map[
    "Nova" := 1050, "Sawed-Off" := 1100, "MAG-7" := 1300, "XM1014" := 2000,
    "M249" := 5200, "Negev" := 1700
  ]

  /** Rifles and sniper rifles share one block of the price list. */
  const RiflePrices: map<string, int> := map[
    "Galil AR" := 1800, "FAMAS" := 1950, "AK-47" := 2700, "M4A4" := 2900,
    "M4A1-S" := 2900, "SG 553" := 3000, "AUG" := 3300, "SSG 08" := 1700,
    "AWP" := 4750, "G3SG1" := 5000, "SCAR-20" := 5000
  ]

  const GrenadePrices: map<string, int> := map[
    "Molotov" := 400, "Incendiary Grenade" := 500, "Decoy Grenade" := 50,
    "Flashbang" := 200, "High Explosive Grenade" := 300, "Smoke Grenade" := 300
  ]

  /** Knives are cosmetic and priced 0. */
  const KnifePrices: map<string, int> := map k | k in Knives :: 0

  /** Every weapon of the five categories. */
  const Weapons: set<string> := Rifles + Smgs + Pistols + Snipers + Heavy

  /** The price list restricted to the five weapon categories. */
  const AllWeaponPrices: map<string, int> := map w | w in Weapons && w in ItemPrices :: ItemPrices[w]

  /** Prices the feature extractor reads from the price list by name. */
  const VestPrice := 650
  const DefuseKitPrice := 400
  const SmokePrice := 300
  const FlashPrice := 200
  const HePrice := 300
  const MolotovPrice := 400
  const IncendiaryPrice := 500
  const DecoyPrice := 50

  // Each category is covered by its block of the price list.
  lemma {:induction false} PistolsPriced() ensures PistolPrices.Keys == Pistols {}
  lemma {:induction false} SmgsPriced() ensures SmgPrices.Keys == Smgs {}
  lemma {:induction false} HeavyPriced() ensures HeavyPrices.Keys == Heavy {}
  lemma {:induction false} RiflesPriced() ensures RiflePrices.Keys == Rifles + Snipers {}

  /** Every weapon has a list price, so the weapon price map covers exactly the weapons. */
  lemma {:induction false} WeaponsPriced()
    ensures Weapons <= ItemPrices.Keys
    ensures AllWeaponPrices.Keys == Weapons
    ensures forall w :: w in Weapons ==> AllWeaponPrices[w] == ItemPrices[w]
  {
    PistolsPriced();
    SmgsPriced();
    HeavyPriced();
    RiflesPriced();
  }

  /** The five weapon categories are pairwise disjoint. */
  lemma {:induction false} CategoriesDisjoint()
    ensures Pistols !! Smgs && Pistols !! Heavy && Pistols !! Rifles && Pistols !! Snipers
    ensures Smgs !! Heavy && Smgs !! Rifles && Smgs !! Snipers
    ensures Heavy !! Rifles && Heavy !! Snipers && Rifles !! Snipers
  {
    PistolsNotSmgs();
    PistolsNotHeavy();
    PistolsNotRifles();
    SmgsApart();
    HeavyApart();
  }

  lemma {:induction false} PistolsNotSmgs() ensures Pistols !! Smgs {}
  lemma {:induction false} PistolsNotHeavy() ensures Pistols !! Heavy {}
  lemma {:induction false} PistolsNotRifles() ensures Pistols !! Rifles && Pistols !! Snipers {}
  lemma {:induction false} SmgsApart() ensures Smgs !! Heavy && Smgs !! Rifles && Smgs !! Snipers {}
  lemma {:induction false} HeavyApart() ensures Heavy !! Rifles && Heavy !! Snipers && Rifles !! Snipers {}

  /** Grenades, knives, the Zeus, armour, the kit and the bomb have no weapon price. */
  lemma {:induction false} NonWeaponsUnpriced()
    ensures Grenades !! AllWeaponPrices.Keys
    ensures Knives !! AllWeaponPrices.Keys
    ensures EquipmentPrices.Keys !! AllWeaponPrices.Keys
  {
    WeaponsPriced();
    GrenadesNotWeapons();
    KnivesNotWeapons();
    EquipmentNotWeapons();
  }

  lemma {:induction false} GrenadesNotWeapons()
    ensures Grenades !! Pistols && Grenades !! Smgs && Grenades !! Heavy
    ensures Grenades !! Rifles && Grenades !! Snipers
  {
    GrenadesNotPistols();
    GrenadesNotLongGuns();
  }

  lemma {:induction false} GrenadesNotPistols() ensures Grenades !! Pistols {}
  lemma {:induction false} GrenadesNotLongGuns()
    ensures Grenades !! Smgs && Grenades !! Heavy && Grenades !! Rifles && Grenades !! Snipers
  {}

  lemma {:induction false} KnivesNotWeapons()
    ensures Knives !! Pistols && Knives !! Smgs && Knives !! Heavy
    ensures Knives !! Rifles && Knives !! Snipers
  {
    KnivesNotPistols();
    KnivesNotSmgs();
    KnivesNotHeavy();
    KnivesNotRifles();
  }

  lemma {:induction false} KnivesNotPistols() ensures Knives !! Pistols {}
  lemma {:induction false} KnivesNotSmgs() ensures Knives !! Smgs {}
  lemma {:induction false} KnivesNotHeavy() ensures Knives !! Heavy {}
  lemma {:induction false} KnivesNotRifles() ensures Knives !! Rifles && Knives !! Snipers {}

  lemma {:induction false} EquipmentNotWeapons()
    ensures EquipmentPrices.Keys !! Pistols && EquipmentPrices.Keys !! Smgs
    ensures EquipmentPrices.Keys !! Heavy && EquipmentPrices.Keys !! Rifles
    ensures EquipmentPrices.Keys !! Snipers
  {
    EquipmentNotPistols();
    EquipmentNotLongGuns();
  }

  lemma {:induction false} EquipmentNotPistols() ensures EquipmentPrices.Keys !! Pistols {}
  lemma {:induction false} EquipmentNotLongGuns()
    ensures EquipmentPrices.Keys !! Smgs && EquipmentPrices.Keys !! Heavy
    ensures EquipmentPrices.Keys !! Rifles && EquipmentPrices.Keys !! Snipers
  {}

  /** The price list before its grenade block. */
  const PricesBeforeGrenades: map<string, int> :=
    KnifePrices + PistolPrices + SmgPrices + HeavyPrices + RiflePrices + EquipmentPrices

  /** A name listed in a later block of the price list takes that block's price. */
  lemma {:induction false} LaterBlockWins(earlier: map<string, int>, later: map<string, int>, k: string)
    requires k in later
    ensures k in earlier + later && (earlier + later)[k] == later[k]
  {}

  /** A name listed in an earlier block and not in the later one keeps its price. */
  lemma {:induction false} EarlierBlockKept(earlier: map<string, int>, later: map<string, int>, k: string)
    requires k in earlier && k !in later
    ensures k in earlier + later && (earlier + later)[k] == earlier[k]
  {}

  /** `name` is on the price list at `price`. */
  predicate ListedAt(name: string, price: int)
  {
    name in ItemPrices && ItemPrices[name] == price
  }

  /** A grenade is priced by the grenade block. */
  lemma {:induction false} GrenadeListed(g: string, price: int)
    requires g in GrenadePrices && GrenadePrices[g] == price
    ensures ListedAt(g, price)
  {
    assert ItemPrices == PricesBeforeGrenades + GrenadePrices;
    LaterBlockWins(PricesBeforeGrenades, GrenadePrices, g);
  }

  /** The grenade prices used by the extractor are the list prices. */
  lemma {:induction false} GrenadePricesListed()
    ensures ListedAt("Smoke Grenade", SmokePrice) && ListedAt("Flashbang", FlashPrice)
    ensures ListedAt("High Explosive Grenade", HePrice) && ListedAt("Molotov", MolotovPrice)
    ensures ListedAt("Incendiary Grenade", IncendiaryPrice) && ListedAt("Decoy Grenade", DecoyPrice)
  {
    SmokeListed();
    FlashListed();
    HeListed();
    MolotovListed();
    IncendiaryListed();
    DecoyListed();
  }

  lemma {:induction false} SmokeListed() ensures ListedAt("Smoke Grenade", SmokePrice) {
    SmokeInBlock();
    GrenadeListed("Smoke Grenade", SmokePrice);
  }

  lemma {:induction false} SmokeInBlock()
    ensures "Smoke Grenade" in GrenadePrices && GrenadePrices["Smoke Grenade"] == SmokePrice
  {}

  lemma {:induction false} FlashListed() ensures ListedAt("Flashbang", FlashPrice) {
    FlashInBlock();
    GrenadeListed("Flashbang", FlashPrice);
  }

  lemma {:induction false} FlashInBlock()
    ensures "Flashbang" in GrenadePrices && GrenadePrices["Flashbang"] == FlashPrice
  {}

  lemma {:induction false} HeListed() ensures ListedAt("High Explosive Grenade", HePrice) {
    HeInBlock();
    GrenadeListed("High Explosive Grenade", HePrice);
  }

  lemma {:induction false} HeInBlock()
    ensures "High Explosive Grenade" in GrenadePrices && GrenadePrices["High Explosive Grenade"] == HePrice
  {}

  lemma {:induction false} MolotovListed() ensures ListedAt("Molotov", MolotovPrice) {
    MolotovInBlock();
    GrenadeListed("Molotov", MolotovPrice);
  }

  lemma {:induction false} MolotovInBlock()
    ensures "Molotov" in GrenadePrices && GrenadePrices["Molotov"] == MolotovPrice
  {}

  lemma {:induction false} IncendiaryListed() ensures ListedAt("Incendiary Grenade", IncendiaryPrice) {
    IncendiaryInBlock();
    GrenadeListed("Incendiary Grenade", IncendiaryPrice);
  }

  lemma {:induction false} IncendiaryInBlock()
    ensures "Incendiary Grenade" in GrenadePrices && GrenadePrices["Incendiary Grenade"] == IncendiaryPrice
  {}

  lemma {:induction false} DecoyListed() ensures ListedAt("Decoy Grenade", DecoyPrice) {
    DecoyInBlock();
    GrenadeListed("Decoy Grenade", DecoyPrice);
  }

  lemma {:induction false} DecoyInBlock()
    ensures "Decoy Grenade" in GrenadePrices && GrenadePrices["Decoy Grenade"] == DecoyPrice
  {}

  /** An equipment item is priced by the equipment block. */
  lemma {:induction false} EquipmentListed(e: string, price: int)
    requires e in EquipmentPrices && EquipmentPrices[e] == price && e !in GrenadePrices
    ensures ListedAt(e, price)
  {
    var rest := KnifePrices + PistolPrices + SmgPrices + HeavyPrices + RiflePrices;
    assert PricesBeforeGrenades == rest + EquipmentPrices;
    LaterBlockWins(rest, EquipmentPrices, e);
    assert ItemPrices == PricesBeforeGrenades + GrenadePrices;
    EarlierBlockKept(PricesBeforeGrenades, GrenadePrices, e);
  }

  /** The vest and defuse-kit prices used by the extractor are the list prices. */
  lemma {:induction false} EquipmentPricesListed()
    ensures ListedAt("Kevlar Vest", VestPrice) && ListedAt("Defuse Kit", DefuseKitPrice)
  {
    VestListed();
    KitListed();
  }

  lemma {:induction false} VestListed() ensures ListedAt("Kevlar Vest", VestPrice) {
    VestInBlock();
    EquipmentListed("Kevlar Vest", VestPrice);
  }

  lemma {:induction false} VestInBlock()
    ensures "Kevlar Vest" in EquipmentPrices && EquipmentPrices["Kevlar Vest"] == VestPrice
    ensures "Kevlar Vest" !in GrenadePrices
  {}

  lemma {:induction false} KitListed() ensures ListedAt("Defuse Kit", DefuseKitPrice) {
    KitInBlock();
    EquipmentListed("Defuse Kit", DefuseKitPrice);
  }

  lemma {:induction false} KitInBlock()
    ensures "Defuse Kit" in EquipmentPrices && EquipmentPrices["Defuse Kit"] == DefuseKitPrice
    ensures "Defuse Kit" !in GrenadePrices
  {}
}
