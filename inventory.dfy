/**
 * Counting what a team holds: items or item categories in the players'
 * inventories, the value of every catalogued weapon held, and grenades held
 * or already thrown.
 */
module Inventory {
  import opened Wrappers
  import opened Catalog
  import opened Snapshot
  import opened Grenades

  /** What to count: one item name or a whole category of names. */
  datatype Selector = Item(name: string) | Category(names: set<string>)

  function Names(sel: Selector): set<string>
  {
    match sel
    case Item(n) => {n}
    case Category(ns) => ns
  }

  /** Occurrences in `items` of any name in `names`. */
  function CountIn(items: seq<string>, names: set<string>): (n: nat)
    ensures n <= |items|
  {
    if items == [] then 0
    else (if items[0] in names then 1 else 0) + CountIn(items[1..], names)
  }

  lemma {:induction false} CountInAppend(a: seq<string>, b: seq<string>, names: set<string>)
    ensures CountIn(a + b, names) == CountIn(a, names) + CountIn(b, names)
  {
    if a == [] {
      assert a + b == b;
    } else {
      assert (a + b)[0] == a[0];
      assert (a + b)[1..] == a[1..] + b;
      CountInAppend(a[1..], b, names);
    }
  }

  /** Counting one name is its multiplicity. */
  lemma {:induction false} CountInSingle(items: seq<string>, x: string)
    ensures CountIn(items, {x}) == multiset(items)[x]
  {
    if items != [] {
      assert items == [items[0]] + items[1..];
      CountInSingle(items[1..], x);
    }
  }

  /** Counting two disjoint categories together is counting each one. */
  lemma {:induction false} CountInDisjointUnion(items: seq<string>, a: set<string>, b: set<string>)
    requires a !! b
    ensures CountIn(items, a + b) == CountIn(items, a) + CountIn(items, b)
  {
    if items != [] {
      CountInDisjointUnion(items[1..], a, b);
    }
  }

  /** Occurrences of the selected item or category across a team's flattened inventories. */
  function CountWeapon(team: seq<PlayerRow>, sel: Selector): (n: nat)
    ensures sel.Item? ==> n == multiset(Flatten(team))[sel.name]
  {
    CountInSingleOn(Flatten(team), sel);
    CountIn(Flatten(team), Names(sel))
  }

  lemma {:induction false} CountInSingleOn(items: seq<string>, sel: Selector)
    ensures sel.Item? ==> CountIn(items, Names(sel)) == multiset(items)[sel.name]
  {
    if sel.Item? {
      CountInSingle(items, sel.name);
    }
  }

  // ---------------------------------------------------------------------------
  // Weapon value
  // ---------------------------------------------------------------------------

  /** The price of `x` in `prices`, 0 when it is not listed. */
  function PriceOf(prices: map<string, int>, x: string): int
  {
    if x in prices then prices[x] else 0
  }

  /** Sum of the listed prices of the items, one item at a time. */
  function HeldValue(items: seq<string>, prices: map<string, int>): int
  {
    if items == [] then 0 else PriceOf(prices, items[0]) + HeldValue(items[1..], prices)
  }

  /** The weapon value of a team: what every held item is worth as a weapon. */
  function TeamWeaponValue(team: seq<PlayerRow>): int
  {
    HeldValue(Flatten(team), AllWeaponPrices)
  }

  /** Sum of the prices of the items whose name is in `ws`. */
  function HeldValueAmong(items: seq<string>, ws: set<string>, prices: map<string, int>): int
  {
    if items == [] then 0
    else
      (if items[0] in ws then PriceOf(prices, items[0]) else 0)
      + HeldValueAmong(items[1..], ws, prices)
  }

  lemma {:induction false} HeldValueAmongAdd(items: seq<string>, ws: set<string>, w: string, prices: map<string, int>)
    requires w !in ws
    ensures HeldValueAmong(items, ws + {w}, prices)
         == HeldValueAmong(items, ws, prices) + CountIn(items, {w}) * PriceOf(prices, w)
  {
    if items != [] {
      HeldValueAmongAdd(items[1..], ws, w, prices);
      var c := CountIn(items[1..], {w});
      var p := PriceOf(prices, w);
      var c0 := if items[0] in {w} then 1 else 0;
      assert (c0 + c) * p == c0 * p + c * p;
    }
  }

  lemma {:induction false} HeldValueAmongNone(items: seq<string>, prices: map<string, int>)
    ensures HeldValueAmong(items, {}, prices) == 0
  {
    if items != [] {
      HeldValueAmongNone(items[1..], prices);
    }
  }

  /** Restricting to a superset of the priced names changes nothing. */
  lemma {:induction false} HeldValueAmongPriced(items: seq<string>, ws: set<string>, prices: map<string, int>)
    requires prices.Keys <= ws
    ensures HeldValueAmong(items, ws, prices) == HeldValue(items, prices)
  {
    if items != [] {
      HeldValueAmongPriced(items[1..], ws, prices);
    }
  }

  /**
   * The weapon value of a team: for each entry of the weapon price map, in
   * whatever order the map yields them, the number held times the price. It
   * equals the weapon price of every held item added up.
   */
  method CountAllWeapon(team: seq<PlayerRow>) returns (total: int)
    ensures total == TeamWeaponValue(team)
  {
    total := ValueByPriceList(team, AllWeaponPrices);
  }

  /** For each entry of `prices`, in any order, the number held times the price, added up. */
  method ValueByPriceList(team: seq<PlayerRow>, prices: map<string, int>) returns (total: int)
    ensures total == HeldValue(Flatten(team), prices)
  {
    var items := Flatten(team);
    var remaining := prices.Keys;
    ghost var done: set<string> := {};
    HeldValueAmongNone(items, prices);
    total := 0;
    while remaining != {}
      invariant done + remaining == prices.Keys && done !! remaining
      invariant total == HeldValueAmong(items, done, prices)
      decreases remaining
    {
      var weapon :| weapon in remaining;
      var count := CountWeapon(team, Item(weapon));
      HeldValueAmongAdd(items, done, weapon, prices);
      total := total + count * prices[weapon];
      remaining := remaining - {weapon};
      done := done + {weapon};
    }
    HeldValueAmongPriced(items, done, prices);
  }

  /** An item without a price adds nothing to the value held. */
  lemma {:induction false} UnpricedAddsNothing(items: seq<string>, x: string, prices: map<string, int>)
    requires x !in prices
    ensures HeldValue(items + [x], prices) == HeldValue(items, prices)
  {
    if items == [] {
      assert items + [x] == [x];
    } else {
      assert (items + [x])[0] == items[0];
      assert (items + [x])[1..] == items[1..] + [x];
      UnpricedAddsNothing(items[1..], x, prices);
    }
  }

  // ---------------------------------------------------------------------------
  // Grenades held and thrown
  // ---------------------------------------------------------------------------

  function ThrownTypes(g: seq<GrenadeThrow>): (types: seq<string>)
    ensures |types| == |g|
    ensures forall i :: 0 <= i < |g| ==> types[i] == g[i].grenadeType
  {
    seq(|g|, i requires 0 <= i < |g| => g[i].grenadeType)
  }

  /** Rows of the thrown table whose type is selected; no table counts 0. */
  function ThrownCount(g: Option<seq<GrenadeThrow>>, names: set<string>): (n: nat)
    ensures g.None? ==> n == 0
    ensures g.Some? ==> n <= |g.value|
  {
    match g
    case None => 0
    case Some(rows) => CountIn(ThrownTypes(rows), names)
  }

  /**
   * Items held at the snapshot plus items of the same kind thrown in the
   * window: grenades leave the inventory when thrown, so both are counted.
   */
  function CountItems(team: seq<PlayerRow>, g: Option<seq<GrenadeThrow>>, sel: Selector): (n: nat)
    ensures n == CountWeapon(team, sel) + ThrownCount(g, Names(sel))
    ensures g.None? || g == Some([]) ==> n == CountWeapon(team, sel)
  {
    var inv := CountWeapon(team, sel);
    var thrown := if g.None? || g.value == [] then 0 else ThrownCount(g, Names(sel));
    inv + thrown
  }

  /** For one item name: its multiplicity in the inventories plus in the thrown types. */
  lemma {:induction false} CountItemsSingle(team: seq<PlayerRow>, g: seq<GrenadeThrow>, x: string)
    ensures CountItems(team, Some(g), Item(x)) ==
            multiset(Flatten(team))[x] + multiset(ThrownTypes(g))[x]
  {
    CountInSingle(ThrownTypes(g), x);
  }

  /** Two smokes thrown and one still held make three. */
  lemma {:induction false} TwoThrownOneHeld(p: PlayerRow, a: GrenadeThrow, b: GrenadeThrow)
    requires p.inventory == ["Smoke Grenade"]
    requires a.grenadeType == "Smoke Grenade" && b.grenadeType == "Smoke Grenade"
    ensures CountItems([p], Some([a, b]), Item("Smoke Grenade")) == 3
  {
    CountItemsSingle([p], [a, b], "Smoke Grenade");
    assert Flatten([p]) == ["Smoke Grenade"];
    assert ThrownTypes([a, b]) == ["Smoke Grenade", "Smoke Grenade"];
  }
}
