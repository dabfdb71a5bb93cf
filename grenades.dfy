/**
 * The thrown-utility table of one round: the projectile records the replay
 * decoder reports for the whole match, cut to a tick window, cleaned of rows
 * without a position, reduced to the earliest row of each projectile entity,
 * and labelled with the item names of the price list.
 */
module Grenades {
  import opened Wrappers

  /** One projectile sample as the decoder reports it; a missing coordinate is `None`. */
  datatype RawGrenade = RawGrenade(
    tick: int,
    entityId: int,
    thrower: string,
    grenadeType: string,
    x: Option<real>,
    y: Option<real>,
    z: Option<real>)

  /** One row of the thrown-utility table. */
  datatype GrenadeThrow = GrenadeThrow(tick: int, thrower: string, grenadeType: string)

  predicate InWindow(g: RawGrenade, start: int, end: int)
  {
    start < g.tick <= end
  }

  predicate Positioned(g: RawGrenade)
  {
    g.x.Some? && g.y.Some? && g.z.Some?
  }

  /** A record the extractor may use: inside the window and with all three coordinates. */
  predicate Qualifies(g: RawGrenade, start: int, end: int)
  {
    InWindow(g, start, end) && Positioned(g)
  }

  // ---------------------------------------------------------------------------
  // Filtering
  // ---------------------------------------------------------------------------

  function WindowRows(rows: seq<RawGrenade>, start: int, end: int): (r: seq<RawGrenade>)
    ensures forall g :: g in r <==> g in rows && InWindow(g, start, end)
  {
    if rows == [] then []
    else if InWindow(rows[0], start, end) then [rows[0]] + WindowRows(rows[1..], start, end)
    else WindowRows(rows[1..], start, end)
  }

  function PositionedRows(rows: seq<RawGrenade>): (r: seq<RawGrenade>)
    ensures forall g :: g in r <==> g in rows && Positioned(g)
  {
    if rows == [] then []
    else if Positioned(rows[0]) then [rows[0]] + PositionedRows(rows[1..])
    else PositionedRows(rows[1..])
  }

  // ---------------------------------------------------------------------------
  // Sorting by tick
  // ---------------------------------------------------------------------------

  predicate SortedByTick(rows: seq<RawGrenade>)
  {
    forall i, j :: 0 <= i < j < |rows| ==> rows[i].tick <= rows[j].tick
  }

  /** Insert `g` before the first row whose tick is not smaller. */
  function Insert(g: RawGrenade, rows: seq<RawGrenade>): (r: seq<RawGrenade>)
    requires SortedByTick(rows)
    ensures SortedByTick(r)
    ensures multiset(r) == multiset(rows) + multiset{g}
  {
    if rows == [] then [g]
    else if g.tick <= rows[0].tick then [g] + rows
    else
      var rest := Insert(g, rows[1..]);
      assert rows == [rows[0]] + rows[1..];
      LaterTicksBounded(rows[0], g, rows[1..], rest);
      ConsSorted(rows[0], rest);
      [rows[0]] + rest
  }

  /** Rows drawn from a sorted tail and a later `g` do not tick before the head. */
  lemma {:induction false} LaterTicksBounded(head: RawGrenade, g: RawGrenade, tail: seq<RawGrenade>, rest: seq<RawGrenade>)
    requires SortedByTick([head] + tail)
    requires head.tick < g.tick
    requires multiset(rest) == multiset(tail) + multiset{g}
    ensures forall h :: h in rest ==> head.tick <= h.tick
  {
    forall h | h in rest ensures head.tick <= h.tick {
      assert h in multiset(rest);
      if h != g {
        assert h in multiset(tail);
        var j :| 0 <= j < |tail| && tail[j] == h;
        assert ([head] + tail)[0] == head && ([head] + tail)[j + 1] == h;
      }
    }
  }

  /** A row that ticks no later than a sorted list can go in front of it. */
  lemma {:induction false} ConsSorted(x: RawGrenade, rest: seq<RawGrenade>)
    requires SortedByTick(rest)
    requires forall h :: h in rest ==> x.tick <= h.tick
    ensures SortedByTick([x] + rest)
  {
    forall i, j | 0 <= i < j < |[x] + rest| ensures ([x] + rest)[i].tick <= ([x] + rest)[j].tick {
      if i > 0 {
        assert ([x] + rest)[i] == rest[i - 1];
      }
      assert ([x] + rest)[j] == rest[j - 1];
      assert rest[j - 1] in rest;
    }
  }

  /** The rows in ascending tick order. */
  function SortByTick(rows: seq<RawGrenade>): (r: seq<RawGrenade>)
    ensures SortedByTick(r)
    ensures multiset(r) == multiset(rows)
  {
    if rows == [] then []
    else
      assert rows == [rows[0]] + rows[1..];
      Insert(rows[0], SortByTick(rows[1..]))
  }

  // ---------------------------------------------------------------------------
  // One row per projectile entity
  // ---------------------------------------------------------------------------

  function EntityIds(rows: seq<RawGrenade>): set<int>
  {
    set g | g in rows :: g.entityId
  }

  /** Keep a row only when no earlier row belongs to the same entity. */
  function FirstPerEntity(rows: seq<RawGrenade>): (r: seq<RawGrenade>)
    ensures forall g :: g in r ==> g in rows
    ensures EntityIds(r) == EntityIds(rows)
  {
    if rows == [] then []
    else
      var init := rows[..|rows| - 1];
      var last := rows[|rows| - 1];
      assert rows == init + [last];
      EntityIdsAppend(init, last);
      var kept := FirstPerEntity(init);
      if last.entityId in EntityIds(init) then kept
      else
        EntityIdsAppend(kept, last);
        kept + [last]
  }

  lemma {:induction false} EntityIdsAppend(rows: seq<RawGrenade>, g: RawGrenade)
    ensures EntityIds(rows + [g]) == EntityIds(rows) + {g.entityId}
  {
    assert forall h :: h in rows + [g] <==> h in rows || h == g;
  }

  predicate UniqueEntities(rows: seq<RawGrenade>)
  {
    forall i, j :: 0 <= i < j < |rows| ==> rows[i].entityId != rows[j].entityId
  }

  lemma {:induction false} FirstPerEntityUnique(rows: seq<RawGrenade>)
    ensures UniqueEntities(FirstPerEntity(rows))
  {
    if rows != [] {
      var init := rows[..|rows| - 1];
      FirstPerEntityUnique(init);
    }
  }

  lemma {:induction false} FirstPerEntitySorted(rows: seq<RawGrenade>)
    requires SortedByTick(rows)
    ensures SortedByTick(FirstPerEntity(rows))
  {
    if rows != [] {
      var init := rows[..|rows| - 1];
      var last := rows[|rows| - 1];
      FirstPerEntitySorted(init);
      forall h | h in FirstPerEntity(init) ensures h.tick <= last.tick {
        var k :| 0 <= k < |init| && init[k] == h;
      }
    }
  }

  /** On sorted input, the row kept for an entity has that entity's smallest tick. */
  lemma {:induction false} FirstPerEntityEarliest(rows: seq<RawGrenade>, g: RawGrenade, q: RawGrenade)
    requires SortedByTick(rows)
    requires g in FirstPerEntity(rows) && q in rows && q.entityId == g.entityId
    ensures g.tick <= q.tick
  {
    var init := rows[..|rows| - 1];
    var last := rows[|rows| - 1];
    assert rows == init + [last];
    if g in FirstPerEntity(init) {
      if q in init {
        FirstPerEntityEarliest(init, g, q);
      } else {
        var k :| 0 <= k < |init| && init[k] == g;
      }
    } else {
      assert g == last && last.entityId !in EntityIds(init);
      if q in init {
        assert false;
      }
    }
  }

  // ---------------------------------------------------------------------------
  // Labels
  // ---------------------------------------------------------------------------

  const ProjectileSuffix := "Projectile"

  predicate StartsWithC(s: string)
  {
    |s| > 0 && s[0] == 'C'
  }

  predicate EndsWithSuffix(s: string)
  {
    |s| >= |ProjectileSuffix| && s[|s| - |ProjectileSuffix|..] == ProjectileSuffix
  }

  /** Drop one leading 'C', then one trailing "Projectile". */
  function StripLabel(s: string): (k: string)
    ensures |k| <= |s|
  {
    var a := if StartsWithC(s) then s[1..] else s;
    if EndsWithSuffix(a) then a[..|a| - |ProjectileSuffix|] else a
  }

  /** A label with neither a leading 'C' nor a trailing "Projectile" is left as it is. */
  lemma {:induction false} StripPlain(s: string)
    requires !StartsWithC(s) && !EndsWithSuffix(s)
    ensures StripLabel(s) == s
  {}

  /** A leading 'C' alone is dropped. */
  lemma {:induction false} StripPrefixOnly(kind: string)
    requires !EndsWithSuffix(kind)
    ensures StripLabel("C" + kind) == kind
  {
    assert ("C" + kind)[1..] == kind;
  }

  /** A trailing "Projectile" alone is dropped. */
  lemma {:induction false} StripSuffixOnly(kind: string)
    requires !StartsWithC(kind)
    ensures StripLabel(kind + ProjectileSuffix) == kind
  {
    var s := kind + ProjectileSuffix;
    if kind == [] {
      assert s == ProjectileSuffix;
      assert !StartsWithC(s);
    } else {
      assert s[0] == kind[0];
    }
    assert s[|s| - |ProjectileSuffix|..] == ProjectileSuffix;
    assert s[..|s| - |ProjectileSuffix|] == kind;
  }

  /** An engine class name "C<kind>Projectile" strips to exactly its kind. */
  lemma {:induction false} StripEngineClass(kind: string)
    ensures StripLabel("C" + kind + ProjectileSuffix) == kind
  {
    var s := "C" + kind + ProjectileSuffix;
    assert s[1..] == kind + ProjectileSuffix;
    var a := s[1..];
    assert a[|a| - |ProjectileSuffix|..] == ProjectileSuffix;
    assert a[..|a| - |ProjectileSuffix|] == kind;
  }

  /** Stripped engine kinds and the item names they stand for. */
  const LabelNames: map<string, string> := map[
    "SmokeGrenade" := "Smoke Grenade",
    "Flashbang" := "Flashbang",
    "HEGrenade" := "High Explosive Grenade",
    "MolotovGrenade" := "Molotov",
    "IncendiaryGrenade" := "Incendiary Grenade",
    "DecoyGrenade" := "Decoy Grenade"
  ]

  /** The item name of a raw label; a label without a mapping passes through stripped. */
  function NormaliseLabel(s: string): (l: string)
    ensures StripLabel(s) !in LabelNames ==> l == StripLabel(s)
    ensures StripLabel(s) in LabelNames ==> l == LabelNames[StripLabel(s)]
  {
    var k := StripLabel(s);
    if k in LabelNames then LabelNames[k] else k
  }

  /** An engine class "C<kind>Projectile" of a mapped kind gets that kind's item name. */
  lemma {:induction false} EngineClassNormalised(kind: string)
    requires kind in LabelNames
    ensures NormaliseLabel("C" + kind + ProjectileSuffix) == LabelNames[kind]
  {
    StripEngineClass(kind);
  }

  /** For example, a smoke projectile is labelled "Smoke Grenade". */
  lemma {:induction false} SmokeProjectileNormalised()
    ensures NormaliseLabel("CSmokeGrenadeProjectile") == "Smoke Grenade"
  {
    assert "C" + "SmokeGrenade" + ProjectileSuffix == "CSmokeGrenadeProjectile";
    EngineClassNormalised("SmokeGrenade");
  }

  // ---------------------------------------------------------------------------
  // The table
  // ---------------------------------------------------------------------------

  /** The raw rows the table is made of: qualifying, sorted by tick, first per entity. */
  function KeptRows(raw: seq<RawGrenade>, start: int, end: int): seq<RawGrenade>
  {
    FirstPerEntity(SortByTick(PositionedRows(WindowRows(raw, start, end))))
  }

  function ToThrow(g: RawGrenade): GrenadeThrow
  {
    GrenadeThrow(g.tick, g.thrower, NormaliseLabel(g.grenadeType))
  }

  /** Grenades thrown with `start < tick <= end`, one row per projectile, in tick order. */
  function GrenadeTable(raw: seq<RawGrenade>, start: int, end: int): (t: seq<GrenadeThrow>)
    ensures |t| == |KeptRows(raw, start, end)|
    ensures forall i :: 0 <= i < |t| ==> t[i] == ToThrow(KeptRows(raw, start, end)[i])
  {
    var kept := KeptRows(raw, start, end);
    seq(|kept|, i requires 0 <= i < |kept| => ToThrow(kept[i]))
  }

  /**
   * Every kept row qualifies and comes from the input; each entity appears at
   * most once, with its earliest qualifying tick; every entity with a
   * qualifying row appears; the rows are in tick order.
   */
  lemma {:induction false} KeptRowsCorrect(raw: seq<RawGrenade>, start: int, end: int)
    ensures forall g :: g in KeptRows(raw, start, end) ==> g in raw && Qualifies(g, start, end)
    ensures UniqueEntities(KeptRows(raw, start, end))
    ensures SortedByTick(KeptRows(raw, start, end))
    ensures forall g, q ::
              (g in KeptRows(raw, start, end) && q in raw && Qualifies(q, start, end)
               && q.entityId == g.entityId) ==> g.tick <= q.tick
    ensures forall q :: q in raw && Qualifies(q, start, end) ==>
              q.entityId in EntityIds(KeptRows(raw, start, end))
  {
    var qualifying := PositionedRows(WindowRows(raw, start, end));
    var sorted := SortByTick(qualifying);
    assert forall g :: g in sorted <==> g in qualifying by {
      forall g ensures g in sorted <==> g in qualifying {
        assert g in sorted <==> g in multiset(sorted);
        assert g in qualifying <==> g in multiset(qualifying);
      }
    }
    FirstPerEntityUnique(sorted);
    FirstPerEntitySorted(sorted);
    forall g, q | g in KeptRows(raw, start, end) && q in raw && Qualifies(q, start, end)
      && q.entityId == g.entityId
      ensures g.tick <= q.tick
    {
      FirstPerEntityEarliest(sorted, g, q);
    }
    forall q | q in raw && Qualifies(q, start, end)
      ensures q.entityId in EntityIds(KeptRows(raw, start, end))
    {
      assert q in sorted;
    }
  }

  /** The table is in tick order and empty exactly when no record qualifies. */
  lemma {:induction false} GrenadeTableShape(raw: seq<RawGrenade>, start: int, end: int)
    ensures forall i, j :: 0 <= i < j < |GrenadeTable(raw, start, end)| ==>
              GrenadeTable(raw, start, end)[i].tick <= GrenadeTable(raw, start, end)[j].tick
    ensures forall i :: 0 <= i < |GrenadeTable(raw, start, end)| ==>
              start < GrenadeTable(raw, start, end)[i].tick <= end
    ensures GrenadeTable(raw, start, end) == [] <==>
              forall q :: q in raw ==> !Qualifies(q, start, end)
  {
    KeptRowsCorrect(raw, start, end);
    var kept := KeptRows(raw, start, end);
    forall i | 0 <= i < |kept| ensures start < kept[i].tick <= end {
      assert kept[i] in kept;
    }
    if kept == [] {
      assert EntityIds(kept) == {};
    } else {
      assert kept[0] in kept;
    }
  }
}
