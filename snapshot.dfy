/**
 * Per-player rows as the replay decoder returns them at one tick, and the
 * per-side selections and sums the feature extractor takes over them.
 */
module Snapshot {
  import opened Wrappers

  datatype Side = CT | T

  /**
   * One player's state at one tick. Every query of the decoder asks
   * for a subset of these fields; the model keeps them all in one record.
   */
  datatype PlayerRow = PlayerRow(
    name: string,
    teamName: string,
    balance: int,
    equipValue: int,
    armorValue: int,
    hasHelmet: bool,
    hasDefuser: bool,
    inventory: seq<string>,
    teamRoundsTotal: int,
    isAlive: bool)

  /** The decoder's team name mapped to a side: "CT" and "TERRORIST"; any other name has no side. */
  function SideOf(teamName: string): (s: Option<Side>)
    ensures s == Some(CT) <==> teamName == "CT"
    ensures s == Some(T) <==> teamName == "TERRORIST"
  {
    if teamName == "CT" then Some(CT)
    else if teamName == "TERRORIST" then Some(T)
    else None
  }

  predicate OnSide(p: PlayerRow, side: Side)
  {
    SideOf(p.teamName) == Some(side)
  }

  /** The rows of one side, in their original order. */
  function SideRows(rows: seq<PlayerRow>, side: Side): (r: seq<PlayerRow>)
    ensures |r| <= |rows|
    ensures forall p :: p in r <==> p in rows && OnSide(p, side)
    ensures forall p :: multiset(r)[p] == if OnSide(p, side) then multiset(rows)[p] else 0
  {
    assert rows != [] ==> rows == [rows[0]] + rows[1..];
    if rows == [] then []
    else if OnSide(rows[0], side) then [rows[0]] + SideRows(rows[1..], side)
    else SideRows(rows[1..], side)
  }

  /** Number of rows that carry a side at all. */
  function SidedCount(rows: seq<PlayerRow>): nat
  {
    if rows == [] then 0
    else (if SideOf(rows[0].teamName).Some? then 1 else 0) + SidedCount(rows[1..])
  }

  /** Splitting by side loses no sided row and counts none twice. */
  lemma {:induction false} SidesPartition(rows: seq<PlayerRow>)
    ensures |SideRows(rows, CT)| + |SideRows(rows, T)| == SidedCount(rows)
  {
    if rows != [] {
      SidesPartition(rows[1..]);
    }
  }

  function SumBalance(rows: seq<PlayerRow>): int
  {
    if rows == [] then 0 else rows[0].balance + SumBalance(rows[1..])
  }

  function SumEquipValue(rows: seq<PlayerRow>): int
  {
    if rows == [] then 0 else rows[0].equipValue + SumEquipValue(rows[1..])
  }

  /** Players wearing any armour. */
  function ArmoredCount(rows: seq<PlayerRow>): (n: nat)
    ensures n <= |rows|
  {
    if rows == [] then 0 else (if rows[0].armorValue > 0 then 1 else 0) + ArmoredCount(rows[1..])
  }

  function HelmetCount(rows: seq<PlayerRow>): (n: nat)
    ensures n <= |rows|
  {
    if rows == [] then 0 else (if rows[0].hasHelmet then 1 else 0) + HelmetCount(rows[1..])
  }

  function DefuserCount(rows: seq<PlayerRow>): (n: nat)
    ensures n <= |rows|
  {
    if rows == [] then 0 else (if rows[0].hasDefuser then 1 else 0) + DefuserCount(rows[1..])
  }

  /** The set of player names among the rows. */
  function PlayerNames(rows: seq<PlayerRow>): (s: set<string>)
    ensures forall n :: n in s <==> exists p :: p in rows && p.name == n
  {
    set p | p in rows :: p.name
  }

  /** Every player's inventory, concatenated in row order. */
  function Flatten(rows: seq<PlayerRow>): (items: seq<string>)
    ensures forall p, x :: p in rows && x in p.inventory ==> x in items
  {
    if rows == [] then [] else rows[0].inventory + Flatten(rows[1..])
  }

  /** The money a side brings into the round: balance plus equipment value, player by player. */
  function MoneyTotal(rows: seq<PlayerRow>): (m: int)
    ensures m == SumBalance(rows) + SumEquipValue(rows)
  {
    if rows == [] then 0 else rows[0].balance + rows[0].equipValue + MoneyTotal(rows[1..])
  }
}
