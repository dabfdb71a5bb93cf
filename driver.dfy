/**
 * The match loop: for every round in order, read the players at round start,
 * at the snapshot two seconds after freeze time and at the last tick of the
 * round, build the round's grenade table, extract the round's features and
 * hand them, with the round's survivors, to the next round.
 */
module Driver {
  import opened Wrappers
  import opened Snapshot
  import opened Grenades
  import opened Features
  import opened Inventory

  /**
   * One round as the replay decoder lists it: `start` is the tick at which a
   * round's start rows are read, `officialEnd - 1` the tick of its end rows,
   * and `winner` the decoder's label. The rows themselves come with the round
   * (`RoundInput`), so the model reads only `roundNum`, `freezeEnd` and `winner`.
   */
  datatype RoundMeta = RoundMeta(roundNum: int, start: int, freezeEnd: int, officialEnd: int, winner: string)

  /** Server ticks per second. */
  const TickRate := 128

  /** The snapshot is taken two seconds after freeze time ends. */
  function SnapshotTick(freezeEnd: int): int
  {
    freezeEnd + 2 * TickRate
  }

  // ---------------------------------------------------------------------------
  // The winner label
  // ---------------------------------------------------------------------------

  /**
   * The ASCII characters Python counts as whitespace: tab, line feed,
   * vertical tab, form feed, carriage return, the four separators
   * U+001C..U+001F and space.
   */
  predicate IsSpace(c: char)
  {
    ('\t' <= c <= '\r') || ('\U{001C}' <= c <= '\U{001F}') || c == ' '
  }

  /** `s` without its leading whitespace. */
  function StripLeft(s: string): (r: string)
    ensures |r| <= |s| && r == s[|s| - |r|..]
    ensures forall i :: 0 <= i < |s| - |r| ==> IsSpace(s[i])
    ensures r != [] ==> !IsSpace(r[0])
  {
    if s != [] && IsSpace(s[0]) then StripLeft(s[1..]) else s
  }

  /** `s` without its trailing whitespace. */
  function StripRight(s: string): (r: string)
    ensures |r| <= |s| && r == s[..|r|]
    ensures forall i :: |r| <= i < |s| ==> IsSpace(s[i])
    ensures r != [] ==> !IsSpace(r[|r| - 1])
  {
    if s != [] && IsSpace(s[|s| - 1]) then StripRight(s[..|s| - 1]) else s
  }

  function Strip(s: string): string
  {
    StripRight(StripLeft(s))
  }

  function LowerChar(c: char): (d: char)
    ensures 'A' <= c <= 'Z' ==> d as int == c as int + 32
    ensures !('A' <= c <= 'Z') ==> d == c
  {
    if 'A' <= c <= 'Z' then (c as int + 32) as char else c
  }

  function Lower(s: string): (r: string)
    ensures |r| == |s| && forall i :: 0 <= i < |s| ==> r[i] == LowerChar(s[i])
  {
    seq(|s|, i requires 0 <= i < |s| => LowerChar(s[i]))
  }

  /** 1 when the round's winner label reads "ct" in any case and with any padding, 0 otherwise. */
  function WinnerBit(w: string): (b: int)
    ensures b == 0 || b == 1
  {
    if Lower(Strip(w)) == "ct" then 1 else 0
  }

  /** Padding on the left of a word is dropped, and nothing more. */
  lemma {:induction false} StripLeftPadded(pre: string, core: string)
    requires forall i :: 0 <= i < |pre| ==> IsSpace(pre[i])
    requires core == [] || !IsSpace(core[0])
    ensures StripLeft(pre + core) == core
  {
    if pre == [] {
      assert pre + core == core;
    } else {
      assert (pre + core)[0] == pre[0];
      assert (pre + core)[1..] == pre[1..] + core;
      StripLeftPadded(pre[1..], core);
    }
  }

  /** Padding on the right of a word is dropped, and nothing more. */
  lemma {:induction false} StripRightPadded(core: string, post: string)
    requires forall i :: 0 <= i < |post| ==> IsSpace(post[i])
    requires core == [] || !IsSpace(core[|core| - 1])
    ensures StripRight(core + post) == core
  {
    if post == [] {
      assert core + post == core;
    } else {
      var n := |core + post|;
      assert (core + post)[n - 1] == post[|post| - 1];
      assert (core + post)[..n - 1] == core + post[..|post| - 1];
      StripRightPadded(core, post[..|post| - 1]);
    }
  }

  /** Stripping a padded word gives the word back. */
  lemma {:induction false} StripPadded(pre: string, core: string, post: string)
    requires forall i :: 0 <= i < |pre| ==> IsSpace(pre[i])
    requires forall i :: 0 <= i < |post| ==> IsSpace(post[i])
    requires core != [] && !IsSpace(core[0]) && !IsSpace(core[|core| - 1])
    ensures Strip(pre + core + post) == core
  {
    assert pre + core + post == pre + (core + post);
    StripLeftPadded(pre, core + post);
    StripRightPadded(core, post);
  }

  /** "ct", "CT", "Ct" or "cT", with any whitespace around it, is a CT win. */
  lemma {:induction false} CtLabelWins(pre: string, c: char, t: char, post: string)
    requires forall i :: 0 <= i < |pre| ==> IsSpace(pre[i])
    requires forall i :: 0 <= i < |post| ==> IsSpace(post[i])
    requires c == 'c' || c == 'C'
    requires t == 't' || t == 'T'
    ensures WinnerBit(pre + [c, t] + post) == 1
  {
    StripPadded(pre, [c, t], post);
    LowerCt(c, t);
  }

  lemma {:induction false} LowerCt(c: char, t: char)
    requires c == 'c' || c == 'C'
    requires t == 't' || t == 'T'
    ensures Lower([c, t]) == "ct"
  {
    var l := Lower([c, t]);
    assert l[0] == 'c' && l[1] == 't';
  }

  /**
   * Conversely, a CT win is a label holding "c" or "C" followed by "t" or
   * "T" and whitespace everywhere else; any other label is a T win.
   */
  lemma {:induction false} CtWinIsPadded(w: string) returns (i: int)
    requires WinnerBit(w) == 1
    ensures 0 <= i && i + 2 <= |w|
    ensures (w[i] == 'c' || w[i] == 'C') && (w[i + 1] == 't' || w[i + 1] == 'T')
    ensures forall j :: 0 <= j < |w| && j != i && j != i + 1 ==> IsSpace(w[j])
  {
    var l := StripLeft(w);
    var r := StripRight(l);
    assert Lower(r) == "ct";
    i := |w| - |l|;
    assert |r| == 2;
    assert LowerChar(r[0]) == 'c' && LowerChar(r[1]) == 't';
    assert w[i] == r[0] && w[i + 1] == r[1];
    forall j | 0 <= j < |w| && j != i && j != i + 1
      ensures IsSpace(w[j])
    {
      if j >= i + 2 {
        assert w[j] == l[j - i];
      }
    }
  }

  // ---------------------------------------------------------------------------
  // Per-round inputs
  // ---------------------------------------------------------------------------

  /** A side's score at round start: the first of its rows, 0 when the side has none. */
  function SideScore(rows: seq<PlayerRow>, side: Side): (s: int)
    ensures (forall i :: 0 <= i < |rows| ==> !OnSide(rows[i], side)) ==> s == 0
    ensures forall i :: (0 <= i < |rows| && OnSide(rows[i], side)
                         && forall j :: 0 <= j < i ==> !OnSide(rows[j], side)) ==> s == rows[i].teamRoundsTotal
  {
    if rows == [] then 0
    else if OnSide(rows[0], side) then rows[0].teamRoundsTotal
    else SideScore(rows[1..], side)
  }

  /** The rows of players still alive, in their original order. */
  function Alive(rows: seq<PlayerRow>): (r: seq<PlayerRow>)
    ensures |r| <= |rows|
    ensures forall p :: p in r <==> p in rows && p.isAlive
    ensures forall p :: multiset(r)[p] == if p.isAlive then multiset(rows)[p] else 0
  {
    assert rows != [] ==> rows == [rows[0]] + rows[1..];
    if rows == [] then []
    else if rows[0].isAlive then [rows[0]] + Alive(rows[1..])
    else Alive(rows[1..])
  }

  /** The grenades thrown after `freeze_end + 1` and up to the snapshot. */
  function RoundGrenades(m: RoundMeta, grenades: seq<RawGrenade>): seq<GrenadeThrow>
  {
    GrenadeTable(grenades, m.freezeEnd + 1, SnapshotTick(m.freezeEnd))
  }

  /** The grenade window is (freeze_end + 1, freeze_end + 256]: the tick right after freeze time is left out. */
  lemma {:induction false} RoundGrenadeWindow(m: RoundMeta, grenades: seq<RawGrenade>)
    ensures forall i :: 0 <= i < |RoundGrenades(m, grenades)| ==>
              m.freezeEnd + 1 < RoundGrenades(m, grenades)[i].tick <= m.freezeEnd + 256
  {
    GrenadeTableShape(grenades, m.freezeEnd + 1, SnapshotTick(m.freezeEnd));
  }

  /**
   * What the decoder reports for one round: the round's ticks and winner
   * label, and the players' rows at the round's start tick, at the snapshot
   * tick and one tick before the round officially ends.
   */
  datatype RoundInput = RoundInput(
    meta: RoundMeta,
    startRows: seq<PlayerRow>,
    snapshotRows: seq<PlayerRow>,
    endRows: seq<PlayerRow>)

  /** The survivors of a round: the players still alive one tick before it officially ends. */
  function Survivors(r: RoundInput): seq<PlayerRow>
  {
    Alive(r.endRows)
  }

  /** The features of round `r` given what the previous round handed on. */
  function RoundRow(r: RoundInput, mapName: string, grenades: seq<RawGrenade>,
                    prev: Option<RoundFeatures>, prevEnd: Option<seq<PlayerRow>>): RoundFeatures
  {
    ExtractRoundFeatures(
      r.startRows, r.meta.roundNum, r.snapshotRows, Some(RoundGrenades(r.meta, grenades)), mapName,
      SideScore(r.startRows, CT), SideScore(r.startRows, T), WinnerBit(r.meta.winner), prev, prevEnd)
  }

  /** The row before row `k`, if any. */
  function PrevRow(table: seq<RoundFeatures>, k: int): Option<RoundFeatures>
    requires 0 <= k <= |table|
  {
    if k == 0 then None else Some(table[k - 1])
  }

  /** The survivors of the round before round `k`, if any. */
  function PrevEnd(rounds: seq<RoundInput>, k: int): Option<seq<PlayerRow>>
    requires 0 <= k <= |rounds|
  {
    if k == 0 then None else Some(Survivors(rounds[k - 1]))
  }

  /** Row `k` is computed from round `k` and the row and survivors of the round before it. */
  predicate RowThreaded(table: seq<RoundFeatures>, rounds: seq<RoundInput>, mapName: string,
                        grenades: seq<RawGrenade>, k: int)
    requires 0 <= k < |table| <= |rounds|
  {
    table[k] == RoundRow(rounds[k], mapName, grenades, PrevRow(table, k), PrevEnd(rounds, k))
  }

  /** A table threaded through the rounds: one row per round, in order, each threaded. */
  predicate Threaded(table: seq<RoundFeatures>, rounds: seq<RoundInput>, mapName: string,
                     grenades: seq<RawGrenade>)
  {
    |table| == |rounds| &&
    forall k :: 0 <= k < |table| ==> RowThreaded(table, rounds, mapName, grenades, k)
  }

  /** Appending a row leaves the rows before it threaded. */
  lemma {:induction false} RowThreadedAppend(table: seq<RoundFeatures>, rounds: seq<RoundInput>, mapName: string,
                          grenades: seq<RawGrenade>, row: RoundFeatures, k: int)
    requires 0 <= k < |table| < |rounds|
    requires RowThreaded(table, rounds, mapName, grenades, k)
    ensures RowThreaded(table + [row], rounds, mapName, grenades, k)
  {
    assert PrevRow(table + [row], k) == PrevRow(table, k);
  }

  /** The row computed from the last row of a prefix is threaded once appended. */
  lemma {:induction false} RowThreadedLast(table: seq<RoundFeatures>, rounds: seq<RoundInput>, mapName: string,
                        grenades: seq<RawGrenade>, row: RoundFeatures)
    requires |table| < |rounds|
    requires row == RoundRow(rounds[|table|], mapName, grenades, PrevRow(table, |table|), PrevEnd(rounds, |table|))
    ensures RowThreaded(table + [row], rounds, mapName, grenades, |table|)
  {
    assert PrevRow(table + [row], |table|) == PrevRow(table, |table|);
  }

  /** A threaded prefix extended with the next round's row is a threaded prefix. */
  lemma {:induction false} PrefixExtend(table: seq<RoundFeatures>, rounds: seq<RoundInput>, mapName: string,
                     grenades: seq<RawGrenade>, row: RoundFeatures)
    requires |table| < |rounds|
    requires forall k :: 0 <= k < |table| ==> RowThreaded(table, rounds, mapName, grenades, k)
    requires row == RoundRow(rounds[|table|], mapName, grenades, PrevRow(table, |table|), PrevEnd(rounds, |table|))
    ensures forall k :: 0 <= k <= |table| ==> RowThreaded(table + [row], rounds, mapName, grenades, k)
  {
    forall k | 0 <= k <= |table|
      ensures RowThreaded(table + [row], rounds, mapName, grenades, k)
    {
      if k < |table| {
        RowThreadedAppend(table, rounds, mapName, grenades, row, k);
      } else {
        RowThreadedLast(table, rounds, mapName, grenades, row);
      }
    }
  }

  /** Extracts the features of every round of a match, each round seeing its predecessor. */
  method ParseDemo(rounds: seq<RoundInput>, mapName: string, grenades: seq<RawGrenade>)
    returns (table: seq<RoundFeatures>)
    ensures Threaded(table, rounds, mapName, grenades)
  {
    table := [];
    var previous: Option<RoundFeatures> := None;
    var previousEnd: Option<seq<PlayerRow>> := None;
    for i := 0 to |rounds|
      invariant |table| == i
      invariant forall k :: 0 <= k < i ==> RowThreaded(table, rounds, mapName, grenades, k)
      invariant previous == PrevRow(table, i)
      invariant previousEnd == PrevEnd(rounds, i)
    {
      var features := RoundRow(rounds[i], mapName, grenades, previous, previousEnd);
      PrefixExtend(table, rounds, mapName, grenades, features);
      table := table + [features];
      previous := Some(features);
      previousEnd := Some(Survivors(rounds[i]));
    }
  }

  // ---------------------------------------------------------------------------
  // Properties of a threaded table
  // ---------------------------------------------------------------------------

  /**
   * Each row carries its round's number, the map, the scores read at round
   * start, each side's features from its round's start and snapshot rows and
   * grenade window, the winner bit of its round's label, the overtime flag, the
   * streaks that follow from the row before it and what the survivors of the
   * round before it carried over.
   */
  lemma {:induction false} RowFields(table: seq<RoundFeatures>, rounds: seq<RoundInput>, mapName: string,
                  grenades: seq<RawGrenade>, k: int)
    requires Threaded(table, rounds, mapName, grenades) && 0 <= k < |table|
    ensures table[k].roundNumber == rounds[k].meta.roundNum
    ensures table[k].mapName == mapName
    ensures table[k].ctScore == SideScore(rounds[k].startRows, CT)
    ensures table[k].tScore == SideScore(rounds[k].startRows, T)
    ensures table[k].ct == ExtractSide(CT, rounds[k].startRows, rounds[k].snapshotRows,
                                       Some(RoundGrenades(rounds[k].meta, grenades)))
    ensures table[k].t == ExtractSide(T, rounds[k].startRows, rounds[k].snapshotRows,
                                      Some(RoundGrenades(rounds[k].meta, grenades)))
    ensures table[k].ctDefuserCount == DefuserCount(SideRows(rounds[k].snapshotRows, CT))
    ensures table[k].ctAkCount == CountWeapon(SideRows(rounds[k].snapshotRows, CT), Item("AK-47"))
    ensures table[k].isOvertime == IsOvertime(rounds[k].meta.roundNum)
    ensures table[k].roundWinner == WinnerBit(rounds[k].meta.winner)
    ensures table[k].streaks == NextStreaks(IsSideSwitch(rounds[k].meta.roundNum), PrevRow(table, k))
    ensures table[k].carry == CarryOver(IsSideSwitch(rounds[k].meta.roundNum), PrevEnd(rounds, k))
  {
    assert RowThreaded(table, rounds, mapName, grenades, k);
  }

  /** The winner bit of every row is 0 or 1, and 1 exactly when its round's label reads "ct". */
  lemma {:induction false} ThreadedWinners(table: seq<RoundFeatures>, rounds: seq<RoundInput>, mapName: string,
                        grenades: seq<RawGrenade>, k: int)
    requires Threaded(table, rounds, mapName, grenades) && 0 <= k < |table|
    ensures table[k].roundWinner == 0 || table[k].roundWinner == 1
    ensures table[k].roundWinner == 1 <==> Lower(Strip(rounds[k].meta.winner)) == "ct"
  {
    RowFields(table, rounds, mapName, grenades, k);
  }

  /** The first round and every side-switch round start with no streaks and nothing carried over. */
  lemma {:induction false} ThreadedResets(table: seq<RoundFeatures>, rounds: seq<RoundInput>, mapName: string,
                       grenades: seq<RawGrenade>, k: int)
    requires Threaded(table, rounds, mapName, grenades) && 0 <= k < |table|
    requires k == 0 || IsSideSwitch(table[k].roundNumber)
    ensures table[k].streaks == Streaks(0, 0, 0, 0) && table[k].carry == Carry(0, 0, 0, 0)
  {
    RowFields(table, rounds, mapName, grenades, k);
  }

  /**
   * Every other round continues the streaks of the row before it and counts
   * as survivors only the players alive at the end of the round before it.
   */
  lemma {:induction false} ThreadedCarry(table: seq<RoundFeatures>, rounds: seq<RoundInput>, mapName: string,
                      grenades: seq<RawGrenade>, k: int)
    requires Threaded(table, rounds, mapName, grenades)
    requires 0 < k < |table| && !IsSideSwitch(table[k].roundNumber)
    ensures table[k].streaks == NextStreaks(false, Some(table[k - 1]))
    ensures table[k].carry.ctSurvivors == |SideRows(Alive(rounds[k - 1].endRows), CT)|
    ensures table[k].carry.tSurvivors == |SideRows(Alive(rounds[k - 1].endRows), T)|
    ensures table[k].carry.ctSavedValue == SumEquipValue(SideRows(Alive(rounds[k - 1].endRows), CT))
    ensures table[k].carry.tSavedValue == SumEquipValue(SideRows(Alive(rounds[k - 1].endRows), T))
  {
    RowFields(table, rounds, mapName, grenades, k);
    CarryCounts(Alive(rounds[k - 1].endRows));
  }

  /** Row `k` follows the streak rules from the row before it. */
  predicate StreaksLinked(table: seq<RoundFeatures>, rounds: seq<RoundInput>, k: int)
    requires 0 <= k < |table| <= |rounds|
  {
    (table[k].roundWinner == 0 || table[k].roundWinner == 1)
    && table[k].streaks == NextStreaks(IsSideSwitch(rounds[k].meta.roundNum), PrevRow(table, k))
  }

  lemma {:induction false} LinkedStreaksMirrored(table: seq<RoundFeatures>, rounds: seq<RoundInput>, k: int)
    requires 0 <= k < |table| <= |rounds|
    requires forall j :: 0 <= j <= k ==> StreaksLinked(table, rounds, j)
    ensures Mirrored(table[k].streaks) && OneWay(table[k].streaks)
    decreases k
  {
    assert StreaksLinked(table, rounds, k);
    if k == 0 {
      StreaksStayMirrored(IsSideSwitch(rounds[k].meta.roundNum), None);
    } else {
      LinkedStreaksMirrored(table, rounds, k - 1);
      assert StreaksLinked(table, rounds, k - 1);
      StreaksStayMirrored(IsSideSwitch(rounds[k].meta.roundNum), Some(table[k - 1]));
    }
  }

  /**
   * Over a whole match one side's win streak is the other side's loss streak,
   * and no side is ever on a win and a loss streak at once.
   */
  lemma {:induction false} ThreadedStreaksMirrored(table: seq<RoundFeatures>, rounds: seq<RoundInput>,
                                mapName: string, grenades: seq<RawGrenade>, k: int)
    requires Threaded(table, rounds, mapName, grenades)
    requires 0 <= k < |table|
    ensures Mirrored(table[k].streaks) && OneWay(table[k].streaks)
  {
    forall j | 0 <= j <= k
      ensures StreaksLinked(table, rounds, j)
    {
      RowFields(table, rounds, mapName, grenades, j);
    }
    LinkedStreaksMirrored(table, rounds, k);
  }
}
