/**
 * The feature validator: eight checks over a feature table, in the order the
 * table lists its rows, each recording whether it passed and its issues and
 * pushing at most one message to the errors or the warnings, then a summary.
 */
module Validation {
  import opened Wrappers
  import opened Features

  /** At most 16000 per player and five players per team. */
  const MaxMoneyTotal := 16000 * 5

  /** 800 per player and no equipment in the pistol round. */
  const PistolMoneyTotal := 800 * 5

  /** How many issues the score and winner checks keep. */
  const ShownIssues := 5

  datatype CheckName =
    | PlayerCount
    | MoneyRange
    | AwpCount
    | ScoreProgression
    | StreakResets
    | EquipmentResets
    | WinnerConsistency
    | PistolRound

  /** What a check reports; issue texts are reduced to the numbers they show. */
  datatype Issue =
    | OverMax(ctRows: nat, tRows: nat)
    | InvalidAwpRows(rows: nat)
    | ScoreJump(round: int, increase: int)
    | StreaksNotReset(round: int)
    | SavedNotReset(round: int)
    | CtRoseWinner(round: int, winner: int)
    | TRoseWinner(round: int, winner: int)
    | CtPistolMoney(money: int)
    | TPistolMoney(money: int)
    | PistolAwps
    | PistolRifles

  /** Entries of the errors and warnings lists. */
  datatype Message =
    | MoneyExceeds(rows: nat)
    | AwpOutOfRange
    | ScoreIssues(count: nat)
    | StreakIssues(count: nat)
    | EquipmentIssues(count: nat)
    | WinnerIssues(count: nat)
    | PistolUnusual

  datatype Check = Check(name: CheckName, passed: bool, issues: seq<Issue>)

  /** One check's entry and what it adds to the errors and the warnings. */
  datatype Outcome = Outcome(check: Check, errors: seq<Message>, warnings: seq<Message>)

  datatype Summary = Summary(totalChecks: nat, passed: nat, failed: int, warnings: nat, errors: nat)

  datatype Report = Report(
    totalRounds: nat,
    checks: seq<Check>,
    warnings: seq<Message>,
    errors: seq<Message>,
    summary: Summary)

  /** The pistol-round check looks up a round numbered 1; without one validation fails. */
  datatype ValidationError = NoPistolRound

  // ---------------------------------------------------------------------------
  // Column filters: money and AWP counts
  // ---------------------------------------------------------------------------

  /** Number of rows satisfying `p`. */
  function CountWhere(df: seq<RoundFeatures>, p: RoundFeatures -> bool): (n: nat)
    ensures n <= |df|
    ensures n == 0 <==> forall i :: 0 <= i < |df| ==> !p(df[i])
  {
    if df == [] then 0
    else CountWhere(df[..|df| - 1], p) + (if p(df[|df| - 1]) then 1 else 0)
  }

  predicate CtMoneyOver(r: RoundFeatures) { r.ct.moneyTotal > MaxMoneyTotal }
  predicate TMoneyOver(r: RoundFeatures) { r.t.moneyTotal > MaxMoneyTotal }
  predicate CtAwpInvalid(r: RoundFeatures) { r.ct.awpCount < 0 || r.ct.awpCount > 5 }
  predicate TAwpInvalid(r: RoundFeatures) { r.t.awpCount < 0 || r.t.awpCount > 5 }

  /** Always passed: the check is recorded but tests nothing. */
  function PlayerCountOutcome(): (o: Outcome)
    ensures o.check.name == PlayerCount && o.check.passed
    ensures o.errors == [] && o.warnings == []
  {
    Outcome(Check(PlayerCount, true, []), [], [])
  }

  /** Rows whose CT total is over the maximum plus rows whose T total is. */
  function MoneyOverRows(df: seq<RoundFeatures>): nat
  {
    CountWhere(df, CtMoneyOver) + CountWhere(df, TMoneyOver)
  }

  /** Money totals above the maximum are an error, counted over both sides. */
  function MoneyRangeOutcome(df: seq<RoundFeatures>): (o: Outcome)
    ensures o.check.name == MoneyRange
    ensures o.check.passed <==>
              forall i :: 0 <= i < |df| ==> df[i].ct.moneyTotal <= MaxMoneyTotal && df[i].t.moneyTotal <= MaxMoneyTotal
    ensures o.warnings == [] && (o.errors == [] <==> o.check.passed)
    ensures !o.check.passed ==>
              o.errors == [MoneyExceeds(MoneyOverRows(df))]
  {
    var ct := CountWhere(df, CtMoneyOver);
    var t := CountWhere(df, TMoneyOver);
    if ct > 0 || t > 0 then
      Outcome(Check(MoneyRange, false, [OverMax(ct, t)]), [MoneyExceeds(MoneyOverRows(df))], [])
    else
      Outcome(Check(MoneyRange, true, []), [], [])
  }

  /** AWP counts outside 0..5 on either side are an error. */
  function AwpCountOutcome(df: seq<RoundFeatures>): (o: Outcome)
    ensures o.check.name == AwpCount
    ensures o.check.passed <==>
              forall i :: 0 <= i < |df| ==> 0 <= df[i].ct.awpCount <= 5 && 0 <= df[i].t.awpCount <= 5
    ensures o.warnings == [] && (o.errors == [] <==> o.check.passed)
    ensures !o.check.passed ==> o.errors == [AwpOutOfRange]
  {
    var ct := CountWhere(df, CtAwpInvalid);
    var t := CountWhere(df, TAwpInvalid);
    if ct > 0 || t > 0 then
      Outcome(Check(AwpCount, false, [InvalidAwpRows(ct + t)]), [AwpOutOfRange], [])
    else
      Outcome(Check(AwpCount, true, []), [], [])
  }

  // ---------------------------------------------------------------------------
  // Row-by-row checks
  // ---------------------------------------------------------------------------

  /** The issues one row-by-row check records for row `i` of a table (none outside the table). */
  type RowIssues = (seq<RoundFeatures>, int) -> seq<Issue>

  /** How much the two scores together rose from row `i - 1` to row `i`. */
  function ScoreIncrease(df: seq<RoundFeatures>, i: int): int
    requires 1 <= i < |df|
  {
    (df[i].ctScore - df[i - 1].ctScore) + (df[i].tScore - df[i - 1].tScore)
  }

  /** Outside side switches, the scores rise by exactly 1 from one row to the next. */
  function ScoreRowIssues(df: seq<RoundFeatures>, i: int): (r: seq<Issue>)
    ensures |r| <= 1
    ensures r == [] <==> !(1 <= i < |df|) || IsSideSwitch(df[i].roundNumber) || ScoreIncrease(df, i) == 1
  {
    if 1 <= i < |df| && !IsSideSwitch(df[i].roundNumber) && ScoreIncrease(df, i) != 1
    then [ScoreJump(df[i].roundNumber, ScoreIncrease(df, i))] else []
  }

  /** At a side switch all four streak counters are 0. */
  function StreakRowIssues(df: seq<RoundFeatures>, i: int): (r: seq<Issue>)
    ensures |r| <= 1
    ensures r == [] <==> !(0 <= i < |df|) || !IsSideSwitch(df[i].roundNumber) || df[i].streaks == Streaks(0, 0, 0, 0)
  {
    if 0 <= i < |df| && IsSideSwitch(df[i].roundNumber) && df[i].streaks != Streaks(0, 0, 0, 0)
    then [StreaksNotReset(df[i].roundNumber)] else []
  }

  /** At a side switch no survivors and no saved equipment are carried over. */
  function EquipmentRowIssues(df: seq<RoundFeatures>, i: int): (r: seq<Issue>)
    ensures |r| <= 1
    ensures r == [] <==> !(0 <= i < |df|) || !IsSideSwitch(df[i].roundNumber) || df[i].carry == Carry(0, 0, 0, 0)
  {
    if 0 <= i < |df| && IsSideSwitch(df[i].roundNumber) && df[i].carry != Carry(0, 0, 0, 0)
    then [SavedNotReset(df[i].roundNumber)] else []
  }

  /** A rise in a side's score is backed by the previous row's winner. */
  predicate WinnerAccounts(prev: RoundFeatures, curr: RoundFeatures)
  {
    (curr.ctScore > prev.ctScore ==> prev.roundWinner == 1) &&
    (curr.tScore > prev.tScore ==> prev.roundWinner == 0)
  }

  /** Outside side switches, a side's score rises only when the previous row says it won. */
  function WinnerRowIssues(df: seq<RoundFeatures>, i: int): (r: seq<Issue>)
    ensures |r| <= 2
    ensures r == [] <==> !(1 <= i < |df|) || IsSideSwitch(df[i].roundNumber) || WinnerAccounts(df[i - 1], df[i])
  {
    if !(1 <= i < |df|) || IsSideSwitch(df[i].roundNumber) then []
    else
      var round := df[i].roundNumber;
      var w := df[i - 1].roundWinner;
      var ctRose := df[i].ctScore > df[i - 1].ctScore && w != 1;
      var tRose := df[i].tScore > df[i - 1].tScore && w != 0;
      if ctRose && tRose then [CtRoseWinner(round, w), TRoseWinner(round, w)]
      else if ctRose then [CtRoseWinner(round, w)]
      else if tRose then [TRoseWinner(round, w)]
      else []
  }

  /** The issues a check collects from the first `n` rows, in row order. */
  function Collected(f: RowIssues, df: seq<RoundFeatures>, n: int): seq<Issue>
    requires 0 <= n <= |df|
  {
    if n == 0 then [] else Collected(f, df, n - 1) + f(df, n - 1)
  }

  /** Number of rows among the first `n` for which the check records something. */
  function FailingRows(f: RowIssues, df: seq<RoundFeatures>, n: int): (c: nat)
    requires 0 <= n <= |df|
    ensures c <= n
  {
    if n == 0 then 0 else FailingRows(f, df, n - 1) + (if f(df, n - 1) == [] then 0 else 1)
  }

  /** A check collects nothing exactly when it records nothing for any row. */
  lemma {:induction false} CollectedEmpty(f: RowIssues, df: seq<RoundFeatures>, n: int)
    requires 0 <= n <= |df|
    ensures Collected(f, df, n) == [] <==> forall i :: 0 <= i < n ==> f(df, i) == []
  {
    if n > 0 {
      CollectedEmpty(f, df, n - 1);
    }
  }

  /**
   * A check recording at most `m` issues per row collects at least one issue
   * per failing row and at most `m`.
   */
  lemma {:induction false} CollectedCount(f: RowIssues, df: seq<RoundFeatures>, n: int, m: nat)
    requires 0 <= n <= |df|
    requires forall i :: 0 <= i < n ==> |f(df, i)| <= m
    ensures FailingRows(f, df, n) <= |Collected(f, df, n)| <= m * FailingRows(f, df, n)
  {
    if n > 0 {
      CollectedCount(f, df, n - 1, m);
      var k := FailingRows(f, df, n - 1);
      assert m * (k + 1) == m * k + m;
    }
  }

  /** Collects the score issues: adjacent rows, outside side switches, whose scores rose by other than 1. */
  method ScoreProgressionIssues(df: seq<RoundFeatures>) returns (issues: seq<Issue>)
    ensures issues == Collected(ScoreRowIssues, df, |df|)
  {
    issues := [];
    if |df| == 0 {
      return;
    }
    for i := 1 to |df|
      invariant issues == Collected(ScoreRowIssues, df, i)
    {
      var prevCt := df[i - 1].ctScore;
      var prevT := df[i - 1].tScore;
      var currCt := df[i].ctScore;
      var currT := df[i].tScore;
      var currRound := df[i].roundNumber;
      if !IsSideSwitch(currRound) {
        var totalIncrease := (currCt - prevCt) + (currT - prevT);
        if totalIncrease != 1 {
          issues := issues + [ScoreJump(currRound, totalIncrease)];
        }
      }
    }
  }

  /** Collects the side-switch rows whose streaks were not reset. */
  method StreakResetIssues(df: seq<RoundFeatures>) returns (issues: seq<Issue>)
    ensures issues == Collected(StreakRowIssues, df, |df|)
  {
    issues := [];
    for i := 0 to |df|
      invariant issues == Collected(StreakRowIssues, df, i)
    {
      var row := df[i];
      if IsSideSwitch(row.roundNumber) {
        if row.streaks.ctWon != 0 || row.streaks.ctLost != 0
           || row.streaks.tWon != 0 || row.streaks.tLost != 0 {
          issues := issues + [StreaksNotReset(row.roundNumber)];
        }
      }
    }
  }

  /** Collects the side-switch rows that carry survivors or saved equipment over. */
  method EquipmentResetIssues(df: seq<RoundFeatures>) returns (issues: seq<Issue>)
    ensures issues == Collected(EquipmentRowIssues, df, |df|)
  {
    issues := [];
    for i := 0 to |df|
      invariant issues == Collected(EquipmentRowIssues, df, i)
    {
      var row := df[i];
      if IsSideSwitch(row.roundNumber) {
        if row.carry.ctSavedValue != 0 || row.carry.tSavedValue != 0
           || row.carry.ctSurvivors != 0 || row.carry.tSurvivors != 0 {
          issues := issues + [SavedNotReset(row.roundNumber)];
        }
      }
    }
  }

  /** Collects the score rises the previous row's winner does not account for. */
  method WinnerConsistencyIssues(df: seq<RoundFeatures>) returns (issues: seq<Issue>)
    ensures issues == Collected(WinnerRowIssues, df, |df|)
  {
    issues := [];
    if |df| == 0 {
      return;
    }
    for i := 1 to |df|
      invariant issues == Collected(WinnerRowIssues, df, i)
    {
      var prevCt := df[i - 1].ctScore;
      var prevT := df[i - 1].tScore;
      var currCt := df[i].ctScore;
      var currT := df[i].tScore;
      var currRound := df[i].roundNumber;
      var found: seq<Issue> := [];
      if !IsSideSwitch(currRound) {
        var prevWinner := df[i - 1].roundWinner;
        if currCt > prevCt && prevWinner != 1 {
          found := found + [CtRoseWinner(currRound, prevWinner)];
        }
        if currT > prevT && prevWinner != 0 {
          found := found + [TRoseWinner(currRound, prevWinner)];
        }
      }
      assert found == WinnerRowIssues(df, i);
      issues := issues + found;
    }
  }

  /** The first `ShownIssues` issues, or all of them when there are fewer. */
  function Shown(all: seq<Issue>): (s: seq<Issue>)
    ensures |s| <= ShownIssues && s <= all
    ensures |all| <= ShownIssues ==> s == all
  {
    if |all| <= ShownIssues then all else all[..ShownIssues]
  }

  /** The score check keeps the first issues; its error counts all of them. */
  function ScoreOutcome(all: seq<Issue>): Outcome
  {
    var passed := all == [];
    Outcome(Check(ScoreProgression, passed, Shown(all)), if passed then [] else [ScoreIssues(|all|)], [])
  }

  /** The streak check keeps every issue and counts them in its error. */
  function StreakOutcome(all: seq<Issue>): Outcome
  {
    var passed := all == [];
    Outcome(Check(StreakResets, passed, all), if passed then [] else [StreakIssues(|all|)], [])
  }

  /** The equipment check keeps every issue and counts them in its error. */
  function EquipmentOutcome(all: seq<Issue>): Outcome
  {
    var passed := all == [];
    Outcome(Check(EquipmentResets, passed, all), if passed then [] else [EquipmentIssues(|all|)], [])
  }

  /** The winner check keeps the first issues and only warns, counting all of them. */
  function WinnerOutcome(all: seq<Issue>): Outcome
  {
    var passed := all == [];
    Outcome(Check(WinnerConsistency, passed, Shown(all)), [], if passed then [] else [WinnerIssues(|all|)])
  }

  // ---------------------------------------------------------------------------
  // Pistol round
  // ---------------------------------------------------------------------------

  /** The index of the first row numbered round 1, if any. */
  function FirstPistolRow(df: seq<RoundFeatures>): (o: Option<nat>)
    ensures o.None? <==> forall i :: 0 <= i < |df| ==> df[i].roundNumber != 1
    ensures o.Some? ==> o.value < |df| && df[o.value].roundNumber == 1
    ensures o.Some? ==> forall j :: 0 <= j < o.value ==> df[j].roundNumber != 1
  {
    if df == [] then None
    else if df[0].roundNumber == 1 then Some(0)
    else match FirstPistolRow(df[1..])
      case None => None
      case Some(i) => Some(i + 1)
  }

  /** Unusual pistol-round money, AWPs or rifles are a warning. */
  function PistolOutcome(first: RoundFeatures): (o: Outcome)
    ensures o.check.name == PistolRound
    ensures o.check.passed <==>
              first.ct.moneyTotal == PistolMoneyTotal && first.t.moneyTotal == PistolMoneyTotal
              && first.ct.awpCount <= 0 && first.t.awpCount <= 0
              && first.ct.rifleCount <= 0 && first.t.rifleCount <= 0
    ensures o.errors == [] && (o.warnings == [] <==> o.check.passed)
    ensures !o.check.passed ==> o.warnings == [PistolUnusual]
  {
    var issues :=
      (if first.ct.moneyTotal != PistolMoneyTotal then [CtPistolMoney(first.ct.moneyTotal)] else [])
      + (if first.t.moneyTotal != PistolMoneyTotal then [TPistolMoney(first.t.moneyTotal)] else [])
      + (if first.ct.awpCount > 0 || first.t.awpCount > 0 then [PistolAwps] else [])
      + (if first.ct.rifleCount > 0 || first.t.rifleCount > 0 then [PistolRifles] else []);
    if issues == [] then Outcome(Check(PistolRound, true, []), [], [])
    else Outcome(Check(PistolRound, false, issues), [], [PistolUnusual])
  }

  // ---------------------------------------------------------------------------
  // Summary and the whole validation
  // ---------------------------------------------------------------------------

  /** Number of passed checks. */
  function PassedCount(checks: seq<Check>): (n: nat)
    ensures n <= |checks|
    ensures n == |checks| <==> forall i :: 0 <= i < |checks| ==> checks[i].passed
  {
    if checks == [] then 0
    else PassedCount(checks[..|checks| - 1]) + (if checks[|checks| - 1].passed then 1 else 0)
  }

  function Summarize(checks: seq<Check>, warnings: seq<Message>, errors: seq<Message>): (s: Summary)
    ensures s.totalChecks == |checks| && s.passed + s.failed == s.totalChecks
    ensures 0 <= s.failed && (s.failed == 0 <==> forall i :: 0 <= i < |checks| ==> checks[i].passed)
    ensures s.warnings == |warnings| && s.errors == |errors|
  {
    var passed := PassedCount(checks);
    Summary(|checks|, passed, |checks| - passed, |warnings|, |errors|)
  }

  /** Every check, in order, computed on the whole table whatever the others found. */
  function Outcomes(df: seq<RoundFeatures>, first: RoundFeatures): seq<Outcome>
  {
    [PlayerCountOutcome(),
     MoneyRangeOutcome(df),
     AwpCountOutcome(df),
     ScoreOutcome(Collected(ScoreRowIssues, df, |df|)),
     StreakOutcome(Collected(StreakRowIssues, df, |df|)),
     EquipmentOutcome(Collected(EquipmentRowIssues, df, |df|)),
     WinnerOutcome(Collected(WinnerRowIssues, df, |df|)),
     PistolOutcome(first)]
  }

  /** The entries of the checks, in the order they ran. */
  function ChecksOf(os: seq<Outcome>): (r: seq<Check>)
    requires |os| == 8
    ensures |r| == 8 && forall k :: 0 <= k < 8 ==> r[k] == os[k].check
  {
    [os[0].check, os[1].check, os[2].check, os[3].check,
     os[4].check, os[5].check, os[6].check, os[7].check]
  }

  /** The errors, in the order the checks pushed them. */
  function ErrorsOf(os: seq<Outcome>): seq<Message>
    requires |os| == 8
  {
    os[0].errors + os[1].errors + os[2].errors + os[3].errors
    + os[4].errors + os[5].errors + os[6].errors + os[7].errors
  }

  /** The warnings, in the order the checks pushed them. */
  function WarningsOf(os: seq<Outcome>): seq<Message>
    requires |os| == 8
  {
    os[0].warnings + os[1].warnings + os[2].warnings + os[3].warnings
    + os[4].warnings + os[5].warnings + os[6].warnings + os[7].warnings
  }

  /** The report: the checks in order, their messages in order, and the summary. */
  function Validate(df: seq<RoundFeatures>): Result<Report, ValidationError>
  {
    match FirstPistolRow(df)
    case None => Failure(NoPistolRound)
    case Some(i) =>
      var os := Outcomes(df, df[i]);
      var checks := ChecksOf(os);
      var warnings := WarningsOf(os);
      var errors := ErrorsOf(os);
      Success(Report(|df|, checks, warnings, errors, Summarize(checks, warnings, errors)))
  }

  /** The report of a table with a round numbered 1, from its outcomes. */
  lemma {:induction false} ValidateReport(df: seq<RoundFeatures>, i: nat,
      playerCount: Outcome, money: Outcome, awp: Outcome, score: Outcome,
      streak: Outcome, equipment: Outcome, winner: Outcome, pistol: Outcome)
    requires FirstPistolRow(df) == Some(i)
    requires playerCount == PlayerCountOutcome() && money == MoneyRangeOutcome(df) && awp == AwpCountOutcome(df)
    requires score == ScoreOutcome(Collected(ScoreRowIssues, df, |df|))
    requires streak == StreakOutcome(Collected(StreakRowIssues, df, |df|))
    requires equipment == EquipmentOutcome(Collected(EquipmentRowIssues, df, |df|))
    requires winner == WinnerOutcome(Collected(WinnerRowIssues, df, |df|))
    requires pistol == PistolOutcome(df[i])
    ensures var os := [playerCount, money, awp, score, streak, equipment, winner, pistol];
            Validate(df) ==
            Success(Report(|df|, ChecksOf(os), WarningsOf(os), ErrorsOf(os),
                           Summarize(ChecksOf(os), WarningsOf(os), ErrorsOf(os))))
  {
  }

  /** Entries recorded one check at a time are the entries of the checks in order. */
  lemma {:induction false} ChecksInOrder(os: seq<Outcome>, checks: seq<Check>)
    requires |os| == 8
    requires checks == [] + [os[0].check] + [os[1].check] + [os[2].check] + [os[3].check]
                          + [os[4].check] + [os[5].check] + [os[6].check] + [os[7].check]
    ensures checks == ChecksOf(os)
  {
  }

  /** Messages appended one check at a time are the messages of the checks in order. */
  lemma {:induction false} MessagesInOrder(os: seq<Outcome>, warnings: seq<Message>, errors: seq<Message>)
    requires |os| == 8
    requires warnings == [] + os[0].warnings + os[1].warnings + os[2].warnings + os[3].warnings
                            + os[4].warnings + os[5].warnings + os[6].warnings + os[7].warnings
    requires errors == [] + os[0].errors + os[1].errors + os[2].errors + os[3].errors
                          + os[4].errors + os[5].errors + os[6].errors + os[7].errors
    ensures warnings == WarningsOf(os) && errors == ErrorsOf(os)
  {
    assert [] + os[0].warnings == os[0].warnings;
    assert [] + os[0].errors == os[0].errors;
  }

  /** Records one check's entry and appends what it pushed to the warnings and the errors. */
  method Record(checks: seq<Check>, warnings: seq<Message>, errors: seq<Message>, o: Outcome)
    returns (checks': seq<Check>, warnings': seq<Message>, errors': seq<Message>)
    ensures checks' == checks + [o.check]
    ensures warnings' == warnings + o.warnings && errors' == errors + o.errors
  {
    checks' := checks + [o.check];
    warnings' := warnings + o.warnings;
    errors' := errors + o.errors;
  }

  /** Runs every check in turn, recording each entry and message as it goes. */
  method ValidateFeatures(df: seq<RoundFeatures>) returns (r: Result<Report, ValidationError>)
    ensures r == Validate(df)
  {
    var checks: seq<Check> := [];
    var warnings: seq<Message> := [];
    var errors: seq<Message> := [];

    var playerCount := PlayerCountOutcome();
    checks, warnings, errors := Record(checks, warnings, errors, playerCount);

    var money := MoneyRangeOutcome(df);
    checks, warnings, errors := Record(checks, warnings, errors, money);

    var awp := AwpCountOutcome(df);
    checks, warnings, errors := Record(checks, warnings, errors, awp);

    var issues := ScoreProgressionIssues(df);
    var score := ScoreOutcome(issues);
    checks, warnings, errors := Record(checks, warnings, errors, score);

    issues := StreakResetIssues(df);
    var streak := StreakOutcome(issues);
    checks, warnings, errors := Record(checks, warnings, errors, streak);

    issues := EquipmentResetIssues(df);
    var equipment := EquipmentOutcome(issues);
    checks, warnings, errors := Record(checks, warnings, errors, equipment);

    issues := WinnerConsistencyIssues(df);
    var winner := WinnerOutcome(issues);
    checks, warnings, errors := Record(checks, warnings, errors, winner);

    var first := FirstPistolRow(df);
    if first.None? {
      return Failure(NoPistolRound);
    }
    var pistol := PistolOutcome(df[first.value]);
    checks, warnings, errors := Record(checks, warnings, errors, pistol);

    ghost var os := [playerCount, money, awp, score, streak, equipment, winner, pistol];
    ValidateReport(df, first.value, playerCount, money, awp, score, streak, equipment, winner, pistol);
    ChecksInOrder(os, checks);
    MessagesInOrder(os, warnings, errors);
    r := Success(Report(|df|, checks, warnings, errors, Summarize(checks, warnings, errors)));
  }
}
