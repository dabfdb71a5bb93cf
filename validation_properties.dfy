/**
 * What the validator's report says about a feature table: which checks ran
 * and in which order, when each one passes, what it pushes to the errors and
 * the warnings, and how the summary counts them.
 */
module ValidationProperties {
  import opened Wrappers
  import opened Features
  import opened Validation

  /** The report of a table that has a round numbered 1, from the outcomes of its checks. */
  lemma {:induction false} ReportFromOutcomes(df: seq<RoundFeatures>)
    requires Validate(df).Success?
    ensures FirstPistolRow(df).Some?
    ensures var os := Outcomes(df, df[FirstPistolRow(df).value]);
            Validate(df).value ==
            Report(|df|, ChecksOf(os), WarningsOf(os), ErrorsOf(os),
                   Summarize(ChecksOf(os), WarningsOf(os), ErrorsOf(os)))
  {
  }

  /** Validation fails, for want of a pistol round, exactly when no row is numbered round 1. */
  lemma {:induction false} ValidateFailsWithoutPistolRound(df: seq<RoundFeatures>)
    ensures Validate(df).Failure? <==> forall i :: 0 <= i < |df| ==> df[i].roundNumber != 1
    ensures Validate(df).Failure? ==> Validate(df).error == NoPistolRound
  {
  }

  /** The report counts the rows and lists the eight checks in the order they run. */
  lemma {:induction false} ReportChecksInOrder(df: seq<RoundFeatures>)
    requires Validate(df).Success?
    ensures Validate(df).value.totalRounds == |df|
    ensures |Validate(df).value.checks| == 8
    ensures Validate(df).value.checks[0].name == PlayerCount
    ensures Validate(df).value.checks[1].name == MoneyRange
    ensures Validate(df).value.checks[2].name == AwpCount
    ensures Validate(df).value.checks[3].name == ScoreProgression
    ensures Validate(df).value.checks[4].name == StreakResets
    ensures Validate(df).value.checks[5].name == EquipmentResets
    ensures Validate(df).value.checks[6].name == WinnerConsistency
    ensures Validate(df).value.checks[7].name == PistolRound
  {
    ReportFromOutcomes(df);
  }

  // ---------------------------------------------------------------------------
  // When each check passes
  // ---------------------------------------------------------------------------

  /** The player-count check always passes; the money and AWP checks pass when every row is in range. */
  lemma {:induction false} ReportColumnChecks(df: seq<RoundFeatures>)
    requires Validate(df).Success?
    ensures Validate(df).value.checks[0].passed && Validate(df).value.checks[0].issues == []
    ensures Validate(df).value.checks[1].passed <==>
              forall i :: 0 <= i < |df| ==> df[i].ct.moneyTotal <= MaxMoneyTotal && df[i].t.moneyTotal <= MaxMoneyTotal
    ensures Validate(df).value.checks[2].passed <==>
              forall i :: 0 <= i < |df| ==> 0 <= df[i].ct.awpCount <= 5 && 0 <= df[i].t.awpCount <= 5
  {
    ReportFromOutcomes(df);
  }

  /** The entries of the report are those of the eight checks' outcomes. */
  lemma {:induction false} ReportChecks(df: seq<RoundFeatures>)
    requires Validate(df).Success?
    ensures FirstPistolRow(df).Some?
    ensures Validate(df).value.checks == ChecksOf(Outcomes(df, df[FirstPistolRow(df).value]))
  {
  }

  /** No score issue is collected exactly when the scores rise by 1 outside side switches. */
  lemma {:induction false} ScoreRowsPass(df: seq<RoundFeatures>)
    ensures Collected(ScoreRowIssues, df, |df|) == [] <==>
              forall i :: 1 <= i < |df| && !IsSideSwitch(df[i].roundNumber) ==> ScoreIncrease(df, i) == 1
  {
    CollectedEmpty(ScoreRowIssues, df, |df|);
    forall i | 0 <= i < |df|
      ensures ScoreRowIssues(df, i) == [] <==> i == 0 || IsSideSwitch(df[i].roundNumber) || ScoreIncrease(df, i) == 1
    {
    }
  }

  /** No streak issue is collected exactly when every side-switch row has its streaks at 0. */
  lemma {:induction false} StreakRowsPass(df: seq<RoundFeatures>)
    ensures Collected(StreakRowIssues, df, |df|) == [] <==>
              forall i :: 0 <= i < |df| && IsSideSwitch(df[i].roundNumber) ==> df[i].streaks == Streaks(0, 0, 0, 0)
  {
    CollectedEmpty(StreakRowIssues, df, |df|);
    forall i | 0 <= i < |df|
      ensures StreakRowIssues(df, i) == [] <==> !IsSideSwitch(df[i].roundNumber) || df[i].streaks == Streaks(0, 0, 0, 0)
    {
    }
  }

  /** No equipment issue is collected exactly when no side-switch row carries anything over. */
  lemma {:induction false} EquipmentRowsPass(df: seq<RoundFeatures>)
    ensures Collected(EquipmentRowIssues, df, |df|) == [] <==>
              forall i :: 0 <= i < |df| && IsSideSwitch(df[i].roundNumber) ==> df[i].carry == Carry(0, 0, 0, 0)
  {
    CollectedEmpty(EquipmentRowIssues, df, |df|);
    forall i | 0 <= i < |df|
      ensures EquipmentRowIssues(df, i) == [] <==> !IsSideSwitch(df[i].roundNumber) || df[i].carry == Carry(0, 0, 0, 0)
    {
    }
  }

  /** No winner issue is collected exactly when every rise outside side switches is accounted for. */
  lemma {:induction false} WinnerRowsPass(df: seq<RoundFeatures>)
    ensures Collected(WinnerRowIssues, df, |df|) == [] <==>
              forall i :: 1 <= i < |df| && !IsSideSwitch(df[i].roundNumber) ==> WinnerAccounts(df[i - 1], df[i])
  {
    CollectedEmpty(WinnerRowIssues, df, |df|);
    forall i | 0 <= i < |df|
      ensures WinnerRowIssues(df, i) == [] <==> i == 0 || IsSideSwitch(df[i].roundNumber) || WinnerAccounts(df[i - 1], df[i])
    {
    }
  }

  /** The score check passes when, outside side switches, the scores rise by exactly 1 per row. */
  lemma {:induction false} ScoreCheckPasses(df: seq<RoundFeatures>)
    requires Validate(df).Success?
    ensures Validate(df).value.checks[3].passed <==>
              forall i :: 1 <= i < |df| && !IsSideSwitch(df[i].roundNumber) ==> ScoreIncrease(df, i) == 1
  {
    ReportChecks(df);
    ScoreRowsPass(df);
  }

  /** The streak check passes when every side-switch row has all four streaks at 0. */
  lemma {:induction false} StreakCheckPasses(df: seq<RoundFeatures>)
    requires Validate(df).Success?
    ensures Validate(df).value.checks[4].passed <==>
              forall i :: 0 <= i < |df| && IsSideSwitch(df[i].roundNumber) ==> df[i].streaks == Streaks(0, 0, 0, 0)
  {
    ReportChecks(df);
    StreakRowsPass(df);
  }

  /** The equipment check passes when no side-switch row carries survivors or saved equipment. */
  lemma {:induction false} EquipmentCheckPasses(df: seq<RoundFeatures>)
    requires Validate(df).Success?
    ensures Validate(df).value.checks[5].passed <==>
              forall i :: 0 <= i < |df| && IsSideSwitch(df[i].roundNumber) ==> df[i].carry == Carry(0, 0, 0, 0)
  {
    ReportChecks(df);
    EquipmentRowsPass(df);
  }

  /** The winner check passes when, outside side switches, every score rise is the previous row's winner's. */
  lemma {:induction false} WinnerCheckPasses(df: seq<RoundFeatures>)
    requires Validate(df).Success?
    ensures Validate(df).value.checks[6].passed <==>
              forall i :: 1 <= i < |df| && !IsSideSwitch(df[i].roundNumber) ==> WinnerAccounts(df[i - 1], df[i])
  {
    ReportChecks(df);
    WinnerRowsPass(df);
  }

  /** The pistol check passes when the first round-1 row has 4000 per side and no AWPs or rifles. */
  lemma {:induction false} PistolCheckPasses(df: seq<RoundFeatures>)
    requires Validate(df).Success?
    ensures FirstPistolRow(df).Some?
    ensures var first := df[FirstPistolRow(df).value];
            Validate(df).value.checks[7].passed <==>
              first.ct.moneyTotal == PistolMoneyTotal && first.t.moneyTotal == PistolMoneyTotal
              && first.ct.awpCount <= 0 && first.t.awpCount <= 0
              && first.ct.rifleCount <= 0 && first.t.rifleCount <= 0
  {
    ReportChecks(df);
  }

  // ---------------------------------------------------------------------------
  // Issues kept and messages pushed
  // ---------------------------------------------------------------------------

  /** A check recording at most one issue per row collects exactly one per failing row. */
  lemma {:induction false} OneIssuePerRow(f: RowIssues, df: seq<RoundFeatures>)
    requires forall i :: 0 <= i < |df| ==> |f(df, i)| <= 1
    ensures |Collected(f, df, |df|)| == FailingRows(f, df, |df|)
  {
    CollectedCount(f, df, |df|, 1);
  }

  /** The score, streak and equipment checks record one issue per failing row. */
  lemma {:induction false} IssuesCountRows(df: seq<RoundFeatures>)
    ensures |Collected(ScoreRowIssues, df, |df|)| == FailingRows(ScoreRowIssues, df, |df|)
    ensures |Collected(StreakRowIssues, df, |df|)| == FailingRows(StreakRowIssues, df, |df|)
    ensures |Collected(EquipmentRowIssues, df, |df|)| == FailingRows(EquipmentRowIssues, df, |df|)
  {
    OneIssuePerRow(ScoreRowIssues, df);
    OneIssuePerRow(StreakRowIssues, df);
    OneIssuePerRow(EquipmentRowIssues, df);
  }

  /**
   * The winner check records one or two issues per failing row, so the count
   * in its warning is between the failing rows and twice as many; with every
   * winner 0 or 1 it is exactly the failing rows.
   */
  lemma {:induction false} WinnerIssuesCount(df: seq<RoundFeatures>)
    ensures FailingRows(WinnerRowIssues, df, |df|) <= |Collected(WinnerRowIssues, df, |df|)|
            <= 2 * FailingRows(WinnerRowIssues, df, |df|)
    ensures (forall i :: 0 <= i < |df| ==> df[i].roundWinner == 0 || df[i].roundWinner == 1) ==>
              |Collected(WinnerRowIssues, df, |df|)| == FailingRows(WinnerRowIssues, df, |df|)
  {
    CollectedCount(WinnerRowIssues, df, |df|, 2);
    if forall i :: 0 <= i < |df| ==> df[i].roundWinner == 0 || df[i].roundWinner == 1 {
      forall i | 0 <= i < |df|
        ensures |WinnerRowIssues(df, i)| <= 1
      {
      }
      OneIssuePerRow(WinnerRowIssues, df);
    }
  }

  /** The messages of the report are those of the eight checks' outcomes. */
  lemma {:induction false} ReportMessages(df: seq<RoundFeatures>)
    requires Validate(df).Success?
    ensures FirstPistolRow(df).Some?
    ensures Validate(df).value.warnings == WarningsOf(Outcomes(df, df[FirstPistolRow(df).value]))
    ensures Validate(df).value.errors == ErrorsOf(Outcomes(df, df[FirstPistolRow(df).value]))
  {
  }

  /** A failed check counts 1, a passed one 0. */
  function FailedAsNumber(c: Check): nat { if c.passed then 0 else 1 }

  /** The message a check contributes: one when it failed, none when it passed. */
  function OnFailure(c: Check, m: Message): (r: seq<Message>)
    ensures |r| == FailedAsNumber(c)
  {
    if c.passed then [] else [m]
  }

  /** Only the winner and pistol checks warn, in that order, each once when it fails. */
  lemma {:induction false} ReportWarnings(df: seq<RoundFeatures>)
    requires Validate(df).Success?
    ensures Validate(df).value.warnings ==
              OnFailure(Validate(df).value.checks[6], WinnerIssues(|Collected(WinnerRowIssues, df, |df|)|))
              + OnFailure(Validate(df).value.checks[7], PistolUnusual)
  {
    ReportChecks(df);
    ReportMessages(df);
    var os := Outcomes(df, df[FirstPistolRow(df).value]);
    var checks := Validate(df).value.checks;
    WarningsAssembled(os, WinnerIssues(|Collected(WinnerRowIssues, df, |df|)|), PistolUnusual);
    assert checks[6] == os[6].check && checks[7] == os[7].check;
  }

  /** Outcome `k` pushes `m` to the warnings when it fails, and nothing else. */
  predicate WarnsOnFailure(o: Outcome, m: Message)
  {
    o.warnings == OnFailure(o.check, m)
  }

  /** The warnings of the eight outcomes when only the last two warn. */
  lemma {:induction false} WarningsAssembled(os: seq<Outcome>, m6: Message, m7: Message)
    requires |os| == 8
    requires os[0].warnings == [] && os[1].warnings == [] && os[2].warnings == []
    requires os[3].warnings == [] && os[4].warnings == [] && os[5].warnings == []
    requires WarnsOnFailure(os[6], m6) && WarnsOnFailure(os[7], m7)
    ensures WarningsOf(os) == OnFailure(os[6].check, m6) + OnFailure(os[7].check, m7)
  {
    assert WarningsOf(os) == os[6].warnings + os[7].warnings;
  }

  /** Outcome `k` pushes `m` to the errors when it fails, and nothing else. */
  predicate ErrsOnFailure(o: Outcome, m: Message)
  {
    o.errors == OnFailure(o.check, m)
  }

  /** The errors of the eight outcomes when only checks 1 to 5 push errors. */
  lemma {:induction false} ErrorsAssembled(os: seq<Outcome>, m1: Message, m2: Message, m3: Message,
                                           m4: Message, m5: Message)
    requires |os| == 8
    requires os[0].errors == [] && os[6].errors == [] && os[7].errors == []
    requires ErrsOnFailure(os[1], m1) && ErrsOnFailure(os[2], m2) && ErrsOnFailure(os[3], m3)
    requires ErrsOnFailure(os[4], m4) && ErrsOnFailure(os[5], m5)
    ensures ErrorsOf(os) ==
              OnFailure(os[1].check, m1) + OnFailure(os[2].check, m2)
              + OnFailure(os[3].check, m3) + OnFailure(os[4].check, m4)
              + OnFailure(os[5].check, m5)
  {
  }

  /**
   * The other checks push errors, in order, each once when it fails; the
   * score, streak and equipment errors count the failing rows.
   */
  lemma {:induction false} ReportErrors(df: seq<RoundFeatures>)
    requires Validate(df).Success?
    ensures var checks := Validate(df).value.checks;
            Validate(df).value.errors ==
              OnFailure(checks[1], MoneyExceeds(MoneyOverRows(df)))
              + OnFailure(checks[2], AwpOutOfRange)
              + OnFailure(checks[3], ScoreIssues(FailingRows(ScoreRowIssues, df, |df|)))
              + OnFailure(checks[4], StreakIssues(FailingRows(StreakRowIssues, df, |df|)))
              + OnFailure(checks[5], EquipmentIssues(FailingRows(EquipmentRowIssues, df, |df|)))
  {
    ReportChecks(df);
    ReportMessages(df);
    IssuesCountRows(df);
    var os := Outcomes(df, df[FirstPistolRow(df).value]);
    var checks := Validate(df).value.checks;
    ErrorsAssembled(os, MoneyExceeds(MoneyOverRows(df)), AwpOutOfRange,
                    ScoreIssues(FailingRows(ScoreRowIssues, df, |df|)),
                    StreakIssues(FailingRows(StreakRowIssues, df, |df|)),
                    EquipmentIssues(FailingRows(EquipmentRowIssues, df, |df|)));
    assert checks[1] == os[1].check && checks[2] == os[2].check && checks[3] == os[3].check;
    assert checks[4] == os[4].check && checks[5] == os[5].check;
  }

  /** The score and winner checks keep at most the first five issues; the others keep all of them. */
  lemma {:induction false} ReportIssuesKept(df: seq<RoundFeatures>)
    requires Validate(df).Success?
    ensures Validate(df).value.checks[3].issues <= Collected(ScoreRowIssues, df, |df|)
    ensures |Validate(df).value.checks[3].issues| == Min(ShownIssues, FailingRows(ScoreRowIssues, df, |df|))
    ensures Validate(df).value.checks[4].issues == Collected(StreakRowIssues, df, |df|)
    ensures Validate(df).value.checks[5].issues == Collected(EquipmentRowIssues, df, |df|)
    ensures Validate(df).value.checks[6].issues <= Collected(WinnerRowIssues, df, |df|)
    ensures |Validate(df).value.checks[6].issues| == Min(ShownIssues, |Collected(WinnerRowIssues, df, |df|)|)
  {
    ReportChecks(df);
    IssuesCountRows(df);
  }

  function Min(a: int, b: int): int { if a <= b then a else b }

  // ---------------------------------------------------------------------------
  // Summary
  // ---------------------------------------------------------------------------

  /** Counting passed checks one more at the end. */
  lemma {:induction false} PassedCountSnoc(cs: seq<Check>, c: Check)
    ensures PassedCount(cs + [c]) == PassedCount(cs) + 1 - FailedAsNumber(c)
  {
    assert (cs + [c])[..|cs|] == cs;
  }

  /** Passed checks of two lists add up. */
  lemma {:induction false} PassedCountAppend(a: seq<Check>, b: seq<Check>)
    ensures PassedCount(a + b) == PassedCount(a) + PassedCount(b)
    decreases |b|
  {
    if b == [] {
      assert a + b == a;
    } else {
      var init := b[..|b| - 1];
      PassedCountAppend(a, init);
      assert b == init + [b[|b| - 1]];
      assert a + b == (a + init) + [b[|b| - 1]];
      PassedCountSnoc(a + init, b[|b| - 1]);
      PassedCountSnoc(init, b[|b| - 1]);
    }
  }

  /** Of four checks, those not passed are counted one by one. */
  lemma {:induction false} FailedOfFour(c0: Check, c1: Check, c2: Check, c3: Check)
    ensures 4 - PassedCount([c0, c1, c2, c3]) ==
            FailedAsNumber(c0) + FailedAsNumber(c1) + FailedAsNumber(c2) + FailedAsNumber(c3)
  {
    PassedCountSnoc([], c0);
    PassedCountSnoc([c0], c1);
    PassedCountSnoc([c0, c1], c2);
    PassedCountSnoc([c0, c1, c2], c3);
    assert [] + [c0] == [c0];
    assert [c0] + [c1] == [c0, c1];
    assert [c0, c1] + [c2] == [c0, c1, c2];
    assert [c0, c1, c2] + [c3] == [c0, c1, c2, c3];
  }

  /** Of eight checks, those not passed are counted one by one. */
  lemma {:induction false} FailedOfEight(c0: Check, c1: Check, c2: Check, c3: Check,
                                         c4: Check, c5: Check, c6: Check, c7: Check)
    ensures 8 - PassedCount([c0, c1, c2, c3, c4, c5, c6, c7]) ==
            FailedAsNumber(c0) + FailedAsNumber(c1) + FailedAsNumber(c2) + FailedAsNumber(c3)
            + FailedAsNumber(c4) + FailedAsNumber(c5) + FailedAsNumber(c6) + FailedAsNumber(c7)
  {
    FailedOfFour(c0, c1, c2, c3);
    FailedOfFour(c4, c5, c6, c7);
    PassedCountAppend([c0, c1, c2, c3], [c4, c5, c6, c7]);
    assert [c0, c1, c2, c3] + [c4, c5, c6, c7] == [c0, c1, c2, c3, c4, c5, c6, c7];
  }

  /**
   * The summary counts eight checks, split into passed and failed, and the
   * messages of each list.
   */
  lemma {:induction false} ReportSummary(df: seq<RoundFeatures>)
    requires Validate(df).Success?
    ensures Validate(df).value.summary.totalChecks == 8
    ensures Validate(df).value.summary.passed + Validate(df).value.summary.failed == 8
    ensures Validate(df).value.summary.failed == 0 <==>
              forall k :: 0 <= k < 8 ==> Validate(df).value.checks[k].passed
    ensures Validate(df).value.summary.warnings == |Validate(df).value.warnings|
    ensures Validate(df).value.summary.errors == |Validate(df).value.errors|
  {
    ReportFromOutcomes(df);
  }

  /**
   * When the first of eight checks passed and each other one contributes its
   * message exactly when it failed, the messages number the failed checks.
   */
  lemma {:induction false} OneMessagePerFailure(cs: seq<Check>, errors: seq<Message>, warnings: seq<Message>,
                                                m1: Message, m2: Message, m3: Message, m4: Message,
                                                m5: Message, m6: Message, m7: Message)
    requires |cs| == 8 && cs[0].passed
    requires errors == OnFailure(cs[1], m1) + OnFailure(cs[2], m2) + OnFailure(cs[3], m3)
                       + OnFailure(cs[4], m4) + OnFailure(cs[5], m5)
    requires warnings == OnFailure(cs[6], m6) + OnFailure(cs[7], m7)
    ensures |cs| - PassedCount(cs) == |errors| + |warnings|
  {
    FailedOfEight(cs[0], cs[1], cs[2], cs[3], cs[4], cs[5], cs[6], cs[7]);
    assert cs == [cs[0], cs[1], cs[2], cs[3], cs[4], cs[5], cs[6], cs[7]];
  }

  /**
   * Since the player-count check always passes and every other check pushes
   * exactly one message when it fails, there are as many messages as failed
   * checks.
   */
  lemma {:induction false} FailedChecksHaveMessages(df: seq<RoundFeatures>)
    requires Validate(df).Success?
    ensures Validate(df).value.summary.failed == |Validate(df).value.errors| + |Validate(df).value.warnings|
  {
    var rep := Validate(df).value;
    ReportFromOutcomes(df);
    ReportColumnChecks(df);
    ReportErrors(df);
    ReportWarnings(df);
    OneMessagePerFailure(rep.checks, rep.errors, rep.warnings,
                         MoneyExceeds(MoneyOverRows(df)), AwpOutOfRange,
                         ScoreIssues(FailingRows(ScoreRowIssues, df, |df|)),
                         StreakIssues(FailingRows(StreakRowIssues, df, |df|)),
                         EquipmentIssues(FailingRows(EquipmentRowIssues, df, |df|)),
                         WinnerIssues(|Collected(WinnerRowIssues, df, |df|)|), PistolUnusual);
  }
}
