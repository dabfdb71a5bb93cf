/**
 * The features table as the match loop produces it, handed to the validator:
 * what the validation script can rely on when it reads a table the parser
 * wrote.
 */
module Pipeline {
  import opened Wrappers
  import opened Grenades
  import opened Features
  import opened Driver
  import opened Validation
  import opened ValidationProperties

  /** A table built by the match loop is validated exactly when some round is numbered 1. */
  lemma {:induction false} ParsedTableValidates(table: seq<RoundFeatures>, rounds: seq<RoundInput>,
                                                mapName: string, grenades: seq<RawGrenade>)
    requires Threaded(table, rounds, mapName, grenades)
    ensures Validate(table).Success? <==> exists k :: 0 <= k < |rounds| && rounds[k].meta.roundNum == 1
  {
    ValidateFailsWithoutPistolRound(table);
    forall k | 0 <= k < |table|
      ensures table[k].roundNumber == rounds[k].meta.roundNum
    {
      RowFields(table, rounds, mapName, grenades, k);
    }
  }

  /**
   * The match loop resets the streaks and the carried-over equipment at
   * every side switch, so the streak and equipment checks always pass on its
   * output.
   */
  lemma {:induction false} ParsedTablePassesResets(table: seq<RoundFeatures>, rounds: seq<RoundInput>,
                                                   mapName: string, grenades: seq<RawGrenade>)
    requires Threaded(table, rounds, mapName, grenades)
    requires Validate(table).Success?
    ensures Validate(table).value.checks[4].passed
    ensures Validate(table).value.checks[5].passed
    ensures Validate(table).value.errors ==
              OnFailure(Validate(table).value.checks[1], MoneyExceeds(MoneyOverRows(table)))
              + OnFailure(Validate(table).value.checks[2], AwpOutOfRange)
              + OnFailure(Validate(table).value.checks[3], ScoreIssues(FailingRows(ScoreRowIssues, table, |table|)))
  {
    forall i | 0 <= i < |table| && IsSideSwitch(table[i].roundNumber)
      ensures table[i].streaks == Streaks(0, 0, 0, 0) && table[i].carry == Carry(0, 0, 0, 0)
    {
      ThreadedResets(table, rounds, mapName, grenades, i);
    }
    StreakCheckPasses(table);
    EquipmentCheckPasses(table);
    ReportErrors(table);
    assert OnFailure(Validate(table).value.checks[4], StreakIssues(FailingRows(StreakRowIssues, table, |table|))) == [];
    assert OnFailure(Validate(table).value.checks[5], EquipmentIssues(FailingRows(EquipmentRowIssues, table, |table|))) == [];
  }

  /**
   * Every winner bit the match loop writes is 0 or 1, so on its output the
   * winner warning counts the rows whose score rise the winner does not
   * account for.
   */
  lemma {:induction false} ParsedWinnerWarningCountsRows(table: seq<RoundFeatures>, rounds: seq<RoundInput>,
                                                         mapName: string, grenades: seq<RawGrenade>)
    requires Threaded(table, rounds, mapName, grenades)
    ensures |Collected(WinnerRowIssues, table, |table|)| == FailingRows(WinnerRowIssues, table, |table|)
  {
    forall i | 0 <= i < |table|
      ensures table[i].roundWinner == 0 || table[i].roundWinner == 1
    {
      ThreadedWinners(table, rounds, mapName, grenades, i);
    }
    WinnerIssuesCount(table);
  }
}
