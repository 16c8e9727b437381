/**
 * The ledger of one owner's 52-week savings deposits, replayed in order: the
 * accumulators the replay threads through the deposits (cumulative total,
 * carried balance, current week), the derived fields each deposit receives,
 * and what holds of every replayed ledger. The recomputation in mcs/admin.py
 * writes exactly these fields; posting in mcs/views.py and the dashboard
 * read them back.
 */
module Ledger {
  import opened Wrappers
  import opened Models
  import opened Views

  /** The accumulators of the replay: `cumulative_total`, `carry_forward`, `current_week`. */
  datatype ReplayState = ReplayState(cumulativeTotal: int, carryForward: int, currentWeek: int)

  /** A replay starts with nothing saved, nothing carried, at week 1. */
  const Start: ReplayState := ReplayState(0, 0, 1)

  /** The derived fields a deposit of `amount` receives when the replay is in state `s`. */
  function Step(s: ReplayState, amount: int): (d: DerivedFields)
    requires s.currentWeek >= 1
    ensures s.currentWeek <= d.nextWeek
  {
    var e := Evaluate(amount, s.currentWeek, s.carryForward);
    DerivedFields(e.fullyCoveredWeeks, e.nextWeek, e.remainingBalance, s.cumulativeTotal + amount)
  }

  /** The state the replay carries out of a deposit whose derived fields are `d`. */
  function After(d: DerivedFields): ReplayState {
    ReplayState(d.cumulativeTotal, d.remainingBalance, d.nextWeek)
  }

  /** The state after replaying `amounts`, in order, from `s`. */
  function Run(s: ReplayState, amounts: seq<int>): (t: ReplayState)
    requires s.currentWeek >= 1
    ensures s.currentWeek <= t.currentWeek
    decreases |amounts|
  {
    if |amounts| == 0 then s
    else After(Step(Run(s, amounts[..|amounts| - 1]), amounts[|amounts| - 1]))
  }

  /** The derived fields the `i`-th deposit receives when `amounts` are replayed from `s`. */
  function Row(s: ReplayState, amounts: seq<int>, i: nat): DerivedFields
    requires s.currentWeek >= 1 && i < |amounts|
  {
    Step(Run(s, amounts[..i]), amounts[i])
  }

  function Sum(amounts: seq<int>): int {
    if |amounts| == 0 then 0 else Sum(amounts[..|amounts| - 1]) + amounts[|amounts| - 1]
  }

  /** What was entered for each of `rows`, in the same order. */
  function Entries(rows: seq<SavingsTransaction>): (e: seq<EnteredFields>)
    reads rows
    ensures |e| == |rows| && forall i :: 0 <= i < |rows| ==> e[i] == rows[i].Entered()
  {
    seq(|rows|, i requires 0 <= i < |rows| reads rows => rows[i].Entered())
  }

  lemma EntriesAppend(rows: seq<SavingsTransaction>, last: SavingsTransaction)
    ensures Entries(rows + [last]) == Entries(rows) + [last.Entered()]
  {
  }

  /** The deposit amounts of a sequence of transactions, in the same order. */
  function Amounts(rows: seq<SavingsTransaction>): (a: seq<int>)
    reads rows
    ensures |a| == |rows| && forall i :: 0 <= i < |rows| ==> a[i] == rows[i].amount
  {
    var e := Entries(rows);
    seq(|e|, i requires 0 <= i < |e| => e[i].amount as int)
  }

  /**
   * Every transaction's stored derived fields are those the replay of the
   * sequence, in its order, from the zero state gives it.
   */
  ghost predicate ReplayConsistent(rows: seq<SavingsTransaction>)
    reads rows
  {
    forall i {:trigger rows[i].Derived()} :: 0 <= i < |rows| ==> rows[i].Derived() == Row(Start, Amounts(rows), i)
  }

  /** Entries in strictly ascending `date_saved` order. */
  ghost predicate DatesIncrease(entries: seq<EnteredFields>) {
    forall i, j :: 0 <= i < j < |entries| ==> entries[i].dateSaved < entries[j].dateSaved
  }

  /** Transactions in strictly ascending `date_saved` order. */
  ghost predicate Chronological(rows: seq<SavingsTransaction>)
    reads rows
  {
    DatesIncrease(Entries(rows))
  }

  // ---------------------------------------------------------------------------
  // The replay, one deposit at a time
  // ---------------------------------------------------------------------------

  /** Replaying one more deposit moves the state past that deposit's row. */
  lemma RunExtends(s: ReplayState, amounts: seq<int>, i: nat)
    requires s.currentWeek >= 1 && i < |amounts|
    ensures Run(s, amounts[..i + 1]) == After(Row(s, amounts, i))
  {
    assert amounts[..i + 1][..i] == amounts[..i];
  }

  /**
   * Each deposit after the first is evaluated from the previous deposit's
   * next week and remaining balance, and its cumulative total adds its own
   * amount to the previous one's.
   */
  lemma RowFollowsPreviousRow(s: ReplayState, amounts: seq<int>, i: nat)
    requires s.currentWeek >= 1 && 0 < i < |amounts|
    ensures Row(s, amounts, i) == Step(After(Row(s, amounts, i - 1)), amounts[i])
    ensures Row(s, amounts, i).cumulativeTotal == Row(s, amounts, i - 1).cumulativeTotal + amounts[i]
  {
    RunExtends(s, amounts, i - 1);
  }

  /** Deposits appended after the `i`-th do not change the fields it receives. */
  lemma RowOfPrefix(s: ReplayState, amounts: seq<int>, later: seq<int>, i: nat)
    requires s.currentWeek >= 1 && i < |amounts|
    ensures Row(s, amounts + later, i) == Row(s, amounts, i)
  {
    assert (amounts + later)[..i] == amounts[..i];
  }

  /** The replay's cumulative total is the running sum of the amounts. */
  lemma {:induction false} RunTotalIsSum(s: ReplayState, amounts: seq<int>)
    requires s.currentWeek >= 1
    ensures Run(s, amounts).cumulativeTotal == s.cumulativeTotal + Sum(amounts)
    decreases |amounts|
  {
    if |amounts| > 0 {
      RunTotalIsSum(s, amounts[..|amounts| - 1]);
    }
  }

  /** A deposit's cumulative total is its own amount plus every amount replayed before it. */
  lemma RowCumulativeTotal(amounts: seq<int>, i: nat)
    requires i < |amounts|
    ensures Row(Start, amounts, i).cumulativeTotal == Sum(amounts[..i + 1])
  {
    RunTotalIsSum(Start, amounts[..i]);
    assert amounts[..i + 1][..i] == amounts[..i];
  }

  /** The current week never moves backwards along a replay. */
  lemma {:induction false} RunWeekMonotone(s: ReplayState, amounts: seq<int>, i: nat, j: nat)
    requires s.currentWeek >= 1 && i <= j <= |amounts|
    ensures Run(s, amounts[..i]).currentWeek <= Run(s, amounts[..j]).currentWeek
    decreases j - i
  {
    if i < j {
      RunWeekMonotone(s, amounts, i, j - 1);
      assert amounts[..j][..j - 1] == amounts[..j - 1];
    }
  }

  /** Later deposits have a next week at least as far as earlier ones. */
  lemma RowNextWeekMonotone(s: ReplayState, amounts: seq<int>, i: nat, j: nat)
    requires s.currentWeek >= 1 && i <= j < |amounts|
    ensures Row(s, amounts, i).nextWeek <= Row(s, amounts, j).nextWeek
  {
    RunExtends(s, amounts, i);
    RunExtends(s, amounts, j);
    RunWeekMonotone(s, amounts, i + 1, j + 1);
  }

  /**
   * From the zero state the current week stays within 1..53, and with
   * non-negative deposits nothing negative is ever carried; while weeks
   * remain, the carried balance is short of the current week's target.
   */
  lemma {:induction false} RunStaysInSchedule(amounts: seq<int>)
    requires forall i :: 0 <= i < |amounts| ==> amounts[i] >= 0
    ensures var t := Run(Start, amounts);
      && 1 <= t.currentWeek <= WeekCount + 1
      && t.carryForward >= 0
      && (t.currentWeek <= WeekCount ==> t.carryForward < Target(t.currentWeek))
    decreases |amounts|
  {
    if |amounts| > 0 {
      var init := amounts[..|amounts| - 1];
      RunStaysInSchedule(init);
      var s := Run(Start, init);
      var x := amounts[|amounts| - 1];
      AllocateConserves(x + s.carryForward, s.currentWeek);
      AllocateCoversConsecutiveWeeks(x + s.carryForward, s.currentWeek);
      AllocateStopsAtShortfall(x + s.carryForward, s.currentWeek);
    }
  }

  // ---------------------------------------------------------------------------
  // Conservation and coverage over the whole ledger
  // ---------------------------------------------------------------------------

  lemma {:induction false} TargetsOfConsecutiveWeeks(weeks: seq<int>, from: int)
    requires forall k :: 0 <= k < |weeks| ==> weeks[k] == from + k
    ensures TargetsOf(weeks) == RunTotal(from, |weeks|)
    decreases |weeks|
  {
    if |weeks| > 0 {
      assert forall k :: 0 <= k < |weeks[1..]| ==> weeks[1..][k] == (from + 1) + k by {
        forall k | 0 <= k < |weeks[1..]| ensures weeks[1..][k] == (from + 1) + k {
          assert weeks[1..][k] == weeks[k + 1];
        }
      }
      TargetsOfConsecutiveWeeks(weeks[1..], from + 1);
    }
  }

  lemma {:induction false} RunTotalSplit(from: int, m: nat, n: nat)
    ensures RunTotal(from, m) + RunTotal(from + m, n) == RunTotal(from, m + n)
    decreases m
  {
    if m > 0 {
      RunTotalSplit(from + 1, m - 1, n);
    }
  }

  /**
   * One deposit keeps the books balanced: the deposit plus what was covered
   * and carried before equals what is covered and carried after.
   */
  lemma StepConserves(s: ReplayState, amount: int)
    requires s.currentWeek >= 1
    ensures var t := After(Step(s, amount));
      RunTotal(1, s.currentWeek - 1) + s.carryForward + amount == RunTotal(1, t.currentWeek - 1) + t.carryForward
  {
    var e := Evaluate(amount, s.currentWeek, s.carryForward);
    var n := |e.fullyCoveredWeeks|;
    var t := After(Step(s, amount));
    assert t.currentWeek == s.currentWeek + n && t.carryForward == e.remainingBalance;
    assert TargetsOf(e.fullyCoveredWeeks) == RunTotal(s.currentWeek, n) by {
      AllocateCoversConsecutiveWeeks(amount + s.carryForward, s.currentWeek);
      TargetsOfConsecutiveWeeks(e.fullyCoveredWeeks, s.currentWeek);
    }
    RunTotalSplit(1, s.currentWeek - 1, n);
  }

  /**
   * Conservation over the ledger: everything deposited is either in the
   * fully covered weeks 1 .. current week - 1, or carried forward.
   */
  lemma {:induction false} LedgerConservation(amounts: seq<int>)
    ensures var t := Run(Start, amounts);
      Sum(amounts) == RunTotal(1, t.currentWeek - 1) + t.carryForward
    decreases |amounts|
  {
    if |amounts| > 0 {
      var init := amounts[..|amounts| - 1];
      LedgerConservation(init);
      StepConserves(Run(Start, init), amounts[|amounts| - 1]);
    }
  }

  /** The weeks covered by the deposits of a replay, concatenated in replay order. */
  function CoveredWeeks(amounts: seq<int>): seq<int> {
    if |amounts| == 0 then []
    else
      var init := amounts[..|amounts| - 1];
      CoveredWeeks(init) + Step(Run(Start, init), amounts[|amounts| - 1]).fullyCoveredWeeks
  }

  /**
   * Across the whole ledger every week from 1 up to the current week is
   * covered exactly once, in order: no week is skipped or paid twice.
   */
  lemma {:induction false} LedgerCoversEachWeekOnce(amounts: seq<int>)
    ensures var weeks := CoveredWeeks(amounts);
      && |weeks| == Run(Start, amounts).currentWeek - 1
      && forall k :: 0 <= k < |weeks| ==> weeks[k] == k + 1
    decreases |amounts|
  {
    if |amounts| > 0 {
      var init := amounts[..|amounts| - 1];
      LedgerCoversEachWeekOnce(init);
      var s := Run(Start, init);
      var x := amounts[|amounts| - 1];
      AllocateCoversConsecutiveWeeks(x + s.carryForward, s.currentWeek);
    }
  }

  // ---------------------------------------------------------------------------
  // Posting and the dashboard read a replayed ledger
  // ---------------------------------------------------------------------------

  lemma ChronologicalLastIsLatest(store: seq<SavingsTransaction>)
    requires Chronological(store) && store != []
    ensures LatestByDate(store) == store[|store| - 1]
  {
    var latest := LatestByDate(store);
    var last := store[|store| - 1];
    var j :| 0 <= j < |store| && store[j] == latest;
    assert last.dateSaved <= latest.dateSaved;
  }

  /**
   * Posting a deposit newer than every stored one, as `process_user_deposit`
   * does, gives it exactly the derived fields a full replay of the ledger
   * with that deposit appended would give it.
   */
  lemma ProcessAgreesWithReplay(store: seq<SavingsTransaction>, amount: int)
    requires ReplayConsistent(store) && Chronological(store)
    ensures store != [] ==> LatestByDate(store).nextWeek >= 1
    ensures ProcessUserDeposit(store, amount) == Step(Run(Start, Amounts(store)), amount)
  {
    if store != [] {
      ChronologicalLastIsLatest(store);
      LastRowHoldsFinalState(store);
    }
  }

  /** In a replayed ledger the newest transaction holds the replay's final state. */
  lemma LastRowHoldsFinalState(store: seq<SavingsTransaction>)
    requires ReplayConsistent(store) && store != []
    ensures After(store[|store| - 1].Derived()) == Run(Start, Amounts(store))
  {
    var a := Amounts(store);
    RunExtends(Start, a, |a| - 1);
    assert a[..|a|] == a;
    assert store[|a| - 1].Derived() == Row(Start, a, |a| - 1);
  }

  /**
   * Appending a transaction that received the fields the replay's final
   * state gives it keeps a replayed ledger replay-consistent.
   */
  lemma ConsistentExtends(rows: seq<SavingsTransaction>, last: SavingsTransaction)
    requires ReplayConsistent(rows)
    requires last.Derived() == Step(Run(Start, Amounts(rows)), last.amount)
    ensures ReplayConsistent(rows + [last])
  {
    var a := Amounts(rows);
    var ledger := rows + [last];
    assert Amounts(ledger) == a + [last.amount];
    forall i | 0 <= i < |ledger| ensures ledger[i].Derived() == Row(Start, a + [last.amount], i) {
      if i < |rows| {
        RowOfPrefix(Start, a, [last.amount], i);
      } else {
        assert (a + [last.amount])[..i] == a;
      }
    }
  }

  /** The newest transaction of a replayed ledger holds the sum of all its amounts. */
  lemma ConsistentLastHoldsSum(rows: seq<SavingsTransaction>)
    requires ReplayConsistent(rows) && rows != []
    ensures rows[|rows| - 1].cumulativeTotal == Sum(Amounts(rows))
  {
    var a := Amounts(rows);
    RowCumulativeTotal(a, |a| - 1);
    assert a[..|a|] == a;
    assert rows[|a| - 1].Derived() == Row(Start, a, |a| - 1);
  }

  /** Stored next weeks never move backwards along `rows`. */
  ghost predicate NextWeeksNonDecreasing(rows: seq<SavingsTransaction>)
    reads rows
  {
    forall i, j :: 0 <= i <= j < |rows| ==> rows[i].nextWeek <= rows[j].nextWeek
  }

  /** Along a replayed ledger the stored next week never moves backwards. */
  lemma ReplayedNextWeeksNonDecreasing(store: seq<SavingsTransaction>)
    requires ReplayConsistent(store)
    ensures NextWeeksNonDecreasing(store)
  {
    var a := Amounts(store);
    forall i, j | 0 <= i <= j < |store| ensures store[i].nextWeek <= store[j].nextWeek {
      RowNextWeekMonotone(Start, a, i, j);
      assert store[i].Derived() == Row(Start, a, i);
      assert store[j].Derived() == Row(Start, a, j);
    }
  }

  /**
   * In a chronological ledger whose next weeks never move backwards, as a
   * replayed one's do, the newest transaction is also the most advanced one,
   * the one `order_by('-next_week', '-date_saved')` puts first.
   */
  lemma ChronologicalLastIsMostAdvanced(store: seq<SavingsTransaction>)
    requires NextWeeksNonDecreasing(store) && Chronological(store) && store != []
    ensures MostAdvanced(store) == store[|store| - 1]
  {
    var n := |store|;
    var m := MostAdvanced(store);
    var last := store[n - 1];
    var j :| 0 <= j < n && store[j] == m;
    if j < n - 1 {
      // The newest row is at least as far along, and strictly newer.
      assert false;
    } else {
      assert m == last;
    }
  }

  /**
   * In a replayed, chronological ledger the dashboard shows the replay's
   * final state: the sum of all deposits, the current week, and a carried
   * balance that falls short of the current week's target while weeks remain.
   */
  lemma DashboardAgreesWithReplay(store: seq<SavingsTransaction>)
    requires ReplayConsistent(store) && Chronological(store)
    ensures var d := WscDashboardSummary(store);
      var t := Run(Start, Amounts(store));
      && d.totalSaved == Sum(Amounts(store))
      && d.currentWeek == t.currentWeek
      && d.carryForward == t.carryForward
      && 1 <= d.currentWeek <= WeekCount + 1
      && (d.currentWeek <= WeekCount ==> 0 <= d.carryForward < d.currentWeekTarget)
  {
    var a := Amounts(store);
    RunTotalIsSum(Start, a);
    RunStaysInSchedule(a);
    if store != [] {
      ReplayedNextWeeksNonDecreasing(store);
      ChronologicalLastIsMostAdvanced(store);
      LastRowHoldsFinalState(store);
    }
  }
}
