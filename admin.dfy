/**
 * The recomputation `SavingsTransactionAdmin.save_model` performs whenever an
 * administrator saves a savings transaction (mcs/admin.py): every other
 * transaction of the owner is replayed in ascending `date_saved` order from
 * week 1 with nothing carried, each one's four derived fields are rewritten,
 * and the saved record is evaluated last with the final state.
 */
module Admin {
  import opened Wrappers
  import opened Models
  import opened Views
  import opened Ledger

  /** No transaction appears twice in `rows`. */
  ghost predicate Distinct(rows: seq<SavingsTransaction>) {
    forall i, j :: 0 <= i < j < |rows| ==> rows[i] != rows[j]
  }

  /** Entries in ascending `date_saved` order. */
  ghost predicate DatesNonDecreasing(entries: seq<EnteredFields>) {
    forall i, j :: 0 <= i < j < |entries| ==> entries[i].dateSaved <= entries[j].dateSaved
  }

  /** Transactions in ascending `date_saved` order, as `order_by('date_saved')` returns them. */
  ghost predicate SortedByDate(rows: seq<SavingsTransaction>)
    reads rows
  {
    DatesNonDecreasing(Entries(rows))
  }

  /** `derived` are the fields the first `|derived|` deposits of `amounts` receive. */
  ghost predicate IsReplayOf(derived: seq<DerivedFields>, amounts: seq<int>) {
    && |derived| <= |amounts|
    && forall i {:trigger Row(Start, amounts, i)} :: 0 <= i < |derived| ==> derived[i] == Row(Start, amounts, i)
  }

  /** The accumulators the replay carries out of the rows `derived`. */
  function Resume(derived: seq<DerivedFields>): ReplayState {
    if derived == [] then Start else After(derived[|derived| - 1])
  }

  /** Replayed rows hand on exactly the state of the replay of their amounts. */
  lemma ResumeIsRun(derived: seq<DerivedFields>, amounts: seq<int>)
    requires IsReplayOf(derived, amounts)
    ensures Resume(derived) == Run(Start, amounts[..|derived|])
  {
    if derived != [] {
      var k := |derived| - 1;
      assert derived[k] == Row(Start, amounts, k);
      RunExtends(Start, amounts, k);
    }
  }

  /**
   * The body of the replay loop: evaluates `txn` in `state` and rewrites its
   * four derived fields, leaving what the administrator entered as it was.
   */
  method Reevaluate(txn: SavingsTransaction, state: ReplayState)
    requires state.currentWeek >= 1
    modifies txn
    ensures txn.Derived() == Step(state, txn.amount)
    ensures txn.Entered() == old(txn.Entered())
  {
    var covered, nextWeek, remaining := EvaluateDeposit(txn.amount, state.currentWeek, state.carryForward);
    txn.fullyCoveredWeeks := covered;
    txn.nextWeek := nextWeek;
    txn.remainingBalance := remaining;
    txn.cumulativeTotal := state.cumulativeTotal + txn.amount;
  }

  /**
   * One pass of the replay loop: re-evaluates `txn` and returns the
   * accumulators the next transaction starts from. `derived` are the rows
   * already replayed from `amounts`, of which `txn` holds the next.
   */
  method ReplayOne(txn: SavingsTransaction, state: ReplayState, ghost derived: seq<DerivedFields>, ghost amounts: seq<int>)
    returns (next: ReplayState)
    requires IsReplayOf(derived, amounts) && |derived| < |amounts|
    requires state == Resume(derived) && txn.amount == amounts[|derived|]
    modifies txn
    ensures txn.Derived() == Row(Start, amounts, |derived|)
    ensures IsReplayOf(derived + [txn.Derived()], amounts)
    ensures next == Resume(derived + [txn.Derived()])
    ensures txn.Entered() == old(txn.Entered())
  {
    ResumeIsRun(derived, amounts);
    Reevaluate(txn, state);
    next := After(txn.Derived());
  }

  /**
   * A ledger replayed again with nothing entered changed gets back the
   * derived fields it already had.
   */
  twostate lemma ReplayIsIdempotent(rows: seq<SavingsTransaction>)
    requires old(ReplayConsistent(rows)) && ReplayConsistent(rows)
    requires Entries(rows) == old(Entries(rows))
    ensures forall i :: 0 <= i < |rows| ==> rows[i].Derived() == old(rows[i].Derived())
  {
    forall i | 0 <= i < |rows| ensures rows[i].Derived() == old(rows[i].Derived()) {
      assert rows[i].Derived() == Row(Start, Amounts(rows), i);
      assert old(rows[i].Derived()) == Row(Start, old(Amounts(rows)), i);
    }
  }

  /**
   * The loop over `previous_transactions`: replays `rows` in order from the
   * zero state, rewrites each one's derived fields and returns the final
   * accumulators. Amounts, dates and receipt numbers are left as they were,
   * and rows already replay-consistent keep their derived fields.
   */
  method ReplayRows(rows: seq<SavingsTransaction>) returns (state: ReplayState)
    requires Distinct(rows)
    modifies rows
    ensures state == Run(Start, Amounts(rows))
    ensures ReplayConsistent(rows)
    ensures Entries(rows) == old(Entries(rows))
    ensures old(ReplayConsistent(rows)) ==> forall i :: 0 <= i < |rows| ==> rows[i].Derived() == old(rows[i].Derived())
  {
    ghost var entries := Entries(rows);
    ghost var amounts := Amounts(rows);
    ghost var derived: seq<DerivedFields> := [];
    state := Start;
    var k := 0;
    while k < |rows|
      invariant 0 <= k <= |rows| && |derived| == k
      invariant state == Resume(derived)
      invariant forall i :: 0 <= i < |rows| ==> rows[i].Entered() == entries[i]
      invariant forall i :: 0 <= i < k ==> rows[i].Derived() == derived[i]
      invariant IsReplayOf(derived, amounts)
    {
      assert rows[k].amount == entries[k].amount == amounts[k];
      state := ReplayOne(rows[k], state, derived, amounts);
      derived := derived + [rows[k].Derived()];
      k := k + 1;
    }
    ResumeIsRun(derived, amounts);
    assert amounts[..|rows|] == amounts;
    assert Entries(rows) == entries;
    if old(ReplayConsistent(rows)) {
      ReplayIsIdempotent(rows);
    }
  }

  /**
   * The last step of `save_model`: the saved record `obj` is evaluated with
   * the state the replay of `previous` ended in, so the ledger `previous`
   * followed by `obj` is replay-consistent, `obj`'s cumulative total is the
   * sum of every amount, itself included, and next weeks never move
   * backwards, `obj` included.
   */
  method EvaluateLast(previous: seq<SavingsTransaction>, obj: SavingsTransaction, state: ReplayState)
    requires obj !in previous && ReplayConsistent(previous) && state == Run(Start, Amounts(previous))
    modifies obj
    ensures ReplayConsistent(previous + [obj])
    ensures obj.cumulativeTotal == Sum(Amounts(previous + [obj]))
    ensures NextWeeksNonDecreasing(previous + [obj])
    ensures obj.Entered() == old(obj.Entered())
    ensures Entries(previous) == old(Entries(previous))
  {
    Reevaluate(obj, state);
    ConsistentExtends(previous, obj);
    ConsistentLastHoldsSum(previous + [obj]);
    ReplayedNextWeeksNonDecreasing(previous + [obj]);
  }

  /**
   * `save_model` as written: the owner's other transactions `previous`, in
   * ascending date order, are replayed first, and the saved record `obj` is
   * evaluated last, whatever its own date. The ledger that results is
   * replay-consistent in that order, only derived fields are written, and a
   * second save with nothing changed rewrites nothing.
   */
  method SaveModel(previous: seq<SavingsTransaction>, obj: SavingsTransaction)
    requires Distinct(previous) && obj !in previous && SortedByDate(previous)
    modifies previous, obj
    ensures ReplayConsistent(previous + [obj])
    ensures obj.cumulativeTotal == Sum(Amounts(previous + [obj]))
    ensures NextWeeksNonDecreasing(previous + [obj])
    ensures Entries(previous + [obj]) == old(Entries(previous + [obj]))
    ensures old(ReplayConsistent(previous + [obj])) ==>
      forall i :: 0 <= i < |previous| + 1 ==> (previous + [obj])[i].Derived() == old((previous + [obj])[i].Derived())
  {
    ghost var entries := Entries(previous);
    ghost var entered := obj.Entered();
    EntriesAppend(previous, obj);
    var state := ReplayRows(previous);
    assert obj.Entered() == entered;
    EvaluateLast(previous, obj, state);
    assert Entries(previous) == entries;
    EntriesAppend(previous, obj);
    if old(ReplayConsistent(previous + [obj])) {
      ReplayIsIdempotent(previous + [obj]);
    }
  }

  // ---------------------------------------------------------------------------
  // A backdated edit, and the save that keeps the ledger in date order
  // ---------------------------------------------------------------------------

  /**
   * A deposit of 10,000 dated day 1 is saved while a deposit of 20,000 dated
   * day 2 already exists. `save_model` replays the later deposit first and
   * evaluates the edited one last, so the ledger it leaves is
   * replay-consistent in the order later, edited, and not in date order.
   */
  method BackdatedEditExample() returns (edited: SavingsTransaction, later: SavingsTransaction)
    ensures Entries([later, edited]) == [EnteredFields(20000, None, 2), EnteredFields(10000, None, 1)]
    ensures ReplayConsistent([later, edited])
  {
    later := new SavingsTransaction(20000, None, 2);
    edited := new SavingsTransaction(10000, None, 1);
    assert Entries([later] + [edited]) == [EnteredFields(20000, None, 2), EnteredFields(10000, None, 1)];
    SaveModel([later], edited);
    assert [later] + [edited] == [later, edited];
  }

  /**
   * What the ledger of `BackdatedEditExample` holds: the earlier deposit is
   * credited with week 2 and the later one with week 1, so the ledger is not
   * replay-consistent in date order.
   */
  lemma BackdatedEditOutcome(edited: SavingsTransaction, later: SavingsTransaction)
    requires later.amount == 20000 && edited.amount == 10000
    requires ReplayConsistent([later, edited])
    ensures later.Derived() == DerivedFields([1], 2, 10000, 20000)
    ensures edited.Derived() == DerivedFields([2], 3, 0, 30000)
    ensures !ReplayConsistent([edited, later])
  {
    var saved := [later, edited];
    var a := Amounts(saved);
    assert a == [20000, 10000] by {
      assert a[0] == 20000 && a[1] == 10000;
    }
    SavedOrderRows(a);
    assert later.Derived() == Row(Start, a, 0) by {
      assert saved[0].Derived() == Row(Start, a, 0);
    }
    assert edited.Derived() == Row(Start, a, 1) by {
      assert saved[1].Derived() == Row(Start, a, 1);
    }
    DateOrderIsNotConsistent(edited, later);
  }

  /**
   * In date order the backdated row would be the first row of the replay,
   * which covers week 1, not week 2: the ledger as saved is not
   * replay-consistent in that order.
   */
  lemma DateOrderIsNotConsistent(edited: SavingsTransaction, later: SavingsTransaction)
    requires later.amount == 20000 && edited.amount == 10000
    requires edited.Derived() == DerivedFields([2], 3, 0, 30000)
    ensures !ReplayConsistent([edited, later])
  {
    var dated := [edited, later];
    var b := Amounts(dated);
    assert b == [10000, 20000] by {
      assert b[0] == 10000 && b[1] == 20000;
    }
    DateOrderFirstRow(b);
    assert dated[0].Derived() != Row(Start, b, 0);
  }

  /**
   * The rows the replay gives the backdated edit's amounts in the order saved.
   * The figures come in as parameters pinned by `requires` rather than as
   * literals: with literal arguments the solver unfolds the replay eagerly
   * in every context that mentions them, and the proof grows too costly.
   */
  lemma SavedOrderRows(saved: seq<int>)
    requires saved == [20000, 10000]
    ensures Row(Start, saved, 0) == DerivedFields([1], 2, 10000, 20000)
    ensures Row(Start, saved, 1) == DerivedFields([2], 3, 0, 30000)
  {
    assert saved[..0] == [] && saved[..1] == [20000] && [20000][..0] == [];
    assert Allocate(10000, 2) == Evaluation([], 2, 10000);
    assert Allocate(20000, 1) == Evaluation([1], 2, 10000);
    assert Run(Start, [20000]) == ReplayState(20000, 10000, 2);
    assert Allocate(0, 3) == Evaluation([], 3, 0);
    assert Allocate(20000, 2) == Evaluation([2], 3, 0);
  }

  /**
   * The first row the replay gives the same amounts in date order.
   * The figures come in as parameters pinned by `requires` rather than as
   * literals: with literal arguments the solver unfolds the replay eagerly
   * in every context that mentions them, and the proof grows too costly.
   */
  lemma DateOrderFirstRow(dated: seq<int>)
    requires dated == [10000, 20000]
    ensures Row(Start, dated, 0) == DerivedFields([1], 2, 0, 10000)
  {
    assert dated[..0] == [];
    assert Allocate(0, 2) == Evaluation([], 2, 0);
    assert Allocate(10000, 1) == Evaluation([1], 2, 0);
  }

  /**
   * The next deposit of 20,000 after the backdated edit is posted after the
   * latest-dated row, which carries week 2 as next week and 10,000 forward,
   * so it pays week 2, which the edited row already covers, a second time.
   */
  lemma BackdatedRepostPaysWeekTwice(edited: SavingsTransaction, later: SavingsTransaction)
    requires edited.dateSaved < later.dateSaved
    requires later.Derived() == DerivedFields([1], 2, 10000, 20000)
    requires edited.Derived() == DerivedFields([2], 3, 0, 30000)
    ensures LatestByDate([edited, later]) == later
    ensures ProcessUserDeposit([edited, later], 20000).fullyCoveredWeeks == edited.fullyCoveredWeeks
  {
    var dated := [edited, later];
    assert dated[..1] == [edited];
    SecondDepositCoversWeekTwo(20000, 2, 10000);
  }

  /**
   * A deposit of 20,000 at week 2 with 10,000 carried covers week 2 alone.
   * The figures come in as parameters pinned by `requires` rather than as
   * literals: with literal arguments the solver unfolds the replay eagerly
   * in every context that mentions them, and the proof grows too costly.
   */
  lemma SecondDepositCoversWeekTwo(deposit: int, week: int, carry: int)
    requires deposit == 20000 && week == 2 && carry == 10000
    ensures Evaluate(deposit, week, carry).fullyCoveredWeeks == [week]
  {
    assert Allocate(10000, 3) == Evaluation([], 3, 10000);
    assert Allocate(30000, 2) == Evaluation([2], 3, 10000);
  }

  /**
   * Where a record dated `date` belongs among `entries`: after the leading
   * entries dated no later, before the first one dated later.
   */
  function InsertionPoint(entries: seq<EnteredFields>, date: int): (p: nat)
    ensures p <= |entries|
    ensures forall i :: 0 <= i < p ==> entries[i].dateSaved <= date
    ensures p < |entries| ==> date < entries[p].dateSaved
  {
    if entries == [] || date < entries[0].dateSaved then 0
    else 1 + InsertionPoint(entries[1..], date)
  }

  /**
   * `obj` placed among `previous` by date, after any transaction dated no
   * later: the result holds the same transactions and stays sorted by date,
   * and when no transaction shares `obj`'s date a chronological ledger stays
   * chronological.
   */
  function InsertByDate(previous: seq<SavingsTransaction>, obj: SavingsTransaction): (ledger: seq<SavingsTransaction>)
    reads previous, obj
    requires Distinct(previous) && obj !in previous && SortedByDate(previous)
    ensures exists p :: 0 <= p <= |previous| && ledger == previous[..p] + [obj] + previous[p..]
    ensures multiset(ledger) == multiset(previous + [obj])
    ensures Distinct(ledger) && SortedByDate(ledger)
    ensures (forall t :: t in previous ==> t.dateSaved != obj.dateSaved) && Chronological(previous) ==>
      Chronological(ledger)
  {
    var p := InsertionPoint(Entries(previous), obj.dateSaved);
    InsertKeepsOrder(previous, obj, p);
    InsertKeepsChronological(previous, obj, p);
    InsertedMultiset(previous, obj, p);
    previous[..p] + [obj] + previous[p..]
  }

  /**
   * When the saved record is dated no earlier than any other, the date
   * insertion puts it last: the date-ordered save then replays the very
   * ledger `previous + [obj]` that `SaveModel` replays, so the correction
   * changes only backdated saves.
   */
  lemma {:induction false} InsertByDateOfLatest(previous: seq<SavingsTransaction>, obj: SavingsTransaction)
    requires Distinct(previous) && obj !in previous && SortedByDate(previous)
    requires forall t :: t in previous ==> t.dateSaved <= obj.dateSaved
    ensures InsertByDate(previous, obj) == previous + [obj]
  {
    var p := InsertionPoint(Entries(previous), obj.dateSaved);
    assert p == |previous|;
    assert previous[..p] == previous && previous[p..] == [];
  }

  /**
   * How `save_model` should behave: the saved record `obj` takes its place
   * among `previous` by date and the whole ledger is replayed in that order.
   * The result is replay-consistent and still sorted by date, and only
   * derived fields are written; with distinct dates it is the chronological
   * ledger, on which posting and the dashboard agree with the replay
   * (`Ledger.ProcessAgreesWithReplay`, `Ledger.DashboardAgreesWithReplay`).
   */
  method SaveModelInOrder(previous: seq<SavingsTransaction>, obj: SavingsTransaction)
    returns (ledger: seq<SavingsTransaction>)
    requires Distinct(previous) && obj !in previous && SortedByDate(previous)
    modifies previous, obj
    ensures ledger == old(InsertByDate(previous, obj))
    ensures SortedByDate(ledger)
    ensures old((forall t :: t in previous ==> t.dateSaved != obj.dateSaved) && Chronological(previous)) ==>
      Chronological(ledger)
    ensures ReplayConsistent(ledger)
    ensures Entries(ledger) == old(Entries(ledger))
  {
    ledger := InsertByDate(previous, obj);
    var _ := ReplayRows(ledger);
  }

  /** Inserting `obj` anywhere in `previous` adds `obj` and nothing else. */
  lemma InsertedMultiset(previous: seq<SavingsTransaction>, obj: SavingsTransaction, p: nat)
    requires p <= |previous|
    ensures multiset(previous[..p] + [obj] + previous[p..]) == multiset(previous + [obj])
  {
    assert previous[..p] + previous[p..] == previous;
  }

  /** The `i`-th transaction once `obj` is placed at position `p` of `previous`. */
  function InsertedAt(previous: seq<SavingsTransaction>, obj: SavingsTransaction, p: nat, i: nat): SavingsTransaction
    requires p <= |previous| && i <= |previous|
  {
    if i < p then previous[i] else if i == p then obj else previous[i - 1]
  }

  lemma InsertedAtIndex(previous: seq<SavingsTransaction>, obj: SavingsTransaction, p: nat)
    requires p <= |previous|
    ensures var ledger := previous[..p] + [obj] + previous[p..];
      && |ledger| == |previous| + 1
      && forall i :: 0 <= i < |ledger| ==> ledger[i] == InsertedAt(previous, obj, p, i)
  {
    var ledger := previous[..p] + [obj] + previous[p..];
    forall i | 0 <= i < |ledger| ensures ledger[i] == InsertedAt(previous, obj, p, i) {
      if i < p {
        assert ledger[i] == previous[..p][i];
      } else if i > p {
        assert ledger[i] == previous[p..][i - p - 1];
      }
    }
  }

  /** Two positions of the ledger with `obj` inserted at `p` hold distinct, date-ordered transactions. */
  lemma InsertedPairInOrder(previous: seq<SavingsTransaction>, obj: SavingsTransaction, p: nat, i: nat, j: nat)
    requires Distinct(previous) && obj !in previous && SortedByDate(previous) && p <= |previous|
    requires forall k :: 0 <= k < p ==> previous[k].dateSaved <= obj.dateSaved
    requires p < |previous| ==> obj.dateSaved < previous[p].dateSaved
    requires i < j <= |previous|
    ensures InsertedAt(previous, obj, p, i) != InsertedAt(previous, obj, p, j)
    ensures InsertedAt(previous, obj, p, i).dateSaved <= InsertedAt(previous, obj, p, j).dateSaved
    ensures (forall t :: t in previous ==> t.dateSaved != obj.dateSaved) && Chronological(previous) ==>
      InsertedAt(previous, obj, p, i).dateSaved < InsertedAt(previous, obj, p, j).dateSaved
  {
    if i < p && j == p {
      assert previous[i] in previous;
    } else if i == p {
      assert previous[j - 1] in previous;
      assert obj.dateSaved < previous[p].dateSaved <= previous[j - 1].dateSaved;
    }
  }

  /** Inserting `obj` at its date position keeps the transactions distinct and sorted by date. */
  lemma InsertKeepsOrder(previous: seq<SavingsTransaction>, obj: SavingsTransaction, p: nat)
    requires Distinct(previous) && obj !in previous && SortedByDate(previous) && p <= |previous|
    requires forall i :: 0 <= i < p ==> previous[i].dateSaved <= obj.dateSaved
    requires p < |previous| ==> obj.dateSaved < previous[p].dateSaved
    ensures Distinct(previous[..p] + [obj] + previous[p..])
    ensures SortedByDate(previous[..p] + [obj] + previous[p..])
  {
    var ledger := previous[..p] + [obj] + previous[p..];
    InsertedAtIndex(previous, obj, p);
    forall i, j | 0 <= i < j < |ledger|
      ensures ledger[i] != ledger[j] && ledger[i].dateSaved <= ledger[j].dateSaved
    {
      InsertedPairInOrder(previous, obj, p, i, j);
    }
  }

  /** With no date shared with `obj`, inserting it into a chronological ledger keeps it chronological. */
  lemma InsertKeepsChronological(previous: seq<SavingsTransaction>, obj: SavingsTransaction, p: nat)
    requires Distinct(previous) && obj !in previous && SortedByDate(previous) && p <= |previous|
    requires forall i :: 0 <= i < p ==> previous[i].dateSaved <= obj.dateSaved
    requires p < |previous| ==> obj.dateSaved < previous[p].dateSaved
    ensures (forall t :: t in previous ==> t.dateSaved != obj.dateSaved) && Chronological(previous) ==>
      Chronological(previous[..p] + [obj] + previous[p..])
  {
    if (forall t :: t in previous ==> t.dateSaved != obj.dateSaved) && Chronological(previous) {
      var ledger := previous[..p] + [obj] + previous[p..];
      InsertedAtIndex(previous, obj, p);
      forall i, j | 0 <= i < j < |ledger| ensures ledger[i].dateSaved < ledger[j].dateSaved {
        InsertedPairInOrder(previous, obj, p, i, j);
      }
    }
  }
}
