/**
 * The 52-week savings challenge engine of the views (mcs/views.py): the
 * weekly target schedule, the deposit evaluator, incremental posting of a
 * deposit, the member dashboard's summary, and the allocation of goat-farming
 * payments between goats and management fees.
 */
module Views {
  import opened Wrappers
  import opened Models

  const WeekCount: nat := 52
  /** The sum of all 52 weekly targets, the divisor of the dashboard's progress percentage. */
  const ChallengeTotal: nat := 13780000

  /** The amount week `week` (1-based) requires. */
  function Target(week: int): int {
    week * 10000
  }

  // ---------------------------------------------------------------------------
  // Target schedule
  // ---------------------------------------------------------------------------

  /** `get_weekly_targets`: week i requires i times 10,000. */
  function WeeklyTargets(): (targets: seq<int>)
    ensures |targets| == WeekCount
    ensures forall i :: 0 <= i < |targets| ==> targets[i] == (i + 1) * 10000
  {
    seq(WeekCount, i => (i + 1) * 10000)
  }

  function SumOf(s: seq<int>): int {
    if |s| == 0 then 0 else s[0] + SumOf(s[1..])
  }

  /** The targets of `count` consecutive weeks starting at week `from`. */
  function RunTotal(from: int, count: nat): int
    decreases count
  {
    if count == 0 then 0 else Target(from) + RunTotal(from + 1, count - 1)
  }

  /** Closed form of a run of targets (an arithmetic series). */
  lemma {:induction false} RunTotalClosedForm(from: int, count: nat)
    ensures 2 * RunTotal(from, count) == 10000 * count * (2 * from + count - 1)
    decreases count
  {
    if count > 0 {
      RunTotalClosedForm(from + 1, count - 1);
      calc {
        2 * RunTotal(from, count);
        2 * from * 10000 + 10000 * (count - 1) * (2 * (from + 1) + count - 2);
        { assert (count - 1) * (2 * from + count) == 2 * from * count + count * count - 2 * from - count; }
        10000 * count * (2 * from + count - 1);
      }
    }
  }

  lemma {:induction false} WeeklyTargetsSuffixSum(i: nat)
    requires i <= WeekCount
    ensures SumOf(WeeklyTargets()[i..]) == RunTotal(i + 1, WeekCount - i)
    decreases WeekCount - i
  {
    if i < WeekCount {
      WeeklyTargetsSuffixSum(i + 1);
      assert WeeklyTargets()[i..][1..] == WeeklyTargets()[i + 1..];
    }
  }

  /** The 52 targets add up to the challenge total the dashboard divides by. */
  lemma WeeklyTargetsTotal()
    ensures SumOf(WeeklyTargets()) == ChallengeTotal
  {
    var targets := WeeklyTargets();
    var first: nat, count: nat := 0, |targets|;
    WeeklyTargetsSuffixSum(first);
    assert targets[first..] == targets;
    RunTotalClosedForm(first + 1, count);
    assert 2 * RunTotal(first + 1, count) == 10000 * count * (count + 1);
  }

  // ---------------------------------------------------------------------------
  // Deposit evaluator
  // ---------------------------------------------------------------------------

  /** What `evaluate_deposit` returns. */
  datatype Evaluation = Evaluation(fullyCoveredWeeks: seq<int>, nextWeek: int, remainingBalance: int)

  /** The sum of the targets of a list of weeks. */
  function TargetsOf(weeks: seq<int>): int {
    if |weeks| == 0 then 0 else Target(weeks[0]) + TargetsOf(weeks[1..])
  }

  /**
   * Reference definition of the evaluator: pay `balance` against the weeks
   * from `week` on, each in full, stopping at the first week it cannot cover
   * or after week 52.
   */
  function Allocate(balance: int, week: int): (e: Evaluation)
    requires week >= 1
    ensures week <= e.nextWeek && |e.fullyCoveredWeeks| == e.nextWeek - week
    decreases WeekCount + 1 - week
  {
    if week > WeekCount || balance < Target(week) then
      Evaluation([], week, balance)
    else
      var rest := Allocate(balance - Target(week), week + 1);
      Evaluation([week] + rest.fullyCoveredWeeks, rest.nextWeek, rest.remainingBalance)
  }

  /**
   * Conservation: the balance is exactly the targets of the covered weeks
   * plus what remains, and nothing negative remains of a non-negative
   * balance.
   */
  lemma {:induction false} AllocateConserves(balance: int, week: int)
    requires week >= 1
    ensures var e := Allocate(balance, week);
      && balance == TargetsOf(e.fullyCoveredWeeks) + e.remainingBalance
      && (balance >= 0 ==> 0 <= e.remainingBalance <= balance)
    decreases WeekCount + 1 - week
  {
    if !(week > WeekCount || balance < Target(week)) {
      var rest := Allocate(balance - Target(week), week + 1);
      AllocateConserves(balance - Target(week), week + 1);
      assert ([week] + rest.fullyCoveredWeeks)[1..] == rest.fullyCoveredWeeks;
    }
  }

  /**
   * The covered weeks are the consecutive weeks `week`, `week + 1`, ... up to
   * the next week, which never passes 53 when the walk starts at or before
   * it; past week 52 nothing is covered and the week stays.
   */
  lemma {:induction false} AllocateCoversConsecutiveWeeks(balance: int, week: int)
    requires week >= 1
    ensures var e := Allocate(balance, week);
      && (forall k :: 0 <= k < |e.fullyCoveredWeeks| ==> e.fullyCoveredWeeks[k] == week + k)
      && (week <= WeekCount + 1 ==> e.nextWeek <= WeekCount + 1)
      && (week > WeekCount ==> e == Evaluation([], week, balance))
    decreases WeekCount + 1 - week
  {
    if !(week > WeekCount || balance < Target(week)) {
      AllocateCoversConsecutiveWeeks(balance - Target(week), week + 1);
    }
  }

  /** The walk stops only for a week the remaining balance cannot cover, or after week 52. */
  lemma {:induction false} AllocateStopsAtShortfall(balance: int, week: int)
    requires week >= 1
    ensures var e := Allocate(balance, week);
      e.nextWeek <= WeekCount ==> e.remainingBalance < Target(e.nextWeek)
    decreases WeekCount + 1 - week
  {
    if !(week > WeekCount || balance < Target(week)) {
      AllocateStopsAtShortfall(balance - Target(week), week + 1);
    }
  }

  /** `evaluate_deposit(deposit, current_week, carry_forward)` as a value. */
  function Evaluate(deposit: int, currentWeek: int, carryForward: int): (e: Evaluation)
    requires currentWeek >= 1
    ensures deposit + carryForward == TargetsOf(e.fullyCoveredWeeks) + e.remainingBalance
    ensures e.nextWeek <= WeekCount ==> e.remainingBalance < Target(e.nextWeek)
  {
    AllocateConserves(deposit + carryForward, currentWeek);
    AllocateStopsAtShortfall(deposit + carryForward, currentWeek);
    Allocate(deposit + carryForward, currentWeek)
  }

  /**
   * The evaluator covers every run of weeks the balance can pay for: no
   * longer run of weeks from `week` on, ending at or before week 52, fits in
   * `balance`.
   */
  lemma {:induction false} AllocateCoversEveryAffordableRun(balance: int, week: int, count: nat)
    requires week >= 1 && week + count <= WeekCount + 1
    requires RunTotal(week, count) <= balance
    ensures count <= |Allocate(balance, week).fullyCoveredWeeks|
    decreases count
  {
    if count > 0 {
      RunTotalNonNegative(week + 1, count - 1);
      AllocateCoversEveryAffordableRun(balance - Target(week), week + 1, count - 1);
    }
  }

  lemma {:induction false} RunTotalNonNegative(from: int, count: nat)
    requires from >= 1
    ensures RunTotal(from, count) >= 0
    decreases count
  {
    if count > 0 {
      RunTotalNonNegative(from + 1, count - 1);
    }
  }

  /**
   * `evaluate_deposit`: adds the carried balance to the deposit and walks the
   * targets upward from `currentWeek`, paying each week in full, until one
   * does not fit.
   */
  method EvaluateDeposit(deposit: int, currentWeek: int, carryForward: int)
    returns (fullyCovered: seq<int>, nextWeek: int, remainingBalance: int)
    requires currentWeek >= 1
    ensures Evaluation(fullyCovered, nextWeek, remainingBalance) == Evaluate(deposit, currentWeek, carryForward)
    ensures deposit + carryForward == TargetsOf(fullyCovered) + remainingBalance
    ensures |fullyCovered| == nextWeek - currentWeek
    ensures forall k :: 0 <= k < |fullyCovered| ==> fullyCovered[k] == currentWeek + k
    ensures nextWeek <= WeekCount ==> remainingBalance < Target(nextWeek)
    ensures currentWeek > WeekCount ==> fullyCovered == [] && nextWeek == currentWeek
    ensures currentWeek <= WeekCount + 1 ==> nextWeek <= WeekCount + 1
  {
    var weeklyTargets := WeeklyTargets();
    var balance := deposit + carryForward;
    var week := currentWeek;
    fullyCovered := [];
    var i := currentWeek - 1;
    while i < WeekCount
      invariant currentWeek - 1 <= i && week == i + 1
      invariant currentWeek <= WeekCount + 1 ==> i <= WeekCount
      invariant |fullyCovered| == week - currentWeek
      invariant forall k :: 0 <= k < |fullyCovered| ==> fullyCovered[k] == currentWeek + k
      invariant deposit + carryForward == TargetsOf(fullyCovered) + balance
      invariant fullyCovered != [] ==> balance >= 0 && week <= WeekCount + 1
    {
      var target := weeklyTargets[i];
      if balance >= target {
        TargetsOfAppend(fullyCovered, i + 1);
        fullyCovered := fullyCovered + [i + 1];
        balance := balance - target;
        week := week + 1;
      } else {
        break;
      }
      i := i + 1;
    }
    nextWeek, remainingBalance := week, balance;
    AllocateIsTheOnlyStoppedRun(deposit + carryForward, currentWeek, fullyCovered, remainingBalance);
  }

  lemma {:induction false} TargetsOfAppend(weeks: seq<int>, week: int)
    ensures TargetsOf(weeks + [week]) == TargetsOf(weeks) + Target(week)
    decreases |weeks|
  {
    if |weeks| == 0 {
      assert [] + [week] == [week];
    } else {
      assert (weeks + [week])[1..] == weeks[1..] + [week];
      TargetsOfAppend(weeks[1..], week);
    }
  }

  /**
   * The evaluator's result is the only run of consecutive weeks from `week`
   * (none past week 52) that the balance pays for exactly, leaving a
   * remainder that is non-negative (when anything was covered) and short of
   * the next week's target.
   */
  lemma {:induction false} AllocateIsTheOnlyStoppedRun(balance: int, week: int, covered: seq<int>, remaining: int)
    requires week >= 1
    requires forall k :: 0 <= k < |covered| ==> covered[k] == week + k
    requires covered != [] ==> week + |covered| <= WeekCount + 1 && remaining >= 0
    requires balance == TargetsOf(covered) + remaining
    requires week + |covered| <= WeekCount ==> remaining < Target(week + |covered|)
    ensures Allocate(balance, week) == Evaluation(covered, week + |covered|, remaining)
    decreases |covered|
  {
    if covered != [] {
      var tail := covered[1..];
      assert forall k :: 0 <= k < |tail| ==> tail[k] == (week + 1) + k by {
        forall k | 0 <= k < |tail| ensures tail[k] == (week + 1) + k {
          assert tail[k] == covered[k + 1];
        }
      }
      TargetsOfNonNegative(tail);
      AllocateIsTheOnlyStoppedRun(balance - Target(week), week + 1, tail, remaining);
      assert covered == [week] + tail;
    }
  }

  lemma {:induction false} TargetsOfNonNegative(weeks: seq<int>)
    requires forall k :: 0 <= k < |weeks| ==> weeks[k] >= 1
    ensures TargetsOf(weeks) >= 0
    decreases |weeks|
  {
    if |weeks| > 0 {
      assert forall k :: 0 <= k < |weeks[1..]| ==> weeks[1..][k] == weeks[k + 1];
      TargetsOfNonNegative(weeks[1..]);
    }
  }

  // ---------------------------------------------------------------------------
  // Incremental posting
  // ---------------------------------------------------------------------------

  /**
   * The owner's most recent transaction, `order_by('-date_saved').first()`:
   * a transaction no other is dated after; among equal dates, the later one
   * in `store`.
   */
  function LatestByDate(store: seq<SavingsTransaction>): (latest: SavingsTransaction?)
    reads store
    ensures latest == null <==> store == []
    ensures latest != null ==> latest in store && forall t :: t in store ==> t.dateSaved <= latest.dateSaved
  {
    if |store| == 0 then null
    else
      var last := store[|store| - 1];
      var before := LatestByDate(store[..|store| - 1]);
      assert forall t :: t in store ==> t in store[..|store| - 1] || t == last;
      if before == null || before.dateSaved <= last.dateSaved then last else before
  }

  /**
   * `process_user_deposit`: the derived fields a new deposit gets when it is
   * posted after the owner's most recent transaction, continuing from that
   * transaction's next week, remaining balance and cumulative total, or from
   * week 1 with nothing carried when there is none.
   */
  function ProcessUserDeposit(store: seq<SavingsTransaction>, depositAmount: int): (p: DerivedFields)
    reads store
    requires LatestByDate(store) != null ==> LatestByDate(store).nextWeek >= 1
    ensures store == [] ==>
      && p.cumulativeTotal == depositAmount
      && Evaluation(p.fullyCoveredWeeks, p.nextWeek, p.remainingBalance) == Evaluate(depositAmount, 1, 0)
    ensures store != [] ==>
      var latest := LatestByDate(store);
      && p.cumulativeTotal == latest.cumulativeTotal + depositAmount
      && Evaluation(p.fullyCoveredWeeks, p.nextWeek, p.remainingBalance)
         == Evaluate(depositAmount, latest.nextWeek, latest.remainingBalance)
  {
    var latest := LatestByDate(store);
    var currentWeek := if latest != null then latest.nextWeek else 1;
    var carryForward := if latest != null then latest.remainingBalance else 0;
    var cumulativeTotal := if latest != null then latest.cumulativeTotal + depositAmount else depositAmount;
    var result := Evaluate(depositAmount, currentWeek, carryForward);
    DerivedFields(result.fullyCoveredWeeks, result.nextWeek, result.remainingBalance, cumulativeTotal)
  }

  // ---------------------------------------------------------------------------
  // Member dashboard
  // ---------------------------------------------------------------------------

  /** `a` sorts before `b` under `order_by('-next_week', '-date_saved')`, or ties with it. */
  predicate AtLeastAsAdvanced(a: SavingsTransaction, b: SavingsTransaction)
    reads a, b
  {
    a.nextWeek > b.nextWeek || (a.nextWeek == b.nextWeek && a.dateSaved >= b.dateSaved)
  }

  /**
   * `order_by('-next_week', '-date_saved').first()`: the transaction with the
   * furthest next week, the latest among those; on a full tie, the later one
   * in `store`.
   */
  function MostAdvanced(store: seq<SavingsTransaction>): (m: SavingsTransaction?)
    reads store
    ensures m == null <==> store == []
    ensures m != null ==> m in store && forall t :: t in store ==> AtLeastAsAdvanced(m, t)
  {
    if |store| == 0 then null
    else
      var last := store[|store| - 1];
      var before := MostAdvanced(store[..|store| - 1]);
      assert forall t :: t in store ==> t in store[..|store| - 1] || t == last;
      if before == null || AtLeastAsAdvanced(last, before) then last else before
  }

  datatype DashboardSummary = DashboardSummary(
    totalSaved: int,
    currentWeek: int,
    carryForward: int,
    currentWeekTarget: int)

  /**
   * The figures `wsc_member_dashboard` derives from the most advanced
   * transaction: total saved, current week, carried balance, and the current
   * week's target (0 once all 52 weeks are covered). A stored next week of 0
   * reads the list at index -1, that is, week 52's target.
   */
  function WscDashboardSummary(store: seq<SavingsTransaction>): (d: DashboardSummary)
    reads store
    ensures store == [] ==> d == DashboardSummary(0, 1, 0, Target(1))
    ensures store != [] ==>
      var m := MostAdvanced(store);
      d.totalSaved == m.cumulativeTotal && d.currentWeek == m.nextWeek && d.carryForward == m.remainingBalance
    ensures d.currentWeekTarget ==
      if 1 <= d.currentWeek <= WeekCount then Target(d.currentWeek)
      else if d.currentWeek == 0 then Target(WeekCount)
      else 0
  {
    var latest := MostAdvanced(store);
    var totalSaved := if latest != null then latest.cumulativeTotal else 0;
    var currentWeek: nat := if latest != null then latest.nextWeek else 1;
    var carryForward := if latest != null then latest.remainingBalance else 0;
    var weeklyTargets := WeeklyTargets();
    var currentWeekTarget :=
      if currentWeek <= WeekCount then
        (if currentWeek >= 1 then weeklyTargets[currentWeek - 1] else weeklyTargets[|weeklyTargets| - 1])
      else 0;
    DashboardSummary(totalSaved, currentWeek, carryForward, currentWeekTarget)
  }

  // ---------------------------------------------------------------------------
  // Goat-farming payment allocation
  // ---------------------------------------------------------------------------

  const GoatCost: nat := 600000
  const MaxGoats: nat := 10

  /** A completed or pending payment or management-fee payment: the transactions the allocation sums. */
  predicate CountsAsPayment(t: GoatFarmingTransaction) {
    t.status in {Completed, Pending} && t.transactionType in {Payment, ManagementFee}
  }

  /** Total of the completed or pending payments and management-fee payments. */
  function PaymentTotal(txns: seq<GoatFarmingTransaction>): (total: int)
    ensures (forall i :: 0 <= i < |txns| ==> !CountsAsPayment(txns[i])) ==> total == 0
    ensures (forall i :: 0 <= i < |txns| ==> txns[i].amount >= 0) ==> total >= 0
  {
    if |txns| == 0 then 0
    else
      var t := txns[|txns| - 1];
      PaymentTotal(txns[..|txns| - 1]) + (if CountsAsPayment(t) then t.amount else 0)
  }

  /** One more transaction adds its amount to the total exactly when it counts as a payment. */
  lemma PaymentTotalAppend(txns: seq<GoatFarmingTransaction>, t: GoatFarmingTransaction)
    ensures PaymentTotal(txns + [t]) == PaymentTotal(txns) + (if CountsAsPayment(t) then t.amount else 0)
  {
    assert (txns + [t])[..|txns|] == txns;
  }

  /** Python's `//` on a `Decimal` total: the quotient truncated toward zero. */
  function TruncDiv(n: int, d: int): int
    requires d > 0
  {
    if n >= 0 then n / d else -((-n) / d)
  }

  datatype GoatAllocation = GoatAllocation(goatsPurchased: int, amountForGoats: int, amountForManagementFees: int)

  /**
   * Deposits buy whole goats at 600,000 each, at most 10; whatever is left
   * counts as management fees.
   */
  function AllocateGoatPayments(totalDeposits: int): (a: GoatAllocation)
    ensures a.amountForGoats + a.amountForManagementFees == totalDeposits
    ensures a.amountForGoats == a.goatsPurchased * GoatCost && a.goatsPurchased <= MaxGoats
    ensures totalDeposits >= 0 ==>
      && 0 <= a.goatsPurchased
      && 0 <= a.amountForManagementFees
      && (a.goatsPurchased == MaxGoats || a.amountForManagementFees < GoatCost)
    ensures totalDeposits < 0 ==> a.goatsPurchased <= 0 && -(GoatCost as int) < a.amountForManagementFees <= 0
  {
    var goatsPurchasable := TruncDiv(totalDeposits, GoatCost);
    var goatsPurchased := if goatsPurchasable < MaxGoats then goatsPurchasable else MaxGoats;
    var amountForGoats := goatsPurchased * GoatCost;
    GoatAllocation(goatsPurchased, amountForGoats, totalDeposits - amountForGoats)
  }

  /** The allocation `goat_farm_transactions` shows for a member's transactions. */
  function GoatPaymentAllocation(txns: seq<GoatFarmingTransaction>): (a: GoatAllocation)
    ensures a.amountForGoats + a.amountForManagementFees == PaymentTotal(txns)
    ensures 0 <= a.goatsPurchased <= MaxGoats || PaymentTotal(txns) < 0
  {
    AllocateGoatPayments(PaymentTotal(txns))
  }

  /** A cancelled or failed transaction, or one of another kind, leaves the allocation as it was. */
  lemma GoatPaymentAllocationIgnoresOthers(txns: seq<GoatFarmingTransaction>, t: GoatFarmingTransaction)
    requires !CountsAsPayment(t)
    ensures GoatPaymentAllocation(txns + [t]) == GoatPaymentAllocation(txns)
  {
    PaymentTotalAppend(txns, t);
  }
}
