/**
 * The stored entities of the savings platform (mcs/models.py) and the small
 * rules their `save`, `clean` and properties apply: the 52-week savings
 * transaction record, account numbers, goat and offspring serial IDs, club
 * savings availability and the goat counts.
 */
module Models {
  import opened Wrappers
  import opened DecimalText

  // ---------------------------------------------------------------------------
  // 52-week savings transactions
  // ---------------------------------------------------------------------------

  /** The fields of a savings transaction an administrator enters. */
  datatype EnteredFields = EnteredFields(amount: nat, receiptNumber: Option<string>, dateSaved: int)

  /** The four fields of a savings transaction that the ledger derives. */
  datatype DerivedFields = DerivedFields(
    fullyCoveredWeeks: seq<int>,
    nextWeek: int,
    remainingBalance: int,
    cumulativeTotal: int)

  /**
   * One deposit of the 52-week savings challenge. `amount`, `receiptNumber`
   * and `dateSaved` are entered by an administrator; the other four fields
   * are derived by replaying the owner's deposits.
   */
  class SavingsTransaction {
    var amount: nat
    var receiptNumber: Option<string>
    var dateSaved: int
    var cumulativeTotal: int
    var fullyCoveredWeeks: seq<int>
    var nextWeek: nat
    var remainingBalance: int

    /** A new deposit with the field defaults of the model. */
    constructor (amount: nat, receiptNumber: Option<string>, dateSaved: int)
      ensures this.amount == amount && this.receiptNumber == receiptNumber && this.dateSaved == dateSaved
      ensures Derived() == DerivedFields([], 1, 0, 0)
    {
      this.amount := amount;
      this.receiptNumber := receiptNumber;
      this.dateSaved := dateSaved;
      cumulativeTotal := 0;
      fullyCoveredWeeks := [];
      nextWeek := 1;
      remainingBalance := 0;
    }

    function Entered(): EnteredFields
      reads this
    {
      EnteredFields(amount, receiptNumber, dateSaved)
    }

    function Derived(): DerivedFields
      reads this
    {
      DerivedFields(fullyCoveredWeeks, nextWeek, remainingBalance, cumulativeTotal)
    }
  }

  // ---------------------------------------------------------------------------
  // Account numbers
  // ---------------------------------------------------------------------------

  const AccountPrefix: string := "MCSTGF"
  const AccountSerialWidth: nat := 4

  /** `str.upper()` on one character, for ASCII letters. */
  function UpperAscii(c: char): (u: char)
    ensures 'a' <= c <= 'z' ==> 'A' <= u <= 'Z' && u as int == c as int - 32
    ensures !('a' <= c <= 'z') ==> u == c
  {
    if 'a' <= c <= 'z' then (c as int - 32) as char else c
  }

  /** `name[:1].upper()`: the first character, upper-cased, or nothing for an empty name. */
  function Initial(name: string): (r: string)
    ensures |name| == 0 ==> r == ""
    ensures |name| > 0 ==> |r| == 1 && r[0] == UpperAscii(name[0])
    ensures |name| > 0 && 'a' <= name[0] <= 'z' ==> 'A' <= r[0] <= 'Z'
  {
    if |name| == 0 then "" else [UpperAscii(name[0])]
  }

  /**
   * The account number a new profile receives: the prefix, a dash, the
   * initials (last name first) and the profile's position among profiles
   * ordered by join date, zero-padded to four digits.
   */
  function AccountNumber(lastName: string, firstName: string, earlier: nat): (s: string)
    ensures var head := AccountPrefix + "-" + Initial(lastName) + Initial(firstName);
      && head <= s
      && |s| - |head| >= AccountSerialWidth
      && (|s| - |head| == AccountSerialWidth || s[|head|] != '0')
      && ParseDecimal(s[|head|..]) == Some(earlier + 1)
  {
    var head := AccountPrefix + "-" + Initial(lastName) + Initial(firstName);
    var serial := ZFill(DecimalString(earlier + 1), AccountSerialWidth);
    assert |serial| > AccountSerialWidth ==> serial == DecimalString(earlier + 1);
    ZFillRoundTrip(earlier + 1, AccountSerialWidth);
    assert (head + serial)[|head|..] == serial;
    head + serial
  }

  class UserProfile {
    var accountNumber: Option<string>

    constructor (accountNumber: Option<string>)
      ensures this.accountNumber == accountNumber
    {
      this.accountNumber := accountNumber;
    }

    /** Python truthiness of the field: `None` and `""` both count as absent. */
    predicate HasAccountNumber()
      reads this
    {
      accountNumber.Some? && accountNumber.value != ""
    }

    /**
     * `UserProfile.save`: assigns an account number when the profile has none
     * and never replaces an existing one. `earlier` is the number of profiles
     * whose user joined strictly before this profile's user.
     */
    method Save(lastName: string, firstName: string, earlier: nat)
      modifies this
      ensures old(HasAccountNumber()) ==> accountNumber == old(accountNumber)
      ensures !old(HasAccountNumber()) ==> accountNumber == Some(AccountNumber(lastName, firstName, earlier))
      ensures HasAccountNumber()
    {
      if !HasAccountNumber() {
        accountNumber := Some(AccountNumber(lastName, firstName, earlier));
      }
    }
  }

  // ---------------------------------------------------------------------------
  // Goat and offspring serial IDs
  // ---------------------------------------------------------------------------

  const GoatIdPrefix: string := "GF"
  const OffspringIdPrefix: string := "OFF"
  const SerialWidth: nat := 3

  /**
   * The number carried by the most recent ID: its suffix read by `int()` when
   * the ID has the prefix (`None` is the `ValueError` of a non-numeric
   * suffix), and 0 when it does not.
   */
  function LastSerial(prefix: string, lastId: string): (r: Option<nat>)
    ensures !(prefix <= lastId) ==> r == Some(0)
    ensures prefix <= lastId ==> (r.None? <==> !(|lastId| > |prefix| && AllDigits(lastId[|prefix|..])))
    ensures prefix <= lastId && r.Some? ==> ZFill(DecimalString(r.value), |lastId| - |prefix|) == lastId[|prefix|..]
  {
    if prefix <= lastId then
      var suffix := lastId[|prefix|..];
      if |suffix| > 0 && AllDigits(suffix) then ParsedSpellsBack(suffix); ParseDecimal(suffix) else None
    else Some(0)
  }

  /** `f"{prefix}{n:03d}"`: the prefix followed by `n` zero-padded to at least three digits. */
  function SerialId(prefix: string, n: nat): (id: string)
    ensures prefix <= id && |id| >= |prefix| + SerialWidth
    ensures |id| == |prefix| + SerialWidth || id[|prefix|] != '0'
    ensures ParseDecimal(id[|prefix|..]) == Some(n)
  {
    ZFillRoundTrip(n, SerialWidth);
    var id := prefix + ZFill(DecimalString(n), SerialWidth);
    assert |id| > |prefix| + SerialWidth ==> id[|prefix|..] == DecimalString(n) && n >= 1;
    assert id[|prefix|..] == ZFill(DecimalString(n), SerialWidth);
    id
  }

  /** Reading back a generated ID gives the number it was generated from. */
  lemma LastSerialOfSerialId(prefix: string, n: nat)
    ensures LastSerial(prefix, SerialId(prefix, n)) == Some(n)
  {
  }

  lemma FirstSerialId(prefix: string)
    ensures SerialId(prefix, 1) == prefix + "001"
  {
    assert DecimalString(1) == "1";
    assert Zeros(2) == "00" by {
      assert Zeros(1) == "0";
    }
  }

  /**
   * The ID `save` generates from the most recently created record's ID
   * (`None` when there is no record yet): prefix + "001" for the first one,
   * otherwise prefix + (last number + 1) padded to at least three digits.
   * The result is `None` when `int()` raises on the last ID's suffix.
   */
  function NextSerialId(prefix: string, lastId: Option<string>): (r: Option<string>)
    ensures r.None? <==> lastId.Some? && LastSerial(prefix, lastId.value).None?
    ensures lastId.None? ==> r == Some(prefix + "001")
    ensures r.Some? ==>
      r.value == SerialId(prefix, if lastId.None? then 1 else LastSerial(prefix, lastId.value).value + 1)
  {
    match lastId
    case None =>
      FirstSerialId(prefix);
      Some(prefix + "001")
    case Some(id) =>
      match LastSerial(prefix, id)
      case None => None
      case Some(n) => Some(SerialId(prefix, n + 1))
  }

  /** A generated ID never repeats the ID it was generated from. */
  lemma NextSerialIdDiffersFromLast(prefix: string, lastId: string)
    requires NextSerialId(prefix, Some(lastId)).Some?
    ensures NextSerialId(prefix, Some(lastId)).value != lastId
  {
    var next := NextSerialId(prefix, Some(lastId)).value;
    if prefix <= lastId {
      var n := LastSerial(prefix, lastId).value;
      assert ParseDecimal(lastId[|prefix|..]) == Some(n);
      assert ParseDecimal(next[|prefix|..]) == Some(n + 1);
    } else {
      assert prefix <= next;
    }
  }

  class Goat {
    var goatId: string

    constructor (goatId: string)
      ensures this.goatId == goatId
    {
      this.goatId := goatId;
    }

    /**
     * `Goat.save`: keeps a caller-supplied ID, otherwise generates the next
     * "GF" serial from the last goat's ID. `saved` is false when the
     * generation raises, in which case nothing changes.
     */
    method Save(lastGoatId: Option<string>) returns (saved: bool)
      modifies this
      ensures old(goatId) != "" ==> saved && goatId == old(goatId)
      ensures old(goatId) == "" ==>
        var next := NextSerialId(GoatIdPrefix, lastGoatId);
        saved == next.Some? && goatId == (if saved then next.value else old(goatId))
    {
      saved := true;
      if goatId == "" {
        var next := NextSerialId(GoatIdPrefix, lastGoatId);
        if next.Some? {
          goatId := next.value;
        } else {
          saved := false;
        }
      }
    }
  }

  class GoatOffspring {
    var offspringId: string

    constructor (offspringId: string)
      ensures this.offspringId == offspringId
    {
      this.offspringId := offspringId;
    }

    /** `GoatOffspring.save`: the same rule as `Goat.save`, with prefix "OFF". */
    method Save(lastOffspringId: Option<string>) returns (saved: bool)
      modifies this
      ensures old(offspringId) != "" ==> saved && offspringId == old(offspringId)
      ensures old(offspringId) == "" ==>
        var next := NextSerialId(OffspringIdPrefix, lastOffspringId);
        saved == next.Some? && offspringId == (if saved then next.value else old(offspringId))
    {
      saved := true;
      if offspringId == "" {
        var next := NextSerialId(OffspringIdPrefix, lastOffspringId);
        if next.Some? {
          offspringId := next.value;
        } else {
          saved := false;
        }
      }
    }
  }

  // ---------------------------------------------------------------------------
  // Goat counts
  // ---------------------------------------------------------------------------

  datatype GoatFarmingPackage = GoatFarmingPackage(
    numberOfFemaleGoats: Option<nat>,
    numberOfMaleGoats: Option<nat>)
  {
    /** Goats the package provides initially; a missing count reads as 0. */
    function TotalInitialGoats(): (n: nat)
      ensures n >= numberOfFemaleGoats.GetOr(0) && n >= numberOfMaleGoats.GetOr(0)
      ensures n - numberOfFemaleGoats.GetOr(0) == numberOfMaleGoats.GetOr(0)
      ensures n == 0 <==> numberOfFemaleGoats.GetOr(0) == 0 && numberOfMaleGoats.GetOr(0) == 0
    {
      numberOfFemaleGoats.GetOr(0) + numberOfMaleGoats.GetOr(0)
    }
  }

  class GoatFarmingInvestment {
    var initialGoatsReceived: nat
    var offspringReceived: nat
    var totalGoatsCurrent: nat

    constructor (initialGoatsReceived: nat, offspringReceived: nat)
      ensures this.initialGoatsReceived == initialGoatsReceived
      ensures this.offspringReceived == offspringReceived
      ensures totalGoatsCurrent == 0
    {
      this.initialGoatsReceived := initialGoatsReceived;
      this.offspringReceived := offspringReceived;
      totalGoatsCurrent := 0;
    }

    /** `GoatFarmingInvestment.save`: the current total is recounted on every save. */
    method Save()
      modifies this
      ensures initialGoatsReceived == old(initialGoatsReceived)
      ensures offspringReceived == old(offspringReceived)
      ensures totalGoatsCurrent == initialGoatsReceived + offspringReceived
    {
      totalGoatsCurrent := initialGoatsReceived + offspringReceived;
    }
  }

  // ---------------------------------------------------------------------------
  // Clubs
  // ---------------------------------------------------------------------------

  datatype ClubTransactionType = Deposit | Withdrawal

  datatype ClubTransaction = ClubTransaction(transactionType: ClubTransactionType, amount: int)

  datatype ClubFixedSavings = ClubFixedSavings(amountFixed: int, isActive: bool)

  /** Sum of the amounts of the club transactions of one type. */
  function TotalOfType(txns: seq<ClubTransaction>, kind: ClubTransactionType): int {
    if |txns| == 0 then 0
    else TotalOfType(txns[..|txns| - 1], kind)
         + (if txns[|txns| - 1].transactionType == kind then txns[|txns| - 1].amount else 0)
  }

  /** Sum of the fixed amounts of the active fixed savings. */
  function ActiveFixedTotal(fixed: seq<ClubFixedSavings>): (r: int)
    ensures (forall i :: 0 <= i < |fixed| ==> !fixed[i].isActive) ==> r == 0
  {
    if |fixed| == 0 then 0
    else ActiveFixedTotal(fixed[..|fixed| - 1])
         + (if fixed[|fixed| - 1].isActive then fixed[|fixed| - 1].amountFixed else 0)
  }

  datatype Club = Club(
    monthlyTarget: int,
    transactions: seq<ClubTransaction>,
    fixedSavings: seq<ClubFixedSavings>)
  {
    /** Deposits, less withdrawals, less what is locked in active fixed savings. */
    function AvailableSavings(): (r: int)
      ensures (forall i :: 0 <= i < |fixedSavings| ==> !fixedSavings[i].isActive) ==>
        r == TotalOfType(transactions, Deposit) - TotalOfType(transactions, Withdrawal)
    {
      TotalOfType(transactions, Deposit) - TotalOfType(transactions, Withdrawal)
      - ActiveFixedTotal(fixedSavings)
    }

    /**
     * Percentage of the monthly target collected, capped at 100; 0 when the
     * club has no positive target. `collection` is the month's deposit total.
     */
    function MonthlyProgress(collection: int): (p: real)
      ensures p <= 100.0
      ensures monthlyTarget <= 0 ==> p == 0.0
      ensures monthlyTarget > 0 ==> (p == 100.0 <==> collection >= monthlyTarget)
      ensures collection >= 0 ==> p >= 0.0
      ensures monthlyTarget > 0 && collection < monthlyTarget ==>
        p * (monthlyTarget as real) == 100.0 * (collection as real)
    {
      if monthlyTarget <= 0 then 0.0
      else
        var ratio := (collection as real / monthlyTarget as real) * 100.0;
        if ratio < 100.0 then ratio else 100.0
    }
  }

  lemma {:induction false} TotalOfTypeAppend(txns: seq<ClubTransaction>, t: ClubTransaction, kind: ClubTransactionType)
    ensures TotalOfType(txns + [t], kind)
            == TotalOfType(txns, kind) + (if t.transactionType == kind then t.amount else 0)
  {
    assert (txns + [t])[..|txns|] == txns;
  }

  lemma {:induction false} ActiveFixedTotalAppend(fixed: seq<ClubFixedSavings>, f: ClubFixedSavings)
    ensures ActiveFixedTotal(fixed + [f]) == ActiveFixedTotal(fixed) + (if f.isActive then f.amountFixed else 0)
  {
    assert (fixed + [f])[..|fixed|] == fixed;
  }

  /** A deposit raises, and a withdrawal lowers, what the club has available by its amount. */
  lemma AvailableSavingsAfterTransaction(club: Club, t: ClubTransaction)
    ensures club.(transactions := club.transactions + [t]).AvailableSavings()
            == club.AvailableSavings() + (if t.transactionType == Deposit then t.amount else -t.amount)
  {
    TotalOfTypeAppend(club.transactions, t, Deposit);
    TotalOfTypeAppend(club.transactions, t, Withdrawal);
  }

  /** Fixing an active amount lowers what the club has available by that amount. */
  lemma AvailableSavingsAfterFixing(club: Club, f: ClubFixedSavings)
    ensures club.(fixedSavings := club.fixedSavings + [f]).AvailableSavings()
            == club.AvailableSavings() - (if f.isActive then f.amountFixed else 0)
  {
    ActiveFixedTotalAppend(club.fixedSavings, f);
  }

  /**
   * `ClubFixedSavings.clean` as written: a positive amount is refused when it
   * exceeds the club's available savings plus, for a record being updated,
   * the amount currently stored for it. `stored` is that stored record
   * (`None` for a new record). Acceptance is `true`; refusal is the raised
   * `ValidationError`.
   */
  function Clean(club: Club, amountFixed: Option<int>, stored: Option<ClubFixedSavings>): (accepted: bool)
    ensures amountFixed.None? || amountFixed.value <= 0 ==> accepted
    ensures !accepted ==> amountFixed.value > club.AvailableSavings() + (if stored.Some? then stored.value.amountFixed else 0)
    ensures accepted && amountFixed.Some? && amountFixed.value > 0 ==>
      amountFixed.value <= club.AvailableSavings() + (if stored.Some? then stored.value.amountFixed else 0)
  {
    match amountFixed
    case None => true
    case Some(amount) =>
      if amount <= 0 then true
      else
        var available := club.AvailableSavings() + (if stored.Some? then stored.value.amountFixed else 0);
        !(amount > available)
  }

  /**
   * `clean` with the evident intent: the stored amount is added back only
   * when the stored record is active, that is, only when `AvailableSavings`
   * actually subtracted it.
   */
  function CleanCorrected(club: Club, amountFixed: Option<int>, stored: Option<ClubFixedSavings>): (accepted: bool)
    ensures amountFixed.None? || amountFixed.value <= 0 ==> accepted
    ensures stored.None? || stored.value.isActive ==> accepted == Clean(club, amountFixed, stored)
  {
    match amountFixed
    case None => true
    case Some(amount) =>
      if amount <= 0 then true
      else
        var available := club.AvailableSavings()
          + (if stored.Some? && stored.value.isActive then stored.value.amountFixed else 0);
        !(amount > available)
  }

  /**
   * Whatever the stored record's state, a positive amount that passes the
   * corrected check leaves the club's available savings non-negative once
   * the record is saved with it, active or not.
   */
  lemma CleanCorrectedKeepsAvailableNonNegative(
    club: Club, others: seq<ClubFixedSavings>, stored: Option<ClubFixedSavings>, amount: int, isActive: bool)
    requires club.fixedSavings == others + (if stored.Some? then [stored.value] else [])
    requires amount > 0 && CleanCorrected(club, Some(amount), stored)
    ensures club.(fixedSavings := others + [ClubFixedSavings(amount, isActive)]).AvailableSavings() >= 0
  {
    var rest := club.(fixedSavings := others);
    if stored.Some? {
      AvailableSavingsAfterFixing(rest, stored.value);
    } else {
      assert club == rest;
    }
    AvailableSavingsAfterFixing(rest, ClubFixedSavings(amount, isActive));
  }

  /**
   * The converse: the corrected check accepts every positive amount that
   * leaves the club's available savings non-negative once the record is
   * saved active with it. With `CleanCorrectedKeepsAvailableNonNegative`,
   * the corrected check accepts exactly the amounts that fit.
   */
  lemma CleanCorrectedAcceptsWhatFits(
    club: Club, others: seq<ClubFixedSavings>, stored: Option<ClubFixedSavings>, amount: int)
    requires club.fixedSavings == others + (if stored.Some? then [stored.value] else [])
    requires amount > 0
    requires club.(fixedSavings := others + [ClubFixedSavings(amount, true)]).AvailableSavings() >= 0
    ensures CleanCorrected(club, Some(amount), stored)
  {
    var rest := club.(fixedSavings := others);
    if stored.Some? {
      AvailableSavingsAfterFixing(rest, stored.value);
    } else {
      assert club == rest;
    }
    AvailableSavingsAfterFixing(rest, ClubFixedSavings(amount, true));
  }

  /**
   * The check as written lets an inactive record be re-activated with an
   * amount the club does not have: deposits of 100, another active fixed
   * saving of 100, and the edited record stored inactive with 100.
   */
  lemma CleanAcceptsOvercommitOfInactiveRecord()
    ensures var others := [ClubFixedSavings(100, true)];
      var stored := ClubFixedSavings(100, false);
      var club := Club(0, [ClubTransaction(Deposit, 100)], others + [stored]);
      && club.AvailableSavings() == 0
      && Clean(club, Some(100), Some(stored))
      && !CleanCorrected(club, Some(100), Some(stored))
      && club.(fixedSavings := others + [ClubFixedSavings(100, true)]).AvailableSavings() == -100
  {
    var deposit := ClubTransaction(Deposit, 100);
    var others := [ClubFixedSavings(100, true)];
    var stored := ClubFixedSavings(100, false);
    assert TotalOfType([deposit], Deposit) == 100 by { TotalOfTypeAppend([], deposit, Deposit); }
    assert TotalOfType([deposit], Withdrawal) == 0 by { TotalOfTypeAppend([], deposit, Withdrawal); }
    assert ActiveFixedTotal(others) == 100 by { ActiveFixedTotalAppend([], others[0]); }
    assert ActiveFixedTotal(others + [stored]) == 100 by { ActiveFixedTotalAppend(others, stored); }
    assert ActiveFixedTotal(others + [others[0]]) == 200 by { ActiveFixedTotalAppend(others, others[0]); }
    var club := Club(0, [deposit], others + [stored]);
    assert club.AvailableSavings() == 0;
  }

  // ---------------------------------------------------------------------------
  // Goat farming transactions
  // ---------------------------------------------------------------------------

  datatype GoatTransactionType =
    | InvestmentPayment | Payment | ManagementFee | VeterinaryCost | FeedCost | OtherExpense | Returns

  datatype GoatTransactionStatus = Pending | Completed | Cancelled | Failed

  datatype GoatFarmingTransaction = GoatFarmingTransaction(
    transactionType: GoatTransactionType,
    status: GoatTransactionStatus,
    amount: int)
}
