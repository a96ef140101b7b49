/**
 * Banking: the constructor chain Entity > Bank > Account > Customer >
 * Transaction > Deposit > Withdrawal > Loan > Payment > AccountRecord, and the
 * interest `calculateInterest` derives.  This chain has its own base stage:
 * its date messages end in "null" and no organisation stage follows it.
 */
module Banking {
  import opened Outcomes
  import opened Validators

  /** The arguments of `new AccountRecord(...)`, in order; the record stores each of them. */
  datatype Fields = Fields(
    id: int, createdDate: string, updatedDate: string,
    bankName: string, branchCode: string, address: string,
    accountNumber: string, accountType: string, balance: real,
    customerName: string, email: string, phoneNumber: string,
    transactionId: string, transactionType: string, amount: real,
    depositAmount: real, depositDate: string,
    withdrawalAmount: real, withdrawalDate: string,
    loanAmount: real, interestRate: real, duration: int,
    paymentAmount: real, paymentDate: string)

  // The messages the constructors throw, verbatim.
  const IdNotPositive: string := "ID must be greater than 0"
  const CreatedDateBlank: string := "Created date cannot be null"
  const UpdatedDateBlank: string := "Updated date cannot be null"
  const BranchCodeTooShort: string := "Branch code must be at least 3 characters"
  const BalanceNegative: string := "Balance must be >= 0"
  const EmailInvalid: string := "Invalid email format"
  const PhoneInvalid: string := "Phone must be 10 digits"
  const AmountNotPositive: string := "Amount must be > 0"
  const DepositNotPositive: string := "Deposit amount must be > 0"
  const WithdrawalNotPositive: string := "Withdrawal amount must be > 0"
  const LoanNotPositive: string := "Loan amount must be > 0"
  const InterestRateNotPositive: string := "Interest rate must be > 0"
  const DurationNotPositive: string := "Duration must be > 0"
  const PaymentNotPositive: string := "Payment amount must be > 0"

  function EntityChecks(id: int, createdDate: string, updatedDate: string): Outcome
  {
    if id <= 0 then Fail(IdNotPositive)
    else if IsBlank(createdDate) then Fail(CreatedDateBlank)
    else if IsBlank(updatedDate) then Fail(UpdatedDateBlank)
    else Pass
  }

  function EntityRules(id: int, createdDate: string, updatedDate: string): seq<Rule>
  {
    [Rule(id > 0, IdNotPositive), Rule(!IsBlank(createdDate), CreatedDateBlank),
     Rule(!IsBlank(updatedDate), UpdatedDateBlank)]
  }

  /** Only the length of the branch code is checked. */
  function BankChecks(branchCode: string): Outcome
  {
    if |branchCode| < 3 then Fail(BranchCodeTooShort) else Pass
  }

  function BankRules(branchCode: string): seq<Rule>
  {
    [Rule(|branchCode| >= 3, BranchCodeTooShort)]
  }

  function AccountChecks(balance: real): Outcome
  {
    if balance < 0.0 then Fail(BalanceNegative) else Pass
  }

  function AccountRules(balance: real): seq<Rule>
  {
    [Rule(balance >= 0.0, BalanceNegative)]
  }

  function CustomerChecks(email: string, phoneNumber: string): Outcome
  {
    if !IsEmail(email) then Fail(EmailInvalid)
    else if !IsTenDigits(phoneNumber) then Fail(PhoneInvalid)
    else Pass
  }

  function CustomerRules(email: string, phoneNumber: string): seq<Rule>
  {
    [Rule(IsEmail(email), EmailInvalid), Rule(IsTenDigits(phoneNumber), PhoneInvalid)]
  }

  function TransactionChecks(amount: real): Outcome
  {
    if amount <= 0.0 then Fail(AmountNotPositive) else Pass
  }

  function TransactionRules(amount: real): seq<Rule>
  {
    [Rule(amount > 0.0, AmountNotPositive)]
  }

  function DepositChecks(depositAmount: real): Outcome
  {
    if depositAmount <= 0.0 then Fail(DepositNotPositive) else Pass
  }

  function DepositRules(depositAmount: real): seq<Rule>
  {
    [Rule(depositAmount > 0.0, DepositNotPositive)]
  }

  function WithdrawalChecks(withdrawalAmount: real): Outcome
  {
    if withdrawalAmount <= 0.0 then Fail(WithdrawalNotPositive) else Pass
  }

  function WithdrawalRules(withdrawalAmount: real): seq<Rule>
  {
    [Rule(withdrawalAmount > 0.0, WithdrawalNotPositive)]
  }

  function LoanChecks(loanAmount: real, interestRate: real, duration: int): Outcome
  {
    if loanAmount <= 0.0 then Fail(LoanNotPositive)
    else if interestRate <= 0.0 then Fail(InterestRateNotPositive)
    else if duration <= 0 then Fail(DurationNotPositive)
    else Pass
  }

  function LoanRules(loanAmount: real, interestRate: real, duration: int): seq<Rule>
  {
    [Rule(loanAmount > 0.0, LoanNotPositive), Rule(interestRate > 0.0, InterestRateNotPositive),
     Rule(duration > 0, DurationNotPositive)]
  }

  function PaymentChecks(paymentAmount: real): Outcome
  {
    if paymentAmount <= 0.0 then Fail(PaymentNotPositive) else Pass
  }

  function PaymentRules(paymentAmount: real): seq<Rule>
  {
    [Rule(paymentAmount > 0.0, PaymentNotPositive)]
  }

  /** Every check of `new AccountRecord(...)` as one list, in execution order: superclass constructors first. */
  function Rules(f: Fields): seq<Rule>
  {
    EntityRules(f.id, f.createdDate, f.updatedDate) + BankRules(f.branchCode) + AccountRules(f.balance)
    + CustomerRules(f.email, f.phoneNumber) + TransactionRules(f.amount) + DepositRules(f.depositAmount)
    + WithdrawalRules(f.withdrawalAmount) + LoanRules(f.loanAmount, f.interestRate, f.duration)
    + PaymentRules(f.paymentAmount)
  }

  /** Every rule of every constructor, as one conjunction. */
  predicate AllRulesHold(f: Fields)
  {
    && f.id > 0 && !IsBlank(f.createdDate) && !IsBlank(f.updatedDate)
    && |f.branchCode| >= 3
    && f.balance >= 0.0
    && IsEmail(f.email) && IsTenDigits(f.phoneNumber)
    && f.amount > 0.0
    && f.depositAmount > 0.0
    && f.withdrawalAmount > 0.0
    && f.loanAmount > 0.0 && f.interestRate > 0.0 && f.duration > 0
    && f.paymentAmount > 0.0
  }

  /**
   * The constructor chain of `new AccountRecord(...)`: each constructor runs
   * its superclass's checks, then its own; the first failure is thrown.
   */
  function Validate(f: Fields): (r: Outcome)
    ensures r.Pass? <==> AllRulesHold(f)
  {
    var entity := EntityChecks(f.id, f.createdDate, f.updatedDate);  // the base class `Entity` first
    :- entity;
    :- BankChecks(f.branchCode);
    :- AccountChecks(f.balance);
    :- CustomerChecks(f.email, f.phoneNumber);
    :- TransactionChecks(f.amount);
    :- DepositChecks(f.depositAmount);
    :- WithdrawalChecks(f.withdrawalAmount);
    :- LoanChecks(f.loanAmount, f.interestRate, f.duration);
    PaymentChecks(f.paymentAmount)
  }

  /**
   * The chain reports the first failing check: `Validate` runs the list
   * `Rules(f)` top to bottom, so it throws `m` exactly when `m` is the
   * message of the earliest rule that does not hold.
   */
  lemma ReportsFirstBrokenRule(f: Fields, m: string)
    ensures Validate(f) == FirstFailing(Rules(f))
    ensures Validate(f) == Fail(m) <==> exists i :: FailsFirstAt(Rules(f), i) && Rules(f)[i].message == m
  {
    var s1 := EntityRules(f.id, f.createdDate, f.updatedDate);
    assert EntityChecks(f.id, f.createdDate, f.updatedDate) == FirstFailing(s1) by { FirstFailingOfFew(s1); }
    var s2 := BankRules(f.branchCode);
    assert BankChecks(f.branchCode) == FirstFailing(s2) by { FirstFailingOfFew(s2); }
    var s3 := AccountRules(f.balance);
    assert AccountChecks(f.balance) == FirstFailing(s3) by { FirstFailingOfFew(s3); }
    var s4 := CustomerRules(f.email, f.phoneNumber);
    assert CustomerChecks(f.email, f.phoneNumber) == FirstFailing(s4) by { FirstFailingOfFew(s4); }
    var s5 := TransactionRules(f.amount);
    assert TransactionChecks(f.amount) == FirstFailing(s5) by { FirstFailingOfFew(s5); }
    var s6 := DepositRules(f.depositAmount);
    assert DepositChecks(f.depositAmount) == FirstFailing(s6) by { FirstFailingOfFew(s6); }
    var s7 := WithdrawalRules(f.withdrawalAmount);
    assert WithdrawalChecks(f.withdrawalAmount) == FirstFailing(s7) by { FirstFailingOfFew(s7); }
    var s8 := LoanRules(f.loanAmount, f.interestRate, f.duration);
    assert LoanChecks(f.loanAmount, f.interestRate, f.duration) == FirstFailing(s8)
      by { FirstFailingOfFew(s8); }
    var s9 := PaymentRules(f.paymentAmount);
    assert PaymentChecks(f.paymentAmount) == FirstFailing(s9) by { FirstFailingOfFew(s9); }
    var p2 := s1 + s2; FirstFailingAppend(s1, s2);
    var p3 := p2 + s3; FirstFailingAppend(p2, s3);
    var p4 := p3 + s4; FirstFailingAppend(p3, s4);
    var p5 := p4 + s5; FirstFailingAppend(p4, s5);
    var p6 := p5 + s6; FirstFailingAppend(p5, s6);
    var p7 := p6 + s7; FirstFailingAppend(p6, s7);
    var p8 := p7 + s8; FirstFailingAppend(p7, s8);
    var p9 := p8 + s9; FirstFailingAppend(p8, s9);
    assert Rules(f) == p9;
    FirstFailingMeans(p9, m);
  }

  /**
   * Any three characters make a branch code; a two-character code is reported
   * as soon as the entity checks pass, whatever the later arguments are.
   */
  lemma BranchCodeLengthOnly(f: Fields)
    ensures AllRulesHold(f) ==> Validate(f.(branchCode := "A-1")).Pass?
    ensures f.id > 0 && !IsBlank(f.createdDate) && !IsBlank(f.updatedDate) ==>
      Validate(f.(branchCode := "AB")) == Fail(BranchCodeTooShort)
  {
  }

  /** The customer stage checks the e-mail before the phone. */
  lemma EmailCheckedBeforePhone(f: Fields, email: string, phoneNumber: string)
    requires AllRulesHold(f) && !IsEmail(email)
    ensures Validate(f.(email := email, phoneNumber := phoneNumber)) == Fail(EmailInvalid)
  {
  }

  /** The withdrawal is never compared with the balance or the deposit. */
  lemma WithdrawalUnboundedByBalance(f: Fields)
    requires AllRulesHold(f)
    ensures var g := f.(withdrawalAmount := f.balance + f.depositAmount + 1.0);
            Validate(g).Pass? && g.withdrawalAmount > g.balance + g.depositAmount
  {
  }

  /** Every argument that no constructor checks is stored as given: none of them changes the outcome. */
  lemma UncheckedFieldsIrrelevant(f: Fields, bankName: string, address: string, accountNumber: string,
                                  accountType: string, customerName: string, transactionId: string,
                                  transactionType: string, depositDate: string, withdrawalDate: string,
                                  paymentDate: string)
    ensures Validate(f.(bankName := bankName, address := address, accountNumber := accountNumber,
                        accountType := accountType, customerName := customerName,
                        transactionId := transactionId, transactionType := transactionType,
                        depositDate := depositDate, withdrawalDate := withdrawalDate,
                        paymentDate := paymentDate))
         == Validate(f)
  {
  }

  /** The interest `calculateInterest` computes; on a constructed record it is positive. */
  function Interest(f: Fields): (interest: real)
    ensures AllRulesHold(f) ==> interest > 0.0
  {
    (f.loanAmount * f.interestRate * (f.duration as real)) / 100.0
  }

  /** An illustration of the formula only: a loan of 1000 at rate 5 over 12 periods earns 600. */
  lemma InterestExample(f: Fields)
    requires f.loanAmount == 1000.0 && f.interestRate == 5.0 && f.duration == 12
    ensures Interest(f) == 600.0
  {
  }

  /** `AccountRecord`: the checked arguments, and the interest derived from them. */
  class AccountRecord {
    const fields: Fields
    var calculatedInterest: real

    /** The rules hold, and the interest is either not yet computed or correct. */
    ghost predicate Valid()
      reads this
    {
      AllRulesHold(fields) && (calculatedInterest == 0.0 || calculatedInterest == Interest(fields))
    }

    /** The `AccountRecord` constructor's `this.calculatedInterest = 0`. */
    constructor (f: Fields)
      requires AllRulesHold(f)
      ensures fields == f && calculatedInterest == 0.0 && Valid()
    {
      fields := f;
      calculatedInterest := 0.0;
    }

    /** `calculateInterest()`: stores the interest and returns it. */
    method CalculateInterest() returns (interest: real)
      requires Valid()
      modifies this`calculatedInterest
      ensures interest == Interest(fields) && calculatedInterest == interest
      ensures interest > 0.0
      ensures Valid()
    {
      calculatedInterest := (fields.loanAmount * fields.interestRate * (fields.duration as real)) / 100.0;
      interest := calculatedInterest;
    }
  }

  /** `new AccountRecord(...)`: the first failing check's message, or a fresh record with interest 0. */
  method NewAccountRecord(f: Fields) returns (r: Result<AccountRecord>)
    ensures r.Failure? <==> !AllRulesHold(f)
    ensures r.Failure? ==> Validate(f) == Fail(r.error)
    ensures r.Failure? ==> exists i :: FailsFirstAt(Rules(f), i) && Rules(f)[i].message == r.error
    ensures r.Success? ==> fresh(r.value) && r.value.fields == f && r.value.calculatedInterest == 0.0
                           && r.value.Valid()
  {
    var outcome := Validate(f);
    if outcome.Fail? {
      ReportsFirstBrokenRule(f, outcome.message);
      r := Failure(outcome.message);
    } else {
      var rec := new AccountRecord(f);
      r := Success(rec);
    }
  }
}
