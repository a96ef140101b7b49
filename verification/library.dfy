/**
 * Library management: the constructor chain LibraryEntity > LibrarySystem >
 * LibrarySection > LibraryBook > LibraryMember > LibraryBorrow > LibraryFine >
 * LibraryPayment > LibraryRecordData > LibraryManagementRecord, and the fine
 * `calculateFine` derives.
 */
module Library {
  import opened Outcomes
  import opened Validators
  import opened SharedStages

  /** The arguments of `new LibraryManagementRecord(...)`, in order; the record stores each of them. */
  datatype Fields = Fields(
    id: int, createdDate: string, updatedDate: string,
    libraryName: string, address: string, phoneNumber: string, email: string,
    sectionName: string, sectionCode: string,
    bookTitle: string, author: string, bookEmail: string, phone: string,
    memberName: string, membershipType: string, yearsOfMembership: int,
    borrowDate: string, borrowDays: int, returnStatus: string, contactNumber: string,
    fineReason: string, daysLate: int, fineAmount: real,
    paymentMethod: string, transactionId: string, paymentAmount: real,
    processingFee: real, membershipFee: real)

  // The messages the constructors throw, verbatim.
  const SectionCodeInvalid: string := "Section code must be alphanumeric and at least 3 characters"
  const AuthorBlank: string := "Author cannot be empty"
  const BookEmailInvalid: string := "Invalid book email format"
  const BookPhoneInvalid: string := "Book phone must be exactly 10 digits"
  const MembershipTypeInvalid: string := "Membership type must be 'Regular' or 'Premium'"
  const MembershipYearsNegative: string := "Years of membership must be >= 0"
  const BorrowDaysNotPositive: string := "Borrow days must be > 0"
  const ReturnStatusInvalid: string := "Return status must be 'Returned', 'NotReturned', or 'Lost'"
  const FineReasonBlank: string := "Fine reason cannot be null"
  const FineAmountNegative: string := "Fine amount must be >= 0"
  const PaymentAmountNegative: string := "Payment amount must be >= 0"
  const PaymentMethodBlank: string := "Payment method cannot be empty"
  const TransactionIdBlank: string := "Transaction ID cannot be empty"
  const ProcessingFeeNegative: string := "Processing fee must be >= 0"
  const MembershipFeeNegative: string := "Membership fee must be >= 0"

  /** Exact, case-sensitive `equals` against the two literals. */
  predicate IsMembershipType(s: string)
  {
    s == "Regular" || s == "Premium"
  }

  /** Exact, case-sensitive `equals` against the three literals. */
  predicate IsReturnStatus(s: string)
  {
    s == "Returned" || s == "NotReturned" || s == "Lost"
  }

  function LibrarySectionChecks(sectionCode: string): Outcome
  {
    if !IsCode(sectionCode) then Fail(SectionCodeInvalid) else Pass
  }

  function LibrarySectionRules(sectionCode: string): seq<Rule>
  {
    [Rule(IsCode(sectionCode), SectionCodeInvalid)]
  }

  function LibraryBookChecks(author: string, bookEmail: string, phone: string): Outcome
  {
    if IsBlank(author) then Fail(AuthorBlank)
    else if !IsEmail(bookEmail) then Fail(BookEmailInvalid)
    else if !IsTenDigits(phone) then Fail(BookPhoneInvalid)
    else Pass
  }

  function LibraryBookRules(author: string, bookEmail: string, phone: string): seq<Rule>
  {
    [Rule(!IsBlank(author), AuthorBlank), Rule(IsEmail(bookEmail), BookEmailInvalid),
     Rule(IsTenDigits(phone), BookPhoneInvalid)]
  }

  function LibraryMemberChecks(membershipType: string, yearsOfMembership: int): Outcome
  {
    if !IsMembershipType(membershipType) then Fail(MembershipTypeInvalid)
    else if yearsOfMembership < 0 then Fail(MembershipYearsNegative)
    else Pass
  }

  function LibraryMemberRules(membershipType: string, yearsOfMembership: int): seq<Rule>
  {
    [Rule(IsMembershipType(membershipType), MembershipTypeInvalid),
     Rule(yearsOfMembership >= 0, MembershipYearsNegative)]
  }

  function LibraryBorrowChecks(borrowDays: int, returnStatus: string): Outcome
  {
    if borrowDays <= 0 then Fail(BorrowDaysNotPositive)
    else if !IsReturnStatus(returnStatus) then Fail(ReturnStatusInvalid)
    else Pass
  }

  function LibraryBorrowRules(borrowDays: int, returnStatus: string): seq<Rule>
  {
    [Rule(borrowDays > 0, BorrowDaysNotPositive), Rule(IsReturnStatus(returnStatus), ReturnStatusInvalid)]
  }

  /** The days late are stored without any check. */
  function LibraryFineChecks(fineReason: string, fineAmount: real): Outcome
  {
    if IsBlank(fineReason) then Fail(FineReasonBlank)
    else if fineAmount < 0.0 then Fail(FineAmountNegative)
    else Pass
  }

  function LibraryFineRules(fineReason: string, fineAmount: real): seq<Rule>
  {
    [Rule(!IsBlank(fineReason), FineReasonBlank), Rule(fineAmount >= 0.0, FineAmountNegative)]
  }

  function LibraryPaymentChecks(paymentMethod: string, transactionId: string, paymentAmount: real): Outcome
  {
    if paymentAmount < 0.0 then Fail(PaymentAmountNegative)
    else if IsBlank(paymentMethod) then Fail(PaymentMethodBlank)
    else if IsBlank(transactionId) then Fail(TransactionIdBlank)
    else Pass
  }

  function LibraryPaymentRules(paymentMethod: string, transactionId: string, paymentAmount: real): seq<Rule>
  {
    [Rule(paymentAmount >= 0.0, PaymentAmountNegative), Rule(!IsBlank(paymentMethod), PaymentMethodBlank),
     Rule(!IsBlank(transactionId), TransactionIdBlank)]
  }

  function LibraryRecordDataChecks(processingFee: real, membershipFee: real): Outcome
  {
    if processingFee < 0.0 then Fail(ProcessingFeeNegative)
    else if membershipFee < 0.0 then Fail(MembershipFeeNegative)
    else Pass
  }

  function LibraryRecordDataRules(processingFee: real, membershipFee: real): seq<Rule>
  {
    [Rule(processingFee >= 0.0, ProcessingFeeNegative), Rule(membershipFee >= 0.0, MembershipFeeNegative)]
  }

  /** Every check of `new LibraryManagementRecord(...)` as one list, in execution order: superclass constructors first. */
  function Rules(f: Fields): seq<Rule>
  {
    EntityRules(f.id, f.createdDate, f.updatedDate) + OrganisationRules(f.phoneNumber, f.email)
    + LibrarySectionRules(f.sectionCode) + LibraryBookRules(f.author, f.bookEmail, f.phone)
    + LibraryMemberRules(f.membershipType, f.yearsOfMembership)
    + LibraryBorrowRules(f.borrowDays, f.returnStatus) + LibraryFineRules(f.fineReason, f.fineAmount)
    + LibraryPaymentRules(f.paymentMethod, f.transactionId, f.paymentAmount)
    + LibraryRecordDataRules(f.processingFee, f.membershipFee)
  }

  /** Every rule of every constructor, as one conjunction. */
  predicate AllRulesHold(f: Fields)
  {
    && f.id > 0 && !IsBlank(f.createdDate) && !IsBlank(f.updatedDate)
    && IsTenDigits(f.phoneNumber) && IsEmail(f.email)
    && IsCode(f.sectionCode)
    && !IsBlank(f.author) && IsEmail(f.bookEmail) && IsTenDigits(f.phone)
    && IsMembershipType(f.membershipType) && f.yearsOfMembership >= 0
    && f.borrowDays > 0 && IsReturnStatus(f.returnStatus)
    && !IsBlank(f.fineReason) && f.fineAmount >= 0.0
    && f.paymentAmount >= 0.0 && !IsBlank(f.paymentMethod) && !IsBlank(f.transactionId)
    && f.processingFee >= 0.0 && f.membershipFee >= 0.0
  }

  /**
   * The constructor chain of `new LibraryManagementRecord(...)`: each
   * constructor runs its superclass's checks, then its own; the first failure
   * is thrown.
   */
  function Validate(f: Fields): (r: Outcome)
    ensures r.Pass? <==> AllRulesHold(f)
  {
    var entity := EntityChecks(f.id, f.createdDate, f.updatedDate);  // the base class `Entity` first
    :- entity;
    :- OrganisationChecks(f.phoneNumber, f.email);
    :- LibrarySectionChecks(f.sectionCode);
    :- LibraryBookChecks(f.author, f.bookEmail, f.phone);
    :- LibraryMemberChecks(f.membershipType, f.yearsOfMembership);
    :- LibraryBorrowChecks(f.borrowDays, f.returnStatus);
    :- LibraryFineChecks(f.fineReason, f.fineAmount);
    :- LibraryPaymentChecks(f.paymentMethod, f.transactionId, f.paymentAmount);
    LibraryRecordDataChecks(f.processingFee, f.membershipFee)
  }

  /**
   * The chain reports the first failing check: `Validate` runs the list
   * `Rules(f)` top to bottom, so it throws `m` exactly when `m` is the
   * message of the earliest rule that does not hold.
   */
  lemma ReportsFirstBrokenRule(f: Fields, m: string)
    ensures Validate(f) == FirstFailing(Rules(f))
    ensures Validate(f) == Fail(m) <==> exists i :: FailsFirstAt(Rules(f), i) && Rules(f)[i].message == m
  {
    var s1 := EntityRules(f.id, f.createdDate, f.updatedDate);
    assert EntityChecks(f.id, f.createdDate, f.updatedDate) == FirstFailing(s1) by { FirstFailingOfFew(s1); }
    var s2 := OrganisationRules(f.phoneNumber, f.email);
    assert OrganisationChecks(f.phoneNumber, f.email) == FirstFailing(s2) by { FirstFailingOfFew(s2); }
    var s3 := LibrarySectionRules(f.sectionCode);
    assert LibrarySectionChecks(f.sectionCode) == FirstFailing(s3) by { FirstFailingOfFew(s3); }
    var s4 := LibraryBookRules(f.author, f.bookEmail, f.phone);
    assert LibraryBookChecks(f.author, f.bookEmail, f.phone) == FirstFailing(s4) by { FirstFailingOfFew(s4); }
    var s5 := LibraryMemberRules(f.membershipType, f.yearsOfMembership);
    assert LibraryMemberChecks(f.membershipType, f.yearsOfMembership) == FirstFailing(s5)
      by { FirstFailingOfFew(s5); }
    var s6 := LibraryBorrowRules(f.borrowDays, f.returnStatus);
    assert LibraryBorrowChecks(f.borrowDays, f.returnStatus) == FirstFailing(s6) by { FirstFailingOfFew(s6); }
    var s7 := LibraryFineRules(f.fineReason, f.fineAmount);
    assert LibraryFineChecks(f.fineReason, f.fineAmount) == FirstFailing(s7) by { FirstFailingOfFew(s7); }
    var s8 := LibraryPaymentRules(f.paymentMethod, f.transactionId, f.paymentAmount);
    assert LibraryPaymentChecks(f.paymentMethod, f.transactionId, f.paymentAmount) == FirstFailing(s8)
      by { FirstFailingOfFew(s8); }
    var s9 := LibraryRecordDataRules(f.processingFee, f.membershipFee);
    assert LibraryRecordDataChecks(f.processingFee, f.membershipFee) == FirstFailing(s9)
      by { FirstFailingOfFew(s9); }
    var p2 := s1 + s2; FirstFailingAppend(s1, s2);
    var p3 := p2 + s3; FirstFailingAppend(p2, s3);
    var p4 := p3 + s4; FirstFailingAppend(p3, s4);
    var p5 := p4 + s5; FirstFailingAppend(p4, s5);
    var p6 := p5 + s6; FirstFailingAppend(p5, s6);
    var p7 := p6 + s7; FirstFailingAppend(p6, s7);
    var p8 := p7 + s8; FirstFailingAppend(p7, s8);
    var p9 := p8 + s9; FirstFailingAppend(p8, s9);
    assert Rules(f) == p9;
    FirstFailingMeans(p9, m);
  }

  /** A non-positive id is reported whatever else is wrong, a bad phone included. */
  lemma IdReportedFirst(f: Fields, id: int, phoneNumber: string)
    requires id <= 0
    ensures Validate(f.(id := id, phoneNumber := phoneNumber)) == Fail(IdNotPositive)
  {
  }

  /** The enumerations compare exactly: another case or a trailing space is refused. */
  lemma EnumerationsCaseSensitive(f: Fields)
    requires AllRulesHold(f)
    ensures Validate(f.(membershipType := "premium")) == Fail(MembershipTypeInvalid)
    ensures Validate(f.(returnStatus := "Returned ")) == Fail(ReturnStatusInvalid)
  {
    assert "premium"[0] != "Premium"[0];
    assert |"Returned "| != |"Returned"|;
  }

  /** Every argument that no constructor checks is stored as given: none of them changes the outcome. */
  lemma UncheckedFieldsIrrelevant(f: Fields, libraryName: string, address: string, sectionName: string,
                                  bookTitle: string, memberName: string, borrowDate: string,
                                  contactNumber: string, daysLate: int)
    ensures Validate(f.(libraryName := libraryName, address := address, sectionName := sectionName,
                        bookTitle := bookTitle, memberName := memberName, borrowDate := borrowDate,
                        contactNumber := contactNumber, daysLate := daysLate))
         == Validate(f)
  {
  }

  /**
   * The fine `calculateFine` computes.  On a constructed record it is never
   * negative when the days late are not, and it is negative when a positive
   * fine amount meets negative days late, which no check refuses.
   */
  function TotalFine(f: Fields): (total: real)
    ensures AllRulesHold(f) && f.daysLate >= 0 ==> total >= 0.0
    ensures AllRulesHold(f) && f.fineAmount > 0.0 && f.daysLate < 0 ==> total < 0.0
  {
    f.fineAmount * (f.daysLate as real)
  }

  /** Any constructed record with a positive fine amount stays constructible with negative days late. */
  lemma NegativeFineAccepted(f: Fields)
    requires AllRulesHold(f) && f.fineAmount > 0.0
    ensures var g := f.(daysLate := -1);
            Validate(g).Pass? && TotalFine(g) < 0.0
  {
  }

  /** `LibraryManagementRecord`: the checked arguments, and the fine derived from them. */
  class LibraryManagementRecord {
    const fields: Fields
    var totalFine: real

    /** The rules hold, and the fine is either not yet computed or correct. */
    ghost predicate Valid()
      reads this
    {
      AllRulesHold(fields) && (totalFine == 0.0 || totalFine == TotalFine(fields))
    }

    /** The `LibraryRecordData` constructor's `this.totalFine = 0`. */
    constructor (f: Fields)
      requires AllRulesHold(f)
      ensures fields == f && totalFine == 0.0 && Valid()
    {
      fields := f;
      totalFine := 0.0;
    }

    /** `calculateFine()`: stores the fine and returns it (Java widens the `int` days late to `double`). */
    method CalculateFine() returns (total: real)
      requires Valid()
      modifies this`totalFine
      ensures total == TotalFine(fields) && totalFine == total
      ensures fields.daysLate >= 0 ==> total >= 0.0
      ensures Valid()
    {
      total := fields.fineAmount * (fields.daysLate as real);
      totalFine := total;
    }
  }

  /** `new LibraryManagementRecord(...)`: the first failing check's message, or a fresh record with fine 0. */
  method NewLibraryManagementRecord(f: Fields) returns (r: Result<LibraryManagementRecord>)
    ensures r.Failure? <==> !AllRulesHold(f)
    ensures r.Failure? ==> Validate(f) == Fail(r.error)
    ensures r.Failure? ==> exists i :: FailsFirstAt(Rules(f), i) && Rules(f)[i].message == r.error
    ensures r.Success? ==> fresh(r.value) && r.value.fields == f && r.value.totalFine == 0.0 && r.value.Valid()
  {
    var outcome := Validate(f);
    if outcome.Fail? {
      ReportsFirstBrokenRule(f, outcome.message);
      r := Failure(outcome.message);
    } else {
      var rec := new LibraryManagementRecord(f);
      r := Success(rec);
    }
  }
}
