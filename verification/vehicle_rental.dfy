/**
 * Vehicle rental: the constructor chain RentalEntity > RentalCompany >
 * RentalBranch > RentalVehicle > RentalCustomer > Rental > RentalCharge >
 * RentalPayment > RentalInvoice > VehicleRentalRecord, and the total charge
 * `calculateTotalCharge` derives.
 */
module VehicleRental {
  import opened Outcomes
  import opened Validators
  import opened SharedStages

  /** The arguments of `new VehicleRentalRecord(...)`, in order; the record stores each of them. */
  datatype Fields = Fields(
    id: int, createdDate: string, updatedDate: string,
    companyName: string, address: string, phoneNumber: string, email: string,
    branchName: string, branchCode: string,
    vehicleModel: string, vehicleNumber: string, vehicleType: string, yearOfManufacture: int,
    customerName: string, customerEmail: string, phone: string, licenseNumber: string,
    rentalDate: string, returnDate: string, numberOfDays: int,
    dailyRate: real, rentalCharge: real, penaltyCharge: real,
    paymentMethod: string, paymentDate: string, amountPaid: real,
    invoiceNumber: string)

  // The messages the constructors throw, verbatim.
  const BranchCodeInvalid: string := "Branch code must be alphanumeric and at least 3 characters"
  const VehicleNumberBlank: string := "Vehicle number cannot be empty"
  const YearOutOfRange: string := "Year of manufacture must be between 1900 and 2025"
  const CustomerEmailInvalid: string := "Invalid customer email format"
  const CustomerPhoneInvalid: string := "Customer phone must be exactly 10 digits"
  const LicenseNumberBlank: string := "License number cannot be empty"
  const RentalDateBlank: string := "Rental date cannot be empty"
  const ReturnDateBlank: string := "Return date cannot be empty"
  const DaysNotPositive: string := "Number of days must be > 0"
  const DailyRateNotPositive: string := "Daily rate must be > 0"
  const RentalChargeNegative: string := "Rental charge must be >= 0"
  const PenaltyChargeNegative: string := "Penalty charge must be >= 0"
  const PaymentMethodBlank: string := "Payment method cannot be empty"
  const AmountPaidNegative: string := "Amount paid must be >= 0"
  const InvoiceNumberBlank: string := "Invoice number cannot be empty"

  function RentalBranchChecks(branchCode: string): Outcome
  {
    if !IsCode(branchCode) then Fail(BranchCodeInvalid) else Pass
  }

  function RentalBranchRules(branchCode: string): seq<Rule>
  {
    [Rule(IsCode(branchCode), BranchCodeInvalid)]
  }

  function RentalVehicleChecks(vehicleNumber: string, yearOfManufacture: int): Outcome
  {
    if IsBlank(vehicleNumber) then Fail(VehicleNumberBlank)
    else if yearOfManufacture < 1900 || yearOfManufacture > 2025 then Fail(YearOutOfRange)
    else Pass
  }

  function RentalVehicleRules(vehicleNumber: string, yearOfManufacture: int): seq<Rule>
  {
    [Rule(!IsBlank(vehicleNumber), VehicleNumberBlank),
     Rule(1900 <= yearOfManufacture <= 2025, YearOutOfRange)]
  }

  function RentalCustomerChecks(customerEmail: string, phone: string, licenseNumber: string): Outcome
  {
    if !IsEmail(customerEmail) then Fail(CustomerEmailInvalid)
    else if !IsTenDigits(phone) then Fail(CustomerPhoneInvalid)
    else if IsBlank(licenseNumber) then Fail(LicenseNumberBlank)
    else Pass
  }

  function RentalCustomerRules(customerEmail: string, phone: string, licenseNumber: string): seq<Rule>
  {
    [Rule(IsEmail(customerEmail), CustomerEmailInvalid), Rule(IsTenDigits(phone), CustomerPhoneInvalid),
     Rule(!IsBlank(licenseNumber), LicenseNumberBlank)]
  }

  function RentalChecks(rentalDate: string, returnDate: string, numberOfDays: int): Outcome
  {
    if IsBlank(rentalDate) then Fail(RentalDateBlank)
    else if IsBlank(returnDate) then Fail(ReturnDateBlank)
    else if numberOfDays <= 0 then Fail(DaysNotPositive)
    else Pass
  }

  function RentalRules(rentalDate: string, returnDate: string, numberOfDays: int): seq<Rule>
  {
    [Rule(!IsBlank(rentalDate), RentalDateBlank), Rule(!IsBlank(returnDate), ReturnDateBlank),
     Rule(numberOfDays > 0, DaysNotPositive)]
  }

  function RentalChargeChecks(dailyRate: real, rentalCharge: real, penaltyCharge: real): Outcome
  {
    if dailyRate <= 0.0 then Fail(DailyRateNotPositive)
    else if rentalCharge < 0.0 then Fail(RentalChargeNegative)
    else if penaltyCharge < 0.0 then Fail(PenaltyChargeNegative)
    else Pass
  }

  function RentalChargeRules(dailyRate: real, rentalCharge: real, penaltyCharge: real): seq<Rule>
  {
    [Rule(dailyRate > 0.0, DailyRateNotPositive), Rule(rentalCharge >= 0.0, RentalChargeNegative),
     Rule(penaltyCharge >= 0.0, PenaltyChargeNegative)]
  }

  function RentalPaymentChecks(paymentMethod: string, amountPaid: real): Outcome
  {
    if IsBlank(paymentMethod) then Fail(PaymentMethodBlank)
    else if amountPaid < 0.0 then Fail(AmountPaidNegative)
    else Pass
  }

  function RentalPaymentRules(paymentMethod: string, amountPaid: real): seq<Rule>
  {
    [Rule(!IsBlank(paymentMethod), PaymentMethodBlank), Rule(amountPaid >= 0.0, AmountPaidNegative)]
  }

  function RentalInvoiceChecks(invoiceNumber: string): Outcome
  {
    if IsBlank(invoiceNumber) then Fail(InvoiceNumberBlank) else Pass
  }

  function RentalInvoiceRules(invoiceNumber: string): seq<Rule>
  {
    [Rule(!IsBlank(invoiceNumber), InvoiceNumberBlank)]
  }

  /** Every check of `new VehicleRentalRecord(...)` as one list, in execution order: superclass constructors first. */
  function Rules(f: Fields): seq<Rule>
  {
    EntityRules(f.id, f.createdDate, f.updatedDate) + OrganisationRules(f.phoneNumber, f.email)
    + RentalBranchRules(f.branchCode) + RentalVehicleRules(f.vehicleNumber, f.yearOfManufacture)
    + RentalCustomerRules(f.customerEmail, f.phone, f.licenseNumber)
    + RentalRules(f.rentalDate, f.returnDate, f.numberOfDays)
    + RentalChargeRules(f.dailyRate, f.rentalCharge, f.penaltyCharge)
    + RentalPaymentRules(f.paymentMethod, f.amountPaid) + RentalInvoiceRules(f.invoiceNumber)
  }

  /** Every rule of every constructor, as one conjunction. */
  predicate AllRulesHold(f: Fields)
  {
    && f.id > 0 && !IsBlank(f.createdDate) && !IsBlank(f.updatedDate)
    && IsTenDigits(f.phoneNumber) && IsEmail(f.email)
    && IsCode(f.branchCode)
    && !IsBlank(f.vehicleNumber) && 1900 <= f.yearOfManufacture <= 2025
    && IsEmail(f.customerEmail) && IsTenDigits(f.phone) && !IsBlank(f.licenseNumber)
    && !IsBlank(f.rentalDate) && !IsBlank(f.returnDate) && f.numberOfDays > 0
    && f.dailyRate > 0.0 && f.rentalCharge >= 0.0 && f.penaltyCharge >= 0.0
    && !IsBlank(f.paymentMethod) && f.amountPaid >= 0.0
    && !IsBlank(f.invoiceNumber)
  }

  /**
   * The constructor chain of `new VehicleRentalRecord(...)`: each constructor
   * runs its superclass's checks, then its own; the first failure is thrown.
   */
  function Validate(f: Fields): (r: Outcome)
    ensures r.Pass? <==> AllRulesHold(f)
  {
    var entity := EntityChecks(f.id, f.createdDate, f.updatedDate);  // the base class `Entity` first
    :- entity;
    :- OrganisationChecks(f.phoneNumber, f.email);
    :- RentalBranchChecks(f.branchCode);
    :- RentalVehicleChecks(f.vehicleNumber, f.yearOfManufacture);
    :- RentalCustomerChecks(f.customerEmail, f.phone, f.licenseNumber);
    :- RentalChecks(f.rentalDate, f.returnDate, f.numberOfDays);
    :- RentalChargeChecks(f.dailyRate, f.rentalCharge, f.penaltyCharge);
    :- RentalPaymentChecks(f.paymentMethod, f.amountPaid);
    RentalInvoiceChecks(f.invoiceNumber)
  }

  /**
   * The chain reports the first failing check: `Validate` runs the list
   * `Rules(f)` top to bottom, so it throws `m` exactly when `m` is the
   * message of the earliest rule that does not hold.
   */
  lemma ReportsFirstBrokenRule(f: Fields, m: string)
    ensures Validate(f) == FirstFailing(Rules(f))
    ensures Validate(f) == Fail(m) <==> exists i :: FailsFirstAt(Rules(f), i) && Rules(f)[i].message == m
  {
    var s1 := EntityRules(f.id, f.createdDate, f.updatedDate);
    assert EntityChecks(f.id, f.createdDate, f.updatedDate) == FirstFailing(s1) by { FirstFailingOfFew(s1); }
    var s2 := OrganisationRules(f.phoneNumber, f.email);
    assert OrganisationChecks(f.phoneNumber, f.email) == FirstFailing(s2) by { FirstFailingOfFew(s2); }
    var s3 := RentalBranchRules(f.branchCode);
    assert RentalBranchChecks(f.branchCode) == FirstFailing(s3) by { FirstFailingOfFew(s3); }
    var s4 := RentalVehicleRules(f.vehicleNumber, f.yearOfManufacture);
    assert RentalVehicleChecks(f.vehicleNumber, f.yearOfManufacture) == FirstFailing(s4)
      by { FirstFailingOfFew(s4); }
    var s5 := RentalCustomerRules(f.customerEmail, f.phone, f.licenseNumber);
    assert RentalCustomerChecks(f.customerEmail, f.phone, f.licenseNumber) == FirstFailing(s5)
      by { FirstFailingOfFew(s5); }
    var s6 := RentalRules(f.rentalDate, f.returnDate, f.numberOfDays);
    assert RentalChecks(f.rentalDate, f.returnDate, f.numberOfDays) == FirstFailing(s6)
      by { FirstFailingOfFew(s6); }
    var s7 := RentalChargeRules(f.dailyRate, f.rentalCharge, f.penaltyCharge);
    assert RentalChargeChecks(f.dailyRate, f.rentalCharge, f.penaltyCharge) == FirstFailing(s7)
      by { FirstFailingOfFew(s7); }
    var s8 := RentalPaymentRules(f.paymentMethod, f.amountPaid);
    assert RentalPaymentChecks(f.paymentMethod, f.amountPaid) == FirstFailing(s8)
      by { FirstFailingOfFew(s8); }
    var s9 := RentalInvoiceRules(f.invoiceNumber);
    assert RentalInvoiceChecks(f.invoiceNumber) == FirstFailing(s9) by { FirstFailingOfFew(s9); }
    var p2 := s1 + s2; FirstFailingAppend(s1, s2);
    var p3 := p2 + s3; FirstFailingAppend(p2, s3);
    var p4 := p3 + s4; FirstFailingAppend(p3, s4);
    var p5 := p4 + s5; FirstFailingAppend(p4, s5);
    var p6 := p5 + s6; FirstFailingAppend(p5, s6);
    var p7 := p6 + s7; FirstFailingAppend(p6, s7);
    var p8 := p7 + s8; FirstFailingAppend(p7, s8);
    var p9 := p8 + s9; FirstFailingAppend(p8, s9);
    assert Rules(f) == p9;
    FirstFailingMeans(p9, m);
  }

  /** Both year bounds are inclusive; one year outside either bound is refused. */
  lemma YearBoundsInclusive(f: Fields)
    requires AllRulesHold(f)
    ensures Validate(f.(yearOfManufacture := 1900)).Pass?
    ensures Validate(f.(yearOfManufacture := 2025)).Pass?
    ensures Validate(f.(yearOfManufacture := 1899)) == Fail(YearOutOfRange)
    ensures Validate(f.(yearOfManufacture := 2026)) == Fail(YearOutOfRange)
  {
  }

  /** The customer stage checks the e-mail, then the phone, then the licence. */
  lemma CustomerCheckOrder(f: Fields, customerEmail: string, phone: string, licenseNumber: string)
    requires AllRulesHold(f)
    ensures !IsEmail(customerEmail) ==>
      Validate(f.(customerEmail := customerEmail, phone := phone, licenseNumber := licenseNumber))
        == Fail(CustomerEmailInvalid)
    ensures !IsTenDigits(phone) ==>
      Validate(f.(phone := phone, licenseNumber := licenseNumber)) == Fail(CustomerPhoneInvalid)
    ensures IsBlank(licenseNumber) ==> Validate(f.(licenseNumber := licenseNumber)) == Fail(LicenseNumberBlank)
  {
  }

  /** Every argument that no constructor checks is stored as given: none of them changes the outcome. */
  lemma UncheckedFieldsIrrelevant(f: Fields, companyName: string, address: string, branchName: string,
                                  vehicleModel: string, vehicleType: string, customerName: string,
                                  paymentDate: string)
    ensures Validate(f.(companyName := companyName, address := address, branchName := branchName,
                        vehicleModel := vehicleModel, vehicleType := vehicleType,
                        customerName := customerName, paymentDate := paymentDate))
         == Validate(f)
  {
  }

  /** The total `calculateTotalCharge` computes; on a constructed record it is never negative. */
  function TotalCharge(f: Fields): (total: real)
    ensures AllRulesHold(f) ==> total >= f.rentalCharge >= 0.0 && total >= f.penaltyCharge
  {
    f.rentalCharge + f.penaltyCharge
  }

  /** A constructed record can have a total charge of exactly 0. */
  lemma TotalChargeCanBeZero(f: Fields)
    requires AllRulesHold(f)
    ensures var g := f.(rentalCharge := 0.0, penaltyCharge := 0.0);
            Validate(g).Pass? && TotalCharge(g) == 0.0
  {
  }

  /**
   * The daily rate, the number of days and the amount paid never enter the
   * total: no check ties the rental charge to the rate times the days.
   */
  lemma TotalChargeIgnoresRateDaysAndPayment(f: Fields, dailyRate: real, numberOfDays: int, amountPaid: real)
    requires AllRulesHold(f) && dailyRate > 0.0 && numberOfDays > 0 && amountPaid >= 0.0
    ensures var g := f.(dailyRate := dailyRate, numberOfDays := numberOfDays, amountPaid := amountPaid);
            Validate(g).Pass? && TotalCharge(g) == TotalCharge(f)
  {
  }

  /** `VehicleRentalRecord`: the checked arguments, and the total charge derived from them. */
  class VehicleRentalRecord {
    const fields: Fields
    var totalCharge: real

    /** The rules hold, and the total is either not yet computed or correct. */
    ghost predicate Valid()
      reads this
    {
      AllRulesHold(fields) && (totalCharge == 0.0 || totalCharge == TotalCharge(fields))
    }

    /** The `RentalInvoice` constructor's `this.totalCharge = 0`. */
    constructor (f: Fields)
      requires AllRulesHold(f)
      ensures fields == f && totalCharge == 0.0 && Valid()
    {
      fields := f;
      totalCharge := 0.0;
    }

    /** `calculateTotalCharge()`: stores the total and returns it. */
    method CalculateTotalCharge() returns (total: real)
      requires Valid()
      modifies this`totalCharge
      ensures total == TotalCharge(fields) && totalCharge == total
      ensures total >= 0.0
      ensures Valid()
    {
      total := fields.rentalCharge + fields.penaltyCharge;
      totalCharge := total;
    }
  }

  /** `new VehicleRentalRecord(...)`: the first failing check's message, or a fresh record with totalCharge 0. */
  method NewVehicleRentalRecord(f: Fields) returns (r: Result<VehicleRentalRecord>)
    ensures r.Failure? <==> !AllRulesHold(f)
    ensures r.Failure? ==> Validate(f) == Fail(r.error)
    ensures r.Failure? ==> exists i :: FailsFirstAt(Rules(f), i) && Rules(f)[i].message == r.error
    ensures r.Success? ==> fresh(r.value) && r.value.fields == f && r.value.totalCharge == 0.0 && r.value.Valid()
  {
    var outcome := Validate(f);
    if outcome.Fail? {
      ReportsFirstBrokenRule(f, outcome.message);
      r := Failure(outcome.message);
    } else {
      var rec := new VehicleRentalRecord(f);
      r := Success(rec);
    }
  }
}
