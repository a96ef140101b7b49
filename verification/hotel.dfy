/**
 * Hotel reservation: the constructor chain Entity > Hotel > Room > Customer >
 * Booking > Service > Payment > Bill > Feedback > ReservationRecord, and the
 * bill `generateBill` derives.
 */
module Hotel {
  import opened Outcomes
  import opened Validators
  import opened SharedStages

  /** The arguments of `new ReservationRecord(...)`, in order; the record stores each of them. */
  datatype Fields = Fields(
    id: int, createdDate: string, updatedDate: string,
    hotelName: string, address: string, phoneNumber: string, email: string,
    roomNumber: int, roomType: string, roomPrice: real,
    customerName: string, customerEmail: string, phone: string, idProof: string,
    checkInDate: string, checkOutDate: string, numberOfDays: int,
    serviceName: string, serviceCharge: real, serviceDate: string,
    paymentMethod: string, paymentDate: string, amountPaid: real,
    roomCharge: real,
    rating: int, comments: string)

  // The messages the constructors throw, verbatim.
  const RoomNumberNotPositive: string := "Room number must be > 0"
  const RoomPriceNotPositive: string := "Room price must be > 0"
  const CustomerEmailInvalid: string := "Invalid customer email format"
  const CustomerPhoneInvalid: string := "Customer phone must be exactly 10 digits"
  const IdProofBlank: string := "ID proof cannot be empty"
  const CheckInDateBlank: string := "Check-in date cannot be empty"
  const CheckOutDateBlank: string := "Check-out date cannot be empty"
  const DaysNotPositive: string := "Number of days must be > 0"
  const ServiceNameBlank: string := "Service name cannot be empty"
  const ServiceChargeNegative: string := "Service charge must be >= 0"
  const PaymentMethodBlank: string := "Payment method cannot be empty"
  const AmountPaidNegative: string := "Amount paid must be >= 0"
  const RoomChargeNotPositive: string := "Room charge must be > 0"
  const RatingOutOfRange: string := "Rating must be between 1 and 5"

  function RoomChecks(roomNumber: int, roomPrice: real): Outcome
  {
    if roomNumber <= 0 then Fail(RoomNumberNotPositive)
    else if roomPrice <= 0.0 then Fail(RoomPriceNotPositive)
    else Pass
  }

  function RoomRules(roomNumber: int, roomPrice: real): seq<Rule>
  {
    [Rule(roomNumber > 0, RoomNumberNotPositive), Rule(roomPrice > 0.0, RoomPriceNotPositive)]
  }

  function CustomerChecks(customerEmail: string, phone: string, idProof: string): Outcome
  {
    if !IsEmail(customerEmail) then Fail(CustomerEmailInvalid)
    else if !IsTenDigits(phone) then Fail(CustomerPhoneInvalid)
    else if IsBlank(idProof) then Fail(IdProofBlank)
    else Pass
  }

  function CustomerRules(customerEmail: string, phone: string, idProof: string): seq<Rule>
  {
    [Rule(IsEmail(customerEmail), CustomerEmailInvalid), Rule(IsTenDigits(phone), CustomerPhoneInvalid),
     Rule(!IsBlank(idProof), IdProofBlank)]
  }

  function BookingChecks(checkInDate: string, checkOutDate: string, numberOfDays: int): Outcome
  {
    if IsBlank(checkInDate) then Fail(CheckInDateBlank)
    else if IsBlank(checkOutDate) then Fail(CheckOutDateBlank)
    else if numberOfDays <= 0 then Fail(DaysNotPositive)
    else Pass
  }

  function BookingRules(checkInDate: string, checkOutDate: string, numberOfDays: int): seq<Rule>
  {
    [Rule(!IsBlank(checkInDate), CheckInDateBlank), Rule(!IsBlank(checkOutDate), CheckOutDateBlank),
     Rule(numberOfDays > 0, DaysNotPositive)]
  }

  function ServiceChecks(serviceName: string, serviceCharge: real): Outcome
  {
    if IsBlank(serviceName) then Fail(ServiceNameBlank)
    else if serviceCharge < 0.0 then Fail(ServiceChargeNegative)
    else Pass
  }

  function ServiceRules(serviceName: string, serviceCharge: real): seq<Rule>
  {
    [Rule(!IsBlank(serviceName), ServiceNameBlank), Rule(serviceCharge >= 0.0, ServiceChargeNegative)]
  }

  function PaymentChecks(paymentMethod: string, amountPaid: real): Outcome
  {
    if IsBlank(paymentMethod) then Fail(PaymentMethodBlank)
    else if amountPaid < 0.0 then Fail(AmountPaidNegative)
    else Pass
  }

  function PaymentRules(paymentMethod: string, amountPaid: real): seq<Rule>
  {
    [Rule(!IsBlank(paymentMethod), PaymentMethodBlank), Rule(amountPaid >= 0.0, AmountPaidNegative)]
  }

  function BillChecks(roomCharge: real): Outcome
  {
    if roomCharge <= 0.0 then Fail(RoomChargeNotPositive) else Pass
  }

  function BillRules(roomCharge: real): seq<Rule>
  {
    [Rule(roomCharge > 0.0, RoomChargeNotPositive)]
  }

  function FeedbackChecks(rating: int): Outcome
  {
    if rating < 1 || rating > 5 then Fail(RatingOutOfRange) else Pass
  }

  function FeedbackRules(rating: int): seq<Rule>
  {
    [Rule(1 <= rating <= 5, RatingOutOfRange)]
  }

  /** Every check of `new ReservationRecord(...)` as one list, in execution order: superclass constructors first. */
  function Rules(f: Fields): seq<Rule>
  {
    EntityRules(f.id, f.createdDate, f.updatedDate) + OrganisationRules(f.phoneNumber, f.email)
    + RoomRules(f.roomNumber, f.roomPrice) + CustomerRules(f.customerEmail, f.phone, f.idProof)
    + BookingRules(f.checkInDate, f.checkOutDate, f.numberOfDays)
    + ServiceRules(f.serviceName, f.serviceCharge) + PaymentRules(f.paymentMethod, f.amountPaid)
    + BillRules(f.roomCharge) + FeedbackRules(f.rating)
  }

  /** Every rule of every constructor, as one conjunction. */
  predicate AllRulesHold(f: Fields)
  {
    && f.id > 0 && !IsBlank(f.createdDate) && !IsBlank(f.updatedDate)
    && IsTenDigits(f.phoneNumber) && IsEmail(f.email)
    && f.roomNumber > 0 && f.roomPrice > 0.0
    && IsEmail(f.customerEmail) && IsTenDigits(f.phone) && !IsBlank(f.idProof)
    && !IsBlank(f.checkInDate) && !IsBlank(f.checkOutDate) && f.numberOfDays > 0
    && !IsBlank(f.serviceName) && f.serviceCharge >= 0.0
    && !IsBlank(f.paymentMethod) && f.amountPaid >= 0.0
    && f.roomCharge > 0.0
    && 1 <= f.rating <= 5
  }

  /**
   * The constructor chain of `new ReservationRecord(...)`: each constructor
   * runs its superclass's checks, then its own; the first failure is thrown.
   */
  function Validate(f: Fields): (r: Outcome)
    ensures r.Pass? <==> AllRulesHold(f)
  {
    var entity := EntityChecks(f.id, f.createdDate, f.updatedDate);  // the base class `Entity` first
    :- entity;
    :- OrganisationChecks(f.phoneNumber, f.email);
    :- RoomChecks(f.roomNumber, f.roomPrice);
    :- CustomerChecks(f.customerEmail, f.phone, f.idProof);
    :- BookingChecks(f.checkInDate, f.checkOutDate, f.numberOfDays);
    :- ServiceChecks(f.serviceName, f.serviceCharge);
    :- PaymentChecks(f.paymentMethod, f.amountPaid);
    :- BillChecks(f.roomCharge);
    FeedbackChecks(f.rating)
  }

  /**
   * The chain reports the first failing check: `Validate` runs the list
   * `Rules(f)` top to bottom, so it throws `m` exactly when `m` is the
   * message of the earliest rule that does not hold.
   */
  lemma ReportsFirstBrokenRule(f: Fields, m: string)
    ensures Validate(f) == FirstFailing(Rules(f))
    ensures Validate(f) == Fail(m) <==> exists i :: FailsFirstAt(Rules(f), i) && Rules(f)[i].message == m
  {
    var s1 := EntityRules(f.id, f.createdDate, f.updatedDate);
    assert EntityChecks(f.id, f.createdDate, f.updatedDate) == FirstFailing(s1) by { FirstFailingOfFew(s1); }
    var s2 := OrganisationRules(f.phoneNumber, f.email);
    assert OrganisationChecks(f.phoneNumber, f.email) == FirstFailing(s2) by { FirstFailingOfFew(s2); }
    var s3 := RoomRules(f.roomNumber, f.roomPrice);
    assert RoomChecks(f.roomNumber, f.roomPrice) == FirstFailing(s3) by { FirstFailingOfFew(s3); }
    var s4 := CustomerRules(f.customerEmail, f.phone, f.idProof);
    assert CustomerChecks(f.customerEmail, f.phone, f.idProof) == FirstFailing(s4)
      by { FirstFailingOfFew(s4); }
    var s5 := BookingRules(f.checkInDate, f.checkOutDate, f.numberOfDays);
    assert BookingChecks(f.checkInDate, f.checkOutDate, f.numberOfDays) == FirstFailing(s5)
      by { FirstFailingOfFew(s5); }
    var s6 := ServiceRules(f.serviceName, f.serviceCharge);
    assert ServiceChecks(f.serviceName, f.serviceCharge) == FirstFailing(s6) by { FirstFailingOfFew(s6); }
    var s7 := PaymentRules(f.paymentMethod, f.amountPaid);
    assert PaymentChecks(f.paymentMethod, f.amountPaid) == FirstFailing(s7) by { FirstFailingOfFew(s7); }
    var s8 := BillRules(f.roomCharge);
    assert BillChecks(f.roomCharge) == FirstFailing(s8) by { FirstFailingOfFew(s8); }
    var s9 := FeedbackRules(f.rating);
    assert FeedbackChecks(f.rating) == FirstFailing(s9) by { FirstFailingOfFew(s9); }
    var p2 := s1 + s2; FirstFailingAppend(s1, s2);
    var p3 := p2 + s3; FirstFailingAppend(p2, s3);
    var p4 := p3 + s4; FirstFailingAppend(p3, s4);
    var p5 := p4 + s5; FirstFailingAppend(p4, s5);
    var p6 := p5 + s6; FirstFailingAppend(p5, s6);
    var p7 := p6 + s7; FirstFailingAppend(p6, s7);
    var p8 := p7 + s8; FirstFailingAppend(p7, s8);
    var p9 := p8 + s9; FirstFailingAppend(p8, s9);
    assert Rules(f) == p9;
    FirstFailingMeans(p9, m);
  }

  /** Both rating bounds are inclusive; one step outside either bound is refused. */
  lemma RatingBoundsInclusive(f: Fields)
    requires AllRulesHold(f)
    ensures Validate(f.(rating := 1)).Pass? && Validate(f.(rating := 5)).Pass?
    ensures Validate(f.(rating := 0)) == Fail(RatingOutOfRange)
    ensures Validate(f.(rating := 6)) == Fail(RatingOutOfRange)
  {
  }

  /** The rating is checked last: when it is the reported error, every other rule holds. */
  lemma RatingReportedLast(f: Fields)
    requires Validate(f) == Fail(RatingOutOfRange)
    ensures AllRulesHold(f.(rating := 3))
  {
  }

  /** Every argument that no constructor checks is stored as given: none of them changes the outcome. */
  lemma UncheckedFieldsIrrelevant(f: Fields, hotelName: string, address: string, roomType: string,
                                  customerName: string, serviceDate: string, paymentDate: string,
                                  comments: string)
    ensures Validate(f.(hotelName := hotelName, address := address, roomType := roomType,
                        customerName := customerName, serviceDate := serviceDate,
                        paymentDate := paymentDate, comments := comments))
         == Validate(f)
  {
  }

  /** The total `generateBill` computes; on a constructed record it is positive and covers the room charge. */
  function TotalBill(f: Fields): (total: real)
    ensures AllRulesHold(f) ==> total > 0.0 && total >= f.roomCharge
  {
    f.roomCharge + f.serviceCharge
  }

  /** The room price, the number of days and the amount paid never enter the bill. */
  lemma TotalBillIgnoresPriceDaysAndPayment(f: Fields, roomPrice: real, numberOfDays: int, amountPaid: real)
    ensures TotalBill(f.(roomPrice := roomPrice, numberOfDays := numberOfDays, amountPaid := amountPaid))
         == TotalBill(f)
  {
  }

  /** `ReservationRecord`: the checked arguments, and the bill derived from them. */
  class ReservationRecord {
    const fields: Fields
    var totalBill: real

    /** The rules hold, and the bill is either not yet generated or correct. */
    ghost predicate Valid()
      reads this
    {
      AllRulesHold(fields) && (totalBill == 0.0 || totalBill == TotalBill(fields))
    }

    /** The `Bill` constructor's `this.totalBill = 0`, reached only once every check passed. */
    constructor (f: Fields)
      requires AllRulesHold(f)
      ensures fields == f && totalBill == 0.0 && Valid()
    {
      fields := f;
      totalBill := 0.0;
    }

    /** `generateBill()`: stores the total and returns it. */
    method GenerateBill() returns (total: real)
      requires Valid()
      modifies this`totalBill
      ensures total == TotalBill(fields) && totalBill == total
      ensures total > 0.0 && total >= fields.roomCharge
      ensures Valid()
    {
      total := fields.roomCharge + fields.serviceCharge;
      totalBill := total;
    }
  }

  /** `new ReservationRecord(...)`: the first failing check's message, or a fresh record with totalBill 0. */
  method NewReservationRecord(f: Fields) returns (r: Result<ReservationRecord>)
    ensures r.Failure? <==> !AllRulesHold(f)
    ensures r.Failure? ==> Validate(f) == Fail(r.error)
    ensures r.Failure? ==> exists i :: FailsFirstAt(Rules(f), i) && Rules(f)[i].message == r.error
    ensures r.Success? ==> fresh(r.value) && r.value.fields == f && r.value.totalBill == 0.0 && r.value.Valid()
  {
    var outcome := Validate(f);
    if outcome.Fail? {
      ReportsFirstBrokenRule(f, outcome.message);
      r := Failure(outcome.message);
    } else {
      var rec := new ReservationRecord(f);
      r := Success(rec);
    }
  }
}
