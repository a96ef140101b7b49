/**
 * Airline ticketing: the constructor chain Entity > Airline > Flight >
 * Passenger > Seat > Ticket > Baggage > Payment > Invoice > TicketRecord, and
 * the invoice total `generateInvoice` derives.
 */
module Airline {
  import opened Outcomes
  import opened Validators
  import opened SharedStages

  /** The arguments of `new TicketRecord(...)`, in order; the record stores each of them. */
  datatype Fields = Fields(
    id: int, createdDate: string, updatedDate: string,
    airlineName: string, address: string, phoneNumber: string, email: string,
    flightNumber: string, flightCode: string,
    passengerName: string, passportNumber: string, passengerEmail: string, phone: string,
    seatNumber: string, seatClass: string, availableSeats: int,
    ticketNumber: string, ticketQuantity: int, bookingStatus: string, contactNumber: string,
    baggageType: string, baggageWeight: int, baggageFee: real,
    paymentMethod: string, transactionId: string, price: real,
    taxAmount: real, serviceFee: real)

  // The messages the constructors throw, verbatim.
  const FlightCodeInvalid: string := "Flight code must be alphanumeric and at least 3 characters"
  const PassportNumberBlank: string := "Passport number cannot be empty"
  const PassengerEmailInvalid: string := "Invalid passenger email format"
  const PassengerPhoneInvalid: string := "Passenger phone must be exactly 10 digits"
  const SeatClassInvalid: string := "Seat class must be 'Economy' or 'Business'"
  const AvailableSeatsNegative: string := "Available seats must be >= 0"
  const TicketQuantityNotPositive: string := "Ticket quantity must be > 0"
  const BookingStatusInvalid: string := "Booking status must be 'Confirmed', 'Pending', or 'Cancelled'"
  const BaggageTypeBlank: string := "Baggage type cannot be null"
  const BaggageFeeNegative: string := "Baggage fee must be >= 0"
  const PriceNotPositive: string := "Price must be > 0"
  const PaymentMethodBlank: string := "Payment method cannot be empty"
  const TransactionIdBlank: string := "Transaction ID cannot be empty"
  const TaxAmountNegative: string := "Tax amount must be >= 0"
  const ServiceFeeNegative: string := "Service fee must be >= 0"

  /** Exact, case-sensitive `equals` against the two literals. */
  predicate IsSeatClass(s: string)
  {
    s == "Economy" || s == "Business"
  }

  /** Exact, case-sensitive `equals` against the three literals. */
  predicate IsBookingStatus(s: string)
  {
    s == "Confirmed" || s == "Pending" || s == "Cancelled"
  }

  function FlightChecks(flightCode: string): Outcome
  {
    if !IsCode(flightCode) then Fail(FlightCodeInvalid) else Pass
  }

  function FlightRules(flightCode: string): seq<Rule>
  {
    [Rule(IsCode(flightCode), FlightCodeInvalid)]
  }

  function PassengerChecks(passportNumber: string, passengerEmail: string, phone: string): Outcome
  {
    if IsBlank(passportNumber) then Fail(PassportNumberBlank)
    else if !IsEmail(passengerEmail) then Fail(PassengerEmailInvalid)
    else if !IsTenDigits(phone) then Fail(PassengerPhoneInvalid)
    else Pass
  }

  function PassengerRules(passportNumber: string, passengerEmail: string, phone: string): seq<Rule>
  {
    [Rule(!IsBlank(passportNumber), PassportNumberBlank),
     Rule(IsEmail(passengerEmail), PassengerEmailInvalid), Rule(IsTenDigits(phone), PassengerPhoneInvalid)]
  }

  function SeatChecks(seatClass: string, availableSeats: int): Outcome
  {
    if !IsSeatClass(seatClass) then Fail(SeatClassInvalid)
    else if availableSeats < 0 then Fail(AvailableSeatsNegative)
    else Pass
  }

  function SeatRules(seatClass: string, availableSeats: int): seq<Rule>
  {
    [Rule(IsSeatClass(seatClass), SeatClassInvalid), Rule(availableSeats >= 0, AvailableSeatsNegative)]
  }

  function TicketChecks(ticketQuantity: int, bookingStatus: string): Outcome
  {
    if ticketQuantity <= 0 then Fail(TicketQuantityNotPositive)
    else if !IsBookingStatus(bookingStatus) then Fail(BookingStatusInvalid)
    else Pass
  }

  function TicketRules(ticketQuantity: int, bookingStatus: string): seq<Rule>
  {
    [Rule(ticketQuantity > 0, TicketQuantityNotPositive),
     Rule(IsBookingStatus(bookingStatus), BookingStatusInvalid)]
  }

  /** The baggage weight is stored without any check. */
  function BaggageChecks(baggageType: string, baggageFee: real): Outcome
  {
    if IsBlank(baggageType) then Fail(BaggageTypeBlank)
    else if baggageFee < 0.0 then Fail(BaggageFeeNegative)
    else Pass
  }

  function BaggageRules(baggageType: string, baggageFee: real): seq<Rule>
  {
    [Rule(!IsBlank(baggageType), BaggageTypeBlank), Rule(baggageFee >= 0.0, BaggageFeeNegative)]
  }

  function PaymentChecks(paymentMethod: string, transactionId: string, price: real): Outcome
  {
    if price <= 0.0 then Fail(PriceNotPositive)
    else if IsBlank(paymentMethod) then Fail(PaymentMethodBlank)
    else if IsBlank(transactionId) then Fail(TransactionIdBlank)
    else Pass
  }

  function PaymentRules(paymentMethod: string, transactionId: string, price: real): seq<Rule>
  {
    [Rule(price > 0.0, PriceNotPositive), Rule(!IsBlank(paymentMethod), PaymentMethodBlank),
     Rule(!IsBlank(transactionId), TransactionIdBlank)]
  }

  function InvoiceChecks(taxAmount: real, serviceFee: real): Outcome
  {
    if taxAmount < 0.0 then Fail(TaxAmountNegative)
    else if serviceFee < 0.0 then Fail(ServiceFeeNegative)
    else Pass
  }

  function InvoiceRules(taxAmount: real, serviceFee: real): seq<Rule>
  {
    [Rule(taxAmount >= 0.0, TaxAmountNegative), Rule(serviceFee >= 0.0, ServiceFeeNegative)]
  }

  /** Every check of `new TicketRecord(...)` as one list, in execution order: superclass constructors first. */
  function Rules(f: Fields): seq<Rule>
  {
    EntityRules(f.id, f.createdDate, f.updatedDate) + OrganisationRules(f.phoneNumber, f.email)
    + FlightRules(f.flightCode) + PassengerRules(f.passportNumber, f.passengerEmail, f.phone)
    + SeatRules(f.seatClass, f.availableSeats) + TicketRules(f.ticketQuantity, f.bookingStatus)
    + BaggageRules(f.baggageType, f.baggageFee) + PaymentRules(f.paymentMethod, f.transactionId, f.price)
    + InvoiceRules(f.taxAmount, f.serviceFee)
  }

  /** Every rule of every constructor, as one conjunction. */
  predicate AllRulesHold(f: Fields)
  {
    && f.id > 0 && !IsBlank(f.createdDate) && !IsBlank(f.updatedDate)
    && IsTenDigits(f.phoneNumber) && IsEmail(f.email)
    && IsCode(f.flightCode)
    && !IsBlank(f.passportNumber) && IsEmail(f.passengerEmail) && IsTenDigits(f.phone)
    && IsSeatClass(f.seatClass) && f.availableSeats >= 0
    && f.ticketQuantity > 0 && IsBookingStatus(f.bookingStatus)
    && !IsBlank(f.baggageType) && f.baggageFee >= 0.0
    && f.price > 0.0 && !IsBlank(f.paymentMethod) && !IsBlank(f.transactionId)
    && f.taxAmount >= 0.0 && f.serviceFee >= 0.0
  }

  /**
   * The constructor chain of `new TicketRecord(...)`: each constructor runs
   * its superclass's checks, then its own; the first failure is thrown.
   */
  function Validate(f: Fields): (r: Outcome)
    ensures r.Pass? <==> AllRulesHold(f)
  {
    var entity := EntityChecks(f.id, f.createdDate, f.updatedDate);  // the base class `Entity` first
    :- entity;
    :- OrganisationChecks(f.phoneNumber, f.email);
    :- FlightChecks(f.flightCode);
    :- PassengerChecks(f.passportNumber, f.passengerEmail, f.phone);
    :- SeatChecks(f.seatClass, f.availableSeats);
    :- TicketChecks(f.ticketQuantity, f.bookingStatus);
    :- BaggageChecks(f.baggageType, f.baggageFee);
    :- PaymentChecks(f.paymentMethod, f.transactionId, f.price);
    InvoiceChecks(f.taxAmount, f.serviceFee)
  }

  /**
   * The chain reports the first failing check: `Validate` runs the list
   * `Rules(f)` top to bottom, so it throws `m` exactly when `m` is the
   * message of the earliest rule that does not hold.
   */
  lemma ReportsFirstBrokenRule(f: Fields, m: string)
    ensures Validate(f) == FirstFailing(Rules(f))
    ensures Validate(f) == Fail(m) <==> exists i :: FailsFirstAt(Rules(f), i) && Rules(f)[i].message == m
  {
    var s1 := EntityRules(f.id, f.createdDate, f.updatedDate);
    assert EntityChecks(f.id, f.createdDate, f.updatedDate) == FirstFailing(s1) by { FirstFailingOfFew(s1); }
    var s2 := OrganisationRules(f.phoneNumber, f.email);
    assert OrganisationChecks(f.phoneNumber, f.email) == FirstFailing(s2) by { FirstFailingOfFew(s2); }
    var s3 := FlightRules(f.flightCode);
    assert FlightChecks(f.flightCode) == FirstFailing(s3) by { FirstFailingOfFew(s3); }
    var s4 := PassengerRules(f.passportNumber, f.passengerEmail, f.phone);
    assert PassengerChecks(f.passportNumber, f.passengerEmail, f.phone) == FirstFailing(s4)
      by { FirstFailingOfFew(s4); }
    var s5 := SeatRules(f.seatClass, f.availableSeats);
    assert SeatChecks(f.seatClass, f.availableSeats) == FirstFailing(s5) by { FirstFailingOfFew(s5); }
    var s6 := TicketRules(f.ticketQuantity, f.bookingStatus);
    assert TicketChecks(f.ticketQuantity, f.bookingStatus) == FirstFailing(s6) by { FirstFailingOfFew(s6); }
    var s7 := BaggageRules(f.baggageType, f.baggageFee);
    assert BaggageChecks(f.baggageType, f.baggageFee) == FirstFailing(s7) by { FirstFailingOfFew(s7); }
    var s8 := PaymentRules(f.paymentMethod, f.transactionId, f.price);
    assert PaymentChecks(f.paymentMethod, f.transactionId, f.price) == FirstFailing(s8)
      by { FirstFailingOfFew(s8); }
    var s9 := InvoiceRules(f.taxAmount, f.serviceFee);
    assert InvoiceChecks(f.taxAmount, f.serviceFee) == FirstFailing(s9) by { FirstFailingOfFew(s9); }
    var p2 := s1 + s2; FirstFailingAppend(s1, s2);
    var p3 := p2 + s3; FirstFailingAppend(p2, s3);
    var p4 := p3 + s4; FirstFailingAppend(p3, s4);
    var p5 := p4 + s5; FirstFailingAppend(p4, s5);
    var p6 := p5 + s6; FirstFailingAppend(p5, s6);
    var p7 := p6 + s7; FirstFailingAppend(p6, s7);
    var p8 := p7 + s8; FirstFailingAppend(p7, s8);
    var p9 := p8 + s9; FirstFailingAppend(p8, s9);
    assert Rules(f) == p9;
    FirstFailingMeans(p9, m);
  }

  /** The Passenger constructor runs before the Seat constructor: its phone error wins. */
  lemma PassengerPhoneBeforeSeatClass(f: Fields, phone: string, seatClass: string)
    requires AllRulesHold(f) && !IsTenDigits(phone)
    ensures Validate(f.(phone := phone, seatClass := seatClass)) == Fail(PassengerPhoneInvalid)
  {
  }

  /** Every argument that no constructor checks is stored as given: none of them changes the outcome. */
  lemma UncheckedFieldsIrrelevant(f: Fields, airlineName: string, address: string, flightNumber: string,
                                  passengerName: string, seatNumber: string, ticketNumber: string,
                                  contactNumber: string, baggageWeight: int)
    ensures Validate(f.(airlineName := airlineName, address := address, flightNumber := flightNumber,
                        passengerName := passengerName, seatNumber := seatNumber,
                        ticketNumber := ticketNumber, contactNumber := contactNumber,
                        baggageWeight := baggageWeight))
         == Validate(f)
  {
  }

  /** The total `generateInvoice` computes; on a constructed record it is positive and covers the price. */
  function InvoiceTotal(f: Fields): (total: real)
    ensures AllRulesHold(f) ==> total > 0.0 && total >= f.price
  {
    f.price + f.baggageFee
  }

  /** The tax amount, the service fee and the ticket quantity never enter the invoice total. */
  lemma InvoiceTotalIgnoresTaxFeeAndQuantity(f: Fields, taxAmount: real, serviceFee: real, ticketQuantity: int)
    ensures InvoiceTotal(f.(taxAmount := taxAmount, serviceFee := serviceFee, ticketQuantity := ticketQuantity))
         == InvoiceTotal(f)
  {
  }

  /** `TicketRecord`: the checked arguments, and the invoice total derived from them. */
  class TicketRecord {
    const fields: Fields
    var totalInvoice: real

    /** The rules hold, and the invoice total is either not yet computed or correct. */
    ghost predicate Valid()
      reads this
    {
      AllRulesHold(fields) && (totalInvoice == 0.0 || totalInvoice == InvoiceTotal(fields))
    }

    /** The `Invoice` constructor's `this.totalInvoice = 0`. */
    constructor (f: Fields)
      requires AllRulesHold(f)
      ensures fields == f && totalInvoice == 0.0 && Valid()
    {
      fields := f;
      totalInvoice := 0.0;
    }

    /** `generateInvoice()`: stores the total and returns it. */
    method GenerateInvoice() returns (total: real)
      requires Valid()
      modifies this`totalInvoice
      ensures total == InvoiceTotal(fields) && totalInvoice == total
      ensures total > 0.0
      ensures Valid()
    {
      total := fields.price + fields.baggageFee;
      totalInvoice := total;
    }
  }

  /** `new TicketRecord(...)`: the first failing check's message, or a fresh record with totalInvoice 0. */
  method NewTicketRecord(f: Fields) returns (r: Result<TicketRecord>)
    ensures r.Failure? <==> !AllRulesHold(f)
    ensures r.Failure? ==> Validate(f) == Fail(r.error)
    ensures r.Failure? ==> exists i :: FailsFirstAt(Rules(f), i) && Rules(f)[i].message == r.error
    ensures r.Success? ==> fresh(r.value) && r.value.fields == f && r.value.totalInvoice == 0.0 && r.value.Valid()
  {
    var outcome := Validate(f);
    if outcome.Fail? {
      ReportsFirstBrokenRule(f, outcome.message);
      r := Failure(outcome.message);
    } else {
      var rec := new TicketRecord(f);
      r := Success(rec);
    }
  }
}
