/**
 * Real-estate management: the constructor chain Entity > Agency > Agent >
 * Property > Seller > Buyer > Agreement > Payment > Commission >
 * RealEstateRecord, and the commission `calculateCommission` derives.
 */
module RealEstate {
  import opened Outcomes
  import opened Validators
  import opened SharedStages

  /** The arguments of `new RealEstateRecord(...)`, in order; the record stores each of them. */
  datatype Fields = Fields(
    id: int, createdDate: string, updatedDate: string,
    agencyName: string, address: string, phoneNumber: string, email: string,
    agentName: string, agentCode: string,
    propertyType: string, location: string, propertyEmail: string, phone: string,
    sellerName: string, sellerType: string, yearsOwned: int,
    buyerName: string, age: int, buyerType: string, contactNumber: string,
    agreementDate: string, agreementNumber: int, agreementFee: real,
    paymentMethod: string, transactionId: string, price: real,
    commissionRate: real, taxRate: real)

  // The messages the constructors throw, verbatim.
  const AgentCodeInvalid: string := "Agent code must be alphanumeric and at least 3 characters"
  const PropertyTypeBlank: string := "Property type cannot be empty"
  const PropertyEmailInvalid: string := "Invalid property email format"
  const PropertyPhoneInvalid: string := "Property phone must be exactly 10 digits"
  const SellerTypeInvalid: string := "Seller type must be 'Individual' or 'Corporate'"
  const YearsOwnedNegative: string := "Years owned must be >= 0"
  const AgeNotPositive: string := "Age must be > 0"
  const BuyerTypeInvalid: string := "Buyer type must be 'FirstTime', 'Investor', or 'Corporate'"
  const AgreementDateBlank: string := "Agreement date cannot be null"
  const AgreementFeeNotPositive: string := "Agreement fee must be > 0"
  const PriceNotPositive: string := "Price must be > 0"
  const PaymentMethodBlank: string := "Payment method cannot be empty"
  const TransactionIdBlank: string := "Transaction ID cannot be empty"
  const CommissionRateNotPositive: string := "Commission rate must be > 0"
  const TaxRateNegative: string := "Tax rate must be >= 0"

  predicate IsSellerType(s: string)
  {
    s == "Individual" || s == "Corporate"
  }

  predicate IsBuyerType(s: string)
  {
    s == "FirstTime" || s == "Investor" || s == "Corporate"
  }

  function AgentChecks(agentCode: string): Outcome
  {
    if !IsCode(agentCode) then Fail(AgentCodeInvalid) else Pass
  }

  function AgentRules(agentCode: string): seq<Rule>
  {
    [Rule(IsCode(agentCode), AgentCodeInvalid)]
  }

  function PropertyChecks(propertyType: string, propertyEmail: string, phone: string): Outcome
  {
    if IsBlank(propertyType) then Fail(PropertyTypeBlank)
    else if !IsEmail(propertyEmail) then Fail(PropertyEmailInvalid)
    else if !IsTenDigits(phone) then Fail(PropertyPhoneInvalid)
    else Pass
  }

  function PropertyRules(propertyType: string, propertyEmail: string, phone: string): seq<Rule>
  {
    [Rule(!IsBlank(propertyType), PropertyTypeBlank), Rule(IsEmail(propertyEmail), PropertyEmailInvalid),
     Rule(IsTenDigits(phone), PropertyPhoneInvalid)]
  }

  function SellerChecks(sellerType: string, yearsOwned: int): Outcome
  {
    if !IsSellerType(sellerType) then Fail(SellerTypeInvalid)
    else if yearsOwned < 0 then Fail(YearsOwnedNegative)
    else Pass
  }

  function SellerRules(sellerType: string, yearsOwned: int): seq<Rule>
  {
    [Rule(IsSellerType(sellerType), SellerTypeInvalid), Rule(yearsOwned >= 0, YearsOwnedNegative)]
  }

  function BuyerChecks(age: int, buyerType: string): Outcome
  {
    if age <= 0 then Fail(AgeNotPositive)
    else if !IsBuyerType(buyerType) then Fail(BuyerTypeInvalid)
    else Pass
  }

  function BuyerRules(age: int, buyerType: string): seq<Rule>
  {
    [Rule(age > 0, AgeNotPositive), Rule(IsBuyerType(buyerType), BuyerTypeInvalid)]
  }

  function AgreementChecks(agreementDate: string, agreementFee: real): Outcome
  {
    if IsBlank(agreementDate) then Fail(AgreementDateBlank)
    else if agreementFee <= 0.0 then Fail(AgreementFeeNotPositive)
    else Pass
  }

  function AgreementRules(agreementDate: string, agreementFee: real): seq<Rule>
  {
    [Rule(!IsBlank(agreementDate), AgreementDateBlank), Rule(agreementFee > 0.0, AgreementFeeNotPositive)]
  }

  function PaymentChecks(paymentMethod: string, transactionId: string, price: real): Outcome
  {
    if price <= 0.0 then Fail(PriceNotPositive)
    else if IsBlank(paymentMethod) then Fail(PaymentMethodBlank)
    else if IsBlank(transactionId) then Fail(TransactionIdBlank)
    else Pass
  }

  function PaymentRules(paymentMethod: string, transactionId: string, price: real): seq<Rule>
  {
    [Rule(price > 0.0, PriceNotPositive), Rule(!IsBlank(paymentMethod), PaymentMethodBlank),
     Rule(!IsBlank(transactionId), TransactionIdBlank)]
  }

  function CommissionChecks(commissionRate: real, taxRate: real): Outcome
  {
    if commissionRate <= 0.0 then Fail(CommissionRateNotPositive)
    else if taxRate < 0.0 then Fail(TaxRateNegative)
    else Pass
  }

  function CommissionRules(commissionRate: real, taxRate: real): seq<Rule>
  {
    [Rule(commissionRate > 0.0, CommissionRateNotPositive), Rule(taxRate >= 0.0, TaxRateNegative)]
  }

  /** Every check of `new RealEstateRecord(...)` as one list, in execution order: superclass constructors first. */
  function Rules(f: Fields): seq<Rule>
  {
    EntityRules(f.id, f.createdDate, f.updatedDate) + OrganisationRules(f.phoneNumber, f.email)
    + AgentRules(f.agentCode) + PropertyRules(f.propertyType, f.propertyEmail, f.phone)
    + SellerRules(f.sellerType, f.yearsOwned) + BuyerRules(f.age, f.buyerType)
    + AgreementRules(f.agreementDate, f.agreementFee)
    + PaymentRules(f.paymentMethod, f.transactionId, f.price) + CommissionRules(f.commissionRate, f.taxRate)
  }

  /** Every rule of every constructor, as one conjunction. */
  predicate AllRulesHold(f: Fields)
  {
    && f.id > 0 && !IsBlank(f.createdDate) && !IsBlank(f.updatedDate)
    && IsTenDigits(f.phoneNumber) && IsEmail(f.email)
    && IsCode(f.agentCode)
    && !IsBlank(f.propertyType) && IsEmail(f.propertyEmail) && IsTenDigits(f.phone)
    && IsSellerType(f.sellerType) && f.yearsOwned >= 0
    && f.age > 0 && IsBuyerType(f.buyerType)
    && !IsBlank(f.agreementDate) && f.agreementFee > 0.0
    && f.price > 0.0 && !IsBlank(f.paymentMethod) && !IsBlank(f.transactionId)
    && f.commissionRate > 0.0 && f.taxRate >= 0.0
  }

  /**
   * The constructor chain of `new RealEstateRecord(...)`: each constructor runs
   * its superclass's checks, then its own; the first failure is thrown.
   */
  function Validate(f: Fields): (r: Outcome)
    ensures r.Pass? <==> AllRulesHold(f)
  {
    var entity := EntityChecks(f.id, f.createdDate, f.updatedDate);  // the base class `Entity` first
    :- entity;
    :- OrganisationChecks(f.phoneNumber, f.email);
    :- AgentChecks(f.agentCode);
    :- PropertyChecks(f.propertyType, f.propertyEmail, f.phone);
    :- SellerChecks(f.sellerType, f.yearsOwned);
    :- BuyerChecks(f.age, f.buyerType);
    :- AgreementChecks(f.agreementDate, f.agreementFee);
    :- PaymentChecks(f.paymentMethod, f.transactionId, f.price);
    CommissionChecks(f.commissionRate, f.taxRate)
  }

  /**
   * The chain reports the first failing check: `Validate` runs the list
   * `Rules(f)` top to bottom, so it throws `m` exactly when `m` is the
   * message of the earliest rule that does not hold.
   */
  lemma ReportsFirstBrokenRule(f: Fields, m: string)
    ensures Validate(f) == FirstFailing(Rules(f))
    ensures Validate(f) == Fail(m) <==> exists i :: FailsFirstAt(Rules(f), i) && Rules(f)[i].message == m
  {
    var s1 := EntityRules(f.id, f.createdDate, f.updatedDate);
    assert EntityChecks(f.id, f.createdDate, f.updatedDate) == FirstFailing(s1) by { FirstFailingOfFew(s1); }
    var s2 := OrganisationRules(f.phoneNumber, f.email);
    assert OrganisationChecks(f.phoneNumber, f.email) == FirstFailing(s2) by { FirstFailingOfFew(s2); }
    var s3 := AgentRules(f.agentCode);
    assert AgentChecks(f.agentCode) == FirstFailing(s3) by { FirstFailingOfFew(s3); }
    var s4 := PropertyRules(f.propertyType, f.propertyEmail, f.phone);
    assert PropertyChecks(f.propertyType, f.propertyEmail, f.phone) == FirstFailing(s4)
      by { FirstFailingOfFew(s4); }
    var s5 := SellerRules(f.sellerType, f.yearsOwned);
    assert SellerChecks(f.sellerType, f.yearsOwned) == FirstFailing(s5) by { FirstFailingOfFew(s5); }
    var s6 := BuyerRules(f.age, f.buyerType);
    assert BuyerChecks(f.age, f.buyerType) == FirstFailing(s6) by { FirstFailingOfFew(s6); }
    var s7 := AgreementRules(f.agreementDate, f.agreementFee);
    assert AgreementChecks(f.agreementDate, f.agreementFee) == FirstFailing(s7) by { FirstFailingOfFew(s7); }
    var s8 := PaymentRules(f.paymentMethod, f.transactionId, f.price);
    assert PaymentChecks(f.paymentMethod, f.transactionId, f.price) == FirstFailing(s8)
      by { FirstFailingOfFew(s8); }
    var s9 := CommissionRules(f.commissionRate, f.taxRate);
    assert CommissionChecks(f.commissionRate, f.taxRate) == FirstFailing(s9) by { FirstFailingOfFew(s9); }
    var p2 := s1 + s2; FirstFailingAppend(s1, s2);
    var p3 := p2 + s3; FirstFailingAppend(p2, s3);
    var p4 := p3 + s4; FirstFailingAppend(p3, s4);
    var p5 := p4 + s5; FirstFailingAppend(p4, s5);
    var p6 := p5 + s6; FirstFailingAppend(p5, s6);
    var p7 := p6 + s7; FirstFailingAppend(p6, s7);
    var p8 := p7 + s8; FirstFailingAppend(p7, s8);
    var p9 := p8 + s9; FirstFailingAppend(p8, s9);
    assert Rules(f) == p9;
    FirstFailingMeans(p9, m);
  }

  /** Within the Payment constructor the price is checked before the texts. */
  lemma PriceCheckedFirst(f: Fields, price: real, paymentMethod: string)
    requires AllRulesHold(f) && price <= 0.0
    ensures Validate(f.(price := price, paymentMethod := paymentMethod)) == Fail(PriceNotPositive)
  {
  }

  /** "Corporate" is both a seller type and a buyer type; "Individual" is only a seller type. */
  lemma PartyTypes(f: Fields)
    requires AllRulesHold(f)
    ensures Validate(f.(sellerType := "Corporate", buyerType := "Corporate")).Pass?
    ensures Validate(f.(sellerType := "Individual")).Pass?
    ensures Validate(f.(buyerType := "Individual")) == Fail(BuyerTypeInvalid)
  {
    assert !IsBuyerType("Individual") by {
      assert "Individual"[0] != "FirstTime"[0] && "Individual"[0] != "Corporate"[0];
    }
  }

  /** Every argument that no constructor checks is stored as given: none of them changes the outcome. */
  lemma UncheckedFieldsIrrelevant(f: Fields, agencyName: string, address: string, agentName: string,
                                  location: string, sellerName: string, buyerName: string,
                                  contactNumber: string, agreementNumber: int)
    ensures Validate(f.(agencyName := agencyName, address := address, agentName := agentName,
                        location := location, sellerName := sellerName, buyerName := buyerName,
                        contactNumber := contactNumber, agreementNumber := agreementNumber))
         == Validate(f)
  {
  }

  /** The commission `calculateCommission` computes; on a constructed record it is positive. */
  function Commission(f: Fields): (commission: real)
    ensures AllRulesHold(f) ==> commission > 0.0
  {
    (f.price * f.commissionRate) / 100.0
  }

  /** The tax rate and the agreement fee never enter the commission. */
  lemma CommissionIgnoresTaxAndFee(f: Fields, taxRate: real, agreementFee: real)
    ensures Commission(f.(taxRate := taxRate, agreementFee := agreementFee)) == Commission(f)
  {
  }

  /** `RealEstateRecord`: the checked arguments, and the commission derived from them. */
  class RealEstateRecord {
    const fields: Fields
    var totalCommission: real

    /** The rules hold, and the commission is either not yet computed or correct. */
    ghost predicate Valid()
      reads this
    {
      AllRulesHold(fields) && (totalCommission == 0.0 || totalCommission == Commission(fields))
    }

    /** The `Commission` constructor's `this.totalCommission = 0`. */
    constructor (f: Fields)
      requires AllRulesHold(f)
      ensures fields == f && totalCommission == 0.0 && Valid()
    {
      fields := f;
      totalCommission := 0.0;
    }

    /** `calculateCommission()`: stores the commission and returns it. */
    method CalculateCommission() returns (commission: real)
      requires Valid()
      modifies this`totalCommission
      ensures commission == Commission(fields) && totalCommission == commission
      ensures commission > 0.0
      ensures Valid()
    {
      commission := (fields.price * fields.commissionRate) / 100.0;
      totalCommission := commission;
    }
  }

  /** `new RealEstateRecord(...)`: the first failing check's message, or a fresh record with commission 0. */
  method NewRealEstateRecord(f: Fields) returns (r: Result<RealEstateRecord>)
    ensures r.Failure? <==> !AllRulesHold(f)
    ensures r.Failure? ==> Validate(f) == Fail(r.error)
    ensures r.Failure? ==> exists i :: FailsFirstAt(Rules(f), i) && Rules(f)[i].message == r.error
    ensures r.Success? ==> fresh(r.value) && r.value.fields == f && r.value.totalCommission == 0.0
                           && r.value.Valid()
  {
    var outcome := Validate(f);
    if outcome.Fail? {
      ReportsFirstBrokenRule(f, outcome.message);
      r := Failure(outcome.message);
    } else {
      var rec := new RealEstateRecord(f);
      r := Success(rec);
    }
  }
}
