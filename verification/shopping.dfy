/**
 * Online shopping: the constructor chain ShoppingEntity > Store > Category >
 * Product > ShoppingCustomer > Order > ShoppingPayment > Shipping >
 * ShoppingInvoice > OrderRecord, and the total `calculateTotalAmount` derives.
 */
module Shopping {
  import opened Outcomes
  import opened Validators
  import opened SharedStages

  /** The arguments of `new OrderRecord(...)`, in order; the record stores each of them. */
  datatype Fields = Fields(
    id: int, createdDate: string, updatedDate: string,
    storeName: string, address: string, phoneNumber: string, email: string,
    categoryName: string, categoryCode: string,
    productName: string, brand: string, productEmail: string, phone: string,
    customerName: string, customerType: string, yearsOfMembership: int,
    orderNumber: string, quantity: int, orderStatus: string, contactNumber: string,
    paymentMethod: string, transactionId: string, price: real,
    shippingAddress: string, carrier: string, shippingCost: real,
    taxAmount: real, discount: real)

  // The messages the constructors throw, verbatim.
  const CategoryCodeInvalid: string := "Category code must be alphanumeric and at least 3 characters"
  const BrandBlank: string := "Brand cannot be empty"
  const ProductEmailInvalid: string := "Invalid product email format"
  const ProductPhoneInvalid: string := "Product phone must be exactly 10 digits"
  const CustomerTypeInvalid: string := "Customer type must be 'Regular' or 'Premium'"
  const MembershipYearsNegative: string := "Years of membership must be >= 0"
  const QuantityNotPositive: string := "Quantity must be > 0"
  const OrderStatusInvalid: string := "Order status must be 'Processing', 'Shipped', or 'Delivered'"
  const PriceNotPositive: string := "Price must be > 0"
  const PaymentMethodBlank: string := "Payment method cannot be empty"
  const TransactionIdBlank: string := "Transaction ID cannot be empty"
  const ShippingAddressBlank: string := "Shipping address cannot be null"
  const ShippingCostNegative: string := "Shipping cost must be >= 0"
  const TaxAmountNegative: string := "Tax amount must be >= 0"
  const DiscountNegative: string := "Discount must be >= 0"

  /** Exact, case-sensitive `equals` against the two literals. */
  predicate IsCustomerType(s: string)
  {
    s == "Regular" || s == "Premium"
  }

  /** Exact, case-sensitive `equals` against the three literals. */
  predicate IsOrderStatus(s: string)
  {
    s == "Processing" || s == "Shipped" || s == "Delivered"
  }

  function CategoryChecks(categoryCode: string): Outcome
  {
    if !IsCode(categoryCode) then Fail(CategoryCodeInvalid) else Pass
  }

  function CategoryRules(categoryCode: string): seq<Rule>
  {
    [Rule(IsCode(categoryCode), CategoryCodeInvalid)]
  }

  function ProductChecks(brand: string, productEmail: string, phone: string): Outcome
  {
    if IsBlank(brand) then Fail(BrandBlank)
    else if !IsEmail(productEmail) then Fail(ProductEmailInvalid)
    else if !IsTenDigits(phone) then Fail(ProductPhoneInvalid)
    else Pass
  }

  function ProductRules(brand: string, productEmail: string, phone: string): seq<Rule>
  {
    [Rule(!IsBlank(brand), BrandBlank), Rule(IsEmail(productEmail), ProductEmailInvalid),
     Rule(IsTenDigits(phone), ProductPhoneInvalid)]
  }

  function ShoppingCustomerChecks(customerType: string, yearsOfMembership: int): Outcome
  {
    if !IsCustomerType(customerType) then Fail(CustomerTypeInvalid)
    else if yearsOfMembership < 0 then Fail(MembershipYearsNegative)
    else Pass
  }

  function ShoppingCustomerRules(customerType: string, yearsOfMembership: int): seq<Rule>
  {
    [Rule(IsCustomerType(customerType), CustomerTypeInvalid),
     Rule(yearsOfMembership >= 0, MembershipYearsNegative)]
  }

  function OrderChecks(quantity: int, orderStatus: string): Outcome
  {
    if quantity <= 0 then Fail(QuantityNotPositive)
    else if !IsOrderStatus(orderStatus) then Fail(OrderStatusInvalid)
    else Pass
  }

  function OrderRules(quantity: int, orderStatus: string): seq<Rule>
  {
    [Rule(quantity > 0, QuantityNotPositive), Rule(IsOrderStatus(orderStatus), OrderStatusInvalid)]
  }

  function ShoppingPaymentChecks(paymentMethod: string, transactionId: string, price: real): Outcome
  {
    if price <= 0.0 then Fail(PriceNotPositive)
    else if IsBlank(paymentMethod) then Fail(PaymentMethodBlank)
    else if IsBlank(transactionId) then Fail(TransactionIdBlank)
    else Pass
  }

  function ShoppingPaymentRules(paymentMethod: string, transactionId: string, price: real): seq<Rule>
  {
    [Rule(price > 0.0, PriceNotPositive), Rule(!IsBlank(paymentMethod), PaymentMethodBlank),
     Rule(!IsBlank(transactionId), TransactionIdBlank)]
  }

  function ShippingChecks(shippingAddress: string, shippingCost: real): Outcome
  {
    if IsBlank(shippingAddress) then Fail(ShippingAddressBlank)
    else if shippingCost < 0.0 then Fail(ShippingCostNegative)
    else Pass
  }

  function ShippingRules(shippingAddress: string, shippingCost: real): seq<Rule>
  {
    [Rule(!IsBlank(shippingAddress), ShippingAddressBlank), Rule(shippingCost >= 0.0, ShippingCostNegative)]
  }

  function ShoppingInvoiceChecks(taxAmount: real, discount: real): Outcome
  {
    if taxAmount < 0.0 then Fail(TaxAmountNegative)
    else if discount < 0.0 then Fail(DiscountNegative)
    else Pass
  }

  function ShoppingInvoiceRules(taxAmount: real, discount: real): seq<Rule>
  {
    [Rule(taxAmount >= 0.0, TaxAmountNegative), Rule(discount >= 0.0, DiscountNegative)]
  }

  /** Every check of `new OrderRecord(...)` as one list, in execution order: superclass constructors first. */
  function Rules(f: Fields): seq<Rule>
  {
    EntityRules(f.id, f.createdDate, f.updatedDate) + OrganisationRules(f.phoneNumber, f.email)
    + CategoryRules(f.categoryCode) + ProductRules(f.brand, f.productEmail, f.phone)
    + ShoppingCustomerRules(f.customerType, f.yearsOfMembership) + OrderRules(f.quantity, f.orderStatus)
    + ShoppingPaymentRules(f.paymentMethod, f.transactionId, f.price)
    + ShippingRules(f.shippingAddress, f.shippingCost) + ShoppingInvoiceRules(f.taxAmount, f.discount)
  }

  /** Every rule of every constructor, as one conjunction. */
  predicate AllRulesHold(f: Fields)
  {
    && f.id > 0 && !IsBlank(f.createdDate) && !IsBlank(f.updatedDate)
    && IsTenDigits(f.phoneNumber) && IsEmail(f.email)
    && IsCode(f.categoryCode)
    && !IsBlank(f.brand) && IsEmail(f.productEmail) && IsTenDigits(f.phone)
    && IsCustomerType(f.customerType) && f.yearsOfMembership >= 0
    && f.quantity > 0 && IsOrderStatus(f.orderStatus)
    && f.price > 0.0 && !IsBlank(f.paymentMethod) && !IsBlank(f.transactionId)
    && !IsBlank(f.shippingAddress) && f.shippingCost >= 0.0
    && f.taxAmount >= 0.0 && f.discount >= 0.0
  }

  /**
   * The constructor chain of `new OrderRecord(...)`: each constructor runs its
   * superclass's checks, then its own; the first failure is thrown.
   */
  function Validate(f: Fields): (r: Outcome)
    ensures r.Pass? <==> AllRulesHold(f)
  {
    var entity := EntityChecks(f.id, f.createdDate, f.updatedDate);  // the base class `Entity` first
    :- entity;
    :- OrganisationChecks(f.phoneNumber, f.email);
    :- CategoryChecks(f.categoryCode);
    :- ProductChecks(f.brand, f.productEmail, f.phone);
    :- ShoppingCustomerChecks(f.customerType, f.yearsOfMembership);
    :- OrderChecks(f.quantity, f.orderStatus);
    :- ShoppingPaymentChecks(f.paymentMethod, f.transactionId, f.price);
    :- ShippingChecks(f.shippingAddress, f.shippingCost);
    ShoppingInvoiceChecks(f.taxAmount, f.discount)
  }

  /**
   * The chain reports the first failing check: `Validate` runs the list
   * `Rules(f)` top to bottom, so it throws `m` exactly when `m` is the
   * message of the earliest rule that does not hold.
   */
  lemma ReportsFirstBrokenRule(f: Fields, m: string)
    ensures Validate(f) == FirstFailing(Rules(f))
    ensures Validate(f) == Fail(m) <==> exists i :: FailsFirstAt(Rules(f), i) && Rules(f)[i].message == m
  {
    var s1 := EntityRules(f.id, f.createdDate, f.updatedDate);
    assert EntityChecks(f.id, f.createdDate, f.updatedDate) == FirstFailing(s1) by { FirstFailingOfFew(s1); }
    var s2 := OrganisationRules(f.phoneNumber, f.email);
    assert OrganisationChecks(f.phoneNumber, f.email) == FirstFailing(s2) by { FirstFailingOfFew(s2); }
    var s3 := CategoryRules(f.categoryCode);
    assert CategoryChecks(f.categoryCode) == FirstFailing(s3) by { FirstFailingOfFew(s3); }
    var s4 := ProductRules(f.brand, f.productEmail, f.phone);
    assert ProductChecks(f.brand, f.productEmail, f.phone) == FirstFailing(s4) by { FirstFailingOfFew(s4); }
    var s5 := ShoppingCustomerRules(f.customerType, f.yearsOfMembership);
    assert ShoppingCustomerChecks(f.customerType, f.yearsOfMembership) == FirstFailing(s5)
      by { FirstFailingOfFew(s5); }
    var s6 := OrderRules(f.quantity, f.orderStatus);
    assert OrderChecks(f.quantity, f.orderStatus) == FirstFailing(s6) by { FirstFailingOfFew(s6); }
    var s7 := ShoppingPaymentRules(f.paymentMethod, f.transactionId, f.price);
    assert ShoppingPaymentChecks(f.paymentMethod, f.transactionId, f.price) == FirstFailing(s7)
      by { FirstFailingOfFew(s7); }
    var s8 := ShippingRules(f.shippingAddress, f.shippingCost);
    assert ShippingChecks(f.shippingAddress, f.shippingCost) == FirstFailing(s8) by { FirstFailingOfFew(s8); }
    var s9 := ShoppingInvoiceRules(f.taxAmount, f.discount);
    assert ShoppingInvoiceChecks(f.taxAmount, f.discount) == FirstFailing(s9) by { FirstFailingOfFew(s9); }
    var p2 := s1 + s2; FirstFailingAppend(s1, s2);
    var p3 := p2 + s3; FirstFailingAppend(p2, s3);
    var p4 := p3 + s4; FirstFailingAppend(p3, s4);
    var p5 := p4 + s5; FirstFailingAppend(p4, s5);
    var p6 := p5 + s6; FirstFailingAppend(p5, s6);
    var p7 := p6 + s7; FirstFailingAppend(p6, s7);
    var p8 := p7 + s8; FirstFailingAppend(p7, s8);
    var p9 := p8 + s9; FirstFailingAppend(p8, s9);
    assert Rules(f) == p9;
    FirstFailingMeans(p9, m);
  }

  /** A zero quantity is reported whatever the discount is. */
  lemma QuantityBeforeDiscount(f: Fields, discount: real)
    requires AllRulesHold(f)
    ensures Validate(f.(quantity := 0, discount := discount)) == Fail(QuantityNotPositive)
  {
  }

  /** Every argument that no constructor checks is stored as given: none of them changes the outcome. */
  lemma UncheckedFieldsIrrelevant(f: Fields, storeName: string, address: string, categoryName: string,
                                  productName: string, customerName: string, orderNumber: string,
                                  contactNumber: string, carrier: string)
    ensures Validate(f.(storeName := storeName, address := address, categoryName := categoryName,
                        productName := productName, customerName := customerName,
                        orderNumber := orderNumber, contactNumber := contactNumber, carrier := carrier))
         == Validate(f)
  {
  }

  /** The total `calculateTotalAmount` computes; on a constructed record it is positive and covers the price. */
  function TotalAmount(f: Fields): (total: real)
    ensures AllRulesHold(f) ==> total > 0.0 && total >= f.price
  {
    f.price + f.shippingCost
  }

  /** The tax amount, the discount and the quantity never enter the total. */
  lemma TotalAmountIgnoresTaxDiscountAndQuantity(f: Fields, taxAmount: real, discount: real, quantity: int)
    ensures TotalAmount(f.(taxAmount := taxAmount, discount := discount, quantity := quantity))
         == TotalAmount(f)
  {
  }

  /** `OrderRecord`: the checked arguments, and the total derived from them. */
  class OrderRecord {
    const fields: Fields
    var totalAmount: real

    /** The rules hold, and the total is either not yet computed or correct. */
    ghost predicate Valid()
      reads this
    {
      AllRulesHold(fields) && (totalAmount == 0.0 || totalAmount == TotalAmount(fields))
    }

    /** The `ShoppingInvoice` constructor's `this.totalAmount = 0`. */
    constructor (f: Fields)
      requires AllRulesHold(f)
      ensures fields == f && totalAmount == 0.0 && Valid()
    {
      fields := f;
      totalAmount := 0.0;
    }

    /** `calculateTotalAmount()`: stores the total and returns it. */
    method CalculateTotalAmount() returns (total: real)
      requires Valid()
      modifies this`totalAmount
      ensures total == TotalAmount(fields) && totalAmount == total
      ensures total > 0.0 && total >= fields.price
      ensures Valid()
    {
      total := fields.price + fields.shippingCost;
      totalAmount := total;
    }
  }

  /** `new OrderRecord(...)`: the first failing check's message, or a fresh record with totalAmount 0. */
  method NewOrderRecord(f: Fields) returns (r: Result<OrderRecord>)
    ensures r.Failure? <==> !AllRulesHold(f)
    ensures r.Failure? ==> Validate(f) == Fail(r.error)
    ensures r.Failure? ==> exists i :: FailsFirstAt(Rules(f), i) && Rules(f)[i].message == r.error
    ensures r.Success? ==> fresh(r.value) && r.value.fields == f && r.value.totalAmount == 0.0 && r.value.Valid()
  {
    var outcome := Validate(f);
    if outcome.Fail? {
      ReportsFirstBrokenRule(f, outcome.message);
      r := Failure(outcome.message);
    } else {
      var rec := new OrderRecord(f);
      r := Success(rec);
    }
  }
}
