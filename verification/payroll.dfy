/**
 * Employee payroll: the constructor chain Entity > Company > Department >
 * Manager > Employee > Attendance > Allowance > Deduction > Salary >
 * PayrollRecord, and the three totals `calculateNetSalary` derives.
 */
module Payroll {
  import opened Outcomes
  import opened Validators
  import opened SharedStages

  /** The arguments of `new PayrollRecord(...)`, in order; the record stores each of them. */
  datatype Fields = Fields(
    id: int, createdDate: string, updatedDate: string,
    companyName: string, address: string, phoneNumber: string, email: string,
    departmentName: string, departmentCode: string,
    managerName: string, managerEmail: string, phone: string, yearsOfExperience: int,
    employeeName: string, designation: string, employeeEmail: string, employeePhone: string,
    totalDays: int, presentDays: int, absentDays: int,
    houseRentAllowance: real, transportAllowance: real,
    tax: real, providentFund: real,
    basicSalary: real)

  // The messages the constructors throw, verbatim.
  const DepartmentCodeInvalid: string := "Department code must be alphanumeric and at least 3 characters"
  const ManagerEmailInvalid: string := "Invalid manager email format"
  const ManagerPhoneInvalid: string := "Manager phone must be exactly 10 digits"
  const ExperienceNegative: string := "Years of experience must be >= 0"
  const DesignationBlank: string := "Designation cannot be empty"
  const EmployeeEmailInvalid: string := "Invalid employee email format"
  const EmployeePhoneInvalid: string := "Employee phone must be exactly 10 digits"
  const TotalDaysNotPositive: string := "Total days must be > 0"
  const PresentDaysNegative: string := "Present days must be >= 0"
  const AbsentDaysNegative: string := "Absent days must be >= 0"
  const DaysDoNotAddUp: string := "Present + Absent days must equal Total days"
  const HraNegative: string := "HRA must be >= 0"
  const TransportAllowanceNegative: string := "Transport allowance must be >= 0"
  const TaxNegative: string := "Tax must be >= 0"
  const ProvidentFundNegative: string := "Provident fund must be >= 0"
  const BasicSalaryNotPositive: string := "Basic salary must be > 0"

  function DepartmentChecks(departmentCode: string): Outcome
  {
    if !IsCode(departmentCode) then Fail(DepartmentCodeInvalid) else Pass
  }

  function DepartmentRules(departmentCode: string): seq<Rule>
  {
    [Rule(IsCode(departmentCode), DepartmentCodeInvalid)]
  }

  function ManagerChecks(managerEmail: string, phone: string, yearsOfExperience: int): Outcome
  {
    if !IsEmail(managerEmail) then Fail(ManagerEmailInvalid)
    else if !IsTenDigits(phone) then Fail(ManagerPhoneInvalid)
    else if yearsOfExperience < 0 then Fail(ExperienceNegative)
    else Pass
  }

  function ManagerRules(managerEmail: string, phone: string, yearsOfExperience: int): seq<Rule>
  {
    [Rule(IsEmail(managerEmail), ManagerEmailInvalid), Rule(IsTenDigits(phone), ManagerPhoneInvalid),
     Rule(yearsOfExperience >= 0, ExperienceNegative)]
  }

  function EmployeeChecks(designation: string, employeeEmail: string, employeePhone: string): Outcome
  {
    if IsBlank(designation) then Fail(DesignationBlank)
    else if !IsEmail(employeeEmail) then Fail(EmployeeEmailInvalid)
    else if !IsTenDigits(employeePhone) then Fail(EmployeePhoneInvalid)
    else Pass
  }

  function EmployeeRules(designation: string, employeeEmail: string, employeePhone: string): seq<Rule>
  {
    [Rule(!IsBlank(designation), DesignationBlank), Rule(IsEmail(employeeEmail), EmployeeEmailInvalid),
     Rule(IsTenDigits(employeePhone), EmployeePhoneInvalid)]
  }

  /** Java `int` addition cannot wrap here: two non-negative sums that wrap are negative, never `totalDays > 0`. */
  function AttendanceChecks(totalDays: int, presentDays: int, absentDays: int): Outcome
  {
    if totalDays <= 0 then Fail(TotalDaysNotPositive)
    else if presentDays < 0 then Fail(PresentDaysNegative)
    else if absentDays < 0 then Fail(AbsentDaysNegative)
    else if presentDays + absentDays != totalDays then Fail(DaysDoNotAddUp)
    else Pass
  }

  function AttendanceRules(totalDays: int, presentDays: int, absentDays: int): seq<Rule>
  {
    [Rule(totalDays > 0, TotalDaysNotPositive), Rule(presentDays >= 0, PresentDaysNegative),
     Rule(absentDays >= 0, AbsentDaysNegative), Rule(presentDays + absentDays == totalDays, DaysDoNotAddUp)]
  }

  function AllowanceChecks(houseRentAllowance: real, transportAllowance: real): Outcome
  {
    if houseRentAllowance < 0.0 then Fail(HraNegative)
    else if transportAllowance < 0.0 then Fail(TransportAllowanceNegative)
    else Pass
  }

  function AllowanceRules(houseRentAllowance: real, transportAllowance: real): seq<Rule>
  {
    [Rule(houseRentAllowance >= 0.0, HraNegative),
     Rule(transportAllowance >= 0.0, TransportAllowanceNegative)]
  }

  function DeductionChecks(tax: real, providentFund: real): Outcome
  {
    if tax < 0.0 then Fail(TaxNegative)
    else if providentFund < 0.0 then Fail(ProvidentFundNegative)
    else Pass
  }

  function DeductionRules(tax: real, providentFund: real): seq<Rule>
  {
    [Rule(tax >= 0.0, TaxNegative), Rule(providentFund >= 0.0, ProvidentFundNegative)]
  }

  function SalaryChecks(basicSalary: real): Outcome
  {
    if basicSalary <= 0.0 then Fail(BasicSalaryNotPositive) else Pass
  }

  function SalaryRules(basicSalary: real): seq<Rule>
  {
    [Rule(basicSalary > 0.0, BasicSalaryNotPositive)]
  }

  /** Every check of `new PayrollRecord(...)` as one list, in execution order: superclass constructors first. */
  function Rules(f: Fields): seq<Rule>
  {
    EntityRules(f.id, f.createdDate, f.updatedDate) + OrganisationRules(f.phoneNumber, f.email)
    + DepartmentRules(f.departmentCode) + ManagerRules(f.managerEmail, f.phone, f.yearsOfExperience)
    + EmployeeRules(f.designation, f.employeeEmail, f.employeePhone)
    + AttendanceRules(f.totalDays, f.presentDays, f.absentDays)
    + AllowanceRules(f.houseRentAllowance, f.transportAllowance) + DeductionRules(f.tax, f.providentFund)
    + SalaryRules(f.basicSalary)
  }

  /** Every rule of every constructor, as one conjunction. */
  predicate AllRulesHold(f: Fields)
  {
    && f.id > 0 && !IsBlank(f.createdDate) && !IsBlank(f.updatedDate)
    && IsTenDigits(f.phoneNumber) && IsEmail(f.email)
    && IsCode(f.departmentCode)
    && IsEmail(f.managerEmail) && IsTenDigits(f.phone) && f.yearsOfExperience >= 0
    && !IsBlank(f.designation) && IsEmail(f.employeeEmail) && IsTenDigits(f.employeePhone)
    && f.totalDays > 0 && f.presentDays >= 0 && f.absentDays >= 0
    && f.presentDays + f.absentDays == f.totalDays
    && f.houseRentAllowance >= 0.0 && f.transportAllowance >= 0.0
    && f.tax >= 0.0 && f.providentFund >= 0.0
    && f.basicSalary > 0.0
  }

  /**
   * The constructor chain of `new PayrollRecord(...)`: each constructor runs
   * its superclass's checks, then its own; the first failure is thrown.
   */
  function Validate(f: Fields): (r: Outcome)
    ensures r.Pass? <==> AllRulesHold(f)
  {
    var entity := EntityChecks(f.id, f.createdDate, f.updatedDate);  // the base class `Entity` first
    :- entity;
    :- OrganisationChecks(f.phoneNumber, f.email);
    :- DepartmentChecks(f.departmentCode);
    :- ManagerChecks(f.managerEmail, f.phone, f.yearsOfExperience);
    :- EmployeeChecks(f.designation, f.employeeEmail, f.employeePhone);
    :- AttendanceChecks(f.totalDays, f.presentDays, f.absentDays);
    :- AllowanceChecks(f.houseRentAllowance, f.transportAllowance);
    :- DeductionChecks(f.tax, f.providentFund);
    SalaryChecks(f.basicSalary)
  }

  /**
   * The chain reports the first failing check: `Validate` runs the list
   * `Rules(f)` top to bottom, so it throws `m` exactly when `m` is the
   * message of the earliest rule that does not hold.
   */
  lemma ReportsFirstBrokenRule(f: Fields, m: string)
    ensures Validate(f) == FirstFailing(Rules(f))
    ensures Validate(f) == Fail(m) <==> exists i :: FailsFirstAt(Rules(f), i) && Rules(f)[i].message == m
  {
    var s1 := EntityRules(f.id, f.createdDate, f.updatedDate);
    assert EntityChecks(f.id, f.createdDate, f.updatedDate) == FirstFailing(s1) by { FirstFailingOfFew(s1); }
    var s2 := OrganisationRules(f.phoneNumber, f.email);
    assert OrganisationChecks(f.phoneNumber, f.email) == FirstFailing(s2) by { FirstFailingOfFew(s2); }
    var s3 := DepartmentRules(f.departmentCode);
    assert DepartmentChecks(f.departmentCode) == FirstFailing(s3) by { FirstFailingOfFew(s3); }
    var s4 := ManagerRules(f.managerEmail, f.phone, f.yearsOfExperience);
    assert ManagerChecks(f.managerEmail, f.phone, f.yearsOfExperience) == FirstFailing(s4)
      by { FirstFailingOfFew(s4); }
    var s5 := EmployeeRules(f.designation, f.employeeEmail, f.employeePhone);
    assert EmployeeChecks(f.designation, f.employeeEmail, f.employeePhone) == FirstFailing(s5)
      by { FirstFailingOfFew(s5); }
    var s6 := AttendanceRules(f.totalDays, f.presentDays, f.absentDays);
    assert AttendanceChecks(f.totalDays, f.presentDays, f.absentDays) == FirstFailing(s6)
      by { FirstFailingOfFew(s6); }
    var s7 := AllowanceRules(f.houseRentAllowance, f.transportAllowance);
    assert AllowanceChecks(f.houseRentAllowance, f.transportAllowance) == FirstFailing(s7)
      by { FirstFailingOfFew(s7); }
    var s8 := DeductionRules(f.tax, f.providentFund);
    assert DeductionChecks(f.tax, f.providentFund) == FirstFailing(s8) by { FirstFailingOfFew(s8); }
    var s9 := SalaryRules(f.basicSalary);
    assert SalaryChecks(f.basicSalary) == FirstFailing(s9) by { FirstFailingOfFew(s9); }
    var p2 := s1 + s2; FirstFailingAppend(s1, s2);
    var p3 := p2 + s3; FirstFailingAppend(p2, s3);
    var p4 := p3 + s4; FirstFailingAppend(p3, s4);
    var p5 := p4 + s5; FirstFailingAppend(p4, s5);
    var p6 := p5 + s6; FirstFailingAppend(p5, s6);
    var p7 := p6 + s7; FirstFailingAppend(p6, s7);
    var p8 := p7 + s8; FirstFailingAppend(p7, s8);
    var p9 := p8 + s9; FirstFailingAppend(p8, s9);
    assert Rules(f) == p9;
    FirstFailingMeans(p9, m);
  }

  /** The sign checks on the day counts run before the sum is compared. */
  lemma SignChecksBeforeSum(f: Fields)
    requires AllRulesHold(f)
    ensures Validate(f.(totalDays := 10, presentDays := -1, absentDays := 11)) == Fail(PresentDaysNegative)
  {
  }

  /** On a constructed record neither day count exceeds the total. */
  lemma DaysWithinTotal(f: Fields)
    requires Validate(f).Pass?
    ensures f.presentDays <= f.totalDays && f.absentDays <= f.totalDays
  {
  }

  /** Every argument that no constructor checks is stored as given: none of them changes the outcome. */
  lemma UncheckedFieldsIrrelevant(f: Fields, companyName: string, address: string, departmentName: string,
                                  managerName: string, employeeName: string)
    ensures Validate(f.(companyName := companyName, address := address, departmentName := departmentName,
                        managerName := managerName, employeeName := employeeName))
         == Validate(f)
  {
  }

  /** The allowance total `calculateNetSalary` stores first. */
  function TotalAllowance(f: Fields): (total: real)
    ensures AllRulesHold(f) ==> total >= f.houseRentAllowance && total >= f.transportAllowance
  {
    f.houseRentAllowance + f.transportAllowance
  }

  /** The deduction total `calculateNetSalary` stores second. */
  function TotalDeduction(f: Fields): (total: real)
    ensures AllRulesHold(f) ==> total >= f.tax && total >= f.providentFund
  {
    f.tax + f.providentFund
  }

  /** The net salary `calculateNetSalary` stores last and returns. */
  function NetSalary(f: Fields): (net: real)
    ensures AllRulesHold(f) ==> f.basicSalary - TotalDeduction(f) <= net <= f.basicSalary + TotalAllowance(f)
  {
    f.basicSalary + TotalAllowance(f) - TotalDeduction(f)
  }

  /**
   * The net salary has no lower bound: raising the tax of any constructed
   * record past its pay gives another constructed record with a negative net.
   */
  lemma NetSalaryCanBeNegative(f: Fields)
    requires AllRulesHold(f)
    ensures var g := f.(tax := f.basicSalary + TotalAllowance(f) + 1.0);
            AllRulesHold(g) && NetSalary(g) < 0.0
  {
  }

  /** `PayrollRecord`: the checked arguments and the three derived totals. */
  class PayrollRecord {
    const fields: Fields
    var totalAllowance: real
    var totalDeduction: real
    var netSalary: real

    /** The rules hold, and the totals are either all not yet computed or all correct. */
    ghost predicate Valid()
      reads this
    {
      && AllRulesHold(fields)
      && ((totalAllowance == 0.0 && totalDeduction == 0.0 && netSalary == 0.0)
          || (totalAllowance == TotalAllowance(fields) && totalDeduction == TotalDeduction(fields)
              && netSalary == NetSalary(fields)))
    }

    /** The `Allowance`, `Deduction` and `Salary` constructors each set their total to 0. */
    constructor (f: Fields)
      requires AllRulesHold(f)
      ensures fields == f && totalAllowance == 0.0 && totalDeduction == 0.0 && netSalary == 0.0
      ensures Valid()
    {
      fields := f;
      totalAllowance := 0.0;
      totalDeduction := 0.0;
      netSalary := 0.0;
    }

    /** `calculateNetSalary()`: stores the allowances, then the deductions, then the net, and returns the net. */
    method CalculateNetSalary() returns (net: real)
      requires Valid()
      modifies this`totalAllowance, this`totalDeduction, this`netSalary
      ensures totalAllowance == TotalAllowance(fields) && totalAllowance >= 0.0
      ensures totalDeduction == TotalDeduction(fields) && totalDeduction >= 0.0
      ensures net == NetSalary(fields) && netSalary == net
      ensures net == fields.basicSalary + totalAllowance - totalDeduction
      ensures Valid()
    {
      var allowances := fields.houseRentAllowance + fields.transportAllowance;
      totalAllowance := allowances;
      var deductions := fields.tax + fields.providentFund;
      totalDeduction := deductions;
      net := fields.basicSalary + allowances - deductions;
      netSalary := net;
    }
  }

  /** `new PayrollRecord(...)`: the first failing check's message, or a fresh record with all totals 0. */
  method NewPayrollRecord(f: Fields) returns (r: Result<PayrollRecord>)
    ensures r.Failure? <==> !AllRulesHold(f)
    ensures r.Failure? ==> Validate(f) == Fail(r.error)
    ensures r.Failure? ==> exists i :: FailsFirstAt(Rules(f), i) && Rules(f)[i].message == r.error
    ensures r.Success? ==> fresh(r.value) && r.value.fields == f && r.value.Valid()
    ensures r.Success? ==> r.value.totalAllowance == 0.0 && r.value.totalDeduction == 0.0
                           && r.value.netSalary == 0.0
  {
    var outcome := Validate(f);
    if outcome.Fail? {
      ReportsFirstBrokenRule(f, outcome.message);
      r := Failure(outcome.message);
    } else {
      var rec := new PayrollRecord(f);
      r := Success(rec);
    }
  }
}
