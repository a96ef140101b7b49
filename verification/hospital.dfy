/**
 * Hospital management: the constructor chain Entity > Hospital > Department >
 * Doctor > Nurse > Patient > Admission > Treatment > Bill > HospitalRecord,
 * and the bill that `generateBill` derives from a constructed record.
 */
module Hospital {
  import opened Outcomes
  import opened Validators
  import opened SharedStages

  /** The arguments of `new HospitalRecord(...)`, in order; the record stores each of them. */
  datatype Fields = Fields(
    id: int, createdDate: string, updatedDate: string,
    hospitalName: string, address: string, phoneNumber: string, email: string,
    departmentName: string, departmentCode: string,
    doctorName: string, specialization: string, doctorEmail: string, phone: string,
    nurseName: string, shift: string, yearsOfExperience: int,
    patientName: string, age: int, gender: string, contactNumber: string,
    admissionDate: string, roomNumber: int, roomCharges: real,
    diagnosis: string, treatmentGiven: string, treatmentCost: real,
    doctorFee: real, medicineCost: real)

  // The messages the constructors throw, verbatim.
  const DepartmentCodeInvalid: string := "Department code must be alphanumeric and at least 3 characters"
  const SpecializationBlank: string := "Specialization cannot be empty"
  const DoctorEmailInvalid: string := "Invalid doctor email format"
  const DoctorPhoneInvalid: string := "Doctor phone must be exactly 10 digits"
  const ShiftInvalid: string := "Shift must be 'Day' or 'Night'"
  const ExperienceNegative: string := "Years of experience must be >= 0"
  const AgeNotPositive: string := "Age must be > 0"
  const GenderInvalid: string := "Gender must be 'Male', 'Female', or 'Other'"
  const AdmissionDateBlank: string := "Admission date cannot be null"
  const RoomChargesNotPositive: string := "Room charges must be > 0"
  const TreatmentCostNotPositive: string := "Treatment cost must be > 0"
  const DiagnosisBlank: string := "Diagnosis cannot be empty"
  const TreatmentGivenBlank: string := "Treatment given cannot be empty"
  const DoctorFeeNotPositive: string := "Doctor fee must be > 0"
  const MedicineCostNotPositive: string := "Medicine cost must be > 0"

  /** Exact, case-sensitive `equals` against the two literals. */
  predicate IsShift(s: string)
  {
    s == "Day" || s == "Night"
  }

  /** Exact, case-sensitive `equals` against the three literals. */
  predicate IsGender(s: string)
  {
    s == "Male" || s == "Female" || s == "Other"
  }

  function DepartmentChecks(departmentCode: string): Outcome
  {
    if !IsCode(departmentCode) then Fail(DepartmentCodeInvalid) else Pass
  }

  function DepartmentRules(departmentCode: string): seq<Rule>
  {
    [Rule(IsCode(departmentCode), DepartmentCodeInvalid)]
  }

  function DoctorChecks(specialization: string, doctorEmail: string, phone: string): Outcome
  {
    if IsBlank(specialization) then Fail(SpecializationBlank)
    else if !IsEmail(doctorEmail) then Fail(DoctorEmailInvalid)
    else if !IsTenDigits(phone) then Fail(DoctorPhoneInvalid)
    else Pass
  }

  function DoctorRules(specialization: string, doctorEmail: string, phone: string): seq<Rule>
  {
    [Rule(!IsBlank(specialization), SpecializationBlank), Rule(IsEmail(doctorEmail), DoctorEmailInvalid),
     Rule(IsTenDigits(phone), DoctorPhoneInvalid)]
  }

  function NurseChecks(shift: string, yearsOfExperience: int): Outcome
  {
    if !IsShift(shift) then Fail(ShiftInvalid)
    else if yearsOfExperience < 0 then Fail(ExperienceNegative)
    else Pass
  }

  function NurseRules(shift: string, yearsOfExperience: int): seq<Rule>
  {
    [Rule(IsShift(shift), ShiftInvalid), Rule(yearsOfExperience >= 0, ExperienceNegative)]
  }

  function PatientChecks(age: int, gender: string): Outcome
  {
    if age <= 0 then Fail(AgeNotPositive)
    else if !IsGender(gender) then Fail(GenderInvalid)
    else Pass
  }

  function PatientRules(age: int, gender: string): seq<Rule>
  {
    [Rule(age > 0, AgeNotPositive), Rule(IsGender(gender), GenderInvalid)]
  }

  function AdmissionChecks(admissionDate: string, roomCharges: real): Outcome
  {
    if IsBlank(admissionDate) then Fail(AdmissionDateBlank)
    else if roomCharges <= 0.0 then Fail(RoomChargesNotPositive)
    else Pass
  }

  function AdmissionRules(admissionDate: string, roomCharges: real): seq<Rule>
  {
    [Rule(!IsBlank(admissionDate), AdmissionDateBlank), Rule(roomCharges > 0.0, RoomChargesNotPositive)]
  }

  function TreatmentChecks(diagnosis: string, treatmentGiven: string, treatmentCost: real): Outcome
  {
    if treatmentCost <= 0.0 then Fail(TreatmentCostNotPositive)
    else if IsBlank(diagnosis) then Fail(DiagnosisBlank)
    else if IsBlank(treatmentGiven) then Fail(TreatmentGivenBlank)
    else Pass
  }

  function TreatmentRules(diagnosis: string, treatmentGiven: string, treatmentCost: real): seq<Rule>
  {
    [Rule(treatmentCost > 0.0, TreatmentCostNotPositive), Rule(!IsBlank(diagnosis), DiagnosisBlank),
     Rule(!IsBlank(treatmentGiven), TreatmentGivenBlank)]
  }

  function BillChecks(doctorFee: real, medicineCost: real): Outcome
  {
    if doctorFee <= 0.0 then Fail(DoctorFeeNotPositive)
    else if medicineCost <= 0.0 then Fail(MedicineCostNotPositive)
    else Pass
  }

  function BillRules(doctorFee: real, medicineCost: real): seq<Rule>
  {
    [Rule(doctorFee > 0.0, DoctorFeeNotPositive), Rule(medicineCost > 0.0, MedicineCostNotPositive)]
  }

  /** Every check of `new HospitalRecord(...)` as one list, in execution order: superclass constructors first. */
  function Rules(f: Fields): seq<Rule>
  {
    EntityRules(f.id, f.createdDate, f.updatedDate) + OrganisationRules(f.phoneNumber, f.email)
    + DepartmentRules(f.departmentCode) + DoctorRules(f.specialization, f.doctorEmail, f.phone)
    + NurseRules(f.shift, f.yearsOfExperience) + PatientRules(f.age, f.gender)
    + AdmissionRules(f.admissionDate, f.roomCharges)
    + TreatmentRules(f.diagnosis, f.treatmentGiven, f.treatmentCost) + BillRules(f.doctorFee, f.medicineCost)
  }

  /** Every rule of every constructor, as one conjunction. */
  predicate AllRulesHold(f: Fields)
  {
    && f.id > 0 && !IsBlank(f.createdDate) && !IsBlank(f.updatedDate)
    && IsTenDigits(f.phoneNumber) && IsEmail(f.email)
    && IsCode(f.departmentCode)
    && !IsBlank(f.specialization) && IsEmail(f.doctorEmail) && IsTenDigits(f.phone)
    && IsShift(f.shift) && f.yearsOfExperience >= 0
    && f.age > 0 && IsGender(f.gender)
    && !IsBlank(f.admissionDate) && f.roomCharges > 0.0
    && f.treatmentCost > 0.0 && !IsBlank(f.diagnosis) && !IsBlank(f.treatmentGiven)
    && f.doctorFee > 0.0 && f.medicineCost > 0.0
  }

  /**
   * The constructor chain of `new HospitalRecord(...)`: each constructor runs
   * its superclass's checks, then its own; the first failure is thrown.
   */
  function Validate(f: Fields): (r: Outcome)
    ensures r.Pass? <==> AllRulesHold(f)
  {
    var entity := EntityChecks(f.id, f.createdDate, f.updatedDate);  // the base class `Entity` first
    :- entity;
    :- OrganisationChecks(f.phoneNumber, f.email);
    :- DepartmentChecks(f.departmentCode);
    :- DoctorChecks(f.specialization, f.doctorEmail, f.phone);
    :- NurseChecks(f.shift, f.yearsOfExperience);
    :- PatientChecks(f.age, f.gender);
    :- AdmissionChecks(f.admissionDate, f.roomCharges);
    :- TreatmentChecks(f.diagnosis, f.treatmentGiven, f.treatmentCost);
    BillChecks(f.doctorFee, f.medicineCost)
  }

  /**
   * The chain reports the first failing check: `Validate` runs the list
   * `Rules(f)` top to bottom, so it throws `m` exactly when `m` is the
   * message of the earliest rule that does not hold.
   */
  lemma ReportsFirstBrokenRule(f: Fields, m: string)
    ensures Validate(f) == FirstFailing(Rules(f))
    ensures Validate(f) == Fail(m) <==> exists i :: FailsFirstAt(Rules(f), i) && Rules(f)[i].message == m
  {
    var s1 := EntityRules(f.id, f.createdDate, f.updatedDate);
    assert EntityChecks(f.id, f.createdDate, f.updatedDate) == FirstFailing(s1) by { FirstFailingOfFew(s1); }
    var s2 := OrganisationRules(f.phoneNumber, f.email);
    assert OrganisationChecks(f.phoneNumber, f.email) == FirstFailing(s2) by { FirstFailingOfFew(s2); }
    var s3 := DepartmentRules(f.departmentCode);
    assert DepartmentChecks(f.departmentCode) == FirstFailing(s3) by { FirstFailingOfFew(s3); }
    var s4 := DoctorRules(f.specialization, f.doctorEmail, f.phone);
    assert DoctorChecks(f.specialization, f.doctorEmail, f.phone) == FirstFailing(s4)
      by { FirstFailingOfFew(s4); }
    var s5 := NurseRules(f.shift, f.yearsOfExperience);
    assert NurseChecks(f.shift, f.yearsOfExperience) == FirstFailing(s5) by { FirstFailingOfFew(s5); }
    var s6 := PatientRules(f.age, f.gender);
    assert PatientChecks(f.age, f.gender) == FirstFailing(s6) by { FirstFailingOfFew(s6); }
    var s7 := AdmissionRules(f.admissionDate, f.roomCharges);
    assert AdmissionChecks(f.admissionDate, f.roomCharges) == FirstFailing(s7) by { FirstFailingOfFew(s7); }
    var s8 := TreatmentRules(f.diagnosis, f.treatmentGiven, f.treatmentCost);
    assert TreatmentChecks(f.diagnosis, f.treatmentGiven, f.treatmentCost) == FirstFailing(s8)
      by { FirstFailingOfFew(s8); }
    var s9 := BillRules(f.doctorFee, f.medicineCost);
    assert BillChecks(f.doctorFee, f.medicineCost) == FirstFailing(s9) by { FirstFailingOfFew(s9); }
    var p2 := s1 + s2; FirstFailingAppend(s1, s2);
    var p3 := p2 + s3; FirstFailingAppend(p2, s3);
    var p4 := p3 + s4; FirstFailingAppend(p3, s4);
    var p5 := p4 + s5; FirstFailingAppend(p4, s5);
    var p6 := p5 + s6; FirstFailingAppend(p5, s6);
    var p7 := p6 + s7; FirstFailingAppend(p6, s7);
    var p8 := p7 + s8; FirstFailingAppend(p7, s8);
    var p9 := p8 + s9; FirstFailingAppend(p8, s9);
    assert Rules(f) == p9;
    FirstFailingMeans(p9, m);
  }

  /** The total `generateBill` computes; on a constructed record it exceeds each of its addends. */
  function TotalBill(f: Fields): (total: real)
    ensures AllRulesHold(f) ==>
      total > f.roomCharges && total > f.treatmentCost && total > f.doctorFee && total > f.medicineCost
  {
    f.roomCharges + f.treatmentCost + f.doctorFee + f.medicineCost
  }

  /** Within the Treatment constructor the cost is checked before the texts. */
  lemma TreatmentCostCheckedFirst(f: Fields, cost: real, diagnosis: string)
    requires AllRulesHold(f) && cost <= 0.0
    ensures Validate(f.(treatmentCost := cost, diagnosis := diagnosis)) == Fail(TreatmentCostNotPositive)
  {
  }

  /** Every argument that no constructor checks is stored as given: none of them changes the outcome. */
  lemma UncheckedFieldsIrrelevant(f: Fields, hospitalName: string, address: string, departmentName: string,
                                  doctorName: string, nurseName: string, patientName: string,
                                  contactNumber: string, roomNumber: int)
    ensures Validate(f.(hospitalName := hospitalName, address := address, departmentName := departmentName,
                        doctorName := doctorName, nurseName := nurseName, patientName := patientName,
                        contactNumber := contactNumber, roomNumber := roomNumber))
         == Validate(f)
  {
  }

  /** `HospitalRecord`: the checked arguments, and the bill derived from them. */
  class HospitalRecord {
    const fields: Fields
    var totalBill: real

    /** The rules hold, and the bill is either not yet generated or correct. */
    ghost predicate Valid()
      reads this
    {
      AllRulesHold(fields) && (totalBill == 0.0 || totalBill == TotalBill(fields))
    }

    /** The `Bill` constructor's `this.totalBill = 0`, reached only once every check passed. */
    constructor (f: Fields)
      requires AllRulesHold(f)
      ensures fields == f && totalBill == 0.0 && Valid()
    {
      fields := f;
      totalBill := 0.0;
    }

    /**
     * `generateBill()`: stores the total and returns it.  The new state depends
     * on `fields` alone, so a second call changes nothing.
     */
    method GenerateBill() returns (total: real)
      requires Valid()
      modifies this`totalBill
      ensures total == TotalBill(fields) && totalBill == total
      ensures total > fields.roomCharges && total > fields.treatmentCost
      ensures total > fields.doctorFee && total > fields.medicineCost
      ensures Valid()
    {
      total := fields.roomCharges + fields.treatmentCost + fields.doctorFee + fields.medicineCost;
      totalBill := total;
    }
  }

  /** `new HospitalRecord(...)`: the first failing check's message, or a fresh record with totalBill 0. */
  method NewHospitalRecord(f: Fields) returns (r: Result<HospitalRecord>)
    ensures r.Failure? <==> !AllRulesHold(f)
    ensures r.Failure? ==> Validate(f) == Fail(r.error)
    ensures r.Failure? ==> exists i :: FailsFirstAt(Rules(f), i) && Rules(f)[i].message == r.error
    ensures r.Success? ==> fresh(r.value) && r.value.fields == f && r.value.totalBill == 0.0 && r.value.Valid()
  {
    var outcome := Validate(f);
    if outcome.Fail? {
      ReportsFirstBrokenRule(f, outcome.message);
      r := Failure(outcome.message);
    } else {
      var rec := new HospitalRecord(f);
      r := Success(rec);
    }
  }
}
