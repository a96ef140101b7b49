/**
 * School management: the constructor chain SchoolEntity > School >
 * SchoolDepartment > Teacher > Student > Course > Exam > Result > Fee >
 * StudentRecord, the percentage `calculateAverageMarks` derives, and the
 * total fee the program's `main` stores right after construction.
 */
module School {
  import opened Outcomes
  import opened Validators
  import opened SharedStages

  /** The arguments of `new StudentRecord(...)`, in order; the record stores each of them. */
  datatype Fields = Fields(
    id: int, createdDate: string, updatedDate: string,
    schoolName: string, address: string, phoneNumber: string, email: string,
    departmentName: string, departmentCode: string,
    teacherName: string, subject: string, teacherEmail: string, phone: string,
    studentName: string, studentAge: int, studentGrade: string, studentContact: string,
    courseName: string, courseCode: string, creditHours: int,
    examDate: string, examType: string, duration: int,
    obtainedMarks: real, maxMarks: real,
    tutionFee: real, libraryFee: real)

  // The messages the constructors throw, verbatim.
  const DepartmentCodeInvalid: string := "Department code must be alphanumeric and at least 3 characters"
  const SubjectBlank: string := "Subject cannot be empty"
  const TeacherEmailInvalid: string := "Invalid teacher email format"
  const TeacherPhoneInvalid: string := "Teacher phone must be exactly 10 digits"
  const StudentAgeNotPositive: string := "Student age must be > 0"
  const StudentGradeBlank: string := "Student grade cannot be empty"
  const CourseCodeBlank: string := "Course code cannot be empty"
  const CreditHoursNotPositive: string := "Credit hours must be > 0"
  const ExamDateBlank: string := "Exam date cannot be empty"
  const ExamDurationNotPositive: string := "Exam duration must be > 0"
  const ObtainedMarksNegative: string := "Obtained marks must be >= 0"
  const MaxMarksNotPositive: string := "Max marks must be > 0"
  const ObtainedExceedsMax: string := "Obtained marks cannot exceed max marks"
  const TutionFeeNotPositive: string := "Tution fee must be > 0"
  const LibraryFeeNegative: string := "Library fee must be >= 0"

  function SchoolDepartmentChecks(departmentCode: string): Outcome
  {
    if !IsCode(departmentCode) then Fail(DepartmentCodeInvalid) else Pass
  }

  function SchoolDepartmentRules(departmentCode: string): seq<Rule>
  {
    [Rule(IsCode(departmentCode), DepartmentCodeInvalid)]
  }

  function TeacherChecks(subject: string, teacherEmail: string, phone: string): Outcome
  {
    if IsBlank(subject) then Fail(SubjectBlank)
    else if !IsEmail(teacherEmail) then Fail(TeacherEmailInvalid)
    else if !IsTenDigits(phone) then Fail(TeacherPhoneInvalid)
    else Pass
  }

  function TeacherRules(subject: string, teacherEmail: string, phone: string): seq<Rule>
  {
    [Rule(!IsBlank(subject), SubjectBlank), Rule(IsEmail(teacherEmail), TeacherEmailInvalid),
     Rule(IsTenDigits(phone), TeacherPhoneInvalid)]
  }

  function StudentChecks(studentAge: int, studentGrade: string): Outcome
  {
    if studentAge <= 0 then Fail(StudentAgeNotPositive)
    else if IsBlank(studentGrade) then Fail(StudentGradeBlank)
    else Pass
  }

  function StudentRules(studentAge: int, studentGrade: string): seq<Rule>
  {
    [Rule(studentAge > 0, StudentAgeNotPositive), Rule(!IsBlank(studentGrade), StudentGradeBlank)]
  }

  function CourseChecks(courseCode: string, creditHours: int): Outcome
  {
    if IsBlank(courseCode) then Fail(CourseCodeBlank)
    else if creditHours <= 0 then Fail(CreditHoursNotPositive)
    else Pass
  }

  function CourseRules(courseCode: string, creditHours: int): seq<Rule>
  {
    [Rule(!IsBlank(courseCode), CourseCodeBlank), Rule(creditHours > 0, CreditHoursNotPositive)]
  }

  function ExamChecks(examDate: string, duration: int): Outcome
  {
    if IsBlank(examDate) then Fail(ExamDateBlank)
    else if duration <= 0 then Fail(ExamDurationNotPositive)
    else Pass
  }

  function ExamRules(examDate: string, duration: int): seq<Rule>
  {
    [Rule(!IsBlank(examDate), ExamDateBlank), Rule(duration > 0, ExamDurationNotPositive)]
  }

  function ResultChecks(obtainedMarks: real, maxMarks: real): Outcome
  {
    if obtainedMarks < 0.0 then Fail(ObtainedMarksNegative)
    else if maxMarks <= 0.0 then Fail(MaxMarksNotPositive)
    else if obtainedMarks > maxMarks then Fail(ObtainedExceedsMax)
    else Pass
  }

  function ResultRules(obtainedMarks: real, maxMarks: real): seq<Rule>
  {
    [Rule(obtainedMarks >= 0.0, ObtainedMarksNegative), Rule(maxMarks > 0.0, MaxMarksNotPositive),
     Rule(obtainedMarks <= maxMarks, ObtainedExceedsMax)]
  }

  function FeeChecks(tutionFee: real, libraryFee: real): Outcome
  {
    if tutionFee <= 0.0 then Fail(TutionFeeNotPositive)
    else if libraryFee < 0.0 then Fail(LibraryFeeNegative)
    else Pass
  }

  function FeeRules(tutionFee: real, libraryFee: real): seq<Rule>
  {
    [Rule(tutionFee > 0.0, TutionFeeNotPositive), Rule(libraryFee >= 0.0, LibraryFeeNegative)]
  }

  /** Every check of `new StudentRecord(...)` as one list, in execution order: superclass constructors first. */
  function Rules(f: Fields): seq<Rule>
  {
    EntityRules(f.id, f.createdDate, f.updatedDate) + OrganisationRules(f.phoneNumber, f.email)
    + SchoolDepartmentRules(f.departmentCode) + TeacherRules(f.subject, f.teacherEmail, f.phone)
    + StudentRules(f.studentAge, f.studentGrade) + CourseRules(f.courseCode, f.creditHours)
    + ExamRules(f.examDate, f.duration) + ResultRules(f.obtainedMarks, f.maxMarks)
    + FeeRules(f.tutionFee, f.libraryFee)
  }

  /** Every rule of every constructor, as one conjunction. */
  predicate AllRulesHold(f: Fields)
  {
    && f.id > 0 && !IsBlank(f.createdDate) && !IsBlank(f.updatedDate)
    && IsTenDigits(f.phoneNumber) && IsEmail(f.email)
    && IsCode(f.departmentCode)
    && !IsBlank(f.subject) && IsEmail(f.teacherEmail) && IsTenDigits(f.phone)
    && f.studentAge > 0 && !IsBlank(f.studentGrade)
    && !IsBlank(f.courseCode) && f.creditHours > 0
    && !IsBlank(f.examDate) && f.duration > 0
    && 0.0 <= f.obtainedMarks <= f.maxMarks && f.maxMarks > 0.0
    && f.tutionFee > 0.0 && f.libraryFee >= 0.0
  }

  /**
   * The constructor chain of `new StudentRecord(...)`: each constructor runs
   * its superclass's checks, then its own; the first failure is thrown.
   */
  function Validate(f: Fields): (r: Outcome)
    ensures r.Pass? <==> AllRulesHold(f)
  {
    var entity := EntityChecks(f.id, f.createdDate, f.updatedDate);  // the base class `Entity` first
    :- entity;
    :- OrganisationChecks(f.phoneNumber, f.email);
    :- SchoolDepartmentChecks(f.departmentCode);
    :- TeacherChecks(f.subject, f.teacherEmail, f.phone);
    :- StudentChecks(f.studentAge, f.studentGrade);
    :- CourseChecks(f.courseCode, f.creditHours);
    :- ExamChecks(f.examDate, f.duration);
    :- ResultChecks(f.obtainedMarks, f.maxMarks);
    FeeChecks(f.tutionFee, f.libraryFee)
  }

  /**
   * The chain reports the first failing check: `Validate` runs the list
   * `Rules(f)` top to bottom, so it throws `m` exactly when `m` is the
   * message of the earliest rule that does not hold.
   */
  lemma ReportsFirstBrokenRule(f: Fields, m: string)
    ensures Validate(f) == FirstFailing(Rules(f))
    ensures Validate(f) == Fail(m) <==> exists i :: FailsFirstAt(Rules(f), i) && Rules(f)[i].message == m
  {
    var s1 := EntityRules(f.id, f.createdDate, f.updatedDate);
    assert EntityChecks(f.id, f.createdDate, f.updatedDate) == FirstFailing(s1) by { FirstFailingOfFew(s1); }
    var s2 := OrganisationRules(f.phoneNumber, f.email);
    assert OrganisationChecks(f.phoneNumber, f.email) == FirstFailing(s2) by { FirstFailingOfFew(s2); }
    var s3 := SchoolDepartmentRules(f.departmentCode);
    assert SchoolDepartmentChecks(f.departmentCode) == FirstFailing(s3) by { FirstFailingOfFew(s3); }
    var s4 := TeacherRules(f.subject, f.teacherEmail, f.phone);
    assert TeacherChecks(f.subject, f.teacherEmail, f.phone) == FirstFailing(s4) by { FirstFailingOfFew(s4); }
    var s5 := StudentRules(f.studentAge, f.studentGrade);
    assert StudentChecks(f.studentAge, f.studentGrade) == FirstFailing(s5) by { FirstFailingOfFew(s5); }
    var s6 := CourseRules(f.courseCode, f.creditHours);
    assert CourseChecks(f.courseCode, f.creditHours) == FirstFailing(s6) by { FirstFailingOfFew(s6); }
    var s7 := ExamRules(f.examDate, f.duration);
    assert ExamChecks(f.examDate, f.duration) == FirstFailing(s7) by { FirstFailingOfFew(s7); }
    var s8 := ResultRules(f.obtainedMarks, f.maxMarks);
    assert ResultChecks(f.obtainedMarks, f.maxMarks) == FirstFailing(s8) by { FirstFailingOfFew(s8); }
    var s9 := FeeRules(f.tutionFee, f.libraryFee);
    assert FeeChecks(f.tutionFee, f.libraryFee) == FirstFailing(s9) by { FirstFailingOfFew(s9); }
    var p2 := s1 + s2; FirstFailingAppend(s1, s2);
    var p3 := p2 + s3; FirstFailingAppend(p2, s3);
    var p4 := p3 + s4; FirstFailingAppend(p3, s4);
    var p5 := p4 + s5; FirstFailingAppend(p4, s5);
    var p6 := p5 + s6; FirstFailingAppend(p5, s6);
    var p7 := p6 + s7; FirstFailingAppend(p6, s7);
    var p8 := p7 + s8; FirstFailingAppend(p7, s8);
    var p9 := p8 + s9; FirstFailingAppend(p8, s9);
    assert Rules(f) == p9;
    FirstFailingMeans(p9, m);
  }

  /** The course code only has to be non-blank: a code the department check would refuse passes. */
  lemma CourseCodeOnlyNonBlank(f: Fields)
    requires AllRulesHold(f)
    ensures !IsCode("A-") && Validate(f.(courseCode := "A-")).Pass?
  {
    assert !IsTrimmable("A-"[0]);
  }

  /** Within the Result constructor the maximum is checked before the comparison. */
  lemma MarksCheckOrder(f: Fields, obtained: real)
    requires AllRulesHold(f) && obtained >= 0.0
    ensures Validate(f.(obtainedMarks := 110.0, maxMarks := 100.0)) == Fail(ObtainedExceedsMax)
    ensures Validate(f.(obtainedMarks := obtained, maxMarks := 0.0)) == Fail(MaxMarksNotPositive)
  {
  }

  /** Every argument that no constructor checks is stored as given: none of them changes the outcome. */
  lemma UncheckedFieldsIrrelevant(f: Fields, schoolName: string, address: string, departmentName: string,
                                  teacherName: string, studentName: string, studentContact: string,
                                  courseName: string, examType: string)
    ensures Validate(f.(schoolName := schoolName, address := address, departmentName := departmentName,
                        teacherName := teacherName, studentName := studentName,
                        studentContact := studentContact, courseName := courseName, examType := examType))
         == Validate(f)
  {
  }

  /** The percentage `calculateAverageMarks` computes; on a constructed record it lies in [0, 100]. */
  function Percentage(f: Fields): (p: real)
    requires f.maxMarks != 0.0
    ensures AllRulesHold(f) ==> 0.0 <= p <= 100.0
  {
    (f.obtainedMarks / f.maxMarks) * 100.0
  }

  /** The total fee `main` stores; on a constructed record it is positive. */
  function TotalFee(f: Fields): (total: real)
    ensures AllRulesHold(f) ==> total > 0.0 && total >= f.tutionFee
  {
    f.tutionFee + f.libraryFee
  }

  /** `StudentRecord`: the checked arguments, the percentage and the total fee. */
  class StudentRecord {
    const fields: Fields
    var percentage: real
    var totalFee: real

    /** The rules hold, and the percentage is either not yet computed or correct. */
    ghost predicate Valid()
      reads this
    {
      AllRulesHold(fields) && (percentage == 0.0 || percentage == Percentage(fields))
    }

    /** The `Result` and `Fee` constructors' `percentage = 0` and `totalFee = 0`. */
    constructor (f: Fields)
      requires AllRulesHold(f)
      ensures fields == f && percentage == 0.0 && totalFee == 0.0 && Valid()
    {
      fields := f;
      percentage := 0.0;
      totalFee := 0.0;
    }

    /** `calculateAverageMarks()`: stores the percentage and returns it. */
    method CalculateAverageMarks() returns (p: real)
      requires Valid()
      modifies this`percentage
      ensures p == Percentage(fields) && percentage == p
      ensures 0.0 <= p <= 100.0
      ensures Valid()
    {
      p := (fields.obtainedMarks / fields.maxMarks) * 100.0;
      percentage := p;
    }

    /** `setTotalFee(double)`: a plain setter, with no check. */
    method SetTotalFee(totalFee: real)
      modifies this`totalFee
      ensures this.totalFee == totalFee
    {
      this.totalFee := totalFee;
    }
  }

  /** What `main` does with a constructed record before printing it. */
  method DeriveFigures(rec: StudentRecord)
    requires rec.Valid()
    modifies rec
    ensures rec.percentage == Percentage(rec.fields) && 0.0 <= rec.percentage <= 100.0
    ensures rec.totalFee == TotalFee(rec.fields) && rec.totalFee > 0.0
    ensures rec.Valid()
  {
    var _ := rec.CalculateAverageMarks();
    rec.SetTotalFee(rec.fields.tutionFee + rec.fields.libraryFee);
  }

  /** `new StudentRecord(...)`: the first failing check's message, or a fresh record with both figures 0. */
  method NewStudentRecord(f: Fields) returns (r: Result<StudentRecord>)
    ensures r.Failure? <==> !AllRulesHold(f)
    ensures r.Failure? ==> Validate(f) == Fail(r.error)
    ensures r.Failure? ==> exists i :: FailsFirstAt(Rules(f), i) && Rules(f)[i].message == r.error
    ensures r.Success? ==> fresh(r.value) && r.value.fields == f && r.value.Valid()
    ensures r.Success? ==> r.value.percentage == 0.0 && r.value.totalFee == 0.0
  {
    var outcome := Validate(f);
    if outcome.Fail? {
      ReportsFirstBrokenRule(f, outcome.message);
      r := Failure(outcome.message);
    } else {
      var rec := new StudentRecord(f);
      r := Success(rec);
    }
  }
}
