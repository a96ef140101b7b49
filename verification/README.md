# Staged record builders

This project models ten Java console programs: hospital management, school
management, employee payroll, hotel reservation, vehicle rental, banking,
real-estate management, library management, airline ticketing and online
shopping. Each one builds a single record through a chain of constructors,
about ten classes deep. Every constructor first calls `super(...)` and then
runs its own `if (...) throw` checks from top to bottom. Construction therefore
either produces a record on which every rule of every class holds, or throws
the message of the first check that fails, in the order base class first.
After construction the final class computes one derived figure, such as a bill
total, a percentage, a net salary, a commission, an interest or a fine. It
stores that figure in a field that the constructor set to 0.

How the model is built:

- `Outcomes` holds `Outcome` (`Pass` or `Fail(message)`, usable with `:-`)
  and `Result<T>`, plus `FirstFailing`, which runs a list of checks top to
  bottom and stops at the first one that fails, with its characterisation.
- `Validators` holds the checks all ten programs share:
  - Java's `trim()`, modelled literally, with the blank-string characterisation proved equal to it;
  - the ten-digit phone pattern;
  - the e-mail regular expression, modelled as "some split point matches" and proved equivalent to a test at the first `'@'`;
  - the alphanumeric code rule.
- `SharedStages` holds the base-class checks (id and two dates) and the
  organisation checks (phone, then e-mail). Nine of the ten programs share
  them word for word.
- Each program is one module. It contains:
  - `Fields`: the arguments of the final constructor, in order.
  - The exception messages, verbatim, as named constants.
  - One `...Checks` function per constructor. Each is an `if` chain in source order.
  - `AllRulesHold`: the conjunction of every rule.
  - `Validate`: runs the constructors' checks in chain order with `:-`, so the first failure is the result.
  - `Rules`: the same checks as one list of `Rule(holds, message)`, constructor by constructor, base class first. `ReportsFirstBrokenRule` proves that `Validate` equals running that list top to bottom (`Outcomes.FirstFailing`), so the message it fails with is exactly that of the earliest broken rule.
  - The derived figure as a function of the fields.
  - The record `class`. Its `const fields` are never reassigned. Its derived field is a `var` that the derivation method writes (`modifies this`field`). Its `Valid()` says that the rules hold and that the derived field is either still 0 or correct.
  - A factory `New...Record` that plays the role of `new ...Record(...)`. It returns either the message the constructor chain throws or a fresh record whose derived field is 0.

Every derivation method ensures that its new state equals a function of the
const `fields` alone, so a second call stores the same value again:
derivation is idempotent. Its `modifies` frame names only the derived
field(s), so no other field changes. Java `double` is modelled as `real`
(exact arithmetic), Java `int` as `int`, and Java strings as non-null `string`.

In three places a check is narrower or wider than the matching check in the
other programs. The model follows the code in each:
- The banking branch code is checked only for length, not for being alphanumeric. Its message is "Branch code must be at least 3 characters".
- The school course code only has to be non-blank.
- The library's days late and the airline's baggage weight are never checked.

## Model

| member | source | states |
|---|---|---|
| Outcomes.Then | Question1/Question1_HospitalManagement.java:97-105 | sequencing two outcomes passes exactly when both pass, and a first failure is the result whatever follows: a subclass's own checks run only after `super(...)` returned |
| Outcomes.Check | Question1/Question1_HospitalManagement.java:15 | one `if (!condition) throw` passes exactly when its condition holds, and otherwise throws its own message |
| Outcomes.FirstFailingMeans | Question1/Question1_HospitalManagement.java:14-20 | running a list of checks top to bottom passes exactly when every rule holds, and throws `m` exactly when `m` is the message of the earliest rule that fails |
| Outcomes.FirstFailingAppend | Question1/Question1_HospitalManagement.java:93-111 | running the checks of a superclass constructor and then the subclass's own is running the concatenated list |
| Outcomes.FirstFailingOfFew | Question1/Question1_HospitalManagement.java:100-105 | a list of up to four checks behaves as the corresponding chain of single checks |
| Validators.TrimLeading | Question1/Question1_HospitalManagement.java:16 | the result is a suffix of the input; every dropped character is at most U+0020; the result does not start with one |
| Validators.TrimTrailing | Question1/Question1_HospitalManagement.java:16 | the result is a prefix of the input; every dropped character is at most U+0020; the result does not end with one |
| Validators.Trim | Question1/Question1_HospitalManagement.java:16 | `trim()` returns a slice `s[i..j]` whose cut-off ends are blank, and a non-empty result starts and ends with a character above U+0020 |
| Validators.CutsLeaveSlice | Question1/Question1_HospitalManagement.java:16 | cutting a blank prefix and then a blank suffix off a string leaves a slice of it between two blank ends |
| Validators.TrimEmptyIffBlank | Question1/Question1_HospitalManagement.java:16 | `s.trim().isEmpty()` holds exactly when every character of `s` is at most U+0020 |
| Validators.IndexOfAt | Question1/Question1_HospitalManagement.java:46 | the result is the index of the first '@', or the length when there is none |
| Validators.EmailSplitsAtFirstAt | Question1/Question1_HospitalManagement.java:46 | the e-mail pattern matches exactly when the split at the first '@' matches (non-empty `[A-Za-z0-9+_.-]` prefix, non-empty suffix with no line terminator) |
| Validators.EmailExamples | Question1/Question1_HospitalManagement.java:46 | "a@b@c" and "x.y+z@-" are accepted; "@b", "a@", "a b@c" and a remainder ending in a newline are refused |
| Hospital.Validate | Question1/Question1_HospitalManagement.java:14-282 | the chain passes exactly when every rule of every constructor holds |
| Hospital.ReportsFirstBrokenRule | Question1/Question1_HospitalManagement.java:14-282 | a failing chain throws `m` exactly when `m` is the message of the earliest broken rule in `Rules(f)`, the checks listed constructor by constructor, base class first |
| Hospital.TreatmentCostCheckedFirst | Question1/Question1_HospitalManagement.java:242-245 | a non-positive treatment cost is reported as "Treatment cost must be > 0" whatever the diagnosis is |
| Hospital.UncheckedFieldsIrrelevant | Question1/Question1_HospitalManagement.java:49-212 | hospital name, address, department name, doctor name, nurse name, patient name, contact number and room number, the arguments no constructor checks, never change the outcome |
| Hospital.TotalBill | Question1/Question1_HospitalManagement.java:315 | on a constructed record the bill is strictly greater than each of its four addends |
| Hospital.HospitalRecord.constructor | Question1/Question1_HospitalManagement.java:262-312 | the record stores its arguments and starts with totalBill 0 |
| Hospital.HospitalRecord.GenerateBill | Question1/Question1_HospitalManagement.java:314-318 | stores and returns the total of the four charges, which exceeds each of them; only totalBill changes |
| Hospital.NewHospitalRecord | Question1/Question1_HospitalManagement.java:14-312 | fails exactly when some rule is broken, with the message of the earliest broken rule; otherwise yields a fresh valid record holding the arguments with totalBill 0 |
| School.Validate | 27264/Question2/Question2_SchoolManagement.java:14-280 | passes exactly when every rule holds, including 0 <= obtained <= max and max > 0 |
| School.ReportsFirstBrokenRule | 27264/Question2/Question2_SchoolManagement.java:14-280 | a failing chain throws `m` exactly when `m` is the message of the earliest broken rule in `Rules(f)`, the checks listed constructor by constructor, base class first |
| School.CourseCodeOnlyNonBlank | 27264/Question2/Question2_SchoolManagement.java:172-173 | "A-" is not a code, yet it is accepted as a course code |
| School.MarksCheckOrder | 27264/Question2/Question2_SchoolManagement.java:243-246 | obtained 110 of 100 reports "Obtained marks cannot exceed max marks"; a max of 0 reports "Max marks must be > 0" before the comparison |
| School.UncheckedFieldsIrrelevant | 27264/Question2/Question2_SchoolManagement.java:49-213 | school name, address, department name, teacher name, student name, student contact, course name and exam type, the arguments no constructor checks, never change the outcome |
| School.Percentage | 27264/Question2/Question2_SchoolManagement.java:311-314 | on a constructed record the percentage lies between 0 and 100 |
| School.TotalFee | 27264/Question2/Question2_SchoolManagement.java:460 | on a constructed record the total fee is positive and at least the tuition fee |
| School.StudentRecord.constructor | 27264/Question2/Question2_SchoolManagement.java:225-309 | the record stores its arguments and starts with percentage 0 and totalFee 0 |
| School.StudentRecord.CalculateAverageMarks | 27264/Question2/Question2_SchoolManagement.java:311-315 | stores and returns obtained / max * 100, which lies in [0, 100]; only percentage changes |
| School.StudentRecord.SetTotalFee | 27264/Question2/Question2_SchoolManagement.java:292 | stores the given total fee; nothing else changes |
| School.DeriveFigures | 27264/Question2/Question2_SchoolManagement.java:459-460 | after the two derivation calls, the percentage is correct and in [0, 100], and totalFee is tuition plus library fee, which is positive |
| School.NewStudentRecord | 27264/Question2/Question2_SchoolManagement.java:14-309 | fails exactly when some rule is broken, with the message of the earliest broken rule; otherwise yields a fresh valid record with both derived figures 0 |
| Payroll.Validate | 27264/Question3/Question3_EmployeePayroll.java:14-282 | passes exactly when every rule holds, including present + absent == total |
| Payroll.ReportsFirstBrokenRule | 27264/Question3/Question3_EmployeePayroll.java:14-282 | a failing chain throws `m` exactly when `m` is the message of the earliest broken rule in `Rules(f)`, the checks listed constructor by constructor, base class first |
| Payroll.SignChecksBeforeSum | 27264/Question3/Question3_EmployeePayroll.java:178-182 | present -1, absent 11, total 10 reports "Present days must be >= 0", not the sum identity |
| Payroll.DaysWithinTotal | 27264/Question3/Question3_EmployeePayroll.java:178-182 | on a constructed record neither present nor absent days exceed the total |
| Payroll.UncheckedFieldsIrrelevant | 27264/Question3/Question3_EmployeePayroll.java:49-146 | company name, address, department name, manager name and employee name, the arguments no constructor checks, never change the outcome |
| Payroll.TotalAllowance | 27264/Question3/Question3_EmployeePayroll.java:311 | on a constructed record the allowance total is at least each allowance, hence non-negative |
| Payroll.TotalDeduction | 27264/Question3/Question3_EmployeePayroll.java:314 | on a constructed record the deduction total is at least tax and at least provident fund, hence non-negative |
| Payroll.NetSalary | 27264/Question3/Question3_EmployeePayroll.java:317 | on a constructed record basic - deductions <= net <= basic + allowances |
| Payroll.NetSalaryCanBeNegative | 27264/Question3/Question3_EmployeePayroll.java:310-319 | a tax above basic plus allowances still builds a record, and its net salary is negative |
| Payroll.PayrollRecord.constructor | 27264/Question3/Question3_EmployeePayroll.java:197-308 | the record stores its arguments and starts with all three derived figures 0 |
| Payroll.PayrollRecord.CalculateNetSalary | 27264/Question3/Question3_EmployeePayroll.java:310-320 | stores both totals (each non-negative) and net = basic + allowances - deductions, and returns net; only the three derived fields change |
| Payroll.NewPayrollRecord | 27264/Question3/Question3_EmployeePayroll.java:14-308 | fails exactly when some rule is broken, with the message of the earliest broken rule; otherwise yields a fresh valid record with the derived figures 0 |
| Hotel.Validate | Question4/Question4_HotelReservation.java:14-275 | passes exactly when every rule holds, rating in [1, 5] included |
| Hotel.ReportsFirstBrokenRule | Question4/Question4_HotelReservation.java:14-275 | a failing chain throws `m` exactly when `m` is the message of the earliest broken rule in `Rules(f)`, the checks listed constructor by constructor, base class first |
| Hotel.RatingBoundsInclusive | Question4/Question4_HotelReservation.java:274-275 | ratings 1 and 5 are accepted; 0 and 6 are refused with "Rating must be between 1 and 5" |
| Hotel.RatingReportedLast | Question4/Question4_HotelReservation.java:257-279 | when the rating error is reported, every other rule holds |
| Hotel.UncheckedFieldsIrrelevant | Question4/Question4_HotelReservation.java:49-278 | hotel name, address, room type, customer name, service date, payment date and comments, the arguments no constructor checks, never change the outcome |
| Hotel.TotalBill | Question4/Question4_HotelReservation.java:303 | on a constructed record the bill is positive and at least the room charge |
| Hotel.TotalBillIgnoresPriceDaysAndPayment | Question4/Question4_HotelReservation.java:303 | room price, number of days and amount paid never enter the bill |
| Hotel.ReservationRecord.constructor | Question4/Question4_HotelReservation.java:229-300 | the record stores its arguments and starts with totalBill 0 |
| Hotel.ReservationRecord.GenerateBill | Question4/Question4_HotelReservation.java:302-306 | stores and returns room charge plus service charge, which is positive; only totalBill changes |
| Hotel.NewReservationRecord | Question4/Question4_HotelReservation.java:14-300 | fails exactly when some rule is broken, with the message of the earliest broken rule; otherwise yields a fresh valid record with totalBill 0 |
| VehicleRental.Validate | 27264/Question5/Question5_VehicleRental.java:14-291 | passes exactly when every rule holds, year of manufacture in [1900, 2025] included |
| VehicleRental.ReportsFirstBrokenRule | 27264/Question5/Question5_VehicleRental.java:14-291 | a failing chain throws `m` exactly when `m` is the message of the earliest broken rule in `Rules(f)`, the checks listed constructor by constructor, base class first |
| VehicleRental.YearBoundsInclusive | 27264/Question5/Question5_VehicleRental.java:102-103 | 1900 and 2025 are accepted; 1899 and 2026 are refused with the year message |
| VehicleRental.CustomerCheckOrder | 27264/Question5/Question5_VehicleRental.java:137-142 | the customer stage reports the e-mail error first, then the phone error, then the licence error |
| VehicleRental.UncheckedFieldsIrrelevant | 27264/Question5/Question5_VehicleRental.java:49-259 | company name, address, branch name, vehicle model, vehicle type, customer name and payment date, the arguments no constructor checks, never change the outcome |
| VehicleRental.TotalCharge | 27264/Question5/Question5_VehicleRental.java:321 | on a constructed record the total is at least the rental charge, which is non-negative, and at least the penalty |
| VehicleRental.TotalChargeCanBeZero | 27264/Question5/Question5_VehicleRental.java:216-219 | zero rental and zero penalty charges still build a record, and its total is 0 |
| VehicleRental.TotalChargeIgnoresRateDaysAndPayment | 27264/Question5/Question5_VehicleRental.java:321 | any valid daily rate, number of days and amount paid keep the record constructible and leave the total unchanged |
| VehicleRental.VehicleRentalRecord.constructor | 27264/Question5/Question5_VehicleRental.java:271-318 | the record stores its arguments and starts with totalCharge 0 |
| VehicleRental.VehicleRentalRecord.CalculateTotalCharge | 27264/Question5/Question5_VehicleRental.java:320-324 | stores and returns rental plus penalty charge, which is non-negative; only totalCharge changes |
| VehicleRental.NewVehicleRentalRecord | 27264/Question5/Question5_VehicleRental.java:14-318 | fails exactly when some rule is broken, with the message of the earliest broken rule; otherwise yields a fresh valid record with totalCharge 0 |
| Banking.Validate | 27264/Question6/Question6_BankingSystem.java:14-225 | passes exactly when every rule holds |
| Banking.ReportsFirstBrokenRule | 27264/Question6/Question6_BankingSystem.java:14-225 | a failing chain throws `m` exactly when `m` is the message of the earliest broken rule in `Rules(f)`, the checks listed constructor by constructor, base class first |
| Banking.BranchCodeLengthOnly | 27264/Question6/Question6_BankingSystem.java:40-41 | "A-1" is accepted as a branch code; "AB" is refused with "Branch code must be at least 3 characters" whatever the later fields are |
| Banking.EmailCheckedBeforePhone | 27264/Question6/Question6_BankingSystem.java:88-91 | a bad e-mail is reported as "Invalid email format" whatever the phone is |
| Banking.WithdrawalUnboundedByBalance | 27264/Question6/Question6_BankingSystem.java:167 | a withdrawal larger than balance plus deposit is accepted |
| Banking.UncheckedFieldsIrrelevant | 27264/Question6/Question6_BankingSystem.java:43-228 | bank name, address, account number, account type, customer name, transaction id, transaction type, deposit date, withdrawal date and payment date, the arguments no constructor checks, never change the outcome |
| Banking.Interest | 27264/Question6/Question6_BankingSystem.java:255 | on a constructed record the interest is positive |
| Banking.InterestExample | 27264/Question6/Question6_BankingSystem.java:255 | an illustration of the formula only: a loan of 1000 at rate 5 over 12 periods earns 600 (the general contract is on `Banking.Interest`) |
| Banking.AccountRecord.constructor | 27264/Question6/Question6_BankingSystem.java:238-252 | the record stores its arguments and starts with calculatedInterest 0 |
| Banking.AccountRecord.CalculateInterest | 27264/Question6/Question6_BankingSystem.java:254-257 | stores and returns loan * rate * duration / 100, which is positive; only calculatedInterest changes |
| Banking.NewAccountRecord | 27264/Question6/Question6_BankingSystem.java:14-252 | fails exactly when some rule is broken, with the message of the earliest broken rule; otherwise yields a fresh valid record with interest 0 |
| RealEstate.Validate | 27264/Question7/Question7_RealEstateManagement.java:14-282 | passes exactly when every rule holds |
| RealEstate.ReportsFirstBrokenRule | 27264/Question7/Question7_RealEstateManagement.java:14-282 | a failing chain throws `m` exactly when `m` is the message of the earliest broken rule in `Rules(f)`, the checks listed constructor by constructor, base class first |
| RealEstate.PriceCheckedFirst | 27264/Question7/Question7_RealEstateManagement.java:242-245 | a non-positive price is reported as "Price must be > 0" whatever the payment method is |
| RealEstate.PartyTypes | 27264/Question7/Question7_RealEstateManagement.java:136-171 | "Corporate" is accepted as both seller and buyer type; "Individual" is accepted only as seller type |
| RealEstate.UncheckedFieldsIrrelevant | 27264/Question7/Question7_RealEstateManagement.java:49-212 | agency name, address, agent name, location, seller name, buyer name, contact number and agreement number, the arguments no constructor checks, never change the outcome |
| RealEstate.Commission | 27264/Question7/Question7_RealEstateManagement.java:315 | on a constructed record the commission is positive |
| RealEstate.CommissionIgnoresTaxAndFee | 27264/Question7/Question7_RealEstateManagement.java:315 | tax rate and agreement fee never enter the commission |
| RealEstate.RealEstateRecord.constructor | 27264/Question7/Question7_RealEstateManagement.java:262-312 | the record stores its arguments and starts with totalCommission 0 |
| RealEstate.RealEstateRecord.CalculateCommission | 27264/Question7/Question7_RealEstateManagement.java:314-318 | stores and returns price * rate / 100, which is positive; only totalCommission changes |
| RealEstate.NewRealEstateRecord | 27264/Question7/Question7_RealEstateManagement.java:14-312 | fails exactly when some rule is broken, with the message of the earliest broken rule; otherwise yields a fresh valid record with commission 0 |
| Library.Validate | 27264/Question8/Question8_LibraryManagement.java:14-282 | passes exactly when every rule holds |
| Library.ReportsFirstBrokenRule | 27264/Question8/Question8_LibraryManagement.java:14-282 | a failing chain throws `m` exactly when `m` is the message of the earliest broken rule in `Rules(f)`, the checks listed constructor by constructor, base class first |
| Library.IdReportedFirst | 27264/Question8/Question8_LibraryManagement.java:15 | any id <= 0 is reported as "ID must be greater than 0" whatever the phone and every other field are |
| Library.EnumerationsCaseSensitive | 27264/Question8/Question8_LibraryManagement.java:136-172 | "premium" is refused as a membership type and "Returned " as a return status |
| Library.UncheckedFieldsIrrelevant | 27264/Question8/Question8_LibraryManagement.java:49-212 | library name, address, section name, book title, member name, borrow date, contact number and days late, the arguments no constructor checks, never change the outcome |
| Library.TotalFine | 27264/Question8/Question8_LibraryManagement.java:315 | on a constructed record the fine is non-negative when days late is non-negative, and negative when the fine amount is positive and days late is negative |
| Library.NegativeFineAccepted | 27264/Question8/Question8_LibraryManagement.java:208-215 | when the fine amount is positive, a record with days late -1 is still constructible and its fine is negative |
| Library.LibraryManagementRecord.constructor | 27264/Question8/Question8_LibraryManagement.java:262-312 | the record stores its arguments and starts with totalFine 0 |
| Library.LibraryManagementRecord.CalculateFine | 27264/Question8/Question8_LibraryManagement.java:314-318 | stores and returns fine amount * days late, which is non-negative when days late is; only totalFine changes |
| Library.NewLibraryManagementRecord | 27264/Question8/Question8_LibraryManagement.java:14-312 | fails exactly when some rule is broken, with the message of the earliest broken rule; otherwise yields a fresh valid record with fine 0 |
| Airline.Validate | Question9/Question9_AirlineTicketing.java:14-282 | passes exactly when every rule holds |
| Airline.ReportsFirstBrokenRule | Question9/Question9_AirlineTicketing.java:14-282 | a failing chain throws `m` exactly when `m` is the message of the earliest broken rule in `Rules(f)`, the checks listed constructor by constructor, base class first |
| Airline.PassengerPhoneBeforeSeatClass | Question9/Question9_AirlineTicketing.java:104-137 | a bad passenger phone is reported whatever the seat class is |
| Airline.UncheckedFieldsIrrelevant | Question9/Question9_AirlineTicketing.java:49-212 | airline name, address, flight number, passenger name, seat number, ticket number, contact number and baggage weight (negative included), the arguments no constructor checks, never change the outcome |
| Airline.InvoiceTotal | Question9/Question9_AirlineTicketing.java:315 | on a constructed record the invoice total is positive and at least the price |
| Airline.InvoiceTotalIgnoresTaxFeeAndQuantity | Question9/Question9_AirlineTicketing.java:315 | tax amount, service fee and ticket quantity never enter the invoice total |
| Airline.TicketRecord.constructor | Question9/Question9_AirlineTicketing.java:262-312 | the record stores its arguments and starts with totalInvoice 0 |
| Airline.TicketRecord.GenerateInvoice | Question9/Question9_AirlineTicketing.java:314-318 | stores and returns price plus baggage fee, which is positive; only totalInvoice changes |
| Airline.NewTicketRecord | Question9/Question9_AirlineTicketing.java:14-312 | fails exactly when some rule is broken, with the message of the earliest broken rule; otherwise yields a fresh valid record with totalInvoice 0 |
| Shopping.Validate | 27264/Question10/Question10_OnlineShopping.java:14-282 | passes exactly when every rule holds |
| Shopping.ReportsFirstBrokenRule | 27264/Question10/Question10_OnlineShopping.java:14-282 | a failing chain throws `m` exactly when `m` is the message of the earliest broken rule in `Rules(f)`, the checks listed constructor by constructor, base class first |
| Shopping.QuantityBeforeDiscount | 27264/Question10/Question10_OnlineShopping.java:170 | quantity 0 is reported as "Quantity must be > 0" whatever the discount is |
| Shopping.UncheckedFieldsIrrelevant | 27264/Question10/Question10_OnlineShopping.java:49-250 | store name, address, category name, product name, customer name, order number, contact number and carrier, the arguments no constructor checks, never change the outcome |
| Shopping.TotalAmount | 27264/Question10/Question10_OnlineShopping.java:315 | on a constructed record the total is positive and at least the price |
| Shopping.TotalAmountIgnoresTaxDiscountAndQuantity | 27264/Question10/Question10_OnlineShopping.java:315 | tax amount, discount and quantity never enter the total |
| Shopping.OrderRecord.constructor | 27264/Question10/Question10_OnlineShopping.java:262-312 | the record stores its arguments and starts with totalAmount 0 |
| Shopping.OrderRecord.CalculateTotalAmount | 27264/Question10/Question10_OnlineShopping.java:314-318 | stores and returns price plus shipping cost, which is positive and at least the price; only totalAmount changes |
| Shopping.NewOrderRecord | 27264/Question10/Question10_OnlineShopping.java:14-312 | fails exactly when some rule is broken, with the message of the earliest broken rule; otherwise yields a fresh valid record with totalAmount 0 |

## Left out

- `main` in every program is left out. It covers the console prompts, reading input with `Scanner`, and the outer `try`/`catch` that separates "Validation Error" from "Input Error". That is console I/O. The exception is the school program's `setTotalFee(tutionFee + libraryFee)` call, which is modelled by `School.DeriveFigures`.
- `displayRecord` and the `STUDENT_ID` prefixes are left out. They are report formatting only.
- Doubles are exact reals. IEEE-754 rounding, NaN and Infinity are not modelled. NaN would pass every `< 0` and `<= 0` check.
- School.Percentage: requires a non-zero max marks, because a real division by zero is undefined. Java would yield NaN or Infinity there, but no constructed record has max marks 0.
- Strings are never null. `Scanner` never yields null, and a null reaching `.matches`, `.equals` or `.length()` throws `NullPointerException`, which is not a validation failure.
- The general-purpose public setters on nearly every field are left out. They bypass validation, so a record changed through them no longer satisfies its rules. Only the setters that the derivation methods use are modelled. These include the school's `setTotalFee`, but not the banking `setBalance`.
- Java `int` overflow is not modelled. It could only matter for `presentDays + absentDays` in the payroll program. Two non-negative ints can only overflow to a negative value, which never equals a positive `totalDays`, so unbounded integers decide that check the same way.
- The banking branch code's `length()` counts UTF-16 code units; the model counts characters. Only the length of that code is checked, so the two differ only for characters outside the Basic Multilingual Plane.
- The constructor class hierarchy is flattened. Each program keeps one `Fields` value and one check function per constructor, in chain order, instead of one class per stage. The getters are the `Fields` selectors.
