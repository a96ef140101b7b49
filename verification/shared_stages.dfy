/**
 * The two constructors that open nine of the ten chains with the same checks
 * and the same messages: the `Entity` base class (id and the two dates) and
 * the organisation class right below it (phone, then e-mail).  The banking
 * chain words its date messages differently and has no organisation stage,
 * so it defines its own base stage.  Messages are named constants, verbatim.
 */
module SharedStages {
  import opened Outcomes
  import opened Validators

  const IdNotPositive: string := "ID must be greater than 0"
  const CreatedDateBlank: string := "Created date cannot be null or empty"
  const UpdatedDateBlank: string := "Updated date cannot be null or empty"
  const PhoneNumberInvalid: string := "Phone number must be exactly 10 digits"
  const EmailInvalid: string := "Invalid email format"

  /** `Entity(int id, String createdDate, String updatedDate)`. */
  function EntityChecks(id: int, createdDate: string, updatedDate: string): Outcome
  {
    if id <= 0 then Fail(IdNotPositive)
    else if IsBlank(createdDate) then Fail(CreatedDateBlank)
    else if IsBlank(updatedDate) then Fail(UpdatedDateBlank)
    else Pass
  }

  /** The same checks as a list, in the order the constructor runs them. */
  function EntityRules(id: int, createdDate: string, updatedDate: string): seq<Rule>
  {
    [Rule(id > 0, IdNotPositive), Rule(!IsBlank(createdDate), CreatedDateBlank),
     Rule(!IsBlank(updatedDate), UpdatedDateBlank)]
  }

  /** Hospital, School, Company, Hotel, Airline, ...: the organisation's phone, then its e-mail. */
  function OrganisationChecks(phoneNumber: string, email: string): Outcome
  {
    if !IsTenDigits(phoneNumber) then Fail(PhoneNumberInvalid)
    else if !IsEmail(email) then Fail(EmailInvalid)
    else Pass
  }

  /** The same checks as a list, in the order the constructor runs them. */
  function OrganisationRules(phoneNumber: string, email: string): seq<Rule>
  {
    [Rule(IsTenDigits(phoneNumber), PhoneNumberInvalid), Rule(IsEmail(email), EmailInvalid)]
  }
}
