/** The account validators of accounts/serializers.py: registration's
    password confirmation and the profile's phone and date-of-birth checks.
    Dates are day numbers (days since a fixed epoch), as `date` subtraction
    counts days. */
module Accounts {
  import opened Basics

  /** A ValidationError keyed by field, or a plain one when the field is "". */
  datatype FieldError = FieldError(field: string, message: string)

  datatype RegisterAttrs = RegisterAttrs(username: string, email: string, password: string, password2: string)

  /** RegisterSerializer.validate. */
  function ValidateRegister(a: RegisterAttrs): (r: Result<RegisterAttrs, FieldError>)
    ensures r.Ok? <==> a.password == a.password2
    ensures r.Ok? ==> r.value == a
    ensures r.Err? ==> r.error == FieldError("password", "Passwords don't match.")
  {
    if a.password != a.password2 then Err(FieldError("password", "Passwords don't match.")) else Ok(a)
  }

  /** ProfileSerializer.validate_phone: an empty phone passes, any other must
      start with '+'. */
  function ValidatePhone(phone: string): (r: Result<string, FieldError>)
    ensures r.Ok? <==> phone == "" || phone[0] == '+'
    ensures r.Ok? ==> r.value == phone
    ensures r.Err? ==> r.error == FieldError("phone", "Phone number should start with country code (+)")
  {
    if phone != "" && phone[0] != '+' then Err(FieldError("phone", "Phone number should start with country code (+)"))
    else Ok(phone)
  }

  /** Eighteen years of 365 days: leap days are not counted. */
  const AdultAgeDays: int := 18 * 365

  /** ProfileSerializer.validate_date_of_birth: a missing date passes; a date
      must not lie after today, and at least 18 * 365 days must lie between it
      and today. */
  function ValidateDateOfBirth(dob: Option<int>, today: int): (r: Result<Option<int>, FieldError>)
    ensures r.Ok? <==> dob.None? || (dob.value <= today && today - dob.value >= AdultAgeDays)
    ensures r.Ok? ==> r.value == dob
    ensures dob.Some? && dob.value > today ==>
              r == Err(FieldError("date_of_birth", "Date of birth cannot be in the future"))
    ensures dob.Some? && dob.value <= today && today - dob.value < AdultAgeDays ==>
              r == Err(FieldError("date_of_birth", "User must be at least 18 years old"))
  {
    match dob
    case None => Ok(dob)
    case Some(d) =>
      if d > today then Err(FieldError("date_of_birth", "Date of birth cannot be in the future"))
      else if today - d < AdultAgeDays then Err(FieldError("date_of_birth", "User must be at least 18 years old"))
      else Ok(dob)
  }

  /** The check is by days alone: a date of birth 6570 days back passes,
      though eighteen calendar years always span 6574 days or more, while one
      a day later is turned down. */
  lemma AgeCheckIgnoresLeapDays(today: int)
    ensures ValidateDateOfBirth(Some(today - 6570), today).Ok?
    ensures ValidateDateOfBirth(Some(today - 6569), today).Err?
  {
  }
}
