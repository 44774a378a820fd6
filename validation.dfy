/** The signup and login schemas of src/validation/authValidation.js. Both
    validators answer `true` or throw the first error; `Check` is that outcome.
    The email format test of the schema library is the parameter `isEmail`. */
module AuthValidation {
  import opened Joi

  const FirstNameLabel: string := "Please enter a valid firstname \n the field must not be empty and it must be more than 2 letters"
  const LastNameLabel: string := "Please enter a valid lastname \n the field must not be empty and it must be more than 2 letters"
  const EmailLabel: string := "Please enter a valid email address"
  const SignupPasswordLabel: string := "Password is required. \n It should be more than 8 characters, and should include at least a capital letter, and a number"
  const GenderLabel: string := "please input a gender 'male or female'"
  const LoginPasswordLabel: string := "Password is not provided or its invalid"

  /** A signup request body: the five schema keys and the names of any other keys. */
  datatype SignupBody = SignupBody(
    firstName: Field, lastName: Field, email: Field, password: Field, gender: Field,
    others: seq<string>)

  /** A login request body. */
  datatype LoginBody = LoginBody(email: Field, password: Field, others: seq<string>)

  /** A required key holding a non-empty string that passes `ok`. */
  predicate Required(f: Field, ok: string -> bool)
  {
    f.Str? && f.s != "" && ok(f.s)
  }

  /** An optional key: absent, or as `Required`. */
  predicate Optional(f: Field, ok: string -> bool)
  {
    f.Absent? || Required(f, ok)
  }

  predicate IsName(s: string)
  {
    LengthBetween(s, 3, 25)
  }

  function SignupRules(isEmail: string -> bool): (rules: seq<Rule>)
    ensures |rules| == 5
  {
    [ Rule(FirstNameLabel, true, IsName),
      Rule(LastNameLabel, true, IsName),
      Rule(EmailLabel, true, isEmail),
      Rule(SignupPasswordLabel, true, PasswordPattern),
      Rule(GenderLabel, false, IsGender) ]
  }

  function SignupFields(body: SignupBody): seq<Field>
  {
    [body.firstName, body.lastName, body.email, body.password, body.gender]
  }

  /** The signup schema as one conjunction: names of 3 to 25 characters, an
      email, a password matching `^[a-zA-Z0-9]{3,30}$`, an optional gender
      among Male/Female/male/female, and no other key. */
  predicate SignupAcceptable(body: SignupBody, isEmail: string -> bool)
  {
    && Required(body.firstName, IsName)
    && Required(body.lastName, IsName)
    && Required(body.email, isEmail)
    && Required(body.password, PasswordPattern)
    && Optional(body.gender, IsGender)
    && body.others == []
  }

  lemma SignupAdmitted(body: SignupBody, isEmail: string -> bool)
    ensures AdmittedFrom(SignupFields(body), SignupRules(isEmail), 0)
        <==> Required(body.firstName, IsName) && Required(body.lastName, IsName)
             && Required(body.email, isEmail) && Required(body.password, PasswordPattern)
             && Optional(body.gender, IsGender)
  {
    var fields, rules := SignupFields(body), SignupRules(isEmail);
    assert AdmittedFrom(fields, rules, 4) <==> Optional(body.gender, IsGender);
    assert AdmittedFrom(fields, rules, 3)
       <==> Required(body.password, PasswordPattern) && AdmittedFrom(fields, rules, 4);
    assert AdmittedFrom(fields, rules, 2)
       <==> Required(body.email, isEmail) && AdmittedFrom(fields, rules, 3);
    assert AdmittedFrom(fields, rules, 1)
       <==> Required(body.lastName, IsName) && AdmittedFrom(fields, rules, 2);
  }

  /** `validateSignupData(userObject)`. */
  function ValidateSignupData(body: SignupBody, isEmail: string -> bool): (c: Check)
    ensures c == Valid <==> SignupAcceptable(body, isEmail)
    ensures c.Invalid? ==> c.caption != ""
  {
    var fields, rules := SignupFields(body), SignupRules(isEmail);
    ValidateAccepts(fields, rules, body.others, 0);
    SignupAdmitted(body, isEmail);
    ValidateLabelsNonEmpty(fields, rules, body.others, 0);
    Validate(fields, rules, body.others)
  }

  /** The error names the first key, in schema order, that fails. */
  lemma SignupReportsFirstFailure(body: SignupBody, isEmail: string -> bool)
    ensures !Required(body.firstName, IsName)
            ==> ValidateSignupData(body, isEmail) == Invalid(FirstNameLabel)
    ensures Required(body.firstName, IsName) && !Required(body.lastName, IsName)
            ==> ValidateSignupData(body, isEmail) == Invalid(LastNameLabel)
    ensures Required(body.firstName, IsName) && Required(body.lastName, IsName)
            && !Required(body.email, isEmail)
            ==> ValidateSignupData(body, isEmail) == Invalid(EmailLabel)
    ensures Required(body.firstName, IsName) && Required(body.lastName, IsName)
            && Required(body.email, isEmail) && !Required(body.password, PasswordPattern)
            ==> ValidateSignupData(body, isEmail) == Invalid(SignupPasswordLabel)
    ensures Required(body.firstName, IsName) && Required(body.lastName, IsName)
            && Required(body.email, isEmail) && Required(body.password, PasswordPattern)
            && !Optional(body.gender, IsGender)
            ==> ValidateSignupData(body, isEmail) == Invalid(GenderLabel)
  {
    var fields, rules := SignupFields(body), SignupRules(isEmail);
    var i: nat := if !Admits(rules[0], fields[0]) then 0
                  else if !Admits(rules[1], fields[1]) then 1
                  else if !Admits(rules[2], fields[2]) then 2
                  else if !Admits(rules[3], fields[3]) then 3
                  else 4;
    ValidateReportsFirst(fields, rules, body.others, 0, i);
  }

  function LoginRules(isEmail: string -> bool): (rules: seq<Rule>)
    ensures |rules| == 2
  {
    [ Rule(EmailLabel, true, isEmail),
      Rule(LoginPasswordLabel, true, PasswordPattern) ]
  }

  /** `validateLoginData(userObject)`: only `email` and `password`, the same
      password pattern as signup. */
  function ValidateLoginData(body: LoginBody, isEmail: string -> bool): (c: Check)
    ensures c == Valid <==> Required(body.email, isEmail) && Required(body.password, PasswordPattern)
                            && body.others == []
    ensures c.Invalid? ==> c.caption != ""
  {
    var fields, rules := [body.email, body.password], LoginRules(isEmail);
    ValidateAccepts(fields, rules, body.others, 0);
    assert AdmittedFrom(fields, rules, 1) <==> Required(body.password, PasswordPattern);
    ValidateLabelsNonEmpty(fields, rules, body.others, 0);
    Validate(fields, rules, body.others)
  }

  /** Whoever could sign up can log in with the same email and password. */
  lemma SignupCredentialsPassLogin(body: SignupBody, isEmail: string -> bool)
    requires ValidateSignupData(body, isEmail) == Valid
    ensures ValidateLoginData(LoginBody(body.email, body.password, []), isEmail) == Valid
  {
  }

  /** The short password "abc" is accepted, whatever the label says. */
  lemma ShortPasswordAccepted()
    ensures PasswordPattern("abc")
    ensures !PasswordPattern("ab") && !PasswordPattern("abc!")
  {
    assert !IsAlphanumeric("abc!"[3]);
  }
}

/** The profile-update schema of src/validation/userValidation.js: every key
    optional, so an empty object passes. */
module UserValidation {
  import opened Joi
  import opened AuthValidation

  const ProfileFirstNameLabel: string := "Please enter a valid firstname \n the field must be more than 2 letters"
  const ProfileLastNameLabel: string := "Please enter a valid lastname \n the field must be more than 2 letters"
  const ProfileEmailLabel: string := "Please enter a valid email address"
  const ProfileGenderLabel: string := "Please enter a valid gender \n Male, Female"

  /** A profile-update body: the four schema keys and the names of any others. */
  datatype ProfileBody = ProfileBody(
    firstName: Field, lastName: Field, email: Field, gender: Field, others: seq<string>)

  function ProfileRules(isEmail: string -> bool): (rules: seq<Rule>)
    ensures |rules| == 4
  {
    [ Rule(ProfileFirstNameLabel, false, IsName),
      Rule(ProfileLastNameLabel, false, IsName),
      Rule(ProfileEmailLabel, false, isEmail),
      Rule(ProfileGenderLabel, false, IsGender) ]
  }

  /** `validateProfile(user)`. */
  function ValidateProfile(body: ProfileBody, isEmail: string -> bool): (c: Check)
    ensures c == Valid <==>
      && Optional(body.firstName, IsName) && Optional(body.lastName, IsName)
      && Optional(body.email, isEmail) && Optional(body.gender, IsGender)
      && body.others == []
    ensures c.Invalid? ==> c.caption != ""
  {
    var fields := [body.firstName, body.lastName, body.email, body.gender];
    var rules := ProfileRules(isEmail);
    ValidateAccepts(fields, rules, body.others, 0);
    assert AdmittedFrom(fields, rules, 3) <==> Optional(body.gender, IsGender);
    assert AdmittedFrom(fields, rules, 2) <==> Optional(body.email, isEmail) && AdmittedFrom(fields, rules, 3);
    assert AdmittedFrom(fields, rules, 1) <==> Optional(body.lastName, IsName) && AdmittedFrom(fields, rules, 2);
    ValidateLabelsNonEmpty(fields, rules, body.others, 0);
    Validate(fields, rules, body.others)
  }

  /** The empty object is a valid profile update. */
  lemma EmptyProfileValid(isEmail: string -> bool)
    ensures ValidateProfile(ProfileBody(Absent, Absent, Absent, Absent, []), isEmail) == Valid
  {
  }

  /** The profile fields of any valid signup form a valid profile update. */
  lemma SignupProfileValid(body: SignupBody, isEmail: string -> bool)
    requires ValidateSignupData(body, isEmail) == Valid
    ensures ValidateProfile(ProfileBody(body.firstName, body.lastName, body.email, body.gender, []), isEmail) == Valid
  {
  }
}

/** The two password schemas of src/validation/passwordValidation.js. They
    carry no labels, so an error is labelled with the key's name. */
module PasswordValidation {
  import opened Joi
  import opened AuthValidation

  /** Body of a reset-link request. */
  datatype ResetEmailBody = ResetEmailBody(email: Field)

  /** Body of a password change. */
  datatype ChangePasswordBody = ChangePasswordBody(password: Field, confirmPassword: Field)

  /** `passwordResetEmailSchema`: a required email. */
  function ValidateResetEmail(body: ResetEmailBody, isEmail: string -> bool): (c: Check)
    ensures c == Valid <==> Required(body.email, isEmail)
    ensures c.Invalid? ==> c.caption == "email"
  {
    var fields, rules := [body.email], [Rule("email", true, isEmail)];
    ValidateAccepts(fields, rules, [], 0);
    Validate(fields, rules, [])
  }

  /** `changePasswordSchema`: a required password of the usual pattern, and an
      optional `confirmPassword` that must equal it. */
  function ValidateChangePassword(body: ChangePasswordBody): (c: Check)
    ensures c == Valid <==>
      && Required(body.password, PasswordPattern)
      && (body.confirmPassword.Absent? || body.confirmPassword == body.password)
    ensures c.Invalid? ==> c.caption == "password" || c.caption == "confirmPassword"
  {
    var fields := [body.password, body.confirmPassword];
    var rules := [ Rule("password", true, PasswordPattern),
                   Rule("confirmPassword", false, s => body.password == Str(s)) ];
    ValidateAccepts(fields, rules, [], 0);
    assert Required(body.password, PasswordPattern) ==>
      (AdmittedFrom(fields, rules, 1)
       <==> body.confirmPassword.Absent? || body.confirmPassword == body.password);
    Validate(fields, rules, [])
  }

  /** A password alone passes; a differing confirmation fails. */
  lemma ConfirmationOptional(password: string, other: string)
    requires PasswordPattern(password) && other != password
    ensures ValidateChangePassword(ChangePasswordBody(Str(password), Absent)) == Valid
    ensures ValidateChangePassword(ChangePasswordBody(Str(password), Str(other))) == Invalid("confirmPassword")
  {
    var body := ChangePasswordBody(Str(password), Str(other));
    ValidateReportsFirst([body.password, body.confirmPassword],
                         [ Rule("password", true, PasswordPattern),
                           Rule("confirmPassword", false, s => body.password == Str(s)) ], [], 0, 1);
  }

  /** A newly chosen password is one the login schema accepts. */
  lemma NewPasswordPassesLogin(body: ChangePasswordBody, email: Field, isEmail: string -> bool)
    requires ValidateChangePassword(body) == Valid && Required(email, isEmail)
    ensures ValidateLoginData(LoginBody(email, body.password, []), isEmail) == Valid
  {
  }
}
