/** The registration form: a validator per field that sets that field's message and
    validity flag, and a submit that posts the form whatever the flags say. */
module Registration {
  import opened Records
  import opened Sequences
  import opened DataStore

  const NameRequired := "Name Required"
  const NameMalformed := "Name must be atleast 3 characters and start with capitl letter"
  const PasswordRequired := "Password Required"
  const PasswordLength := "Password length should be correct"
  const ConfirmRequired := "CF Required"
  const ConfirmMismatch := "Should match password"
  const PhoneMalformed := "enter valid number"
  const EmailRequired := "email Required"
  const EmailMalformed := "enter valid email"
  const ContinentRequired := "continent Required"
  const Saved := "data saved successfully"
  const SaveFailed := "error in saving data"

  const FieldNames: set<string> := {"userName", "password", "confirmPassword", "phoneNumber", "email", "continent"}

  predicate IsUpper(c: char) { 'A' <= c <= 'Z' }
  predicate IsLower(c: char) { 'a' <= c <= 'z' }
  predicate IsDigit(c: char) { '0' <= c <= '9' }
  predicate IsLetter(c: char) { IsUpper(c) || IsLower(c) }
  /** `[A-Za-z0-9._%+-]`, the characters before the `@`. */
  predicate IsLocalChar(c: char) { IsLetter(c) || IsDigit(c) || c in "._%+-" }
  /** `[A-Za-z0-9.-]`, the characters of the domain before its last dot. */
  predicate IsDomainChar(c: char) { IsLetter(c) || IsDigit(c) || c == '.' || c == '-' }

  /** Every character of `s` is in the class `p`. */
  function All(s: string, p: char -> bool): (r: bool)
    ensures r <==> forall i :: 0 <= i < |s| ==> p(s[i])
  {
    s == [] || (p(s[0]) && All(s[1..], p))
  }

  /** `/^[A-Z][a-z]{3,}$/`. */
  function UserNameMatches(s: string): bool
  {
    |s| >= 4 && IsUpper(s[0]) && All(s[1..], IsLower)
  }

  /** `/^\d{10}$/`. */
  function PhoneMatches(s: string): bool
  {
    |s| == 10 && All(s, IsDigit)
  }

  /** JavaScript's `length`: the number of UTF-16 code units, two for a character
      outside the Basic Multilingual Plane. */
  function Utf16Length(s: string): (r: nat)
    ensures |s| <= r <= 2 * |s|
  {
    if s == [] then 0 else (if s[0] as int >= 0x1_0000 then 2 else 1) + Utf16Length(s[1..])
  }

  /** Appending one character adds two code units when it lies outside the Basic
      Multilingual Plane, and one otherwise. */
  lemma {:induction false} Utf16LengthSnoc(s: string, c: char)
    ensures Utf16Length(s + [c]) == Utf16Length(s) + (if c as int >= 0x1_0000 then 2 else 1)
  {
    if s == [] {
      assert s + [c] == [c] && [c][1..] == [];
    } else {
      assert (s + [c])[0] == s[0] && (s + [c])[1..] == s[1..] + [c];
      Utf16LengthSnoc(s[1..], c);
    }
  }

  /** For text within the Basic Multilingual Plane, `length` counts characters. */
  lemma {:induction false} BmpLength(s: string)
    requires forall i :: 0 <= i < |s| ==> s[i] as int < 0x1_0000
    ensures Utf16Length(s) == |s|
  {
    if s != [] {
      BmpLength(s[1..]);
    }
  }

  /** Index of the first `c` in `s`, or `|s|` when there is none. */
  function FirstIndex(s: string, c: char): (r: nat)
    ensures r <= |s| && (r < |s| ==> s[r] == c)
    ensures forall i :: 0 <= i < r ==> s[i] != c
  {
    FirstWhere(s, (x: char) => x == c)
  }

  /** Index of the last `c` in `s`, or -1 when there is none. */
  function LastIndex(s: string, c: char): (r: int)
    ensures -1 <= r < |s| && (r >= 0 ==> s[r] == c)
    ensures forall i :: r < i < |s| ==> s[i] != c
  {
    if s == [] then -1
    else if s[|s| - 1] == c then |s| - 1
    else LastIndex(s[..|s| - 1], c)
  }

  /** `s` reads as local part, `@` at `at`, domain, `.` at `dot`, and two or more letters. */
  predicate EmailSplit(s: string, at: int, dot: int)
  {
    && 0 < at && at + 1 < dot && dot + 3 <= |s|
    && s[at] == '@' && s[dot] == '.'
    && All(s[..at], IsLocalChar) && All(s[at + 1..dot], IsDomainChar) && All(s[dot + 1..], IsLetter)
  }

  /** The language of `/^[A-Za-z0-9._%+-]+@[A-Za-z0-9.-]+\.[A-Za-z]{2,}$/`. */
  ghost predicate EmailShape(s: string)
  {
    exists at, dot :: EmailSplit(s, at, dot)
  }

  /** Neither class admits `@` and the suffix admits no `.`, so a split is unique:
      the `@` is the first one and the dot the last one. */
  lemma SplitIsUnique(s: string, at: int, dot: int)
    requires EmailSplit(s, at, dot)
    ensures at == FirstIndex(s, '@') && dot == LastIndex(s, '.')
  {
    forall i | 0 <= i < at
      ensures s[i] != '@'
    {
      assert s[..at][i] == s[i];
    }
    forall i | dot < i < |s|
      ensures s[i] != '.'
    {
      assert s[dot + 1..][i - dot - 1] == s[i];
    }
  }

  /** The email check, scanning for the first `@` and the last `.`; it accepts
      exactly the strings the pattern matches. */
  function EmailMatches(s: string): (r: bool)
    ensures r <==> EmailShape(s)
  {
    var r := EmailSplit(s, FirstIndex(s, '@'), LastIndex(s, '.'));
    assert EmailShape(s) ==> r by {
      if EmailShape(s) {
        var at, dot :| EmailSplit(s, at, dot);
        SplitIsUnique(s, at, dot);
      }
    }
    r
  }

  /** What each field demands of a non-empty value, stated as the patterns read;
      `password` is the form's password when the field is validated. */
  ghost predicate Accepts(name: string, value: string, password: string)
  {
    && value != ""
    && (name == "userName" ==> |value| >= 4 && IsUpper(value[0]) && forall i :: 1 <= i < |value| ==> IsLower(value[i]))
    && (name == "password" ==> 8 <= Utf16Length(value) <= 12)
    && (name == "confirmPassword" ==> value == password)
    && (name == "phoneNumber" ==> |value| == 10 && forall i :: 0 <= i < |value| ==> IsDigit(value[i]))
    && (name == "email" ==> EmailShape(value))
  }

  /** The message an empty value gets; the phone field reuses the confirm field's. */
  function RequiredMessage(name: string): string
  {
    if name == "userName" then NameRequired
    else if name == "password" then PasswordRequired
    else if name == "confirmPassword" || name == "phoneNumber" then ConfirmRequired
    else if name == "email" then EmailRequired
    else ContinentRequired
  }

  /** The message a non-empty value that breaks its field's rule gets; a non-empty
      continent is never rejected, so that field has none. */
  function MalformedMessage(name: string): string
  {
    if name == "userName" then NameMalformed
    else if name == "password" then PasswordLength
    else if name == "confirmPassword" then ConfirmMismatch
    else if name == "phoneNumber" then PhoneMalformed
    else if name == "email" then EmailMalformed
    else ""
  }

  datatype Verdict = Verdict(message: string, ok: bool)

  /** One case of `validate`: the message and flag for field `name`, or nothing for a
      name the switch does not know. */
  function Check(name: string, value: string, password: string): (r: Option<Verdict>)
    ensures r.None? <==> name !in FieldNames
    ensures r.Some? ==> (r.value.message == "" <==> r.value.ok)
    ensures r.Some? ==> (r.value.ok <==> Accepts(name, value, password))
    ensures r.Some? && value == "" ==> r.value.message == RequiredMessage(name)
    ensures r.Some? && value != "" && !r.value.ok ==> r.value.message == MalformedMessage(name)
  {
    if name !in FieldNames then None
    else if value == "" then Some(Verdict(RequiredMessage(name), false))
    else if name == "userName" then
      Some(if UserNameMatches(value) then Verdict("", true) else Verdict(NameMalformed, false))
    else if name == "password" then
      Some(if 8 <= Utf16Length(value) <= 12 then Verdict("", true) else Verdict(PasswordLength, false))
    else if name == "confirmPassword" then
      Some(if password == value then Verdict("", true) else Verdict(ConfirmMismatch, false))
    else if name == "phoneNumber" then
      Some(if PhoneMatches(value) then Verdict("", true) else Verdict(PhoneMalformed, false))
    else if name == "email" then
      Some(if EmailMatches(value) then Verdict("", true) else Verdict(EmailMalformed, false))
    else Some(Verdict("", true))
  }

  /** Four characters outside the Basic Multilingual Plane are eight code units, so
      they make a valid password, while four plain letters do not. */
  lemma AstralPassword(password: string)
    ensures Check("password", "\U{1D49C}\U{1D49C}\U{1D49C}\U{1D49C}", password) == Some(Verdict("", true))
    ensures Check("password", "Abcd", password) == Some(Verdict(PasswordLength, false))
  {
    assert Utf16Length("\U{1D49C}\U{1D49C}\U{1D49C}\U{1D49C}") == 8;
  }

  /** The posted user: the six form fields (the store assigns the id). */
  function UserOf(form: map<string, string>): (r: User)
    requires FieldNames <= form.Keys
    ensures r.userName == form["userName"] && r.password == form["password"]
    ensures r.confirmPassword == form["confirmPassword"] && r.phoneNumber == form["phoneNumber"]
    ensures r.email == form["email"] && r.continent == form["continent"]
  {
    User(0, form["userName"], form["password"], form["confirmPassword"],
         form["phoneNumber"], form["email"], form["continent"])
  }

  class RegistrationForm {
    const store: Store
    var form: map<string, string>
    var error: map<string, string>
    var valid: map<string, bool>
    var errorMsg: string
    var success: string

    /** The six inputs are always present in the form. */
    ghost predicate Valid()
      reads this, store
    {
      store.Valid() && FieldNames <= form.Keys
    }

    constructor (store: Store)
      requires store.Valid()
      ensures Valid() && this.store == store
      ensures form == map k | k in FieldNames :: ""
      ensures error == map k | k in FieldNames :: ""
      ensures valid == map k | k in FieldNames :: false
      ensures errorMsg == "" && success == ""
    {
      this.store := store;
      form := map k | k in FieldNames :: "";
      error := map k | k in FieldNames :: "";
      valid := map k | k in FieldNames :: false;
      errorMsg, success := "", "";
    }

    /** `validate`: sets the message and flag of field `name` alone; an unknown name
        changes nothing. */
    method Validate(name: string, value: string)
      requires Valid()
      modifies this`error, this`valid
      ensures Valid()
      ensures match Check(name, value, form["password"])
              case None => error == old(error) && valid == old(valid)
              case Some(v) => error == old(error)[name := v.message] && valid == old(valid)[name := v.ok]
    {
      var verdict := Check(name, value, form["password"]);
      if verdict.Some? {
        error := error[name := verdict.value.message];
        valid := valid[name := verdict.value.ok];
      }
    }

    /** `handleChange`: stores the value and validates it against the form as it was
        before this change. */
    method HandleChange(name: string, value: string)
      requires Valid()
      modifies this`form, this`error, this`valid
      ensures Valid()
      ensures form == old(form)[name := value]
      ensures name in FieldNames ==>
                var ok := Accepts(name, value, old(form)["password"]);
                && valid == old(valid)[name := ok]
                && error.Keys == old(error.Keys) + {name}
                && (forall k :: k in error && k != name ==> error[k] == old(error)[k])
                && (error[name] == "" <==> ok)
                && (value == "" ==> error[name] == RequiredMessage(name))
      ensures name !in FieldNames ==> error == old(error) && valid == old(valid)
    {
      Validate(name, value);
      form := form[name := value];
    }

    /** `handleSubmit`: posts the form without looking at the flags. */
    method HandleSubmit() returns (saved: Option<User>)
      requires Valid()
      modifies this`errorMsg, this`success, store`users, store`nextId
      ensures Valid()
      ensures saved.Some? ==> && saved.value == UserOf(form).(id := old(store.nextId))
                              && store.users == old(store.users) + [saved.value]
                              && success == Saved && errorMsg == old(errorMsg)
      ensures saved.None? ==> store.users == old(store.users) && errorMsg == SaveFailed && success == old(success)
    {
      saved := store.PostUser(UserOf(form));
      if saved.Some? {
        success := Saved;
      } else {
        errorMsg := SaveFailed;
      }
    }
  }
}
