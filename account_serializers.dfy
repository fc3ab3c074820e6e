/** Registration and profile serialization of accounts
    (server/core/accounts/serializers.py). Validated request data is a map from
    field name to its text; `create_user` of the account manager is not part of
    this model, so whether it raises is an argument. */
module AccountSerializers {
  import opened Common

  /** The fields RegisterSerializer accepts. */
  const RegisterFields: set<string> :=
    {"email", "password", "password2", "first_name", "last_name", "address", "username", "dob", "image"}

  /** The fields it declares optional. */
  const OptionalAtRegistration: set<string> := {"username", "dob", "image"}

  const PasswordMismatch := "Password fields didn't match."

  /** validate: the attributes unchanged, or an error keyed "password". */
  datatype Validated = Valid(attrs: map<string, string>) | Invalid(field: string, message: string)

  function Validate(attrs: map<string, string>): (r: Validated)
    requires "password" in attrs && "password2" in attrs
    ensures r.Invalid? <==> attrs["password"] != attrs["password2"]
    ensures r.Invalid? ==> r.field == "password" && r.message == PasswordMismatch
    ensures r.Valid? ==> r.attrs == attrs
  {
    if attrs["password"] != attrs["password2"] then Invalid("password", PasswordMismatch) else Valid(attrs)
  }

  /** The keyword arguments `create_user` receives: the data without password2
      and image. */
  function CreateUserArgs(data: map<string, string>): (args: map<string, string>)
    ensures "password2" !in args && "image" !in args
    ensures forall k :: k in data && k != "password2" && k != "image" ==> k in args && args[k] == data[k]
    ensures forall k :: k in args ==> k in data
  {
    data - {"password2", "image"}
  }

  /** The image create sets after creating the user: the popped image, when it is
      truthy. */
  function ImageToSet(data: map<string, string>): (r: Option<string>)
    ensures r.Some? <==> "image" in data && data["image"] != ""
    ensures r.Some? ==> r.value == data["image"]
  {
    if "image" in data && data["image"] != "" then Some(data["image"]) else None
  }

  /** A created account: the fields it was created with, its image, and how many
      times it has been saved since. */
  class Account {
    var fields: map<string, string>
    var image: Option<string>
    var saves: nat

    constructor(fields: map<string, string>)
      ensures this.fields == fields && image == None && saves == 0
    {
      this.fields := fields;
      image := None;
      saves := 0;
    }
  }

  /** The outcome of create: the new account, or a ValidationError carrying the
      text of the exception raised inside the try block. */
  datatype Created = Account(account: Account) | ValidationError(message: string)

  /** RegisterSerializer.create. `createUserError` is the text of the exception
      `create_user` raises, if it raises. */
  method Create(validatedData: map<string, string>, createUserError: Option<string>) returns (r: Created)
    ensures "password2" !in validatedData ==> r == ValidationError("'password2'")
    ensures "password2" in validatedData && createUserError.Some? ==> r == ValidationError(createUserError.value)
    ensures "password2" in validatedData && createUserError.None? ==>
      r.Account? && fresh(r.account) && r.account.fields == CreateUserArgs(validatedData)
      && r.account.image == ImageToSet(validatedData)
      && r.account.saves == (if ImageToSet(validatedData).Some? then 1 else 0)
  {
    if "password2" !in validatedData {
      // dict.pop without a default raises KeyError, whose text is the quoted key
      return ValidationError("'password2'");
    }
    var data := validatedData - {"password2"};
    var image: Option<string> := if "image" in data then Some(data["image"]) else None;
    data := data - {"image"};
    if createUserError.Some? {
      return ValidationError(createUserError.value);
    }
    var user := new Account(data);
    if image.Some? && image.value != "" {
      user.image := image;
      user.saves := user.saves + 1;
    }
    r := Account(user);
  }

  /** A calendar date. */
  datatype Date = Date(year: int, month: int, day: int)

  /** Lexicographic order of dates, as Python compares date objects and
      (month, day) tuples. */
  predicate Before(a: Date, b: Date) {
    a.year < b.year || (a.year == b.year && (a.month < b.month || (a.month == b.month && a.day < b.day)))
  }

  /** `(a.month, a.day) < (b.month, b.day)` as Python compares tuples. */
  predicate MonthDayBefore(a: Date, b: Date) {
    a.month < b.month || (a.month == b.month && a.day < b.day)
  }

  /** get_age: no date of birth means no age; otherwise the year difference, less
      one while this year's birthday (as a (month, day) pair) is still ahead. */
  function GetAge(dob: Option<Date>, today: Date): (age: Option<int>)
    ensures dob.None? <==> age.None?
  {
    match dob
    case None => None
    case Some(d) =>
      Some(today.year - d.year - (if MonthDayBefore(today, d) then 1 else 0))
  }

  /** The n-th birthday of someone born on d, as a date to compare with. */
  function Birthday(d: Date, n: int): Date {
    Date(d.year + n, d.month, d.day)
  }

  /** The age is the number of birthdays reached: the n-th birthday is on or before
      today exactly when n is at most the age. So the age is never negative for a
      date of birth on or before today, and negative for one after it. */
  lemma GetAgeMeaning(d: Date, today: Date)
    ensures var age := GetAge(Some(d), today).value;
      (forall n: int :: !Before(today, Birthday(d, n)) <==> n <= age)
      && (!Before(today, d) <==> age >= 0)
  {
    var age := GetAge(Some(d), today).value;
    assert Birthday(d, 0) == d;
    forall n: int ensures !Before(today, Birthday(d, n)) <==> n <= age {
    }
  }

  /** get_full_name: first and last name joined by a space, Python-stripped. */
  function FullName(first: string, last: string): (r: string)
    ensures |r| <= |first| + 1 + |last|
  {
    PyStrip(first + " " + last)
  }

  /** The full name is empty exactly when both names are blank; it never starts or
      ends with whitespace; names that are non-empty and carry no edge whitespace
      are joined unchanged by exactly one space. */
  lemma FullNameSpec(first: string, last: string)
    ensures FullName(first, last) == "" <==> AllSpace(first, IsPySpace) && AllSpace(last, IsPySpace)
    ensures var r := FullName(first, last); r == [] || (!IsPySpace(r[0]) && !IsPySpace(r[|r| - 1]))
    ensures first != [] && last != [] && !IsPySpace(first[0]) && !IsPySpace(last[|last| - 1]) ==>
      FullName(first, last) == first + " " + last
  {
    var s := first + " " + last;
    TrimEmptyIff(s, IsPySpace);
    TrimEdges(s, IsPySpace);
    assert s[|first|] == ' ';
    if AllSpace(s, IsPySpace) {
      forall i | 0 <= i < |first| ensures IsPySpace(first[i]) {
        assert first[i] == s[i];
      }
      forall i | 0 <= i < |last| ensures IsPySpace(last[i]) {
        assert last[i] == s[|first| + 1 + i];
      }
    }
    if first != [] && last != [] && !IsPySpace(first[0]) && !IsPySpace(last[|last| - 1]) {
      assert s[0] == first[0] && s[|s| - 1] == last[|last| - 1];
      NoEdgeSpaceTrimFixed(s, IsPySpace);
    }
  }

  /** The fields ProfileSerializer reads and writes, and those it only reads. */
  const ProfileFields: set<string> :=
    {"id", "email", "username", "first_name", "last_name", "address", "dob", "image", "date_joined", "last_login"}
  const ReadOnlyProfileFields: set<string> := {"id", "email", "date_joined", "last_login"}

  /** A profile update: every writable profile field present in the data takes its
      new value; read-only and unknown keys are ignored. */
  function UpdateProfile(profile: map<string, string>, data: map<string, string>): (r: map<string, string>)
    ensures r.Keys == profile.Keys + (data.Keys * (ProfileFields - ReadOnlyProfileFields))
  {
    map k | k in profile.Keys + (data.Keys * (ProfileFields - ReadOnlyProfileFields)) ::
      if k in data && k in ProfileFields - ReadOnlyProfileFields then data[k] else profile[k]
  }

  /** Read-only fields never change, and every field the data does not mention
      keeps its value; written fields take the data's value. */
  lemma UpdateProfileSpec(profile: map<string, string>, data: map<string, string>)
    ensures forall k :: k in ReadOnlyProfileFields && k in profile ==> UpdateProfile(profile, data)[k] == profile[k]
    ensures forall k :: k in profile && k !in data ==> UpdateProfile(profile, data)[k] == profile[k]
    ensures forall k :: k in data && k in ProfileFields && k !in ReadOnlyProfileFields ==>
      UpdateProfile(profile, data)[k] == data[k]
  {
  }
}
