/** The pydantic records of src/custom_types.py: the Teacher roster entry and
    the UserData built from the Telegram user of each event, with the field
    normalisations its validators perform and the equality and hash it
    defines. The record creation date (a clock value) is not modelled. */
module CustomTypes {

  import opened Values
  import opened Strings

  /** pydantic's PositiveInt. */
  type PositiveInt = n: int | n > 0 witness 1

  datatype Teacher = Teacher(id: PositiveInt, name: string, disciplines: seq<string>)

  datatype UserData = UserData(
    id: PositiveInt,
    firstName: Option<string>,
    lastName: Option<string>,
    fullName: Option<string>,
    username: Option<string>,
    isPremium: Option<bool>,
    languageCode: string)

  /** The Python truthiness of a `str | None`. */
  predicate Filled(o: Option<string>) {
    o.Some? && o.value != ""
  }

  /** The `full_name` validator: the first and last names joined by a space
      and stripped, when either is filled; otherwise the supplied value. */
  function SetFullName(v: Option<string>, first: Option<string>, last: Option<string>): Option<string> {
    if Filled(first) || Filled(last) then
      Some(Strip((if Filled(first) then first.value else "") + " " + (if Filled(last) then last.value else "")))
    else v
  }

  const TelegramPrefix: string := "https://t.me/"

  /** The `username` validator: a link to the user's Telegram profile. */
  function SetUsername(v: Option<string>): Option<string> {
    match v
    case None => None
    case Some(s) => if StartsWith(s, TelegramPrefix) then v else Some(TelegramPrefix + s)
  }

  /** The `language_code` validator: a missing or empty code becomes "". */
  function SetLanguageCode(v: Option<string>): (r: string)
    ensures r == "" <==> !Filled(v)
    ensures Filled(v) ==> r == v.value
  {
    if Filled(v) then v.value else ""
  }

  /** Building a UserData: the id must be a positive integer, and the three
      validators normalise their fields. */
  function MakeUserData(id: int, first: Option<string>, last: Option<string>, full: Option<string>,
                        username: Option<string>, isPremium: Option<bool>, languageCode: Option<string>): (r: Result<UserData>)
    ensures r.Ok? <==> id > 0
    ensures r.Err? ==> r.error == ValidationError
    ensures r.Ok? ==>
      && r.value.id == id && r.value.firstName == first && r.value.lastName == last
      && r.value.fullName == SetFullName(full, first, last) && r.value.username == SetUsername(username)
      && r.value.isPremium == isPremium && r.value.languageCode == SetLanguageCode(languageCode)
  {
    if id <= 0 then Err(ValidationError)
    else Ok(UserData(id, first, last, SetFullName(full, first, last), SetUsername(username),
                     isPremium, SetLanguageCode(languageCode)))
  }

  /** `compare_fields`. */
  function CompareFields(u: UserData): (Option<string>, Option<string>, Option<bool>, string) {
    (u.fullName, u.username, u.isPremium, u.languageCode)
  }

  /** `__eq__`. */
  predicate Equal(a: UserData, b: UserData) {
    CompareFields(a) == CompareFields(b)
  }

  /** The tuple `__hash__` hashes, as written: it includes the id. */
  function HashKey(u: UserData): (PositiveInt, (Option<string>, Option<string>, Option<bool>, string)) {
    (u.id, CompareFields(u))
  }

  /** A hash key that agrees with `__eq__`: the compared fields alone. */
  function ConsistentHashKey(u: UserData): (Option<string>, Option<string>, Option<bool>, string) {
    CompareFields(u)
  }

  // ---- full_name ----

  lemma StripLeftOfAllSpace(x: string)
    requires AllSpace(x)
    ensures StripLeft(x) == []
    decreases |x|
  {
    if x != [] {
      assert AllSpace(x[1..]) by {
        forall i | 0 <= i < |x[1..]| ensures IsSpace(x[1..][i]) {
          assert x[1..][i] == x[i + 1];
        }
      }
      StripLeftOfAllSpace(x[1..]);
    }
  }

  lemma {:induction false} StripLeftAppend(x: string, y: string)
    requires !AllSpace(x)
    ensures StripLeft(x + y) == StripLeft(x) + y
    decreases |x|
  {
    assert x != [];
    if IsSpace(x[0]) {
      assert !AllSpace(x[1..]) by {
        var i :| 0 <= i < |x| && !IsSpace(x[i]);
        assert x[1..][i - 1] == x[i];
      }
      StripLeftAppend(x[1..], y);
      assert (x + y)[1..] == x[1..] + y;
    }
  }

  /** A trailing space does not change the stripped result. */
  lemma StripTrailingSpace(x: string)
    ensures Strip(x + " ") == Strip(x)
  {
    if AllSpace(x) {
      StripLeftOfAllSpace(x);
      assert AllSpace(x + " ") by {
        forall i | 0 <= i < |x + " "| ensures IsSpace((x + " ")[i]) {
          if i < |x| { assert (x + " ")[i] == x[i]; }
        }
      }
      StripLeftOfAllSpace(x + " ");
    } else {
      StripLeftAppend(x, " ");
      var l := StripLeft(x);
      assert (l + " ")[..|l + " "| - 1] == l;
    }
  }

  /** A leading space does not change the stripped result. */
  lemma StripLeadingSpace(x: string)
    ensures Strip(" " + x) == Strip(x)
  {
    assert (" " + x)[1..] == x;
  }

  /** With a first name only, the full name is the stripped first name; with
      a last name only, the stripped last name; with both, the stripped
      "first last". The result never begins or ends with whitespace. */
  lemma FullNameFromNames(v: Option<string>, first: Option<string>, last: Option<string>)
    requires Filled(first) || Filled(last)
    ensures SetFullName(v, first, last).Some?
    ensures Filled(first) && !Filled(last) ==> SetFullName(v, first, last) == Some(Strip(first.value))
    ensures !Filled(first) && Filled(last) ==> SetFullName(v, first, last) == Some(Strip(last.value))
    ensures Filled(first) && Filled(last) ==> SetFullName(v, first, last) == Some(Strip(first.value + " " + last.value))
    ensures var f := SetFullName(v, first, last).value; f == [] || (!IsSpace(f[0]) && !IsSpace(f[|f| - 1]))
  {
    if Filled(first) && !Filled(last) {
      var f := first.value;
      assert f + " " + "" == f + " ";
      StripTrailingSpace(f);
    }
    if !Filled(first) && Filled(last) {
      assert "" + " " + last.value == " " + last.value;
      StripLeadingSpace(last.value);
    }
    StripSpec((if Filled(first) then first.value else "") + " " + (if Filled(last) then last.value else ""));
  }

  /** When neither name is filled the supplied full name is kept. */
  lemma FullNameKeepsSupplied(v: Option<string>, first: Option<string>, last: Option<string>)
    requires !Filled(first) && !Filled(last)
    ensures SetFullName(v, first, last) == v
  {
  }

  // ---- username ----

  /** None stays None; any other username ends up starting with the
      Telegram prefix, and is changed only by prefixing it. */
  lemma UsernameNormalised(v: Option<string>)
    ensures SetUsername(v).None? <==> v.None?
    ensures v.Some? ==> StartsWith(SetUsername(v).value, TelegramPrefix)
    ensures v.Some? && StartsWith(v.value, TelegramPrefix) ==> SetUsername(v) == v
    ensures v.Some? && !StartsWith(v.value, TelegramPrefix) ==> SetUsername(v) == Some(TelegramPrefix + v.value)
  {
    if v.Some? && !StartsWith(v.value, TelegramPrefix) {
      assert (TelegramPrefix + v.value)[..|TelegramPrefix|] == TelegramPrefix;
    }
  }

  /** Normalising a username twice is the same as once. */
  lemma UsernameIdempotent(v: Option<string>)
    ensures SetUsername(SetUsername(v)) == SetUsername(v)
  {
    UsernameNormalised(v);
  }

  // ---- equality and hash ----

  /** Equality looks only at the full name, username, premium flag and
      language code: the id and the first and last names are ignored. */
  lemma EqualityIgnoresIdentity(a: UserData, b: UserData)
    requires a.fullName == b.fullName && a.username == b.username
    requires a.isPremium == b.isPremium && a.languageCode == b.languageCode
    ensures Equal(a, b)
  {
  }

  /** As written, two equal UserData values can have different hash keys. */
  lemma HashDisagreesWithEquality()
    ensures var a := UserData(1, Some("Ana"), None, Some("Ana"), None, None, "");
            var b := a.(id := 2);
            Equal(a, b) && HashKey(a) != HashKey(b)
  {
  }

  /** The corrected hash key agrees with equality. */
  lemma ConsistentHashAgreesWithEquality(a: UserData, b: UserData)
    requires Equal(a, b)
    ensures ConsistentHashKey(a) == ConsistentHashKey(b)
  {
  }
}
