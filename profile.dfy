/** The profile screen's display formatters: initials, full name, the user-id label and the
    two address lines. Each one trims the user's fields and falls back to a placeholder,
    so none of them ever renders an empty string. */
module Profile {
  import opened Wrappers
  import opened JsText
  import opened AuthSlice

  const NoInitials := "U"
  const NoName := "User"
  const IdPrefix := "User ID: #"
  const NoId := "User ID: —"
  const Dash := "—"

  /** `s?.[0] ?? ''`: the first character, or nothing. */
  function FirstChar(s: string): (r: string)
    ensures |r| <= 1
    ensures r == [] <==> s == []
    ensures r != [] ==> r[0] == s[0]
  {
    if s == [] then "" else [s[0]]
  }

  /** `user?.first_name?.trim() ?? ''` */
  function FirstName(user: Option<AuthUser>): string {
    if user.Some? then Trim(user.value.firstName) else ""
  }

  /** `user?.last_name?.trim() ?? ''` */
  function LastName(user: Option<AuthUser>): string {
    if user.Some? then Trim(user.value.lastName) else ""
  }

  /** `user?.<field>?.trim() ?? ''` for an optional field. */
  function TrimmedField(f: Option<string>): string {
    if f.Some? then Trim(f.value) else ""
  }

  /** A trimmed string: empty, or neither end is whitespace. */
  predicate Trimmed(s: string) {
    s == [] || (!IsWhitespace(s[0]) && !IsWhitespace(s[|s| - 1]))
  }

  lemma TrimIsTrimmed(s: string)
    ensures Trimmed(Trim(s))
    ensures Trim(s) == [] <==> IsBlank(s)
  {
    TrimShape(s);
    TrimEmptyIffBlank(s);
  }

  /** `initials`: the first characters of the trimmed first and last names, upper-cased;
      `U` when both names are blank or there is no user. Because those characters are
      never whitespace, the second `trim` removes nothing. */
  function Initials(user: Option<AuthUser>): (r: string)
    ensures r != []
    ensures FirstName(user) == [] && LastName(user) == [] ==> r == NoInitials
    ensures FirstName(user) != [] || LastName(user) != [] ==>
      r == ToUpper(FirstChar(FirstName(user)) + FirstChar(LastName(user))) && 1 <= |r| <= 2
    ensures user.Some? ==> (r == NoInitials <==>
      (IsBlank(user.value.firstName) && IsBlank(user.value.lastName))
      || ToUpper(FirstChar(FirstName(user)) + FirstChar(LastName(user))) == NoInitials)
  {
    var a := FirstChar(FirstName(user));
    var b := FirstChar(LastName(user));
    InitialsNeedNoTrim(user);
    var raw := Trim(a + b);
    if raw != [] then ToUpper(raw) else NoInitials
  }

  /** The concatenated initials are already their own trim, and blank only when both
      names are. */
  lemma InitialsNeedNoTrim(user: Option<AuthUser>)
    ensures Trim(FirstChar(FirstName(user)) + FirstChar(LastName(user)))
      == FirstChar(FirstName(user)) + FirstChar(LastName(user))
    ensures user.Some? ==> (FirstName(user) == [] <==> IsBlank(user.value.firstName))
    ensures user.Some? ==> (LastName(user) == [] <==> IsBlank(user.value.lastName))
  {
    if user.Some? {
      TrimIsTrimmed(user.value.firstName);
      TrimIsTrimmed(user.value.lastName);
    }
    var a := FirstChar(FirstName(user));
    var b := FirstChar(LastName(user));
    TrimOfTrimmed(a + b);
  }

  /** `fullName`: the trimmed names joined by a space and trimmed again, or `User`. The
      outer `trim` only drops the space when one of the names is blank. */
  function FullName(user: Option<AuthUser>): (r: string)
    ensures r != []
    ensures FirstName(user) != [] && LastName(user) != [] ==> r == FirstName(user) + " " + LastName(user)
    ensures FirstName(user) != [] && LastName(user) == [] ==> r == FirstName(user)
    ensures FirstName(user) == [] && LastName(user) != [] ==> r == LastName(user)
    ensures FirstName(user) == [] && LastName(user) == [] ==> r == NoName
  {
    FullNameTrim(user);
    var name := Trim(FirstName(user) + " " + LastName(user));
    if name != [] then name else NoName
  }

  /** What the outer `trim` of `fullName` does, case by case. */
  lemma FullNameTrim(user: Option<AuthUser>)
    ensures var first, last := FirstName(user), LastName(user);
      Trim(first + " " + last)
      == if first != [] && last != [] then first + " " + last
         else if first != [] then first
         else last
  {
    var first, last := FirstName(user), LastName(user);
    if user.Some? {
      TrimIsTrimmed(user.value.firstName);
      TrimIsTrimmed(user.value.lastName);
    }
    assert IsBlank(" ") && IsBlank("");
    if first != [] && last != [] {
      TrimOfTrimmed(first + " " + last);
    } else if first != [] {
      TrimPadded("", first, " ");
      assert "" + first + " " == first + " " + last;
    } else if last != [] {
      TrimPadded(" ", last, "");
      assert " " + last + "" == first + " " + last;
    } else {
      assert first + " " + last == " ";
      TrimEmptyIffBlank(" ");
    }
  }

  /** `userIdLabel`: `user_id` is shown unless it is falsy, i.e. there is no user or the
      id is 0. */
  function UserIdLabel(user: Option<AuthUser>): (r: string)
    ensures r == NoId <==> user.None? || user.value.userId == 0
    ensures user.Some? && user.value.userId != 0 ==>
      |r| > |IdPrefix| && r[..|IdPrefix|] == IdPrefix && r[|IdPrefix|..] == IntToString(user.value.userId)
  {
    if user.Some? && user.value.userId != 0 then
      var r := IdPrefix + IntToString(user.value.userId);
      assert r[9] == '#' != NoId[9];
      r
    else NoId
  }

  /** The id shown in the label reads back as the user's id. */
  lemma UserIdLabelReadsBack(user: AuthUser)
    requires user.userId > 0
    ensures var digits := UserIdLabel(Some(user))[|IdPrefix|..];
      AllDigits(digits) && DecimalValue(digits) == user.userId
  {
    NatToStringRoundTrip(user.userId);
  }

  /** `.filter(Boolean)` on strings: the non-empty ones, in order. */
  function NonEmpty(xs: seq<string>): (r: seq<string>)
    ensures |r| <= |xs|
    ensures forall i | 0 <= i < |r| :: r[i] != []
    ensures r == [] <==> forall i | 0 <= i < |xs| :: xs[i] == []
  {
    if xs == [] then []
    else if xs[0] == [] then NonEmpty(xs[1..])
    else [xs[0]] + NonEmpty(xs[1..])
  }

  /** Filtering then joining two strings, case by case. */
  lemma JoinNonEmptyPair(x: string, y: string, sep: string)
    ensures Join(NonEmpty([x, y]), sep)
      == if x != [] && y != [] then x + sep + y
         else if x != [] then x
         else y
  {
    assert [x, y][1..] == [y];
    assert [y][1..] == [];
    if x != [] && y != [] {
      assert NonEmpty([x, y]) == [x, y];
      assert [x, y][1..] == [y];
    }
  }

  /** The right-hand part of the top address line: `[state, zip].filter(Boolean).join(' ')`. */
  function StateZip(user: Option<AuthUser>): (r: string)
    ensures var state, zip := TrimmedField(StateOf(user)), TrimmedField(ZipOf(user));
      r == if state != [] && zip != [] then state + " " + zip
           else if state != [] then state
           else zip
  {
    var state, zip := TrimmedField(StateOf(user)), TrimmedField(ZipOf(user));
    JoinNonEmptyPair(state, zip, " ");
    Join(NonEmpty([state, zip]), " ")
  }

  function Line1Of(user: Option<AuthUser>): Option<string> {
    if user.Some? then user.value.addressLine1 else None
  }

  function CityOf(user: Option<AuthUser>): Option<string> {
    if user.Some? then user.value.city else None
  }

  function StateOf(user: Option<AuthUser>): Option<string> {
    if user.Some? then user.value.state else None
  }

  function ZipOf(user: Option<AuthUser>): Option<string> {
    if user.Some? then user.value.zip else None
  }

  /** `addressLineTop`: the trimmed first address line and the state-and-zip part, each
      only when non-empty, joined by a comma; a dash when all three fields are blank. */
  function AddressLineTop(user: Option<AuthUser>): (r: string)
    ensures r != []
    ensures var left, right := TrimmedField(Line1Of(user)), StateZip(user);
      r == if left != [] && right != [] then left + ", " + right
           else if left != [] then left
           else if right != [] then right
           else Dash
  {
    var left := TrimmedField(Line1Of(user));
    var right := StateZip(user);
    JoinNonEmptyPair(left, right, ", ");
    var combined := Join(NonEmpty([left, right]), ", ");
    if combined != [] then combined else Dash
  }

  /** A field trims to nothing exactly when it is missing or blank. */
  lemma TrimmedFieldEmpty(f: Option<string>)
    ensures TrimmedField(f) == [] <==> f.None? || IsBlank(f.value)
  {
    if f.Some? {
      TrimEmptyIffBlank(f.value);
    }
  }

  /** `addressLineBottom`: the trimmed city, or a dash. */
  function AddressLineBottom(user: Option<AuthUser>): (r: string)
    ensures r != []
    ensures r == Dash || r == TrimmedField(CityOf(user))
    ensures TrimmedField(CityOf(user)) != [] ==> r == TrimmedField(CityOf(user))
    ensures CityOf(user).None? || IsBlank(CityOf(user).value) ==> r == Dash
  {
    TrimmedFieldEmpty(CityOf(user));
    var city := TrimmedField(CityOf(user));
    if city != [] then city else Dash
  }
}
