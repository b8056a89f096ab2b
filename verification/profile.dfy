/**
 * The profile page: the form record and the investment flags, the single
 * field and single flag updates, loading a stored profile into the form,
 * the row the save writes, the avatar initials and the labels of the
 * investment check boxes.
 *
 * The auth lookup, the profile query and the upsert are parameters and
 * results: `CheckUser` receives what the two lookups return, `Save` returns
 * the payload it would write and `SaveFinished` receives the upsert's error.
 */
module Profile {
  import opened Wrappers
  import opened JsString

  datatype Field = FullName | Email | PhoneNumber | DateOfBirth | Address | Occupation | IncomeRange | ProfilePicture

  datatype FormData = FormData(
    fullName: string, email: string, phoneNumber: string, dateOfBirth: string,
    address: string, occupation: string, incomeRange: string, profilePicture: string)

  const EmptyForm: FormData := FormData("", "", "", "", "", "", "", "")

  function Get(form: FormData, field: Field): string {
    match field
    case FullName => form.fullName
    case Email => form.email
    case PhoneNumber => form.phoneNumber
    case DateOfBirth => form.dateOfBirth
    case Address => form.address
    case Occupation => form.occupation
    case IncomeRange => form.incomeRange
    case ProfilePicture => form.profilePicture
  }

  /** `{ ...prev, [name]: value }`: the named field takes the value, the others stay. */
  function SetField(form: FormData, field: Field, value: string): (r: FormData)
    ensures Get(r, field) == value
    ensures forall other :: other != field ==> Get(r, other) == Get(form, other)
  {
    match field
    case FullName => form.(fullName := value)
    case Email => form.(email := value)
    case PhoneNumber => form.(phoneNumber := value)
    case DateOfBirth => form.(dateOfBirth := value)
    case Address => form.(address := value)
    case Occupation => form.(occupation := value)
    case IncomeRange => form.(incomeRange := value)
    case ProfilePicture => form.(profilePicture := value)
  }

  /** Two forms that agree on every field are the same form. */
  lemma FormExtensional(a: FormData, b: FormData)
    requires forall field :: Get(a, field) == Get(b, field)
    ensures a == b
  {
    assert Get(a, FullName) == Get(b, FullName) && Get(a, Email) == Get(b, Email);
    assert Get(a, PhoneNumber) == Get(b, PhoneNumber) && Get(a, DateOfBirth) == Get(b, DateOfBirth);
    assert Get(a, Address) == Get(b, Address) && Get(a, Occupation) == Get(b, Occupation);
    assert Get(a, IncomeRange) == Get(b, IncomeRange) && Get(a, ProfilePicture) == Get(b, ProfilePicture);
  }

  /** Only the last of two edits of one field counts. */
  lemma SetFieldTwice(form: FormData, field: Field, a: string, b: string)
    ensures SetField(SetField(form, field, a), field, b) == SetField(form, field, b)
  {
    FormExtensional(SetField(SetField(form, field, a), field, b), SetField(form, field, b));
  }

  /** Writing a field's own value back changes nothing. */
  lemma SetFieldSame(form: FormData, field: Field)
    ensures SetField(form, field, Get(form, field)) == form
  {
    FormExtensional(SetField(form, field, Get(form, field)), form);
  }

  /** Edits of two different fields commute. */
  lemma SetFieldsCommute(form: FormData, f1: Field, v1: string, f2: Field, v2: string)
    requires f1 != f2
    ensures SetField(SetField(form, f1, v1), f2, v2) == SetField(SetField(form, f2, v2), f1, v1)
  {
    FormExtensional(SetField(SetField(form, f1, v1), f2, v2), SetField(SetField(form, f2, v2), f1, v1));
  }

  type Investments = map<string, bool>

  const InitialInvestments: Investments := map[
    "stocks" := false, "mutualFunds" := false, "crypto" := false,
    "realEstate" := false, "gold" := false, "others" := false]

  /** `prev[key]` read as a truth value: a missing key is `undefined`, which is falsy. */
  predicate Flag(inv: Investments, key: string) {
    key in inv && inv[key]
  }

  /** `{ ...prev, [key]: !prev[key] }`. */
  function Toggle(inv: Investments, key: string): (r: Investments)
    ensures r.Keys == inv.Keys + {key}
    ensures Flag(r, key) == !Flag(inv, key)
    ensures forall k :: k != key ==> Flag(r, k) == Flag(inv, k)
    ensures forall k :: k in inv && k != key ==> r[k] == inv[k]
  {
    inv[key := !Flag(inv, key)]
  }

  /** Toggling a flag twice restores the map when the key was there. */
  lemma ToggleTwice(inv: Investments, key: string)
    requires key in inv
    ensures Toggle(Toggle(inv, key), key) == inv
  {
    var r := Toggle(Toggle(inv, key), key);
    assert r.Keys == inv.Keys;
    assert forall k :: k in r ==> r[k] == inv[k];
  }

  /** A key that was missing ends up present and off after two toggles. */
  lemma ToggleTwiceAbsent(inv: Investments, key: string)
    requires key !in inv
    ensures Toggle(Toggle(inv, key), key) == inv[key := false]
  {
    var r := Toggle(Toggle(inv, key), key);
    assert r.Keys == inv[key := false].Keys;
    assert forall k :: k in r ==> r[k] == inv[key := false][k];
  }

  datatype User = User(id: string, email: Option<string>)

  /** The stored `profiles` row; `None` is a null column. */
  datatype ProfileRow = ProfileRow(
    fullName: Option<string>, phoneNumber: Option<string>, dateOfBirth: Option<string>,
    address: Option<string>, occupation: Option<string>, incomeRange: Option<string>,
    profilePicture: Option<string>, investments: Option<Investments>)

  /** `v || ""`. */
  function OrEmpty(v: Option<string>): (r: string)
    ensures v.Some? ==> r == v.value
    ensures v.None? ==> r == ""
  {
    if v.Some? && v.value != "" then v.value else ""
  }

  /** The column a form field is loaded from; the email comes from the signed-in user. */
  function Column(row: ProfileRow, user: User, field: Field): Option<string> {
    match field
    case FullName => row.fullName
    case Email => user.email
    case PhoneNumber => row.phoneNumber
    case DateOfBirth => row.dateOfBirth
    case Address => row.address
    case Occupation => row.occupation
    case IncomeRange => row.incomeRange
    case ProfilePicture => row.profilePicture
  }

  /** The form `checkUser` builds from a stored profile. */
  function FromRow(row: ProfileRow, user: User): (r: FormData)
    ensures forall field :: Get(r, field) == OrEmpty(Column(row, user, field))
  {
    FormData(
      OrEmpty(row.fullName), OrEmpty(user.email), OrEmpty(row.phoneNumber), OrEmpty(row.dateOfBirth),
      OrEmpty(row.address), OrEmpty(row.occupation), OrEmpty(row.incomeRange), OrEmpty(row.profilePicture))
  }

  /** What `handleSave` upserts; there is no email column. */
  datatype Payload = Payload(
    userId: string, fullName: string, phoneNumber: string, dateOfBirth: Option<string>,
    address: string, occupation: string, incomeRange: string, profilePicture: string,
    investments: Investments)

  function SavePayload(user: User, form: FormData, inv: Investments): (p: Payload)
    ensures p.userId == user.id && p.investments == inv
    ensures p.dateOfBirth.None? <==> form.dateOfBirth == ""
    ensures p.dateOfBirth.Some? ==> p.dateOfBirth.value == form.dateOfBirth
  {
    Payload(
      user.id, form.fullName, form.phoneNumber,
      if form.dateOfBirth != "" then Some(form.dateOfBirth) else None,
      form.address, form.occupation, form.incomeRange, form.profilePicture, inv)
  }

  /** The row the upsert leaves in the table. */
  function StoredRow(p: Payload): ProfileRow {
    ProfileRow(
      Some(p.fullName), Some(p.phoneNumber), p.dateOfBirth, Some(p.address),
      Some(p.occupation), Some(p.incomeRange), Some(p.profilePicture), Some(p.investments))
  }

  /** The email typed into the form is never part of what is saved. */
  lemma EmailNeverSaved(user: User, form: FormData, inv: Investments, email: string)
    ensures SavePayload(user, form.(email := email), inv) == SavePayload(user, form, inv)
  {
  }

  /**
   * Saving and loading again gives back the form and the flags, except that
   * the email is the signed-in user's.
   */
  lemma SaveLoadRoundTrip(user: User, form: FormData, inv: Investments)
    ensures FromRow(StoredRow(SavePayload(user, form, inv)), user) == form.(email := OrEmpty(user.email))
    ensures StoredRow(SavePayload(user, form, inv)).investments == Some(inv)
  {
    var loaded := FromRow(StoredRow(SavePayload(user, form, inv)), user);
    FormExtensional(loaded, form.(email := OrEmpty(user.email)));
  }

  /** `email.substring(0, 2).toUpperCase()`. */
  function Initials(email: string): (r: string)
    ensures |r| == if |email| < 2 then |email| else 2
    ensures forall i :: 0 <= i < |r| ==> r[i] == UpperChar(email[i])
  {
    ToUpper(if |email| < 2 then email else email[..2])
  }

  /** The avatar fallback: the initials of the user's email, or `"??"`. */
  function AvatarText(user: Option<User>): (r: string)
    ensures 1 <= |r| <= 2
    ensures !(user.Some? && user.value.email.Some? && user.value.email.value != "") ==> r == "??"
  {
    if user.Some? && user.value.email.Some? && user.value.email.value != "" then
      Initials(user.value.email.value)
    else "??"
  }

  predicate IsUpperAscii(c: char) {
    'A' <= c <= 'Z'
  }

  /** `key.replace(/([A-Z])/g, ' $1')`: a space before every upper-case ASCII letter. */
  function SpaceBeforeCaps(key: string): (r: string)
    ensures |r| >= |key|
    ensures key != [] ==> r != [] && r[|r| - 1] == key[|key| - 1]
    ensures key != [] && !IsUpperAscii(key[0]) ==> r[0] == key[0]
    ensures forall c :: c in r ==> c in key || c == ' '
    decreases |key|
  {
    if key == [] then []
    else
      var rest := SpaceBeforeCaps(key[..|key| - 1]);
      var c := key[|key| - 1];
      if IsUpperAscii(c) then rest + [' ', c] else rest + [c]
  }

  /** `s` with every space deleted. */
  function Unspace(s: string): (r: string)
    decreases |s|
  {
    if s == [] then []
    else
      var rest := Unspace(s[..|s| - 1]);
      if s[|s| - 1] == ' ' then rest else rest + [s[|s| - 1]]
  }

  /** The spaces the label transform inserts are all it adds. */
  lemma {:induction false} SpacingUndone(key: string)
    ensures Unspace(SpaceBeforeCaps(key)) == Unspace(key)
    decreases |key|
  {
    if key != [] {
      var init, c := key[..|key| - 1], key[|key| - 1];
      var rest := SpaceBeforeCaps(init);
      SpacingUndone(init);
      assert key == init + [c];
      UnspaceSnoc(init, c);
      if IsUpperAscii(c) {
        assert rest + [' ', c] == (rest + [' ']) + [c];
        UnspaceSnoc(rest + [' '], c);
        UnspaceSnoc(rest, ' ');
      } else {
        UnspaceSnoc(rest, c);
      }
    }
  }

  lemma UnspaceSnoc(x: string, c: char)
    ensures Unspace(x + [c]) == if c == ' ' then Unspace(x) else Unspace(x) + [c]
  {
    assert (x + [c])[..|x|] == x;
  }

  /** A string without spaces is its own `Unspace`. */
  lemma {:induction false} UnspaceNoSpace(s: string)
    requires ' ' !in s
    ensures Unspace(s) == s
    decreases |s|
  {
    if s != [] {
      assert ' ' !in s[..|s| - 1] by {
        assert forall i :: 0 <= i < |s| - 1 ==> s[..|s| - 1][i] == s[i];
      }
      UnspaceNoSpace(s[..|s| - 1]);
    }
  }

  /** The check box label of an investment key. */
  function Label(key: string): string {
    Trim(SpaceBeforeCaps(key))
  }

  /**
   * A camel-case key (no whitespace, not starting with a capital) is split
   * before each capital and nothing is trimmed; deleting the spaces gives the
   * key back.
   */
  lemma CamelCaseLabel(key: string)
    requires forall i :: 0 <= i < |key| ==> !IsWhitespace(key[i])
    requires key != [] ==> !IsUpperAscii(key[0])
    ensures Label(key) == SpaceBeforeCaps(key)
    ensures Unspace(Label(key)) == key
  {
    var r := SpaceBeforeCaps(key);
    if key != [] {
      assert !IsWhitespace(r[0]) && !IsWhitespace(r[|r| - 1]) by {
        assert r[0] == key[0] && r[|r| - 1] == key[|key| - 1];
      }
    }
    TrimNoEdges(r);
    SpacingUndone(key);
    assert ' ' !in key by {
      assert IsWhitespace(' ');
    }
    UnspaceNoSpace(key);
  }

  predicate IsLowerAscii(c: char) {
    'a' <= c <= 'z'
  }

  /** The transform works character by character. */
  lemma {:induction false} SpaceBeforeCapsAppend(x: string, y: string)
    ensures SpaceBeforeCaps(x + y) == SpaceBeforeCaps(x) + SpaceBeforeCaps(y)
    decreases |y|
  {
    if y == [] {
      assert x + y == x;
    } else {
      var y' := y[..|y| - 1];
      assert (x + y)[..|x + y| - 1] == x + y';
      SpaceBeforeCapsAppend(x, y');
    }
  }

  /** A lower-case word is left alone. */
  lemma {:induction false} LowerUnchanged(w: string)
    requires forall i :: 0 <= i < |w| ==> IsLowerAscii(w[i])
    ensures SpaceBeforeCaps(w) == w
    decreases |w|
  {
    if w != [] {
      LowerUnchanged(w[..|w| - 1]);
    }
  }

  /** Two lower-case words joined by a capital get one space, before the capital. */
  lemma TwoWordSpaced(a: string, c: char, b: string)
    requires IsUpperAscii(c)
    requires forall i :: 0 <= i < |a| ==> IsLowerAscii(a[i])
    requires forall i :: 0 <= i < |b| ==> IsLowerAscii(b[i])
    ensures SpaceBeforeCaps(a + [c] + b) == a + [' ', c] + b
  {
    SpaceBeforeCapsAppend(a + [c], b);
    SpaceBeforeCapsAppend(a, [c]);
    LowerUnchanged(a);
    LowerUnchanged(b);
    assert SpaceBeforeCaps([c]) == [' ', c] by {
      assert [c][..0] == [];
    }
  }

  /** ... and the label is that spaced text, trimming nothing. */
  lemma TwoWordLabel(a: string, c: char, b: string)
    requires a != [] && IsUpperAscii(c)
    requires forall i :: 0 <= i < |a| ==> IsLowerAscii(a[i])
    requires forall i :: 0 <= i < |b| ==> IsLowerAscii(b[i])
    ensures Label(a + [c] + b) == a + [' ', c] + b
  {
    TwoWordSpaced(a, c, b);
    var r := a + [' ', c] + b;
    assert !IsWhitespace(r[0]) by {
      assert r[0] == a[0];
    }
    assert !IsWhitespace(r[|r| - 1]) by {
      if b != [] {
        assert r[|r| - 1] == b[|b| - 1];
      }
    }
    TrimNoEdges(r);
  }

  /** A lower-case word is its own label. */
  lemma OneWordLabel(w: string)
    requires forall i :: 0 <= i < |w| ==> IsLowerAscii(w[i])
    ensures Label(w) == w
  {
    assert forall i :: 0 <= i < |w| ==> !IsWhitespace(w[i]);
    CamelCaseLabel(w);
    LowerUnchanged(w);
  }

  /** The four one-word investment keys are their own labels. */
  lemma OneWordKeyLabels(key: string)
    requires key in {"stocks", "crypto", "gold", "others"}
    ensures Label(key) == key
  {
    if key == "stocks" {
      OneWordLabel(key);
    } else if key == "crypto" {
      OneWordLabel(key);
    } else if key == "gold" {
      OneWordLabel(key);
    } else {
      OneWordLabel(key);
    }
  }

  /** The labels of the two two-word keys: split before their capital. */
  lemma MutualFundsLabel(key: string)
    requires key == "mutualFunds"
    ensures Label(key) == "mutual Funds"
  {
    assert key == "mutual" + ['F'] + "unds";
    TwoWordLabel("mutual", 'F', "unds");
    assert "mutual" + [' ', 'F'] + "unds" == "mutual Funds";
  }

  lemma RealEstateLabel(key: string)
    requires key == "realEstate"
    ensures Label(key) == "real Estate"
  {
    assert key == "real" + ['E'] + "state";
    TwoWordLabel("real", 'E', "state");
    assert "real" + [' ', 'E'] + "state" == "real Estate";
  }

  /** The six investment keys and the check box label each one gets. */
  lemma InvestmentLabels(key: string)
    requires key in InitialInvestments
    ensures key in {"stocks", "mutualFunds", "crypto", "realEstate", "gold", "others"}
    ensures key == "mutualFunds" ==> Label(key) == "mutual Funds"
    ensures key == "realEstate" ==> Label(key) == "real Estate"
    ensures key != "mutualFunds" && key != "realEstate" ==> Label(key) == key
  {
    if key == "mutualFunds" {
      MutualFundsLabel(key);
    } else if key == "realEstate" {
      RealEstateLabel(key);
    } else {
      OneWordKeyLabels(key);
    }
  }

  datatype Notice = Saved | SaveFailed(message: string)

  class ProfilePage {
    var loading: bool
    var user: Option<User>
    var formData: FormData
    var investments: Investments
    var navigatedHome: bool
    var notices: seq<Notice>

    constructor ()
      ensures !loading && user.None? && formData == EmptyForm && investments == InitialInvestments
      ensures !navigatedHome && notices == []
    {
      loading, user, formData, investments := false, None, EmptyForm, InitialInvestments;
      navigatedHome, notices := false, [];
    }

    /**
     * `checkUser`, given the signed-in user and the stored profile: without a
     * user the page goes home and loads nothing; with a profile the form is
     * loaded from it (and the flags when it has some); without one only the
     * email changes.
     */
    method CheckUser(authUser: Option<User>, profile: Option<ProfileRow>)
      modifies this`user, this`formData, this`investments, this`navigatedHome
      ensures authUser.None? ==>
                navigatedHome && user == old(user) && formData == old(formData) && investments == old(investments)
      ensures authUser.Some? ==> user == authUser && navigatedHome == old(navigatedHome)
      ensures authUser.Some? && profile.Some? ==>
                && formData == FromRow(profile.value, authUser.value)
                && investments == (if profile.value.investments.Some? then profile.value.investments.value else old(investments))
      ensures authUser.Some? && profile.None? ==>
                formData == SetField(old(formData), Email, OrEmpty(authUser.value.email)) && investments == old(investments)
    {
      if authUser.None? {
        navigatedHome := true;
        return;
      }
      user := authUser;
      match profile {
        case Some(row) =>
          formData := FromRow(row, authUser.value);
          if row.investments.Some? {
            investments := row.investments.value;
          }
        case None =>
          formData := formData.(email := OrEmpty(authUser.value.email));
      }
    }

    /** `handleInputChange`. */
    method InputChange(field: Field, value: string)
      modifies this`formData
      ensures formData == SetField(old(formData), field, value)
    {
      formData := SetField(formData, field, value);
    }

    /** The upload handler, once the file has been read as a data URL. */
    method PictureLoaded(dataUrl: string)
      modifies this`formData
      ensures formData == SetField(old(formData), ProfilePicture, dataUrl)
    {
      formData := formData.(profilePicture := dataUrl);
    }

    /** `handleInvestmentChange`. */
    method InvestmentChange(key: string)
      modifies this`investments
      ensures investments == Toggle(old(investments), key)
    {
      investments := investments[key := !(key in investments && investments[key])];
    }

    /** `handleSave` up to the upsert: nothing without a user, else the payload. */
    method Save() returns (payload: Option<Payload>)
      modifies this`loading
      ensures user.None? ==> payload.None? && loading == old(loading)
      ensures user.Some? ==> payload == Some(SavePayload(user.value, formData, investments)) && loading
    {
      if user.None? {
        return None;
      }
      loading := true;
      payload := Some(SavePayload(user.value, formData, investments));
    }

    /** The rest of `handleSave`: the success or error notice, then `finally`. */
    method SaveFinished(error: Option<string>)
      modifies this`loading, this`notices
      ensures !loading
      ensures notices == old(notices) + [
                if error.None? then Saved
                else SaveFailed(if error.value != "" then error.value else "Failed to update profile")]
    {
      match error {
        case None => notices := notices + [Saved];
        case Some(message) =>
          notices := notices + [SaveFailed(if message != "" then message else "Failed to update profile")];
      }
      loading := false;
    }
  }
}
