/**
 * The profile tab of the user settings page (`UserAccountTab`): the
 * title-casing of the displayed name, the validation gate of the submit
 * handler, and the picture selection.  The redux actions the component
 * dispatches are recorded in the order they are dispatched; the two
 * phone validators are not shown in the repository and are parameters.
 */
module Account {
  import opened Wrappers

  // ---------------------------------------------------------------------
  // `toTitleCase`: `str.replace(/\w\S*/g, txt => upper(txt[0]) + lower(txt[1..]))`
  // ---------------------------------------------------------------------

  /** `\w` without the `u` flag. */
  predicate IsWordChar(c: char)
  {
    'a' <= c <= 'z' || 'A' <= c <= 'Z' || '0' <= c <= '9' || c == '_'
  }

  /** `\s`: the ECMAScript white space and line terminators. */
  predicate IsSpace(c: char)
  {
    c == ' ' || ('\t' <= c <= '\r') || c == '\U{A0}' || c == '\U{1680}' ||
    ('\U{2000}' <= c <= '\U{200A}') || c == '\U{2028}' || c == '\U{2029}' ||
    c == '\U{202F}' || c == '\U{205F}' || c == '\U{3000}' || c == '\U{FEFF}'
  }

  /** `toUpperCase` of a `\w` character. */
  function UpperWord(c: char): char
  {
    if 'a' <= c <= 'z' then (c as int - 32) as char else c
  }

  /** `toLowerCase` of one character up to U+00FF. */
  function LowerChar(c: char): char
  {
    if 'A' <= c <= 'Z' || ('\U{C0}' <= c <= '\U{DE}' && c != '\U{D7}') then (c as int + 32) as char else c
  }

  function Lower(s: string): (r: string)
    ensures |r| == |s| && forall i :: 0 <= i < |s| ==> r[i] == LowerChar(s[i])
  {
    if s == [] then [] else [LowerChar(s[0])] + Lower(s[1..])
  }

  /** The length of the run of non-space characters `s` starts with. */
  function NonSpaceRun(s: string): (n: nat)
    ensures n <= |s| && (forall i :: 0 <= i < n ==> !IsSpace(s[i])) && (n < |s| ==> IsSpace(s[n]))
  {
    if s != [] && !IsSpace(s[0]) then 1 + NonSpaceRun(s[1..]) else 0
  }

  /**
   * The global replace: at a word character a match runs up to the next
   * white space and is re-cased; any other character is copied and the
   * scan moves on.
   */
  function TitleCase(s: string): (r: string)
    ensures |r| == |s|
    decreases |s|
  {
    if s == [] then []
    else if IsWordChar(s[0]) then
      var n := 1 + NonSpaceRun(s[1..]);
      [UpperWord(s[0])] + Lower(s[1..n]) + TitleCase(s[n..])
    else [s[0]] + TitleCase(s[1..])
  }

  /** White space is copied as it is. */
  lemma {:induction false} TitleCaseKeepsSpaces(s: string)
    ensures forall i :: 0 <= i < |s| && IsSpace(s[i]) ==> TitleCase(s)[i] == s[i]
    decreases |s|
  {
    if s != [] {
      if IsWordChar(s[0]) {
        var n := 1 + NonSpaceRun(s[1..]);
        TitleCaseKeepsSpaces(s[n..]);
        var r := TitleCase(s);
        forall i | 0 <= i < |s| && IsSpace(s[i])
          ensures r[i] == s[i]
        {
          assert i >= n;
          assert r[i] == TitleCase(s[n..])[i - n];
        }
      } else {
        TitleCaseKeepsSpaces(s[1..]);
        var r := TitleCase(s);
        forall i | 0 <= i < |s| && IsSpace(s[i])
          ensures r[i] == s[i]
        {
          if i > 0 {
            assert r[i] == TitleCase(s[1..])[i - 1];
          }
        }
      }
    }
  }

  /**
   * The first character of each word is in upper case and the rest in
   * lower case: a word is a word character with the non-space run after it.
   */
  lemma TitleCaseOfWord(w: string, rest: string)
    requires |w| > 0 && IsWordChar(w[0]) && (forall i :: 0 <= i < |w| ==> !IsSpace(w[i]))
    requires rest == [] || IsSpace(rest[0])
    ensures TitleCase(w + rest) == [UpperWord(w[0])] + Lower(w[1..]) + TitleCase(rest)
  {
    var s := w + rest;
    assert s[1..] == w[1..] + rest;
    NonSpaceRunOfWord(w[1..], rest);
    assert s[1..|w|] == w[1..];
    assert s[|w|..] == rest;
  }

  lemma {:induction false} NonSpaceRunOfWord(w: string, rest: string)
    requires forall i :: 0 <= i < |w| ==> !IsSpace(w[i])
    requires rest == [] || IsSpace(rest[0])
    ensures NonSpaceRun(w + rest) == |w|
  {
    if w != [] {
      assert (w + rest)[1..] == w[1..] + rest;
      NonSpaceRunOfWord(w[1..], rest);
    } else {
      assert w + rest == rest;
    }
  }

  lemma LowerKeepsClasses(c: char)
    ensures IsSpace(LowerChar(c)) == IsSpace(c)
    ensures IsWordChar(LowerChar(c)) == IsWordChar(c)
    ensures LowerChar(LowerChar(c)) == LowerChar(c)
  {
  }

  /** Lower-casing twice is lower-casing once, and keeps white space where it was. */
  lemma LowerIdempotent(x: string)
    ensures Lower(Lower(x)) == Lower(x)
    ensures forall i :: 0 <= i < |x| ==> IsSpace(Lower(x)[i]) == IsSpace(x[i])
  {
    forall i | 0 <= i < |x|
      ensures Lower(Lower(x))[i] == Lower(x)[i] && IsSpace(Lower(x)[i]) == IsSpace(x[i])
    {
      LowerKeepsClasses(x[i]);
    }
  }

  /** Re-title-casing a title-cased word leaves the word as it was. */
  lemma TitleCaseOfTitledWord(s: string)
    requires s != [] && IsWordChar(s[0])
    ensures var n := 1 + NonSpaceRun(s[1..]);
            TitleCase(TitleCase(s)) == [UpperWord(s[0])] + Lower(s[1..n]) + TitleCase(TitleCase(s[n..]))
  {
    var n := 1 + NonSpaceRun(s[1..]);
    var w := [UpperWord(s[0])] + Lower(s[1..n]);
    var rest := TitleCase(s[n..]);
    assert TitleCase(s) == w + rest;
    LowerIdempotent(s[1..n]);
    forall i | 0 <= i < |w|
      ensures !IsSpace(w[i])
    {
      if i > 0 {
        assert w[i] == Lower(s[1..n])[i - 1];
      }
    }
    if n < |s| {
      TitleCaseKeepsSpaces(s[n..]);
      assert rest[0] == s[n];
    }
    TitleCaseOfWord(w, rest);
    assert w[1..] == Lower(s[1..n]);
  }

  /** Title-casing twice is title-casing once. */
  lemma {:induction false} TitleCaseIdempotent(s: string)
    ensures TitleCase(TitleCase(s)) == TitleCase(s)
    decreases |s|
  {
    if s != [] {
      if IsWordChar(s[0]) {
        var n := 1 + NonSpaceRun(s[1..]);
        TitleCaseOfTitledWord(s);
        TitleCaseIdempotent(s[n..]);
      } else {
        assert TitleCase(s) == [s[0]] + TitleCase(s[1..]);
        assert TitleCase(s)[1..] == TitleCase(s[1..]);
        TitleCaseIdempotent(s[1..]);
      }
    }
  }

  // ---------------------------------------------------------------------
  // The component
  // ---------------------------------------------------------------------

  /** A JavaScript value that is a string, or `null`/`undefined`. */
  type Value = Option<string>

  /** `if (value)`: a non-empty string. */
  predicate Truthy(v: Value)
  {
    v.Some? && v.value != ""
  }

  datatype Profile = Profile(id: Value, firstName: Value, lastName: Value, email: Value, phone: Value, cellphone: Value)

  /** The object passed to `displayAlert`. */
  datatype Alert = Alert(title: string, success: bool, show: bool, text: string)

  datatype File = File(name: string)

  /** The arguments of one `updateProfile` call: the whole component state, which holds the selected file, and the access token. */
  datatype ProfileUpdate = ProfileUpdate(profile: Profile, selectedFile: Option<File>, accessToken: string)

  /** Where the avatar image comes from. */
  datatype AvatarSource = Selected(file: File) | Stored(url: Value)

  const AlertTitle := "Error de Validaci\U{F3}n"
  const CellphoneMessage :=
    "El n\U{FA}mero de celular debe ser ingresado en el formato: (+xxx) xxx xxxx xxxx siendo el c\U{F3}digo de pa\U{ED}s opcional"
  const PhoneMessage :=
    "El n\U{FA}mero de tel\U{E9}fono debe ser ingresado en el formato: (+xxx) xxx xxxx ext xxx siendo el c\U{F3}digo de \U{E1}rea y la extensi\U{F3}n opcionales."

  function ValidationAlert(text: string): Alert
  {
    Alert(AlertTitle, false, true, text)
  }

  /** The outcome of a submit: the alert shown, or none when the profile is sent. */
  function SubmitAlert(p: Profile, validCellphone: string -> bool, validPhone: string -> bool): Option<Alert>
  {
    if Truthy(p.cellphone) && !validCellphone(p.cellphone.value) then Some(ValidationAlert(CellphoneMessage))
    else if Truthy(p.phone) && !validPhone(p.phone.value) then Some(ValidationAlert(PhoneMessage))
    else None
  }

  /** `UserAccountTab`: its state and the actions it has dispatched. */
  class UserAccountTab {
    var state: Profile
    var selectedFile: Option<File>
    /** The value of the hidden file input. */
    var inputValue: Value
    /** `this.props.auth.login.values.picture`. */
    var storedPicture: Value
    /** `this.props.auth.login.tokens.access`. */
    var accessToken: string
    /** The `displayAlert` calls, oldest first. */
    var alerts: seq<Alert>
    /** The `updateProfile` calls, oldest first. */
    var updates: seq<ProfileUpdate>

    /** The initial state: the logged-in user's values and no selected file. */
    constructor(login: Profile, picture: Value, accessToken: string)
      ensures state == login && selectedFile == None && inputValue == None
      ensures storedPicture == picture && this.accessToken == accessToken
      ensures alerts == [] && updates == []
    {
      state := login;
      selectedFile := None;
      inputValue := None;
      storedPicture := picture;
      this.accessToken := accessToken;
      alerts := [];
      updates := [];
    }

    /** `handleSubmit`: the first failing check raises its alert; otherwise the profile is sent. */
    method HandleSubmit(validCellphone: string -> bool, validPhone: string -> bool)
      modifies this
      ensures var outcome := SubmitAlert(old(state), validCellphone, validPhone);
              alerts == old(alerts) + (if outcome.Some? then [outcome.value] else []) &&
              updates == old(updates) + (if outcome.None? then [ProfileUpdate(old(state), old(selectedFile), old(accessToken))] else [])
      ensures state == old(state) && selectedFile == old(selectedFile) && inputValue == old(inputValue)
      ensures storedPicture == old(storedPicture) && accessToken == old(accessToken)
    {
      var alertData := Alert(AlertTitle, false, true, "");
      if Truthy(state.cellphone) && !validCellphone(state.cellphone.value) {
        alertData := alertData.(text := CellphoneMessage);
        alerts := alerts + [alertData];
        return;
      }
      if Truthy(state.phone) && !validPhone(state.phone.value) {
        alertData := alertData.(text := PhoneMessage);
        alerts := alerts + [alertData];
        return;
      }
      updates := updates + [ProfileUpdate(state, selectedFile, accessToken)];
    }

    /** `fileSelectedHandler`: the first chosen file, or none when the list is empty. */
    method FileSelected(files: seq<File>)
      modifies this
      ensures selectedFile == (if files == [] then None else Some(files[0]))
      ensures state == old(state) && inputValue == old(inputValue) && storedPicture == old(storedPicture)
      ensures accessToken == old(accessToken) && alerts == old(alerts) && updates == old(updates)
    {
      selectedFile := if files == [] then None else Some(files[0]);
    }

    /** `removePicture`: clears the file input and the selection. */
    method RemovePicture()
      modifies this
      ensures selectedFile == None && inputValue == None
      ensures Avatar() == Stored(storedPicture)
      ensures state == old(state) && storedPicture == old(storedPicture)
      ensures accessToken == old(accessToken) && alerts == old(alerts) && updates == old(updates)
    {
      inputValue := None;
      selectedFile := None;
    }

    /** The avatar shown: the selected file, else the stored picture. */
    function Avatar(): AvatarSource
      reads this
    {
      if selectedFile.Some? then Selected(selectedFile.value) else Stored(storedPicture)
    }
  }

  // ---------------------------------------------------------------------
  // What the submit gate promises
  // ---------------------------------------------------------------------

  /** Every alert is a failed validation, shown, under the same title. */
  lemma AlertsAreValidationErrors(p: Profile, validCellphone: string -> bool, validPhone: string -> bool)
    ensures var a := SubmitAlert(p, validCellphone, validPhone);
            a.Some? ==> a.value.title == "Error de Validaci\U{F3}n" && !a.value.success && a.value.show &&
                        (a.value.text == CellphoneMessage || a.value.text == PhoneMessage)
  {
  }

  /** The profile is sent exactly when each non-empty number passes its validator. */
  lemma SubmitSendsValidProfile(p: Profile, validCellphone: string -> bool, validPhone: string -> bool)
    ensures SubmitAlert(p, validCellphone, validPhone).None? <==>
            (Truthy(p.cellphone) ==> validCellphone(p.cellphone.value)) &&
            (Truthy(p.phone) ==> validPhone(p.phone.value))
  {
  }

  /** With both numbers invalid, only the cellphone message is shown. */
  lemma CellphoneCheckedFirst(p: Profile, validCellphone: string -> bool, validPhone: string -> bool)
    requires Truthy(p.cellphone) && !validCellphone(p.cellphone.value)
    ensures SubmitAlert(p, validCellphone, validPhone) == Some(ValidationAlert(CellphoneMessage))
  {
  }

  /** An empty or missing number is never given to its validator. */
  lemma EmptyNumbersSkipValidation(p: Profile, c1: string -> bool, c2: string -> bool, v1: string -> bool, v2: string -> bool)
    requires !Truthy(p.cellphone) && !Truthy(p.phone)
    ensures SubmitAlert(p, c1, v1) == SubmitAlert(p, c2, v2) == None
  {
  }
}
