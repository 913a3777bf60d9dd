/** The registration page: the multipart body built from the form, the
    outcome of the request, the two image slots with their size gate, and the
    field rules the form checks before anything is sent. */
module Register {
  import opened Common
  import opened Text

  /** The form's values; the two images are set by hand, not typed. */
  datatype RegisterUserData = RegisterUserData(
    fullName: string,
    username: string,
    email: string,
    password: string,
    avatar: Option<File>,
    coverImage: Option<File>)

  /** One part of a multipart body. */
  datatype FormValue = Text(text: string) | Blob(file: File)

  type Entry = (string, FormValue)

  /** A `FormData`: its entries in the order they were appended. */
  class FormData {
    var entries: seq<Entry>

    constructor ()
      ensures entries == []
    {
      entries := [];
    }

    /** `append`: a new entry at the end; earlier ones stay. */
    method Append(name: string, value: FormValue)
      modifies this
      ensures entries == old(entries) + [(name, value)]
    {
      entries := entries + [(name, value)];
    }
  }

  /** The entries `onSubmit` appends, in its order: the four text fields,
      then each image only when one is chosen. */
  function Fields(data: RegisterUserData): seq<Entry> {
    [("fullName", Text(data.fullName)), ("username", Text(data.username)),
     ("email", Text(data.email)), ("password", Text(data.password))]
    + (if data.avatar.Some? then [("avatar", Blob(data.avatar.value))] else [])
    + (if data.coverImage.Some? then [("coverImage", Blob(data.coverImage.value))] else [])
  }

  /** `FormData.get`: the first entry with the name. */
  function Get(entries: seq<Entry>, name: string): Option<FormValue> {
    if entries == [] then None
    else if entries[0].0 == name then Some(entries[0].1)
    else Get(entries[1..], name)
  }

  /** `get` finds a value exactly when some entry has the name, and the value
      it finds belongs to the first such entry. */
  lemma {:induction false} GetFindsFirst(entries: seq<Entry>, name: string)
    ensures Get(entries, name).Some? <==> exists i :: 0 <= i < |entries| && entries[i].0 == name
    ensures Get(entries, name).Some? ==> exists i :: (0 <= i < |entries| && entries[i] == (name, Get(entries, name).value)
      && forall j :: 0 <= j < i ==> entries[j].0 != name)
  {
    if entries != [] && entries[0].0 != name {
      GetFindsFirst(entries[1..], name);
      var r := Get(entries[1..], name);
      if r.Some? {
        var i :| 0 <= i < |entries[1..]| && entries[1..][i] == (name, r.value)
          && forall j :: 0 <= j < i ==> entries[1..][j].0 != name;
        assert entries[i + 1] == (name, r.value);
        forall j | 0 <= j < i + 1 ensures entries[j].0 != name {
          if j > 0 { assert entries[j] == entries[1..][j - 1]; }
        }
      }
      if exists i :: 0 <= i < |entries| && entries[i].0 == name {
        var i :| 0 <= i < |entries| && entries[i].0 == name;
        assert entries[1..][i - 1].0 == name;
      }
    }
  }

  /** Looking up in a concatenation: the first part wins when it has the name. */
  lemma {:induction false} GetAppend(a: seq<Entry>, b: seq<Entry>, name: string)
    ensures Get(a + b, name) == if Get(a, name).Some? then Get(a, name) else Get(b, name)
  {
    if a == [] {
      assert a + b == b;
    } else {
      assert (a + b)[0] == a[0];
      assert (a + b)[1..] == a[1..] + b;
      GetAppend(a[1..], b, name);
    }
  }

  /** Looking up in a list that starts with a known entry. */
  lemma GetCons(e: Entry, rest: seq<Entry>, name: string)
    ensures Get([e] + rest, name) == if e.0 == name then Some(e.1) else Get(rest, name)
  {
    assert ([e] + rest)[1..] == rest;
  }

  function TextOf(v: Option<FormValue>): Option<string> {
    if v.Some? && v.value.Text? then Some(v.value.text) else None
  }

  function FileOf(v: Option<FormValue>): Option<File> {
    if v.Some? && v.value.Blob? then Some(v.value.file) else None
  }

  /** Reads a registration back out of a body, as the server would. */
  function ParseRegistration(entries: seq<Entry>): Option<RegisterUserData> {
    var fullName := TextOf(Get(entries, "fullName"));
    var username := TextOf(Get(entries, "username"));
    var email := TextOf(Get(entries, "email"));
    var password := TextOf(Get(entries, "password"));
    if fullName.Some? && username.Some? && email.Some? && password.Some? then
      Some(RegisterUserData(fullName.value, username.value, email.value, password.value,
        FileOf(Get(entries, "avatar")), FileOf(Get(entries, "coverImage"))))
    else None
  }

  /** The body carries every value of the form, and nothing is lost: reading
      it back gives the same registration, and an image part is present
      exactly when that image was chosen. */
  lemma BodyRoundTrip(data: RegisterUserData)
    ensures ParseRegistration(Fields(data)) == Some(data)
    ensures Get(Fields(data), "avatar") == if data.avatar.Some? then Some(Blob(data.avatar.value)) else None
    ensures Get(Fields(data), "coverImage") == if data.coverImage.Some? then Some(Blob(data.coverImage.value)) else None
  {
    var img: seq<Entry> := if data.avatar.Some? then [("avatar", Blob(data.avatar.value))] else [];
    var cover: seq<Entry> := if data.coverImage.Some? then [("coverImage", Blob(data.coverImage.value))] else [];
    var t3 := [("password", Text(data.password))] + (img + cover);
    var t2 := [("email", Text(data.email))] + t3;
    var t1 := [("username", Text(data.username))] + t2;
    var f := [("fullName", Text(data.fullName))] + t1;
    assert Fields(data) == f;
    GetCons(("fullName", Text(data.fullName)), t1, "username");
    GetCons(("fullName", Text(data.fullName)), t1, "email");
    GetCons(("username", Text(data.username)), t2, "email");
    GetCons(("fullName", Text(data.fullName)), t1, "password");
    GetCons(("username", Text(data.username)), t2, "password");
    GetCons(("email", Text(data.email)), t3, "password");
    forall n | n == "avatar" || n == "coverImage"
      ensures Get(f, n) == Get(img + cover, n)
    {
      GetCons(("fullName", Text(data.fullName)), t1, n);
      GetCons(("username", Text(data.username)), t2, n);
      GetCons(("email", Text(data.email)), t3, n);
      GetCons(("password", Text(data.password)), img + cover, n);
    }
    GetAppend(img, cover, "avatar");
    GetAppend(img, cover, "coverImage");
  }

  /** Builds the body with one `append` per part, as `onSubmit` does. */
  method BuildFormData(data: RegisterUserData) returns (formData: FormData)
    ensures fresh(formData)
    ensures formData.entries == Fields(data)
  {
    formData := new FormData();
    formData.Append("fullName", Text(data.fullName));
    formData.Append("username", Text(data.username));
    formData.Append("email", Text(data.email));
    formData.Append("password", Text(data.password));
    if data.avatar.Some? {
      formData.Append("avatar", Blob(data.avatar.value));
    }
    if data.coverImage.Some? {
      formData.Append("coverImage", Blob(data.coverImage.value));
    }
  }

  /** What the page does once `registerUser` settled: the thunk is matched,
      not unwrapped, so the `catch` is never reached. */
  datatype Outcome = Outcome(toast: Toast, navigateTo: Option<string>)

  function SubmitOutcome(settled: Settlement): (r: Outcome)
    ensures r.navigateTo.Some? <==> settled == Fulfilled
    ensures r.navigateTo.Some? ==> r.navigateTo.value == "/login"
    ensures settled == Fulfilled ==> r.toast == SuccessToast("Account created successfully!")
    ensures settled == Rejected ==> r.toast == ErrorToast("Registration failed. Try again.")
  {
    match settled
    case Fulfilled => Outcome(SuccessToast("Account created successfully!"), Some("/login"))
    case Rejected => Outcome(ErrorToast("Registration failed. Try again."), None)
  }

  // ---------- field rules ----------

  /** A character the class `[^\s@]` admits: `\s` is the ECMAScript
      white-space and line-terminator set, the same one `trim` removes. */
  predicate PlainChar(c: char) {
    !IsWhiteSpace(c) && c != '@'
  }

  predicate PlainRun(s: string) {
    |s| > 0 && forall i :: 0 <= i < |s| ==> PlainChar(s[i])
  }

  /** The language of `^[^\s@]+@[^\s@]+\.[^\s@]+$`: some split of the input
      into three non-empty plain runs around an `@` and a later `.`. */
  predicate EmailPattern(s: string) {
    exists at, dot :: 0 < at < dot < |s| - 1 && SplitAt(s, at, dot)
  }

  /** The position of the first `c` in `s`. */
  function IndexOf(s: string, c: char): (r: Option<nat>)
    ensures r.Some? ==> r.value < |s| && s[r.value] == c && forall j :: 0 <= j < r.value ==> s[j] != c
    ensures r.None? <==> forall j :: 0 <= j < |s| ==> s[j] != c
  {
    if s == [] then None
    else if s[0] == c then Some(0)
    else match IndexOf(s[1..], c)
      case None => None
      case Some(k) => Some(k + 1)
  }

  /** A single left-to-right reading of the pattern: the local part ends at
      the first `@`; the rest is one plain run with a `.` strictly inside. */
  predicate EmailCheck(s: string) {
    match IndexOf(s, '@')
    case None => false
    case Some(at) =>
      var domain := s[at + 1..];
      at > 0 && PlainRun(s[..at]) && PlainRun(domain)
        && |domain| >= 3 && '.' in domain[1..|domain| - 1]
  }

  /** Every string the scan accepts matches the pattern. */
  lemma EmailCheckSound(s: string)
    requires EmailCheck(s)
    ensures EmailPattern(s)
  {
    var at := IndexOf(s, '@').value;
    var domain := s[at + 1..];
    var inner := domain[1..|domain| - 1];
    var k :| 0 <= k < |inner| && inner[k] == '.';
    var dot := at + 2 + k;
    assert s[dot] == inner[k];
    PlainRunSlice(domain, 0, k + 1);
    PlainRunSlice(domain, k + 2, |domain|);
    assert s[at + 1..dot] == domain[..k + 1];
    assert s[dot + 1..] == domain[k + 2..];
    assert SplitAt(s, at, dot);
  }

  /** A non-empty slice of a plain run is a plain run. */
  lemma PlainRunSlice(x: string, i: nat, j: nat)
    requires PlainRun(x) && i < j <= |x|
    ensures PlainRun(x[i..j])
  {
    forall n | 0 <= n < j - i ensures PlainChar(x[i..j][n]) {
      assert x[i..j][n] == x[i + n];
    }
  }

  /** The first `c` is at `k` when `s[k]` is `c` and none comes before. */
  lemma IndexOfAt(s: string, c: char, k: nat)
    requires k < |s| && s[k] == c
    requires forall j :: 0 <= j < k ==> s[j] != c
    ensures IndexOf(s, c) == Some(k)
  {
  }

  /** Two plain runs joined by a plain character form one plain run. */
  lemma PlainRunJoin(x: string, c: char, y: string)
    requires PlainRun(x) && PlainChar(c) && PlainRun(y)
    ensures PlainRun(x + [c] + y)
  {
    var z := x + [c] + y;
    forall j | 0 <= j < |z| ensures PlainChar(z[j]) {
      if j < |x| {
        assert z[j] == x[j];
      } else if j > |x| {
        assert z[j] == y[j - |x| - 1];
      }
    }
  }

  /** With a plain run before it, the `@` at `at` is the first one. */
  lemma FirstAtEndsLocalPart(s: string, at: nat)
    requires at < |s| && s[at] == '@' && PlainRun(s[..at])
    ensures IndexOf(s, '@') == Some(at)
  {
    forall j | 0 <= j < at ensures s[j] != '@' {
      assert s[j] == s[..at][j];
    }
    IndexOfAt(s, '@', at);
  }

  /** A run-plain prefix, sub-run and suffix around an `@` and a later `.`. */
  predicate SplitAt(s: string, at: int, dot: int) {
    && 0 < at < dot < |s| - 1 && s[at] == '@' && s[dot] == '.'
    && PlainRun(s[..at]) && PlainRun(s[at + 1..dot]) && PlainRun(s[dot + 1..])
  }

  /** The domain after the `@` of a split is one plain run with the `.`
      strictly inside. */
  lemma DomainAccepted(s: string, at: int, dot: int)
    requires SplitAt(s, at, dot)
    ensures PlainRun(s[at + 1..]) && |s[at + 1..]| >= 3 && '.' in s[at + 1..][1..|s| - at - 2]
  {
    var domain := s[at + 1..];
    assert domain == s[at + 1..dot] + [s[dot]] + s[dot + 1..];
    PlainRunJoin(s[at + 1..dot], s[dot], s[dot + 1..]);
    assert domain[1..|domain| - 1][dot - at - 2] == '.';
  }

  /** Every string the pattern matches is accepted by the scan: only one
      `@` can occur, so the local part must end at the first. */
  lemma EmailCheckComplete(s: string)
    requires EmailPattern(s)
    ensures EmailCheck(s)
  {
    var at, dot :| 0 < at < dot < |s| - 1 && SplitAt(s, at, dot);
    FirstAtEndsLocalPart(s, at);
    DomainAccepted(s, at, dot);
  }

  /** The scan accepts exactly the language of the pattern. */
  lemma EmailCheckMatchesPattern(s: string)
    ensures EmailCheck(s) <==> EmailPattern(s)
  {
    if EmailCheck(s) {
      EmailCheckSound(s);
    }
    if EmailPattern(s) {
      EmailCheckComplete(s);
    }
  }

  /** `required` and `pattern` together. */
  predicate EmailValid(email: string) {
    email != "" && EmailCheck(email)
  }

  /** `required` alone rejects only the empty string. */
  predicate Required(value: string) {
    value != ""
  }

  /** `required` with `minLength: 8`, counted in UTF-16 code units. */
  predicate PasswordValid(password: string) {
    password != "" && Utf16Length(password) >= 8
  }

  /** The form passes `handleSubmit`'s check: the images carry no rule. */
  predicate FormValid(data: RegisterUserData) {
    Required(data.fullName) && Required(data.username) && EmailValid(data.email) && PasswordValid(data.password)
  }

  /** An email is valid exactly when it has one `@` with a plain, non-empty
      local part before it, and after it a plain domain with a `.` neither
      first nor last; a password exactly when it has 8 code units. */
  lemma FieldRules(data: RegisterUserData)
    ensures FormValid(data) <==>
      && data.fullName != "" && data.username != ""
      && EmailPattern(data.email)
      && Utf16Length(data.password) >= 8
  {
    EmailCheckMatchesPattern(data.email);
  }

  /** The largest accepted image: 5 MiB. */
  const MaxFileSize: nat := 5 * 1024 * 1024

  predicate SizeAccepted(file: File) {
    !(file.size > MaxFileSize)
  }

  /** Exactly 5 MiB passes; one byte more does not. */
  lemma SizeBoundary(name: string, mimeType: string)
    ensures SizeAccepted(File(name, mimeType, 5242880))
    ensures !SizeAccepted(File(name, mimeType, 5242881))
  {
  }

  /** The two image slots. */
  datatype FileField = Avatar | CoverImage

  /** The page: the typed fields, the two image values and their previews. */
  class Page {
    var fullName: string
    var username: string
    var email: string
    var password: string
    var avatar: Option<File>
    var coverImage: Option<File>
    var avatarPreview: Option<string>
    var thumbnailPreview: Option<string>

    constructor ()
      ensures fullName == "" && username == "" && email == "" && password == ""
      ensures avatar == None && coverImage == None && avatarPreview == None && thumbnailPreview == None
    {
      fullName := "";
      username := "";
      email := "";
      password := "";
      avatar := None;
      coverImage := None;
      avatarPreview := None;
      thumbnailPreview := None;
    }

    function Data(): RegisterUserData
      reads this
    {
      RegisterUserData(fullName, username, email, password, avatar, coverImage)
    }

    /** Typing into the four text inputs. */
    method SetFields(newFullName: string, newUsername: string, newEmail: string, newPassword: string)
      modifies this`fullName, this`username, this`email, this`password
      ensures fullName == newFullName && username == newUsername && email == newEmail && password == newPassword
    {
      fullName := newFullName;
      username := newUsername;
      email := newEmail;
      password := newPassword;
    }

    /** `handleFileChange`: no file changes nothing; a file over 5 MiB is
        refused with an error toast; otherwise it becomes the field's value and
        reading it for the preview starts. */
    method HandleFileChange(file: Option<File>, field: FileField) returns (toast: Option<Toast>, readStarted: bool)
      modifies this`avatar, this`coverImage
      ensures file.None? ==> toast == None && !readStarted
      ensures file.Some? && !SizeAccepted(file.value) ==> toast == Some(ErrorToast("File too large (max 5MB)")) && !readStarted
      ensures file.Some? && SizeAccepted(file.value) ==> toast == None && readStarted
      ensures avatar == if readStarted && field == Avatar then file else old(avatar)
      ensures coverImage == if readStarted && field == CoverImage then file else old(coverImage)
    {
      toast := None;
      readStarted := false;
      if file.None? {
        return;
      }
      if file.value.size > MaxFileSize {
        toast := Some(ErrorToast("File too large (max 5MB)"));
        return;
      }
      if field == Avatar {
        avatar := file;
      } else {
        coverImage := file;
      }
      readStarted := true;
    }

    /** The reader's `onloadend`: the data URL becomes that field's preview. */
    method PreviewLoaded(field: FileField, result: string)
      modifies this`avatarPreview, this`thumbnailPreview
      ensures avatarPreview == if field == Avatar then Some(result) else old(avatarPreview)
      ensures thumbnailPreview == if field == CoverImage then Some(result) else old(thumbnailPreview)
    {
      if field == Avatar {
        avatarPreview := Some(result);
      } else {
        thumbnailPreview := Some(result);
      }
    }

    /** `removeFile`: clears the field and only its own preview. */
    method RemoveFile(field: FileField)
      modifies this`avatar, this`coverImage, this`avatarPreview, this`thumbnailPreview
      ensures avatar == if field == Avatar then None else old(avatar)
      ensures coverImage == if field == CoverImage then None else old(coverImage)
      ensures avatarPreview == if field == Avatar then None else old(avatarPreview)
      ensures thumbnailPreview == if field == CoverImage then None else old(thumbnailPreview)
    {
      if field == Avatar {
        avatar := None;
        avatarPreview := None;
      } else {
        coverImage := None;
        thumbnailPreview := None;
      }
    }

    /** `handleSubmit(onSubmit)`: an invalid form sends nothing; a valid one
        sends the body built from the form. */
    method Submit() returns (body: Option<FormData>)
      ensures body.Some? <==> FormValid(Data())
      ensures body.Some? ==> fresh(body.value) && body.value.entries == Fields(Data())
    {
      if !FormValid(Data()) {
        return None;
      }
      var formData := BuildFormData(Data());
      body := Some(formData);
    }
  }
}
