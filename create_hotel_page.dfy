/** The agency's "create hotel" form of src/app/admin/create-hotel/page.tsx: the
    form record and the edits its handlers make to it, the credentials text, and
    the submit handler with its guard and its error classification. Toasts,
    clipboard writes and router pushes are recorded in the page's state, in the
    order issued. */
module CreateHotelPage {
  import opened Wrappers
  import opened JsValues
  import opened HotelService

  // ---------------------------------------------------------------------------
  // The form record

  /** The form's initial state: empty texts, the default SMTP server on port
      587, breakfast as the only meal type and three room categories. */
  function InitialForm(): Fields {
    map[
      "name" := Text(""),
      "domain" := Text(""),
      "contactEmail" := Text(""),
      "contactPhone" := Text(""),
      "address" := Text(""),
      "bankDetails" := Record(map["accountHolder" := Text(""), "iban" := Text(""), "bic" := Text(""), "bankName" := Text("")]),
      "smtp" := Record(map["host" := Text("smtp.gmail.com"), "port" := Number(587), "user" := Text(""), "pass" := Text("")]),
      "hotelier" := Record(map["email" := Text(""), "password" := Text("")]),
      "mealTypes" := Texts(["Fr\U{00FC}hst\U{00FC}ck"]),
      "roomCategories" := Texts(["Einzelzimmer", "Doppelzimmer", "Suite"])
    ]
  }

  /** `{ ...form[key] }`: the fields of a nested record; spreading `undefined`
      gives the empty object. */
  function SubRecord(form: Fields, key: string): Fields {
    if key in form && form[key].Record? then form[key].fields else map[]
  }

  /** The value an input writes: the `port` field is read with parseInt, every
      other field keeps the text. */
  function InputValue(field: string, value: string): Value {
    if field == "port" then ParseInt(value) else Text(value)
  }

  /** handleInputChange: an id with a dot names field `b` of the nested record
      `a` (further segments are ignored); any other id names a top-level field. */
  function InputChanged(form: Fields, id: string, value: string): (r: Fields)
    ensures r.Keys == form.Keys + {Split(id, '.')[0]}
    ensures forall k :: k in form && k != Split(id, '.')[0] ==> r[k] == form[k]
  {
    var keys := Split(id, '.');
    if |keys| > 1 then
      form[keys[0] := Record(SubRecord(form, keys[0])[keys[1] := InputValue(keys[1], value)])]
    else
      SplitPrefix(id, [], '.');
      assert id + [] == id;
      form[id := Text(value)]
  }

  /** Splitting `a + rest`, where `a` has no separator and `rest` is empty or
      starts with one, gives `a` first and then the pieces of what follows. */
  lemma {:induction false} SplitPrefix(a: string, rest: string, sep: char)
    requires sep !in a
    requires rest == [] || rest[0] == sep
    ensures Split(a + rest, sep)[0] == a
    ensures rest != [] ==> Split(a + rest, sep)[1..] == Split(rest[1..], sep)
  {
    if a == [] {
      assert a + rest == rest;
    } else {
      assert (a + rest)[1..] == a[1..] + rest;
      SplitPrefix(a[1..], rest, sep);
      assert [a[0]] + a[1..] == a;
    }
  }

  /** An undotted id sets that top-level field to the text and keeps the rest. */
  lemma UndottedInput(form: Fields, id: string, value: string)
    requires '.' !in id
    ensures InputChanged(form, id, value) == form[id := Text(value)]
    ensures InputChanged(form, id, value).Keys == form.Keys + {id}
  {
  }

  /** An id `a.b` or `a.b.c...` updates field `b` of record `a` only: the other
      fields of `a` and every other top-level field are kept, `a` becomes a record
      even if it was none before, and only `port` is converted to a number. */
  lemma {:induction false} DottedInput(form: Fields, a: string, b: string, tail: string, value: string)
    requires '.' !in a && '.' !in b
    requires tail == [] || tail[0] == '.'
    ensures var r := InputChanged(form, a + "." + b + tail, value);
      && r.Keys == form.Keys + {a}
      && (forall k :: k in form && k != a ==> r[k] == form[k])
      && r[a].Record?
      && r[a].fields.Keys == SubRecord(form, a).Keys + {b}
      && (forall f :: f in SubRecord(form, a) && f != b ==> r[a].fields[f] == SubRecord(form, a)[f])
      && r[a].fields[b] == (if b == "port" then ParseInt(value) else Text(value))
  {
    var id := a + "." + b + tail;
    assert id == a + ("." + b + tail);
    SplitPrefix(a, "." + b + tail, '.');
    assert ("." + b + tail)[1..] == b + tail;
    SplitPrefix(b, tail, '.');
  }

  /** Typing a number into a port field (`smtp.port` in the form) stores that
      number: `parseInt` reads back the decimal text of any integer a double
      holds exactly. */
  lemma {:induction false} PortInput(form: Fields, record: string, n: int)
    requires '.' !in record
    requires -ExactIntegerBound <= n <= ExactIntegerBound
    ensures var r := InputChanged(form, record + ".port", Decimal(n));
      record in r && r[record].Record? && "port" in r[record].fields && r[record].fields["port"] == Number(n)
  {
    var text := Decimal(n);
    assert record + "." + "port" + "" == record + ".port";
    DottedInput(form, record, "port", "", text);
    ParseIntOfDecimal(n, "");
    assert text + "" == text;
    assert ParseInt(text) == Number(n);
  }

  // ---------------------------------------------------------------------------
  // Meal types

  /** `form.mealTypes || []`. */
  function MealTypesOf(form: Fields): seq<string> {
    if "mealTypes" in form && form["mealTypes"].Texts? then form["mealTypes"].items else []
  }

  /** `list.filter(m => m !== x)`. */
  function Without(list: seq<string>, x: string): (r: seq<string>)
    ensures x !in r
    ensures forall y :: y != x ==> multiset(r)[y] == multiset(list)[y]
    ensures x !in list ==> r == list
    ensures |r| <= |list|
  {
    if list == [] then []
    else
      var init, last := list[..|list| - 1], list[|list| - 1];
      assert list == init + [last];
      if last == x then Without(init, x) else Without(init, x) + [last]
  }

  /** `filter` keeps order: filtering a concatenation filters each part and
      concatenates the results. With `WithoutOne` this fixes the result for
      every list, item by item. */
  lemma {:induction false} WithoutKeepsOrder(a: seq<string>, b: seq<string>, x: string)
    ensures Without(a + b, x) == Without(a, x) + Without(b, x)
    decreases |b|
  {
    if b == [] {
      assert a + b == a;
    } else {
      var init, last := b[..|b| - 1], b[|b| - 1];
      assert b == init + [last];
      assert a + b == (a + init) + [last];
      WithoutSnoc(a + init, last, x);
      WithoutSnoc(init, last, x);
      WithoutKeepsOrder(a, init, x);
    }
  }

  /** One step of `Without`: the last item is kept unless it is the one
      filtered out. */
  lemma WithoutSnoc(list: seq<string>, last: string, x: string)
    ensures Without(list + [last], x) == Without(list, x) + (if last == x then [] else [last])
  {
    var s := list + [last];
    assert s[..|s| - 1] == list;
  }

  /** A single item is kept exactly when it is not the one filtered out. */
  lemma WithoutOne(y: string, x: string)
    ensures Without([y], x) == if y == x then [] else [y]
  {
    assert [y][..0] == [];
  }

  /** handleMealTypeChange's new list: a present meal type is removed (every
      occurrence of it), an absent one appended at the end. */
  function MealTypeToggled(list: seq<string>, x: string): (r: seq<string>)
    ensures x in r <==> x !in list
    ensures forall y :: y != x ==> multiset(r)[y] == multiset(list)[y]
    ensures x !in list ==> |r| == |list| + 1 && r[..|list|] == list && r[|list|] == x
  {
    if x in list then Without(list, x) else list + [x]
  }

  /** Ticking a meal type and unticking it again gives back the list. */
  lemma {:induction false} ToggleTwiceRestores(list: seq<string>, x: string)
    requires x !in list
    ensures MealTypeToggled(MealTypeToggled(list, x), x) == list
  {
    var once := list + [x];
    assert MealTypeToggled(list, x) == once;
    assert once[..|once| - 1] == list;
    assert Without(once, x) == Without(list, x);
  }

  /** The form after handleMealTypeChange. */
  function MealTypeChanged(form: Fields, x: string): (r: Fields)
    ensures r.Keys == form.Keys + {"mealTypes"}
    ensures forall k :: k in form && k != "mealTypes" ==> r[k] == form[k]
    ensures x in MealTypesOf(r) <==> x !in MealTypesOf(form)
  {
    form["mealTypes" := Texts(MealTypeToggled(MealTypesOf(form), x))]
  }

  // ---------------------------------------------------------------------------
  // Room categories

  /** `form.roomCategories || []`. */
  function RoomCategoriesOf(form: Fields): seq<string> {
    if "roomCategories" in form && form["roomCategories"].Texts? then form["roomCategories"].items else []
  }

  /** handleRoomCategoryChange's new list: a copy of the categories with position
      `index` overwritten. */
  method SetRoomCategory(cats: seq<string>, index: nat, value: string) returns (r: seq<string>)
    requires index < |cats|
    ensures |r| == |cats|
    ensures r[index] == value
    ensures forall i :: 0 <= i < |r| && i != index ==> r[i] == cats[i]
  {
    var copy := new string[|cats|](i requires 0 <= i < |cats| => cats[i]);
    copy[index] := value;
    r := copy[..];
  }

  /** addRoomCategory's new list: one empty category appended. */
  function RoomCategoryAdded(cats: seq<string>): (r: seq<string>)
    ensures |r| == |cats| + 1
    ensures r[..|cats|] == cats && r[|cats|] == ""
  {
    cats + [""]
  }

  /** The position `splice(index, 1)` starts at: a negative index counts from
      the end, and the start is clamped to the list. */
  function SpliceStart(index: int, length: nat): (start: nat)
    ensures start <= length
    ensures 0 <= index <= length ==> start == index
  {
    if index < 0 then (if length + index < 0 then 0 else length + index)
    else if index > length then length
    else index
  }

  /** The list without position `i`, the rest in order. */
  function RemovedAt(s: seq<string>, i: nat): (r: seq<string>)
    requires i < |s|
    ensures |r| == |s| - 1
    ensures forall k :: 0 <= k < i ==> r[k] == s[k]
    ensures forall k :: i <= k < |r| ==> r[k] == s[k + 1]
  {
    s[..i] + s[i + 1..]
  }

  /** removeRoomCategory's new list: a copy of the categories with `splice(index, 1)`
      applied, shifting the later entries down by one. */
  method RemoveRoomCategory(cats: seq<string>, index: int) returns (r: seq<string>)
    ensures SpliceStart(index, |cats|) < |cats| ==> r == RemovedAt(cats, SpliceStart(index, |cats|))
    ensures SpliceStart(index, |cats|) == |cats| ==> r == cats
  {
    var start := SpliceStart(index, |cats|);
    if start == |cats| {
      return cats;
    }
    var copy := new string[|cats|](i requires 0 <= i < |cats| => cats[i]);
    var j := start;
    while j < |cats| - 1
      invariant start <= j <= |cats| - 1
      invariant forall k :: 0 <= k < start ==> copy[k] == cats[k]
      invariant forall k :: start <= k < j ==> copy[k] == cats[k + 1]
      invariant forall k :: j <= k < |cats| ==> copy[k] == cats[k]
    {
      copy[j] := copy[j + 1];
      j := j + 1;
    }
    r := copy[..|cats| - 1];
    assert r == RemovedAt(cats, start);
  }

  /** Adding a category and removing the last one gives back the list; removing
      a category and re-inserting it at its place does too. */
  lemma AddThenRemoveRestores(cats: seq<string>)
    ensures RemovedAt(RoomCategoryAdded(cats), |cats|) == cats
  {
    assert RemovedAt(RoomCategoryAdded(cats), |cats|) == RoomCategoryAdded(cats)[..|cats|];
  }

  lemma RemoveThenInsertRestores(cats: seq<string>, i: nat)
    requires i < |cats|
    ensures var r := RemovedAt(cats, i); r[..i] + [cats[i]] + r[i..] == cats
  {
    var r := RemovedAt(cats, i);
    assert r[..i] == cats[..i] && r[i..] == cats[i + 1..];
    assert cats == cats[..i] + [cats[i]] + cats[i + 1..];
  }

  // ---------------------------------------------------------------------------
  // Credentials

  /** `form.hotelier?.[field]`: absent when hotelier is no record or lacks the field. */
  function HotelierField(form: Fields, field: string): Option<Value> {
    var h := SubRecord(form, "hotelier");
    if field in h then Some(h[field]) else None
  }

  predicate PresentTruthy(v: Option<Value>) {
    v.Some? && Truthy(v.value)
  }

  /** The credentials text copyCredentials writes to the clipboard, when both the
      hotelier's email and password are truthy. */
  function Credentials(form: Fields): (r: Option<string>)
    ensures r.Some? <==> PresentTruthy(HotelierField(form, "email")) && PresentTruthy(HotelierField(form, "password"))
    ensures r.Some? ==> StartsWith(r.value, "E-Mail: ")
  {
    var email := HotelierField(form, "email");
    var password := HotelierField(form, "password");
    if !PresentTruthy(email) || !PresentTruthy(password) then None
    else Some("E-Mail: " + ToJsString(email.value) + "\nPasswort: " + ToJsString(password.value))
  }

  /** Reading the two lines of a credentials text back: the email ends at the
      first line break, the password is everything after its label. */
  function ReadCredentials(text: string): Option<(string, string)> {
    if !StartsWith(text, "E-Mail: ") then None
    else
      var parts := Split(text[|"E-Mail: "|..], '\n');
      var second := Join(parts[1..], "\n");
      if |parts| < 2 || !StartsWith(second, "Passwort: ") then None
      else Some((parts[0], second[|"Passwort: "|..]))
  }

  /** The copied text gives back the email and password it was made from,
      provided the email holds no line break. */
  lemma CredentialsRoundTrip(form: Fields, email: string, password: string)
    requires HotelierField(form, "email") == Some(Text(email)) && email != ""
    requires HotelierField(form, "password") == Some(Text(password)) && password != ""
    requires '\n' !in email
    ensures Credentials(form).Some?
    ensures ReadCredentials(Credentials(form).value) == Some((email, password))
  {
    ReadCredentialsText(email, password);
  }

  lemma {:induction false} ReadCredentialsText(email: string, password: string)
    requires '\n' !in email
    ensures ReadCredentials("E-Mail: " + email + "\nPasswort: " + password) == Some((email, password))
  {
    var rest := "Passwort: " + password;
    var tail := "\n" + rest;
    var text := "E-Mail: " + (email + tail);
    assert text == "E-Mail: " + email + "\nPasswort: " + password;
    LabelledText("E-Mail: ", email + tail);
    SplitPrefix(email, tail, '\n');
    assert tail[1..] == rest;
    JoinSplit(rest, '\n');
    LabelledText("Passwort: ", password);
  }

  /** A text that starts with a label gives back what follows it. */
  lemma LabelledText(tag: string, x: string)
    ensures StartsWith(tag + x, tag) && (tag + x)[|tag|..] == x
  {
    assert (tag + x)[..|tag|] == tag;
  }

  // ---------------------------------------------------------------------------
  // Submitting

  /** A toast message. */
  datatype Toast = Toast(title: string, description: string, destructive: bool)

  const MissingInformation := Toast("Fehlende Informationen", "Bitte f\U{00FC}llen Sie Hotelname und Domain aus.", true)
  const InvalidDataToast := Toast("Fehler bei den Daten", "Einige der eingegebenen Daten sind ung\U{00FC}ltig. Bitte \U{00FC}berpr\U{00FC}fen Sie Ihre Eingaben.", true)
  const GenericErrorToast := Toast("Fehler", "Das Hotel konnte nicht erstellt werden. Bitte versuchen Sie es erneut.", true)
  const MissingCredentials := Toast("Fehlende Daten", "Bitte geben Sie eine E-Mail an und generieren Sie ein Passwort.", true)
  const CredentialsCopied := Toast("Zugangsdaten kopiert!", "E-Mail und Passwort wurden in die Zwischenablage kopiert.", false)

  function HotelCreated(name: string): Toast {
    Toast("Hotel erstellt", "Das Hotel \"" + name + "\" wurde erfolgreich erstellt.", false)
  }

  /** How a failed createHotel is reported. */
  datatype ErrorReport = PermissionBanner | ReportToast(toast: Toast)

  /** The error codes of a storage upload the security rules refused. */
  predicate IsStoragePermissionCode(code: Option<string>) {
    code == Some("storage/unknown") || code == Some("storage/unauthorized")
  }

  /** The catch block: storage permission errors raise the banner; any other
      error is a toast, the data toast when the message mentions invalid data. */
  function ClassifyCreateError(e: ServiceError): (report: ErrorReport)
    ensures report == PermissionBanner <==> IsStoragePermissionCode(e.code)
    ensures report == ReportToast(InvalidDataToast) <==>
      !IsStoragePermissionCode(e.code) && Contains(e.message, "invalid data")
    ensures report == ReportToast(GenericErrorToast) <==>
      !IsStoragePermissionCode(e.code) && !Contains(e.message, "invalid data")
  {
    if IsStoragePermissionCode(e.code) then PermissionBanner
    else if Contains(e.message, "invalid data") then ReportToast(InvalidDataToast)
    else ReportToast(GenericErrorToast)
  }

  /** The page's state. */
  class CreateHotelPage {
    var formData: Fields
    var logoFile: Option<LogoFile>
    var isLoading: bool
    var error: Option<string>
    var toasts: seq<Toast>
    var clipboard: seq<string>
    var navigations: seq<string>

    constructor ()
      ensures formData == InitialForm() && logoFile == None && !isLoading && error == None
      ensures toasts == [] && clipboard == [] && navigations == []
    {
      formData := InitialForm();
      logoFile := None;
      isLoading := false;
      error := None;
      toasts := [];
      clipboard := [];
      navigations := [];
    }

    method HandleInputChange(id: string, value: string)
      modifies this
      ensures formData == InputChanged(old(formData), id, value) && error == None
      ensures logoFile == old(logoFile) && isLoading == old(isLoading)
      ensures toasts == old(toasts) && clipboard == old(clipboard) && navigations == old(navigations)
    {
      error := None;
      formData := InputChanged(formData, id, value);
    }

    method HandleMealTypeChange(mealType: string)
      modifies this
      ensures formData == MealTypeChanged(old(formData), mealType)
      ensures logoFile == old(logoFile) && isLoading == old(isLoading) && error == old(error)
      ensures toasts == old(toasts) && clipboard == old(clipboard) && navigations == old(navigations)
    {
      formData := MealTypeChanged(formData, mealType);
    }

    method HandleRoomCategoryChange(index: nat, value: string)
      requires index < |RoomCategoriesOf(formData)|
      modifies this
      ensures formData.Keys == old(formData).Keys + {"roomCategories"}
      ensures forall k :: k in old(formData) && k != "roomCategories" ==> formData[k] == old(formData)[k]
      ensures RoomCategoriesOf(formData) == RoomCategoriesOf(old(formData))[index := value]
      ensures logoFile == old(logoFile) && isLoading == old(isLoading) && error == old(error)
      ensures toasts == old(toasts) && clipboard == old(clipboard) && navigations == old(navigations)
    {
      var cats := SetRoomCategory(RoomCategoriesOf(formData), index, value);
      formData := formData["roomCategories" := Texts(cats)];
    }

    method AddRoomCategory()
      modifies this
      ensures formData == old(formData)["roomCategories" := Texts(RoomCategoryAdded(RoomCategoriesOf(old(formData))))]
      ensures logoFile == old(logoFile) && isLoading == old(isLoading) && error == old(error)
      ensures toasts == old(toasts) && clipboard == old(clipboard) && navigations == old(navigations)
    {
      formData := formData["roomCategories" := Texts(RoomCategoryAdded(RoomCategoriesOf(formData)))];
    }

    method HandleRemoveRoomCategory(index: int)
      modifies this
      ensures var cats := RoomCategoriesOf(old(formData));
        var start := SpliceStart(index, |cats|);
        formData == old(formData)["roomCategories" := Texts(if start < |cats| then RemovedAt(cats, start) else cats)]
      ensures logoFile == old(logoFile) && isLoading == old(isLoading) && error == old(error)
      ensures toasts == old(toasts) && clipboard == old(clipboard) && navigations == old(navigations)
    {
      var cats := RemoveRoomCategory(RoomCategoriesOf(formData), index);
      formData := formData["roomCategories" := Texts(cats)];
    }

    /** handleFileChange: the first chosen file becomes the logo; choosing none
        keeps the previous one. */
    method HandleFileChange(files: seq<LogoFile>)
      modifies this
      ensures logoFile == if files == [] then old(logoFile) else Some(files[0])
      ensures error == None && formData == old(formData) && isLoading == old(isLoading)
      ensures toasts == old(toasts) && clipboard == old(clipboard) && navigations == old(navigations)
    {
      error := None;
      if files != [] {
        logoFile := Some(files[0]);
      }
    }

    /** copyCredentials: with both fields filled the text goes to the clipboard
        and a confirmation is shown; otherwise only a warning. */
    method CopyCredentials()
      modifies this
      ensures Credentials(old(formData)).None? ==>
        toasts == old(toasts) + [MissingCredentials] && clipboard == old(clipboard)
      ensures Credentials(old(formData)).Some? ==>
        clipboard == old(clipboard) + [Credentials(old(formData)).value] && toasts == old(toasts) + [CredentialsCopied]
      ensures formData == old(formData) && logoFile == old(logoFile) && isLoading == old(isLoading)
      ensures error == old(error) && navigations == old(navigations)
    {
      var credentials := Credentials(formData);
      if credentials.None? {
        toasts := toasts + [MissingCredentials];
        return;
      }
      clipboard := clipboard + [credentials.value];
      toasts := toasts + [CredentialsCopied];
    }

    /** handleCreateHotel: without a name or a domain nothing is stored; otherwise
        the form is stored with the chosen logo, and success leads back to /admin
        while a failure is reported as ClassifyCreateError says. A refused logo
        upload raises the banner although the hotel document has been written. */
    method HandleCreateHotel(store: Store, newId: string, now: nat, upload: UploadResult)
      requires newId !in store.hotels
      modifies this, store
      ensures formData == old(formData) && logoFile == old(logoFile) && clipboard == old(clipboard)
      ensures !FieldTruthy(old(formData), "name") || !FieldTruthy(old(formData), "domain") ==>
        && unchanged(store) && error == None && isLoading == old(isLoading)
        && toasts == old(toasts) + [MissingInformation] && navigations == old(navigations)
      ensures FieldTruthy(old(formData), "name") && FieldTruthy(old(formData), "domain") ==>
        && newId in store.hotels && store.hotels - {newId} == old(store.hotels)
        && store.hotels[newId] == (if logoFile.Some? && upload.Uploaded?
             then old(formData)["createdAt" := Stamp(now)]["logoUrl" := Text(upload.url)]
             else old(formData)["createdAt" := Stamp(now)])
        && store.blobs == (if logoFile.Some? && upload.Uploaded?
             then old(store.blobs)[upload.url := LogoPath(newId, logoFile.value.name)]
             else old(store.blobs))
        && store.bookings == old(store.bookings) && store.deleteLog == old(store.deleteLog) && !isLoading
      ensures FieldTruthy(old(formData), "name") && FieldTruthy(old(formData), "domain") &&
              (logoFile.None? || upload.Uploaded?) ==>
        && error == None
        && toasts == old(toasts) + [HotelCreated(ToJsString(old(formData)["name"]))]
        && navigations == old(navigations) + ["/admin"]
      ensures FieldTruthy(old(formData), "name") && FieldTruthy(old(formData), "domain") &&
              logoFile.Some? && upload.UploadFailed? ==>
        var report := ClassifyCreateError(ServiceError(Some(upload.code), upload.message));
        && navigations == old(navigations)
        && error == (if report == PermissionBanner then Some("storage-permission-denied") else None)
        && toasts == old(toasts) + (if report.ReportToast? then [report.toast] else [])
      ensures error == Some("storage-permission-denied") ==>
        newId in store.hotels && store.hotels[newId] == old(formData)["createdAt" := Stamp(now)]
    {
      error := None;
      if !FieldTruthy(formData, "name") || !FieldTruthy(formData, "domain") {
        toasts := toasts + [MissingInformation];
        return;
      }
      isLoading := true;
      var r := store.CreateHotel(formData, logoFile, newId, now, upload);
      if r.Ok? {
        toasts := toasts + [HotelCreated(ToJsString(formData["name"]))];
        navigations := navigations + ["/admin"];
      } else {
        var report := ClassifyCreateError(r.error);
        if report == PermissionBanner {
          error := Some("storage-permission-denied");
        } else {
          toasts := toasts + [report.toast];
        }
      }
      isLoading := false;
    }
  }
}
