/** POST /api/upload: the checks a multipart upload passes before it is
    stored, and the name it is stored under. */
module UploadApi {
  import opened Http
  import opened Text
  import opened FileUpload

  /** The route's own limit: 10 * 1024 * 1024 bytes. */
  const MaxUploadSize: nat := 10 * 1024 * 1024

  /** The two form fields: `file` and `type` (null when absent). */
  datatype UploadForm = UploadForm(file: Option<FileInfo>, kind: Option<string>)

  /** The JSON answer: where the blob went and what was stored. */
  datatype StoredFile = StoredFile(url: string, filename: string, size: nat, mime: string)

  /** The names an empty object literal inherits from `Object.prototype`:
      looking one of them up in `allowedTypes` yields a function or an
      object, not an array. */
  const InheritedKeys: set<string> := {
    "constructor", "__proto__", "hasOwnProperty", "isPrototypeOf", "propertyIsEnumerable",
    "toLocaleString", "toString", "valueOf",
    "__defineGetter__", "__defineSetter__", "__lookupGetter__", "__lookupSetter__"}

  /** What `allowedTypes[type]` evaluates to. */
  datatype TableEntry = Own(types: seq<string>) | Inherited | Missing

  function LookupAllowed(t: string): (e: TableEntry)
    ensures e.Own? <==> KindOf(t).Some?
    ensures e.Own? ==> e.types == AllowedTypes(KindOf(t).value)
    ensures e.Inherited? <==> t in InheritedKeys
  {
    match KindOf(t)
    case Some(k) => Own(AllowedTypes(k))
    case None => if t in InheritedKeys then Inherited else Missing
  }

  /** `${type || 'file'}-${timestamp}-${randomString}.${extension}`, where
      the extension is `file.name.split('.').pop()`. */
  function StoredName(kind: Option<string>, timestamp: nat, random: string, name: string): string {
    OrDefault(kind, "file") + "-" + NatToString(timestamp) + "-" + random + "." + AfterLast(name, '.')
  }

  lemma {:induction false} AfterLastOfSuffix(x: string, sep: char, e: string)
    requires sep !in e
    ensures AfterLast(x + [sep] + e, sep) == e
  {
    var s := x + [sep] + e;
    if e != [] {
      var e' := e[..|e| - 1];
      assert s[..|s| - 1] == x + [sep] + e';
      AfterLastOfSuffix(x, sep, e');
      assert e == e' + [e[|e| - 1]];
    }
  }

  /** The stored name keeps the original extension: everything after the
      name's last dot, or the whole name when it has none. */
  lemma StoredNameKeepsExtension(kind: Option<string>, timestamp: nat, random: string, name: string)
    ensures AfterLast(StoredName(kind, timestamp, random, name), '.') == AfterLast(name, '.')
  {
    var prefix := OrDefault(kind, "file") + "-" + NatToString(timestamp) + "-" + random;
    var ext := AfterLast(name, '.');
    assert StoredName(kind, timestamp, random, name) == prefix + ['.'] + ext;
    AfterLastOfSuffix(prefix, '.', ext);
  }

  /** The stored name starts with the upload kind and a dash ("file-" when
      no kind was sent). */
  lemma StoredNameStartsWithKind(kind: Option<string>, timestamp: nat, random: string, name: string)
    ensures var head := OrDefault(kind, "file") + "-";
            StoredName(kind, timestamp, random, name)[..|head|] == head
  {
    var head := OrDefault(kind, "file") + "-";
    var rest := NatToString(timestamp) + "-" + random + "." + AfterLast(name, '.');
    assert StoredName(kind, timestamp, random, name) == head + rest;
  }

  /** Everything the route decides before the blob store is called, as
      written: a `type` inherited from `Object.prototype` passes the
      `allowedTypes[type]` test, then `.includes` is not a function, and the
      catch turns that into a 500. */
  function CheckAsWritten(session: Option<Session>, form: UploadForm): (r: Response<FileInfo>)
    ensures r.Err? && r.status == 401 <==> session.None?
    ensures r.Ok? ==> Some(r.value) == form.file && r.value.size <= MaxUploadSize
    ensures (r.Err? && r.status == 500) <==>
              (session.Some? && form.file.Some? && form.file.value.size <= MaxUploadSize &&
               Present(form.kind) && form.kind.value in InheritedKeys)
  {
    if session.None? then Err(401, "Unauthorized")
    else if form.file.None? then Err(400, "No file provided")
    else if form.file.value.size > MaxUploadSize then Err(400, "File too large (max 10MB)")
    else if Present(form.kind) && !LookupAllowed(form.kind.value).Missing? then
      match LookupAllowed(form.kind.value)
      case Inherited => Err(500, "Upload failed")
      case Own(types) =>
        if form.file.value.mime !in types then Err(400, "Invalid file type") else Ok(form.file.value)
    else Ok(form.file.value)
  }

  /** The same checks reading only the table's own keys: a `type` the table
      does not define skips the MIME check, whatever its name. */
  function Check(session: Option<Session>, form: UploadForm): (r: Response<FileInfo>)
    ensures r.Err? && r.status == 401 <==> session.None?
    ensures r.Ok? <==> session.Some? && form.file.Some? && form.file.value.size <= MaxUploadSize &&
                       (Present(form.kind) && KindOf(form.kind.value).Some? ==>
                          form.file.value.mime in AllowedTypes(KindOf(form.kind.value).value))
    ensures r.Ok? ==> Some(r.value) == form.file
    ensures r.Err? ==> r.status == 401 || r.status == 400
  {
    if session.None? then Err(401, "Unauthorized")
    else if form.file.None? then Err(400, "No file provided")
    else if form.file.value.size > MaxUploadSize then Err(400, "File too large (max 10MB)")
    else if Present(form.kind) && LookupAllowed(form.kind.value).Own?
            && form.file.value.mime !in LookupAllowed(form.kind.value).types then
      Err(400, "Invalid file type")
    else Ok(form.file.value)
  }

  /** The two agree on every request except one whose `type` is an
      inherited name. */
  lemma CheckAgreesOffPrototype(session: Option<Session>, form: UploadForm)
    requires !(Present(form.kind) && form.kind.value in InheritedKeys)
    ensures CheckAsWritten(session, form) == Check(session, form)
  {
  }

  /** An authorised upload of a small PNG with `type` "toString" fails with
      500 as written, and is stored by the corrected check. */
  lemma InheritedTypeFails()
    ensures var form := UploadForm(Some(FileInfo("a.png", 10, "image/png")), Some("toString"));
            CheckAsWritten(Some(Session("u1", Orphanage)), form) == Err(500, "Upload failed") &&
            Check(Some(Session("u1", Orphanage)), form).Ok?
  {
    var form := UploadForm(Some(FileInfo("a.png", 10, "image/png")), Some("toString"));
    assert "toString" in InheritedKeys;
    assert LookupAllowed("toString") == Inherited;
  }

  /** After the checks: the blob store. `put` is the store: the URL it gives
      the named file, or None when it throws (a 500). */
  function StoreChecked(checked: Response<FileInfo>, kind: Option<string>, timestamp: nat, random: string,
                        put: string -> Option<string>): (r: Response<StoredFile>)
    ensures checked.Err? ==> r == Err(checked.status, checked.message)
    ensures r.Ok? ==> checked.Ok? && checked.value == FileInfo(checked.value.name, r.value.size, r.value.mime)
    ensures r.Ok? ==> r.value.filename == StoredName(kind, timestamp, random, checked.value.name)
                      && put(r.value.filename) == Some(r.value.url)
    ensures checked.Ok? && r.Err? ==> r == Err(500, "Upload failed") && put(StoredName(kind, timestamp, random, checked.value.name)).None?
  {
    match checked
    case Err(status, message) => Err(status, message)
    case Ok(file) =>
      var filename := StoredName(kind, timestamp, random, file.name);
      match put(filename)
      case None => Err(500, "Upload failed")
      case Some(url) => Ok(StoredFile(url, filename, file.size, file.mime))
  }

  /** `POST` as written: the checks, with an inherited `type` failing as a
      500, then the blob store. */
  function Upload(session: Option<Session>, form: UploadForm, timestamp: nat, random: string,
                  put: string -> Option<string>): (r: Response<StoredFile>)
    ensures CheckAsWritten(session, form).Err? ==>
              r == Err(CheckAsWritten(session, form).status, CheckAsWritten(session, form).message)
    ensures r.Ok? ==> CheckAsWritten(session, form).Ok? && Some(FileInfo(form.file.value.name, r.value.size, r.value.mime)) == form.file
    ensures CheckAsWritten(session, form).Ok? ==>
              var name := StoredName(form.kind, timestamp, random, CheckAsWritten(session, form).value.name);
              if put(name).Some? then r.Ok? && r.value.url == put(name).value else r == Err(500, "Upload failed")
    ensures r.Ok? ==> r.value.filename == StoredName(form.kind, timestamp, random, form.file.value.name)
                      && put(r.value.filename) == Some(r.value.url)
  {
    StoreChecked(CheckAsWritten(session, form), form.kind, timestamp, random, put)
  }

  /** `POST` with the corrected check: only the table's own keys select a
      MIME list. */
  function UploadIntended(session: Option<Session>, form: UploadForm, timestamp: nat, random: string,
                          put: string -> Option<string>): (r: Response<StoredFile>)
    ensures Check(session, form).Err? ==> r == Err(Check(session, form).status, Check(session, form).message)
    ensures r.Ok? ==> Check(session, form).Ok? && Some(FileInfo(form.file.value.name, r.value.size, r.value.mime)) == form.file
    ensures Check(session, form).Ok? ==>
              var name := StoredName(form.kind, timestamp, random, Check(session, form).value.name);
              if put(name).Some? then r.Ok? && r.value.url == put(name).value else r == Err(500, "Upload failed")
    ensures r.Ok? ==> r.value.filename == StoredName(form.kind, timestamp, random, form.file.value.name)
                      && put(r.value.filename) == Some(r.value.url)
  {
    StoreChecked(Check(session, form), form.kind, timestamp, random, put)
  }

  /** The handler as written and the corrected one answer alike unless the
      `type` is an inherited name, where the first answers 500 and the second
      may store the file. */
  lemma UploadAgreesOffPrototype(session: Option<Session>, form: UploadForm, timestamp: nat, random: string,
                                 put: string -> Option<string>)
    ensures !(Present(form.kind) && form.kind.value in InheritedKeys) ==>
              Upload(session, form, timestamp, random, put) == UploadIntended(session, form, timestamp, random, put)
    ensures session.Some? && form.file.Some? && form.file.value.size <= MaxUploadSize &&
            Present(form.kind) && form.kind.value in InheritedKeys ==>
              Upload(session, form, timestamp, random, put) == Err(500, "Upload failed")
  {
    if !(Present(form.kind) && form.kind.value in InheritedKeys) {
      CheckAgreesOffPrototype(session, form);
    }
  }

  /** The widget's default limit and the route's agree: whatever the widget
      lets through by size the route does too. */
  lemma WidgetAndRouteLimitsAgree(k: UploadKind, file: FileInfo)
    requires ValidateFile(k, DefaultMaxSize, file).None?
    ensures CheckAsWritten(Some(Session("u", Admin)), UploadForm(Some(file), Some(KindName(k)))).Ok?
  {
    KindNameRoundTrip(k);
    var form := UploadForm(Some(file), Some(KindName(k)));
    assert LookupAllowed(KindName(k)).Own?;
    assert KindName(k) !in InheritedKeys;
    CheckAgreesOffPrototype(Some(Session("u", Admin)), form);
  }
}
