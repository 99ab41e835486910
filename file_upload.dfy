/** The upload widget: which files it offers in the file dialog, the check it
    runs on a chosen file before sending it, and the `error`, `isUploading`
    and `dragActive` state it keeps around the request. */
module FileUpload {
  import opened Http
  import opened Text
  import Score

  /** The `type` prop. */
  datatype UploadKind = ProfileImage | Document | Gallery

  function KindName(k: UploadKind): string {
    match k
    case ProfileImage => "profile-image"
    case Document => "document"
    case Gallery => "gallery"
  }

  /** The kind a `type` string names, if any. */
  function KindOf(name: string): (r: Option<UploadKind>)
    ensures r.Some? ==> KindName(r.value) == name
  {
    if name == "profile-image" then Some(ProfileImage)
    else if name == "document" then Some(Document)
    else if name == "gallery" then Some(Gallery)
    else None
  }

  /** Every kind is named by exactly its own name. */
  lemma KindNameRoundTrip(k: UploadKind)
    ensures KindOf(KindName(k)) == Some(k)
  {
  }

  /** The `allowedTypes` table. */
  function AllowedTypes(k: UploadKind): (r: seq<string>)
    ensures "image/jpeg" in r && "image/png" in r
    ensures |r| == 3
  {
    match k
    case ProfileImage => ["image/jpeg", "image/png", "image/webp"]
    case Document => ["application/pdf", "image/jpeg", "image/png"]
    case Gallery => ["image/jpeg", "image/png", "image/webp"]
  }

  /** `xs.join(sep)`. */
  function Join(xs: seq<string>, sep: string): (r: string)
    ensures xs == [] ==> r == ""
    ensures |xs| == 1 ==> r == xs[0]
  {
    if xs == [] then ""
    else if |xs| == 1 then xs[0]
    else xs[0] + sep + Join(xs[1..], sep)
  }

  lemma JoinThree(a: string, b: string, c: string, sep: string)
    ensures Join([a, b, c], sep) == a + sep + b + sep + c
  {
    assert [a, b, c][1..] == [b, c];
    assert [b, c][1..] == [c];
  }

  /** `getAcceptTypes`: an explicit (non-empty) `accept` wins, otherwise the
      kind's allowed types joined with commas. */
  function AcceptTypes(k: UploadKind, accept: Option<string>): (r: string)
    ensures Present(accept) ==> r == accept.value
    ensures !Present(accept) ==> r != "" && r != "*/*"
  {
    if Present(accept) then accept.value
    else match k
      case ProfileImage => "image/jpeg,image/png,image/webp"
      case Gallery => "image/jpeg,image/png,image/webp"
      case Document => "application/pdf,image/jpeg,image/png"
  }

  /** `maxSize = 10 * 1024 * 1024`. */
  const DefaultMaxSize: nat := 10 * 1024 * 1024

  /** A chosen file: its name, size in bytes and MIME type. */
  datatype FileInfo = FileInfo(name: string, size: nat, mime: string)

  /** `Math.round(maxSize / 1024 / 1024)`: the limit in whole megabytes. */
  function Megabytes(maxSize: nat): (mb: nat)
    ensures mb as real - 0.5 <= maxSize as real / 1048576.0 < mb as real + 0.5
  {
    var x := maxSize as real / 1024.0 / 1024.0;
    assert x == maxSize as real / 1048576.0;
    Score.Round(x)
  }

  function SizeError(maxSize: nat): string {
    "File too large. Maximum size is " + NatToString(Megabytes(maxSize)) + "MB"
  }

  function TypeError(k: UploadKind): string {
    "Invalid file type. Allowed types: " + Join(AllowedTypes(k), ", ")
  }

  /** `validateFile`: None accepts the file; the size is checked first, so a
      file that is too large and of the wrong type gets the size message. */
  function ValidateFile(k: UploadKind, maxSize: nat, file: FileInfo): (r: Option<string>)
    ensures r.None? <==> file.size <= maxSize && file.mime in AllowedTypes(k)
    ensures file.size > maxSize ==> r == Some(SizeError(maxSize))
    ensures file.size <= maxSize && file.mime !in AllowedTypes(k) ==> r == Some(TypeError(k))
  {
    if file.size > maxSize then Some(SizeError(maxSize))
    else if file.mime !in AllowedTypes(k) then Some(TypeError(k))
    else None
  }

  /** With the default limit the message says 10MB, and a file of exactly
      10MB passes the size check. */
  lemma DefaultLimit(k: UploadKind, file: FileInfo)
    ensures SizeError(DefaultMaxSize) == "File too large. Maximum size is 10MB"
    ensures file.size == DefaultMaxSize && file.mime in AllowedTypes(k) ==> ValidateFile(k, DefaultMaxSize, file).None?
  {
    assert Megabytes(DefaultMaxSize) == 10;
    assert NatToString(10) == "10" by {
      assert NatToString(1) == "1";
    }
  }

  /** Every message is non-empty, so the `if (validationError)` test in
      `uploadFile` sees each rejection. */
  lemma RejectionsAreTruthy(k: UploadKind, maxSize: nat, file: FileInfo)
    ensures ValidateFile(k, maxSize, file).Some? ==> ValidateFile(k, maxSize, file).value != ""
  {
  }

  /** Without an explicit `accept`, a file the dialog offers is one whose
      type validation accepts. */
  lemma DialogAgreesWithValidation(k: UploadKind, mime: string)
    ensures AcceptTypes(k, None) == Join(AllowedTypes(k), ",")
    ensures mime in AllowedTypes(k) <==>
              (k.Document? && mime == "application/pdf") || mime == "image/jpeg" || mime == "image/png" ||
              (!k.Document? && mime == "image/webp")
  {
    if k.Document? { JoinedDocumentTypes(); } else { JoinedImageTypes(); }
  }

  lemma JoinedImageTypes()
    ensures Join(["image/jpeg", "image/png", "image/webp"], ",") == "image/jpeg,image/png,image/webp"
  {
    JoinThree("image/jpeg", "image/png", "image/webp", ",");
    assert "image/jpeg" + "," + "image/png" == "image/jpeg,image/png";
    assert "image/jpeg,image/png" + "," + "image/webp" == "image/jpeg,image/png,image/webp";
  }

  lemma JoinedDocumentTypes()
    ensures Join(["application/pdf", "image/jpeg", "image/png"], ",") == "application/pdf,image/jpeg,image/png"
  {
    JoinThree("application/pdf", "image/jpeg", "image/png", ",");
    assert "application/pdf" + "," + "image/jpeg" == "application/pdf,image/jpeg";
    assert "application/pdf,image/jpeg" + "," + "image/png" == "application/pdf,image/jpeg,image/png";
  }

  /** What came back from POST /api/upload. */
  datatype Outcome =
    | Uploaded(url: string)       // a 2xx response whose JSON carries `url`
    | Rejected(body: string)      // a non-2xx response and its text
    | Failed(message: string)     // fetch itself threw an Error with this message

  /** The error an outcome leaves behind: `errorText || 'Upload failed'` for
      a rejection, the thrown error's own message otherwise. */
  function OutcomeError(o: Outcome): (e: string)
    ensures o.Uploaded? ==> e == ""
    ensures o.Rejected? ==> e != "" && (o.body != "" ==> e == o.body)
    ensures o.Failed? ==> e == o.message
  {
    match o
    case Uploaded(_) => ""
    case Rejected(body) => if body != "" then body else "Upload failed"
    case Failed(message) => message
  }

  class Uploader {
    const kind: UploadKind
    const maxSize: nat
    var isUploading: bool
    var error: string
    var dragActive: bool

    /** A widget with the default limit unless one is given. */
    constructor(kind: UploadKind, maxSize: Option<nat>)
      ensures this.kind == kind && this.maxSize == maxSize.GetOr(DefaultMaxSize)
      ensures !isUploading && error == "" && !dragActive
    {
      this.kind := kind;
      this.maxSize := maxSize.GetOr(DefaultMaxSize);
      isUploading := false;
      error := "";
      dragActive := false;
    }

    /** The part of `uploadFile` before the request: a rejected file only
        sets the error and sends nothing; an accepted one clears the error
        and marks the widget busy. */
    method BeginUpload(file: FileInfo) returns (requested: bool)
      modifies this
      ensures requested <==> ValidateFile(kind, maxSize, file).None?
      ensures !requested ==> error == ValidateFile(kind, maxSize, file).value && isUploading == old(isUploading)
      ensures requested ==> error == "" && isUploading
      ensures dragActive == old(dragActive)
    {
      var validationError := ValidateFile(kind, maxSize, file);
      if validationError.Some? {
        error := validationError.value;
        requested := false;
        return;
      }
      isUploading := true;
      error := "";
      requested := true;
    }

    /** The part after the request: a success hands the URL to
        `onUploadComplete`, a failure sets the error; either way the widget
        is no longer busy. */
    method FinishUpload(outcome: Outcome) returns (completed: Option<string>)
      modifies this
      ensures completed == (if outcome.Uploaded? then Some(outcome.url) else None)
      ensures error == (if outcome.Uploaded? then old(error) else OutcomeError(outcome))
      ensures !isUploading && dragActive == old(dragActive)
    {
      completed := None;
      if outcome.Uploaded? {
        completed := Some(outcome.url);
      } else {
        error := OutcomeError(outcome);
      }
      isUploading := false;
    }

    /** `handleDrag`: entering or hovering highlights the drop zone, leaving
        clears it, any other drag event changes nothing. */
    method HandleDrag(eventType: string)
      modifies this
      ensures eventType == "dragenter" || eventType == "dragover" ==> dragActive
      ensures eventType == "dragleave" ==> !dragActive
      ensures eventType !in {"dragenter", "dragover", "dragleave"} ==> dragActive == old(dragActive)
      ensures isUploading == old(isUploading) && error == old(error)
    {
      if eventType == "dragenter" || eventType == "dragover" {
        dragActive := true;
      } else if eventType == "dragleave" {
        dragActive := false;
      }
    }

    /** `handleDrop`: clears the highlight, then starts an upload of the
        first dropped file if there is one. */
    method HandleDrop(files: seq<FileInfo>) returns (requested: bool)
      modifies this
      ensures !dragActive
      ensures files == [] ==> !requested && error == old(error) && isUploading == old(isUploading)
      ensures files != [] ==> (requested <==> ValidateFile(kind, maxSize, files[0]).None?)
    {
      dragActive := false;
      requested := false;
      if files != [] {
        requested := BeginUpload(files[0]);
      }
    }

    /** `uploadFile` from start to end, with the response as a parameter:
        an invalid file never reaches the server; otherwise the widget ends
        idle, hands on a URL exactly when the upload worked, and shows an
        error after every rejection by the server. */
    method UploadFile(file: FileInfo, outcome: Outcome) returns (requested: bool, completed: Option<string>)
      modifies this
      ensures requested <==> ValidateFile(kind, maxSize, file).None?
      ensures !requested ==> completed.None? && error == ValidateFile(kind, maxSize, file).value
      ensures requested ==> !isUploading && (completed.Some? <==> outcome.Uploaded?)
      ensures requested && outcome.Uploaded? ==> error == ""
      ensures requested && outcome.Rejected? ==> error != ""
    {
      requested := BeginUpload(file);
      completed := None;
      if requested {
        completed := FinishUpload(outcome);
      }
    }
  }
}
