/** What every route handler shares: the session, HTTP outcomes, JavaScript
    truthiness of request fields, and `parseInt` on query parameters. */
module Http {
  import opened Text

  datatype Option<+T> = None | Some(value: T) {
    function GetOr(default: T): T {
      match this
      case Some(v) => v
      case None => default
    }
  }

  /** A handler's outcome: a JSON body, or an error status with its text. */
  datatype Response<+T> = Ok(value: T) | Err(status: nat, message: string)

  /** How a client-side `fetch` of JSON ended. */
  datatype Fetched<+T> =
    | Loaded(value: T)          // a 2xx response and its JSON
    | NotOk                     // a non-2xx response
    | Threw(message: string)    // fetch or the JSON parse threw an `Error`
    | ThrewOther                // something that is not an `Error` was thrown

  /** The user roles of the platform; Unrecognized stands for any other value
      a session could carry. */
  datatype Role = Orphanage | Organization | Admin | Unrecognized

  /** The authenticated user of a request (`session.user`). */
  datatype Session = Session(userId: string, role: Role)

  /** The role names as they appear in query parameters and in the store. */
  function RoleName(r: Role): string {
    match r
    case Orphanage => "ORPHANAGE"
    case Organization => "ORGANIZATION"
    case Admin => "ADMIN"
    case Unrecognized => ""
  }

  /** A string field of a JSON body or a query parameter is "truthy" when it
      is present and not empty: `if (!x)` rejects exactly the others. */
  predicate Present(x: Option<string>) {
    x.Some? && x.value != ""
  }

  /** `searchParams.get(k) || d`. */
  function OrDefault(x: Option<string>, d: string): (r: string)
    ensures Present(x) ==> r == x.value
    ensures !Present(x) ==> r == d
  {
    if Present(x) then x.value else d
  }

  /** A JavaScript number produced by `parseInt`: an integer or NaN. */
  datatype JsInt = Int(n: int) | NaN

  predicate IsHexDigit(c: char) {
    IsDigit(c) || ('a' <= c <= 'f') || ('A' <= c <= 'F')
  }

  function DigitValue(c: char): (v: nat)
    requires IsHexDigit(c)
    ensures v < 16
    ensures IsDigit(c) ==> v < 10
  {
    if IsDigit(c) then c as int - '0' as int
    else if 'a' <= c <= 'f' then c as int - 'a' as int + 10
    else c as int - 'A' as int + 10
  }

  predicate IsRadixDigit(c: char, radix: nat) {
    if radix == 16 then IsHexDigit(c) else IsDigit(c)
  }

  /** The number of leading characters of s that are digits in radix. */
  function DigitRun(s: string, radix: nat): (k: nat)
    ensures k <= |s|
    ensures forall i :: 0 <= i < k ==> IsRadixDigit(s[i], radix)
    ensures k < |s| ==> !IsRadixDigit(s[k], radix)
  {
    if s == [] || !IsRadixDigit(s[0], radix) then 0 else 1 + DigitRun(s[1..], radix)
  }

  /** The value of a sequence of digits, most significant first. */
  function DigitsValue(s: string, radix: nat): nat
    requires radix == 10 || radix == 16
    requires forall i :: 0 <= i < |s| ==> IsRadixDigit(s[i], radix)
  {
    if s == [] then 0
    else
      assert IsRadixDigit(s[|s| - 1], radix);
      assert IsHexDigit(s[|s| - 1]);
      DigitsValue(s[..|s| - 1], radix) * radix + DigitValue(s[|s| - 1])
  }

  /** The unsigned part of `parseInt`: a `0x`/`0X` prefix selects base 16,
      and the longest run of digits that follows is the value; NaN when that
      run is empty. */
  function ParseUnsigned(u: string): (r: JsInt)
    ensures r.Int? ==> r.n >= 0
  {
    var hex := |u| >= 2 && u[0] == '0' && (u[1] == 'x' || u[1] == 'X');
    var radix := if hex then 16 else 10;
    var body := if hex then u[2..] else u;
    var k := DigitRun(body, radix);
    if k == 0 then NaN else Int(DigitsValue(body[..k], radix))
  }

  /** `parseInt(s)` without a radix: leading white space is skipped and one
      sign is read before the unsigned part. */
  function ParseInt(s: string): (r: JsInt)
  {
    var t := TrimStart(s);
    if |t| > 0 && t[0] == '-' then
      match ParseUnsigned(t[1..])
      case Int(v) => Int(-v)
      case NaN => NaN
    else if |t| > 0 && t[0] == '+' then ParseUnsigned(t[1..])
    else ParseUnsigned(t)
  }

  lemma {:induction false} NatToStringValue(n: nat)
    ensures DigitsValue(NatToString(n), 10) == n
  {
    if n >= 10 {
      NatToStringValue(n / 10);
      var s := NatToString(n);
      assert s[..|s| - 1] == NatToString(n / 10);
    }
  }

  lemma {:induction false} DigitRunAll(s: string, radix: nat)
    requires forall i :: 0 <= i < |s| ==> IsRadixDigit(s[i], radix)
    ensures DigitRun(s, radix) == |s|
  {
    if s != [] { DigitRunAll(s[1..], radix); }
  }

  lemma ParseUnsignedOfDigits(s: string)
    requires |s| >= 1 && forall i :: 0 <= i < |s| ==> IsDigit(s[i])
    ensures ParseUnsigned(s) == Int(DigitsValue(s, 10))
  {
    assert !(|s| >= 2 && (s[1] == 'x' || s[1] == 'X'));
    assert forall i :: 0 <= i < |s| ==> IsRadixDigit(s[i], 10);
    DigitRunAll(s, 10);
    assert s[..|s|] == s;
  }

  /** `parseInt(String(n))` gives n back: the decimal text of a natural
      number parses to that number. */
  lemma ParseIntOfNatToString(n: nat)
    ensures ParseInt(NatToString(n)) == Int(n)
  {
    ParseIntOfDigits(NatToString(n));
    NatToStringValue(n);
  }

  /** A non-empty run of decimal digits has no blank or sign to skip. */
  lemma ParseIntOfDigits(s: string)
    requires |s| >= 1 && forall i :: 0 <= i < |s| ==> IsDigit(s[i])
    ensures ParseInt(s) == Int(DigitsValue(s, 10))
  {
    ParseIntOfLeadingDigit(s);
    ParseUnsignedOfDigits(s);
  }

  lemma ParseIntOfLeadingDigit(s: string)
    requires |s| >= 1 && IsDigit(s[0])
    ensures ParseInt(s) == ParseUnsigned(s)
  {
    assert TrimStart(s) == s;
  }

  /** The window `skip = (page - 1) * limit`, `take = limit` a listing route
      passes to the store; None when the store rejects it (NaN or a negative
      skip) and also for a negative take, which the store would read from the
      end of the ordering and this model treats as an error. */
  function Window(page: JsInt, limit: JsInt): (w: Option<(nat, nat)>)
    ensures w.Some? <==> page.Int? && limit.Int? && (page.n - 1) * limit.n >= 0 && limit.n >= 0
    ensures w.Some? ==> w.value.0 == (page.n - 1) * limit.n && w.value.1 == limit.n
  {
    if page.Int? && limit.Int? && (page.n - 1) * limit.n >= 0 && limit.n >= 0
    then Some(((page.n - 1) * limit.n, limit.n))
    else None
  }

  /** With the defaults `page=1` and `limit=20`, a listing returns its first
      20 rows. */
  lemma DefaultWindow()
    ensures Window(ParseInt(OrDefault(None, "1")), ParseInt(OrDefault(None, "20"))) == Some((0, 20))
  {
    assert OrDefault(None, "1") == "1" == NatToString(1);
    assert NatToString(2) == "2";
    assert OrDefault(None, "20") == "20" == NatToString(20);
    ParseIntOfNatToString(1);
    ParseIntOfNatToString(20);
  }
}
