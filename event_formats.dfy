/**
 * The textual side of src/events.rs: the error values the library returns,
 * `EventBuildError` and its message, `CString::new`, and the AEBuild format
 * strings the library writes (property getter and setter queries, command
 * queries, single-value descriptors). In AEBuild grammar an `@` outside a
 * single-quoted code takes the next argument; the lemmas here count those
 * placeholders so that callers can show each format is passed exactly as
 * many arguments as it asks for.
 */
module EventFormats {
  import opened Prelude
  import opened Sys

  // ---------------------------------------------------------------------
  // Errors
  // ---------------------------------------------------------------------

  /** `EventBuildError`: the AEBuild error code and the position where building stopped. */
  datatype EventBuildError = EventBuildError(code: u32, pos: u32) {

    /** `EventBuildError::new`, which wraps the result in an InvalidInput `io::Error`. */
    static function New(err: AEBuildError): (e: Error)
      ensures e.Build? && e.IsInvalidInput()
      ensures e.err.Code() == err.fError && e.err.Position() == err.fErrorPos && e.err.Pos() == e.err.Position()
    {
      Build(EventBuildError(err.fError, err.fErrorPos))
    }

    function Code(): u32 { code }
    function Position(): u32 { pos }
    function Pos(): u32 { pos }

    /** `Display for EventBuildError`. */
    function Display(): string
    {
      "Error " + Decimal(Code() as nat) + MessageMiddle + Decimal(Pos() as nat)
    }
  }

  const MessageMiddle := " occurred while building event at position "

  /**
   * `std::io::Error` as callers of the library can tell its cases apart.
   * A panic is a value too: the model returns it where the program would unwind.
   */
  datatype Error =
    | InteriorNul                 // `CString::new` met a NUL character
    | Build(err: EventBuildError)  // AEBuild rejected a format
    | Os(status: int)             // `Error::from_raw_os_error`
    | Mismatch(message: string)   // "Value cannot be read as …"
    | Undecodable                 // a strict text decoder rejected the bytes
    | Panic(message: string)
  {
    /** Everything except an OS status and a panic is an `ErrorKind::InvalidInput` error. */
    predicate IsInvalidInput()
    {
      !Os? && !Panic?
    }
  }

  /** `std::io::Result`; `:-` plays the part of `?`. */
  datatype Result<+T> = Ok(value: T) | Err(error: Error) {
    predicate IsFailure() { Err? }

    function PropagateFailure<U>(): Result<U>
      requires Err?
    {
      Err(error)
    }

    function Extract(): T
      requires Ok?
    {
      value
    }
  }

  // ---------------------------------------------------------------------
  // Decimal rendering, for the build-error message
  // ---------------------------------------------------------------------

  predicate AllDigits(s: string)
  {
    forall i | 0 <= i < |s| :: '0' <= s[i] <= '9'
  }

  /** `{}` on an unsigned integer: decimal digits, no leading zeros. */
  function Decimal(n: nat): (s: string)
    ensures |s| > 0 && AllDigits(s)
    decreases n
  {
    var d := (n % 10 + '0' as int) as char;
    if n < 10 then [d] else Decimal(n / 10) + [d]
  }

  function DecimalValue(s: string): nat
    requires AllDigits(s)
  {
    if s == [] then 0 else DecimalValue(s[..|s| - 1]) * 10 + (s[|s| - 1] as int - '0' as int)
  }

  lemma {:induction false} DecimalRoundTrip(n: nat)
    ensures DecimalValue(Decimal(n)) == n
    decreases n
  {
    var s := Decimal(n);
    if n >= 10 {
      DecimalRoundTrip(n / 10);
      assert s[..|s| - 1] == Decimal(n / 10);
    }
  }

  /** A digit string followed by a space-led separator splits in one way only. */
  lemma DigitsBeforeSpace(x: string, y: string, x2: string, y2: string, m: string)
    requires AllDigits(x) && AllDigits(x2) && |m| > 0 && m[0] == ' '
    requires x + m + y == x2 + m + y2
    ensures x == x2 && y == y2
  {
    var s := x + m + y;
    DigitsNotLonger(x, y, x2, y2, m);
    DigitsNotLonger(x2, y2, x, y, m);
    assert x == s[..|x|] == x2;
    assert y == s[|x| + |m|..] == y2;
  }

  lemma DigitsNotLonger(x: string, y: string, x2: string, y2: string, m: string)
    requires AllDigits(x) && AllDigits(x2) && |m| > 0 && m[0] == ' '
    requires x + m + y == x2 + m + y2
    ensures |x| <= |x2|
  {
    assert (x2 + m + y2)[|x2|] == ' ';
    assert forall i | 0 <= i < |x| :: (x + m + y)[i] == x[i];
  }

  lemma MessageAfterPrefix(e: EventBuildError)
    ensures e.Display()[6..] == Decimal(e.code as nat) + MessageMiddle + Decimal(e.pos as nat)
  {
    var x, y := Decimal(e.code as nat), Decimal(e.pos as nat);
    assert e.Display() == "Error " + (x + MessageMiddle + y);
  }

  /** The build-error message names its error: equal messages come from equal errors. */
  lemma BuildErrorMessageDeterminesError(a: EventBuildError, b: EventBuildError)
    ensures a.Display() == b.Display() <==> a == b
  {
    if a.Display() == b.Display() {
      var x, y := Decimal(a.code as nat), Decimal(a.pos as nat);
      var x2, y2 := Decimal(b.code as nat), Decimal(b.pos as nat);
      MessageAfterPrefix(a);
      MessageAfterPrefix(b);
      DigitsBeforeSpace(x, y, x2, y2, MessageMiddle);
      DecimalRoundTrip(a.code as nat);
      DecimalRoundTrip(b.code as nat);
      DecimalRoundTrip(a.pos as nat);
      DecimalRoundTrip(b.pos as nat);
    }
  }

  // ---------------------------------------------------------------------
  // C strings
  // ---------------------------------------------------------------------

  /** `CString::new` with its error mapped to InvalidInput, as every caller in the library maps it. */
  function CStringNew(s: string): (r: Result<string>)
    ensures r.Err? <==> '\0' in s
    ensures r.Ok? ==> r.value == s
    ensures r.Err? ==> r.error == InteriorNul
  {
    if '\0' in s then Err(InteriorNul) else Ok(s)
  }

  /** A code whose bytes include a zero cannot be written into a C string. */
  predicate HasNul(r: ResType)
  {
    '\0' in r.ToString()
  }

  /** A code that can be quoted in AEBuild grammar without ending the quote early. */
  predicate QuoteFree(r: ResType)
  {
    '\'' !in r.ToString()
  }

  /** A code spelled by four printable bytes, none a quote, has neither a NUL nor a quote. */
  lemma PlainCode(a: byte, b: byte, c: byte, d: byte)
    requires 0x20 <= a < 0x7f && 0x20 <= b < 0x7f && 0x20 <= c < 0x7f && 0x20 <= d < 0x7f
    requires a != 0x27 && b != 0x27 && c != 0x27 && d != 0x27
    ensures var r := ResType(FromBigEndian([a, b, c, d])); !HasNul(r) && QuoteFree(r)
  {
    var r := ResType(FromBigEndian([a, b, c, d]));
    FromBigEndianRoundTrip([a, b, c, d]);
    var s := r.ToString();
    assert forall i | 0 <= i < 4 :: s[i] as int == [a, b, c, d][i] as int;
  }

  // ---------------------------------------------------------------------
  // Placeholder counting
  // ---------------------------------------------------------------------

  /** The `@` placeholders in `s` outside single quotes, scanning from quote state `quoted`. */
  function Holes(s: string, quoted: bool): nat
  {
    if s == [] then 0
    else if s[0] == '\'' then Holes(s[1..], !quoted)
    else if s[0] == '@' && !quoted then 1 + Holes(s[1..], quoted)
    else Holes(s[1..], quoted)
  }

  /** Whether the scanner is inside single quotes after reading `s` from state `quoted`. */
  function QuoteState(s: string, quoted: bool): bool
  {
    if s == [] then quoted
    else if s[0] == '\'' then QuoteState(s[1..], !quoted)
    else QuoteState(s[1..], quoted)
  }

  /** A format whose quotes all close and which asks for exactly `n` arguments. */
  predicate Takes(s: string, n: nat)
  {
    Holes(s, false) == n && !QuoteState(s, false)
  }

  lemma {:induction false} HolesAppend(a: string, b: string, q: bool)
    ensures Holes(a + b, q) == Holes(a, q) + Holes(b, QuoteState(a, q))
    ensures QuoteState(a + b, q) == QuoteState(b, QuoteState(a, q))
  {
    if a == [] {
      assert a + b == b;
    } else {
      assert (a + b)[1..] == a[1..] + b;
      HolesAppend(a[1..], b, if a[0] == '\'' then !q else q);
    }
  }

  /** Concatenating formats adds up the arguments they take. */
  lemma TakesAppend(a: string, b: string, m: nat, n: nat)
    requires Takes(a, m) && Takes(b, n)
    ensures Takes(a + b, m + n)
  {
    HolesAppend(a, b, false);
  }

  /** Text with no quote, no `@` and no NUL. */
  predicate Plain(s: string)
  {
    forall i | 0 <= i < |s| :: s[i] != '\'' && s[i] != '@' && s[i] != '\0'
  }

  lemma {:induction false} PlainScan(s: string, q: bool)
    requires Plain(s)
    ensures Holes(s, q) == 0 && QuoteState(s, q) == q && '\0' !in s
  {
    if s != [] {
      PlainScan(s[1..], q);
      assert forall c | c in s[1..] :: c in s;
    }
  }

  lemma {:induction false} InsideQuotes(s: string)
    requires '\'' !in s
    ensures Holes(s, true) == 0 && QuoteState(s, true)
  {
    if s != [] {
      assert forall c | c in s[1..] :: c in s;
      InsideQuotes(s[1..]);
    }
  }

  /** A quoted code takes no argument and leaves the quotes balanced. */
  lemma QuotedCode(r: ResType)
    requires QuoteFree(r)
    ensures Takes(r.Display(), 0) && ('\0' in r.Display() <==> HasNul(r))
  {
    var s := r.Display();
    assert s == "'" + r.ToString() + "'";
    InsideQuotes(r.ToString());
    HolesAppend("'", r.ToString(), false);
    HolesAppend("'" + r.ToString(), "'", false);
  }

  lemma PlainTakes(s: string)
    requires Plain(s)
    ensures Takes(s, 0) && '\0' !in s
  {
    PlainScan(s, false);
  }

  lemma AtTakes()
    ensures Takes("@", 1) && '\0' !in "@"
  {
  }

  // ---------------------------------------------------------------------
  // Property queries (events.rs, property_getter_format / property_setter_format)
  // ---------------------------------------------------------------------

  /** The target part of a property query: the application itself, or the one object argument. */
  function FromText(targetIsNull: bool): string
  {
    if targetIsNull then "'null'" + "()" else "@"
  }

  /**
   * The getter query of events.rs, with the property code and the target
   * filled in. The literal is written in pieces cut at token boundaries; the
   * string is the same.
   */
  function GetterText(targetIsNull: bool, descType: ResType): string
  {
    "'----'" + ":obj { form:prop, " + "want:type(prop), " + "seld:type(" + descType.Display() + "), from:"
      + FromText(targetIsNull) + " }"
  }

  /** The setter query: the getter query with the new value's placeholder in front. */
  function SetterText(targetIsNull: bool, descType: ResType): string
  {
    "data:" + "@" + ", " + GetterText(targetIsNull, descType)
  }

  /** `property_getter_format`. */
  function PropertyGetterFormat(target: AEDesc, descType: ResType): (r: Result<string>)
    reads target
    ensures r.Err? <==> HasNul(descType)
    ensures r.Err? ==> r.error == InteriorNul && r.error.IsInvalidInput()
    ensures r.Ok? && QuoteFree(descType) ==> Takes(r.value, if target.IsNull() then 0 else 1)
  {
    GetterFacts(target.IsNull(), descType);
    CStringNew(GetterText(target.IsNull(), descType))
  }

  /** `property_setter_format`. */
  function PropertySetterFormat(target: AEDesc, descType: ResType): (r: Result<string>)
    reads target
    ensures r.Err? <==> HasNul(descType)
    ensures r.Err? ==> r.error == InteriorNul && r.error.IsInvalidInput()
    ensures r.Ok? && QuoteFree(descType) ==> Takes(r.value, if target.IsNull() then 1 else 2)
  {
    SetterFacts(target.IsNull(), descType);
    CStringNew(SetterText(target.IsNull(), descType))
  }

  lemma NullCode()
    ensures "'null'" == typeNull.Display() && QuoteFree(typeNull) && !HasNul(typeNull)
  {
    assert typeNull.ToString() == "null";
  }

  lemma DirectObjectCode()
    ensures "'----'" == keyDirectObject.Display() && QuoteFree(keyDirectObject) && !HasNul(keyDirectObject)
  {
    assert keyDirectObject.ToString() == "----";
  }

  lemma FromFacts(targetIsNull: bool)
    ensures Takes(FromText(targetIsNull), if targetIsNull then 0 else 1) && '\0' !in FromText(targetIsNull)
  {
    if targetIsNull {
      NullCode();
      QuotedCode(typeNull);
      PlainTakes("()");
      TakesAppend("'null'", "()", 0, 0);
    } else {
      AtTakes();
    }
  }

  lemma HeadPiecesPlain()
    ensures Plain(":obj { form:prop, ") && Plain("want:type(prop), ") && Plain("seld:type(")
  {
  }

  /** The text before the property code: a quoted direct-parameter keyword, then plain text. */
  lemma GetterHeadFacts()
    ensures Takes("'----'" + ":obj { form:prop, " + "want:type(prop), " + "seld:type(", 0)
    ensures '\0' !in "'----'" + ":obj { form:prop, " + "want:type(prop), " + "seld:type("
  {
    var p1, p2, p3, p4 := "'----'", ":obj { form:prop, ", "want:type(prop), ", "seld:type(";
    DirectObjectCode();
    QuotedCode(keyDirectObject);
    HeadPiecesPlain();
    PlainTakes(p2);
    PlainTakes(p3);
    PlainTakes(p4);
    TakesAppend(p1, p2, 0, 0);
    TakesAppend(p1 + p2, p3, 0, 0);
    TakesAppend(p1 + p2 + p3, p4, 0, 0);
  }

  /** The getter query asks for the target exactly when there is one, and has a NUL only if the code has. */
  lemma GetterFacts(targetIsNull: bool, descType: ResType)
    ensures '\0' in GetterText(targetIsNull, descType) <==> HasNul(descType)
    ensures QuoteFree(descType) ==> Takes(GetterText(targetIsNull, descType), if targetIsNull then 0 else 1)
  {
    GetterNulFacts(targetIsNull, descType);
    if QuoteFree(descType) {
      GetterTakes(targetIsNull, descType);
    }
  }

  lemma GetterNulFacts(targetIsNull: bool, descType: ResType)
    ensures '\0' in GetterText(targetIsNull, descType) <==> HasNul(descType)
  {
    var h := "'----'" + ":obj { form:prop, " + "want:type(prop), " + "seld:type(";
    var d, m, f, t := descType.Display(), "), from:", FromText(targetIsNull), " }";
    assert GetterText(targetIsNull, descType) == h + d + m + f + t;
    GetterHeadFacts();
    FromFacts(targetIsNull);
    PlainTakes(m);
    PlainTakes(t);
    assert '\0' in d <==> HasNul(descType) by {
      assert d == "'" + descType.ToString() + "'";
    }
  }

  lemma GetterTakes(targetIsNull: bool, descType: ResType)
    requires QuoteFree(descType)
    ensures Takes(GetterText(targetIsNull, descType), if targetIsNull then 0 else 1)
  {
    var h := "'----'" + ":obj { form:prop, " + "want:type(prop), " + "seld:type(";
    var d, m, f, t := descType.Display(), "), from:", FromText(targetIsNull), " }";
    assert GetterText(targetIsNull, descType) == h + d + m + f + t;
    GetterHeadFacts();
    FromFacts(targetIsNull);
    PlainTakes(m);
    PlainTakes(t);
    QuotedCode(descType);
    TakesAppend(h, d, 0, 0);
    TakesAppend(h + d, m, 0, 0);
    TakesAppend(h + d + m, f, 0, if targetIsNull then 0 else 1);
    TakesAppend(h + d + m + f, t, if targetIsNull then 0 else 1, 0);
  }

  /** The setter query asks for the new value and then for what the getter query asks for. */
  lemma SetterFacts(targetIsNull: bool, descType: ResType)
    ensures '\0' in SetterText(targetIsNull, descType) <==> HasNul(descType)
    ensures QuoteFree(descType) ==> Takes(SetterText(targetIsNull, descType), if targetIsNull then 1 else 2)
  {
    GetterNulFacts(targetIsNull, descType);
    assert '\0' !in "data:" + "@" + ", ";
    if QuoteFree(descType) {
      SetterTakes(targetIsNull, descType);
    }
  }

  lemma SetterTakes(targetIsNull: bool, descType: ResType)
    requires QuoteFree(descType)
    ensures Takes(SetterText(targetIsNull, descType), if targetIsNull then 1 else 2)
  {
    GetterTakes(targetIsNull, descType);
    PlainTakes("data:");
    PlainTakes(", ");
    AtTakes();
    TakesAppend("data:", "@", 0, 1);
    TakesAppend("data:" + "@", ", ", 1, 0);
    TakesAppend("data:" + "@" + ", ", GetterText(targetIsNull, descType), 1, if targetIsNull then 0 else 1);
  }

  // ---------------------------------------------------------------------
  // Command queries (events.rs, the three arms of `call!`)
  // ---------------------------------------------------------------------

  /** The query of a command with no parameter: the direct parameter is the null descriptor. */
  const NoParameterQuery := "'----'" + ":" + "'null'()"

  /** The query of a command with only a direct parameter. */
  const DirectParameterQuery := "'----'" + ":" + "@"

  /** `Vec<String>::join`. */
  function Join(parts: seq<string>, sep: string): string
  {
    if parts == [] then "" else if |parts| == 1 then parts[0] else parts[0] + sep + Join(parts[1..], sep)
  }

  /** The `key:@` placeholders of named parameters, in declaration order. */
  function NamedPlaceholders(keys: seq<ResType>): (ps: seq<string>)
    ensures |ps| == |keys|
  {
    if keys == [] then [] else [keys[0].Display() + ":@"] + NamedPlaceholders(keys[1..])
  }

  /** The query of the third arm, with `CString::new` applied. */
  function NamedParameterQuery(keys: seq<ResType>): Result<string>
  {
    CStringNew(Join([DirectParameterQuery] + NamedPlaceholders(keys), ", "))
  }

  lemma QueryConstantsTake()
    ensures Takes(NoParameterQuery, 0) && '\0' !in NoParameterQuery
    ensures Takes(DirectParameterQuery, 1) && '\0' !in DirectParameterQuery
  {
    DirectObjectCode();
    QuotedCode(keyDirectObject);
    PlainTakes(":");
    TakesAppend("'----'", ":", 0, 0);
    FromFacts(true);
    assert "'null'()" == FromText(true);
    TakesAppend("'----'" + ":", "'null'()", 0, 0);
    AtTakes();
    TakesAppend("'----'" + ":", "@", 0, 1);
  }

  lemma PlaceholderFacts(key: ResType)
    ensures '\0' in key.Display() + ":@" <==> HasNul(key)
    ensures QuoteFree(key) ==> Takes(key.Display() + ":@", 1)
  {
    assert key.Display() == "'" + key.ToString() + "'";
    assert ":@" == ":" + "@";
    PlainTakes(":");
    AtTakes();
    TakesAppend(":", "@", 0, 1);
    if QuoteFree(key) {
      QuotedCode(key);
      TakesAppend(key.Display(), ":@", 0, 1);
    }
  }

  /** Joining a direct part with the named placeholders takes one more argument per placeholder. */
  lemma {:induction false} JoinFacts(first: string, n: nat, keys: seq<ResType>)
    requires Takes(first, n) && forall k | k in keys :: QuoteFree(k)
    ensures Takes(Join([first] + NamedPlaceholders(keys), ", "), n + |keys|)
    decreases |keys|
  {
    var parts := [first] + NamedPlaceholders(keys);
    if keys == [] {
      assert parts == [first];
    } else {
      var p := keys[0].Display() + ":@";
      assert parts[1..] == [p] + NamedPlaceholders(keys[1..]);
      assert Join(parts, ", ") == first + ", " + Join([p] + NamedPlaceholders(keys[1..]), ", ");
      PlaceholderFacts(keys[0]);
      PlainTakes(", ");
      TakesAppend(first, ", ", n, 0);
      JoinFacts(p, 1, keys[1..]);
      TakesAppend(first + ", ", Join([p] + NamedPlaceholders(keys[1..]), ", "), n, 1 + |keys[1..]|);
    }
  }

  /** The NUL half of `JoinFacts`, which holds for any first part. */
  lemma {:induction false} JoinNulFacts(first: string, keys: seq<ResType>)
    ensures '\0' in Join([first] + NamedPlaceholders(keys), ", ") <==> '\0' in first || exists k | k in keys :: HasNul(k)
    decreases |keys|
  {
    var parts := [first] + NamedPlaceholders(keys);
    if keys == [] {
      assert parts == [first];
    } else {
      var p := keys[0].Display() + ":@";
      assert parts[1..] == [p] + NamedPlaceholders(keys[1..]);
      assert Join(parts, ", ") == first + ", " + Join([p] + NamedPlaceholders(keys[1..]), ", ");
      PlaceholderFacts(keys[0]);
      PlainTakes(", ");
      JoinNulFacts(p, keys[1..]);
      assert forall k | k in keys[1..] :: k in keys;
      assert (exists k | k in keys :: HasNul(k)) <==> HasNul(keys[0]) || exists k | k in keys[1..] :: HasNul(k);
    }
  }

  /** The named-parameter query fails only for a key with a NUL byte, and asks for one argument per parameter. */
  lemma NamedParameterQueryFacts(keys: seq<ResType>)
    ensures NamedParameterQuery(keys).Err? <==> exists k | k in keys :: HasNul(k)
    ensures NamedParameterQuery(keys).Ok? && (forall k | k in keys :: QuoteFree(k)) ==>
      Takes(NamedParameterQuery(keys).value, 1 + |keys|)
  {
    QueryConstantsTake();
    JoinNulFacts(DirectParameterQuery, keys);
    if forall k | k in keys :: QuoteFree(k) {
      JoinFacts(DirectParameterQuery, 1, keys);
    }
  }

  // ---------------------------------------------------------------------
  // Single-value descriptors (events.rs, `build_desc!`)
  // ---------------------------------------------------------------------

  /** The format `build_desc!` writes for a value of type `descType`, before `CString::new`. */
  function DescText(descType: ResType): string
  {
    descType.Display() + "(@)"
  }

  /** The descriptor format takes one value, and the descriptor it builds carries the requested type. */
  lemma DescTextFacts(descType: ResType)
    ensures '\0' in DescText(descType) <==> HasNul(descType)
    ensures QuoteFree(descType) ==> Takes(DescText(descType), 1)
    ensures DescFormatType(DescText(descType)) == descType
  {
    var s := DescText(descType);
    assert s == "'" + descType.ToString() + "'" + "(@)";
    assert "(@)" == "(" + "@" + ")";
    PlainTakes("(");
    PlainTakes(")");
    AtTakes();
    TakesAppend("(", "@", 0, 1);
    TakesAppend("(@", ")", 1, 0);
    if QuoteFree(descType) {
      QuotedCode(descType);
      TakesAppend(descType.Display(), "(@)", 0, 1);
    }
    FourCCOfToString(descType);
    assert s[1..5] == descType.ToString() && s[5..] == "'(@)";
  }
}
