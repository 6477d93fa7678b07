/**
 * The Apple Event side of src/events.rs: property descriptors, property
 * readers and writers, the getter round trip, the value codecs, evented
 * objects and the three shapes of command. Every method is proved against
 * the scripted transport: what it returns is a function of the transport's
 * answers, the calls it makes are listed exactly, and every handle it
 * allocates is disposed exactly once unless it hands it to its caller.
 */
module Events {
  import opened Prelude
  import opened Sys
  import opened Encoding
  import opened EventFormats

  // ---------------------------------------------------------------------
  // Values and their wire types
  // ---------------------------------------------------------------------

  /** The property types the library reads and writes (`EventPropertyType`, `EventEnum`). */
  datatype Kind = StringKind | BoolKind | F64Kind | I16Kind | I32Kind | I64Kind | EnumKind

  /**
   * A property value. Integers carry their mathematical value; `F64` carries
   * the IEEE 754 bit pattern, as floating point is not modelled; `Enum`
   * carries the enumeration's four-character code.
   */
  datatype Value = Text(s: string) | Bool(b: bool) | F64(bits: nat) | I16(i: int) | I32(i: int) | I64(i: int) | Enum(code: u32)

  /** The values a Rust variable of each type can hold. */
  predicate InRange(v: Value)
  {
    match v
    case F64(bits) => bits < 0x1_0000_0000_0000_0000
    case I16(i) => -0x8000 <= i < 0x8000
    case I32(i) => -0x8000_0000 <= i < 0x8000_0000
    case I64(i) => -0x8000_0000_0000_0000 <= i < 0x8000_0000_0000_0000
    case _ => true
  }

  function KindOf(v: Value): Kind
  {
    match v
    case Text(_) => StringKind
    case Bool(_) => BoolKind
    case F64(_) => F64Kind
    case I16(_) => I16Kind
    case I32(_) => I32Kind
    case I64(_) => I64Kind
    case Enum(_) => EnumKind
  }

  /** The descriptor type each reader accepts and each writer builds. */
  function Tag(k: Kind): ResType
  {
    match k
    case StringKind => typeUnicodeText
    case BoolKind => typeBoolean
    case F64Kind => typeFloat
    case I16Kind => typeSInt16
    case I32Kind => typeSInt32
    case I64Kind => typeSInt64
    case EnumKind => typeEnumerated
  }

  /** The name a type mismatch reports. */
  function TypeName(k: Kind): string
  {
    match k
    case StringKind => "String"
    case BoolKind => "bool"
    case F64Kind => "f64"
    case I16Kind => "i16"
    case I32Kind => "i32"
    case I64Kind => "i64"
    case EnumKind => "enum"
  }

  /** The size in bytes of the Rust variable a scalar is read into. */
  function Width(k: Kind): nat
  {
    match k
    case StringKind => 0
    case BoolKind => 1
    case F64Kind => 8
    case I16Kind => 2
    case I32Kind => 4
    case I64Kind => 8
    case EnumKind => 4
  }

  /** Each kind is read under a type no other kind uses, and none of them is 'null'. */
  lemma TagsDistinct(k1: Kind, k2: Kind)
    ensures Tag(k1) != typeNull
    ensures Tag(k1) == Tag(k2) <==> k1 == k2
    ensures QuoteFree(Tag(k1)) && !HasNul(Tag(k1))
  {
    match k1 {
      case StringKind => PlainCode(0x75, 0x74, 0x78, 0x74);
      case BoolKind => PlainCode(0x62, 0x6f, 0x6f, 0x6c);
      case F64Kind => PlainCode(0x64, 0x6f, 0x75, 0x62);
      case I16Kind => PlainCode(0x73, 0x68, 0x6f, 0x72);
      case I32Kind => PlainCode(0x6c, 0x6f, 0x6e, 0x67);
      case I64Kind => PlainCode(0x63, 0x6f, 0x6d, 0x70);
      case EnumKind => PlainCode(0x65, 0x6e, 0x75, 0x6d);
    }
  }

  // ---------------------------------------------------------------------
  // Native byte layouts
  // ---------------------------------------------------------------------

  /** The unsigned value of little-endian bytes. */
  function LittleEndian(b: seq<byte>): (n: nat)
    ensures n < Pow256(|b|)
  {
    if b == [] then 0 else b[0] as nat + 0x100 * LittleEndian(b[1..])
  }

  function Pow256(n: nat): (p: nat)
    ensures p > 0
  {
    if n == 0 then 1 else 0x100 * Pow256(n - 1)
  }

  /** The `width` little-endian bytes of `n`, which must fit. */
  function ToLittleEndian(n: nat, width: nat): (b: seq<byte>)
    requires n < Pow256(width)
    ensures |b| == width
  {
    if width == 0 then [] else [(n % 0x100) as byte] + ToLittleEndian(n / 0x100, width - 1)
  }

  lemma {:induction false} LittleEndianRoundTrip(n: nat, width: nat)
    requires n < Pow256(width)
    ensures LittleEndian(ToLittleEndian(n, width)) == n
  {
    if width > 0 {
      LittleEndianRoundTrip(n / 0x100, width - 1);
      assert ToLittleEndian(n, width)[1..] == ToLittleEndian(n / 0x100, width - 1);
    }
  }

  /** Two's complement: the signed value of an unsigned `bits`-wide pattern. */
  function Signed(u: nat, half: nat): int
  {
    if u < half then u else u - 2 * half
  }

  /** The pattern a signed value leaves in memory. */
  function Unsigned(i: int, half: nat): nat
    requires -(half as int) <= i < half
  {
    if i >= 0 then i else i + 2 * half
  }

  /** The bytes of the zero-initialised `width`-byte variable after `written` has been copied to its start. */
  function Filled(written: seq<byte>, width: nat): (b: seq<byte>)
    requires |written| <= width
    ensures |b| == width && b[..|written|] == written
  {
    written + seq(width - |written|, _ => 0 as byte)
  }

  /** The scalar a little-endian variable of kind `k` holds. */
  function Decode(k: Kind, b: seq<byte>): Value
    requires k != StringKind
  {
    var n := LittleEndian(b);
    match k
    case BoolKind => Bool(n != 0)
    case F64Kind => F64(n)
    case I16Kind => I16(Signed(n, 0x8000))
    case I32Kind => I32(Signed(n, 0x8000_0000))
    case I64Kind => I64(Signed(n, 0x8000_0000_0000_0000))
    case EnumKind => Enum(if n < 0x1_0000_0000 then n as u32 else 0)
  }

  /** The bytes a scalar value occupies in memory: its native little-endian layout. */
  function Native(v: Value): (b: seq<byte>)
    requires InRange(v) && !v.Text?
    ensures |b| == Width(KindOf(v))
  {
    match v
    case Bool(x) => ToLittleEndian(if x then 1 else 0, 1)
    case F64(bits) => ToLittleEndian(bits, 8)
    case I16(i) => ToLittleEndian(Unsigned(i, 0x8000), 2)
    case I32(i) => ToLittleEndian(Unsigned(i, 0x8000_0000), 4)
    case I64(i) => ToLittleEndian(Unsigned(i, 0x8000_0000_0000_0000), 8)
    case Enum(code) => ToLittleEndian(code as nat, 4)
  }

  lemma Pow256Values()
    ensures Pow256(1) == 0x100 && Pow256(2) == 0x1_0000 && Pow256(4) == 0x1_0000_0000
    ensures Pow256(8) == 0x1_0000_0000_0000_0000
  {
    assert Pow256(2) == 0x1_0000 by {
      assert Pow256(1) == 0x100;
    }
    assert Pow256(4) == 0x1_0000_0000 by {
      assert Pow256(3) == 0x100_0000;
    }
    assert Pow256(8) == 0x1_0000_0000_0000_0000 by {
      assert Pow256(6) == 0x1_0000_0000_0000;
    }
  }

  /** Every scalar survives being laid out in memory and read back. */
  lemma NativeRoundTrip(v: Value)
    requires InRange(v) && !v.Text?
    ensures Decode(KindOf(v), Native(v)) == v
  {
    Pow256Values();
    match v
    case Bool(x) => LittleEndianRoundTrip(if x then 1 else 0, 1);
    case F64(bits) => LittleEndianRoundTrip(bits, 8);
    case I16(i) => LittleEndianRoundTrip(Unsigned(i, 0x8000), 2);
    case I32(i) => LittleEndianRoundTrip(Unsigned(i, 0x8000_0000), 4);
    case I64(i) => LittleEndianRoundTrip(Unsigned(i, 0x8000_0000_0000_0000), 8);
    case Enum(code) => LittleEndianRoundTrip(code as nat, 4);
  }

  // ---------------------------------------------------------------------
  // What a getter round trip yields
  // ---------------------------------------------------------------------

  /**
   * `compose_and_read_getter_event` as a function of the transport's answers:
   * a build failure, a send failure, or the reply.
   */
  function Fetch(buildStatus: int, buildError: AEBuildError, sendStatus: int, answer: Reply): (r: Result<Reply>)
    ensures r.Ok? <==> buildStatus == 0 && sendStatus == 0
    ensures r.Ok? ==> r.value == answer
    ensures buildStatus != 0 ==> r == Err(EventBuildError.New(buildError))
    ensures buildStatus == 0 && sendStatus != 0 ==> r == Err(Os(sendStatus))
  {
    if buildStatus != 0 then Err(EventBuildError.New(buildError))
    else if sendStatus != 0 then Err(Os(sendStatus))
    else Ok(answer)
  }

  /** The bytes `AEGetParamPtr` copies into a buffer of `capacity` bytes. */
  function Copied(rep: Reply, capacity: nat): (b: seq<byte>)
    ensures |b| <= capacity && |b| <= |rep.data|
  {
    rep.data[..Min(|rep.data|, capacity)]
  }

  /**
   * A scalar `read` (bool, f64, i16, i32, i64, and `EventEnum::read`) as a
   * function of the reply: 'null' gives `None`, the kind's own type is
   * copied into a zeroed variable of the kind's width, anything else is a
   * mismatch.
   */
  function ScalarRead(k: Kind, fetched: Result<Reply>): (r: Result<Option<Value>>)
    requires k != StringKind
    ensures r.Ok? <==> (fetched.Ok? && fetched.value.sizeStatus == 0
      && (fetched.value.paramType == typeNull || (fetched.value.paramType == Tag(k) && fetched.value.readStatus == 0)))
    ensures r.Ok? && r.value.Some? ==> KindOf(r.value.value) == k && fetched.value.paramType == Tag(k)
  {
    match fetched
    case Err(e) => Err(e)
    case Ok(rep) =>
      if rep.sizeStatus != 0 then Err(Os(rep.sizeStatus))
      else if rep.paramType == typeNull then Ok(None)
      else if rep.paramType == Tag(k) then
        if rep.readStatus != 0 then Err(Os(rep.readStatus))
        else Ok(Some(Decode(k, Filled(Copied(rep, Width(k)), Width(k)))))
      else Err(Mismatch("Value cannot be read as " + TypeName(k)))
  }

  /**
   * `String::read` as a function of the reply: 'utxt' and 'vers' are read as
   * UTF-16LE, 'TEXT' as ASCII, both strictly, into a buffer with room for
   * the reported size; there is no case for 'null'.
   */
  function StringRead(fetched: Result<Reply>): (r: Result<Option<Value>>)
    ensures r.Ok? ==> (r.value.Some? && r.value.value.Text? && fetched.Ok? && fetched.value.sizeStatus == 0
      && fetched.value.readStatus == 0 && ReadsAs(StringKind, fetched.value.paramType))
  {
    match fetched
    case Err(e) => Err(e)
    case Ok(rep) =>
      if rep.sizeStatus != 0 then Err(Os(rep.sizeStatus))
      else if rep.paramType == typeUnicodeText || rep.paramType == typeVersion then
        if rep.readStatus != 0 then Err(Os(rep.readStatus))
        else match DecodeUtf16(Copied(rep, rep.paramSize))
          case Some(s) => Ok(Some(Text(s)))
          case None => Err(Undecodable)
      else if rep.paramType == typeChar then
        if rep.readStatus != 0 then Err(Os(rep.readStatus))
        else match DecodeAscii(Copied(rep, rep.paramSize))
          case Some(s) => Ok(Some(Text(s)))
          case None => Err(Undecodable)
      else Err(Mismatch("Value cannot be read as String"))
  }

  /** The reply types a read of kind `k` decodes: 'utxt', 'vers' and 'TEXT' for a string, the kind's own otherwise. */
  predicate ReadsAs(k: Kind, paramType: ResType)
  {
    if k == StringKind then paramType == typeUnicodeText || paramType == typeVersion || paramType == typeChar
    else paramType == Tag(k)
  }

  /** `EventPropertyType::read` for kind `k`. */
  function ReadOutcome(k: Kind, fetched: Result<Reply>): (r: Result<Option<Value>>)
    ensures r.Ok? && r.value.Some? ==> KindOf(r.value.value) == k
    ensures k == StringKind ==> r != Ok(None)
  {
    if k == StringKind then StringRead(fetched) else ScalarRead(k, fetched)
  }

  /** An application's answer whose direct parameter is `data`, of type `paramType`, delivered as is. */
  function Answer(paramType: ResType, data: seq<byte>): Reply
  {
    Reply(0, paramType, |data|, 0, data, 0)
  }

  /** A scalar the application answers with in its native layout is read back unchanged. */
  lemma ScalarAnswerReadBack(v: Value)
    requires InRange(v) && !v.Text?
    ensures ScalarRead(KindOf(v), Ok(Answer(Tag(KindOf(v)), Native(v)))) == Ok(Some(v))
  {
    var k := KindOf(v);
    TagsDistinct(k, k);
    var rep := Answer(Tag(k), Native(v));
    assert Copied(rep, Width(k)) == Native(v);
    assert Filled(Native(v), Width(k)) == Native(v);
    NativeRoundTrip(v);
  }

  /** A string the application answers with as UTF-16LE text is read back unchanged. */
  lemma StringAnswerReadBack(s: string)
    ensures StringRead(Ok(Answer(typeUnicodeText, EncodeUtf16(s)))) == Ok(Some(Text(s)))
  {
    var rep := Answer(typeUnicodeText, EncodeUtf16(s));
    assert Copied(rep, rep.paramSize) == EncodeUtf16(s);
    DecodeEncodeUtf16(s);
  }

  /** Every 'null' answer reads as `None` for every scalar and enumeration, and is a mismatch for a string. */
  lemma NullAnswer(k: Kind, rep: Reply)
    requires rep.sizeStatus == 0 && rep.paramType == typeNull
    ensures ReadOutcome(k, Ok(rep)) == if k == StringKind then Err(Mismatch("Value cannot be read as String")) else Ok(None)
  {
    CodesDistinct();
  }

  /**
   * A scalar read fails with "Value cannot be read as" and the type's name
   * exactly when the answer's type is neither 'null' nor the kind's own.
   */
  lemma ScalarMismatchExactly(k: Kind, rep: Reply)
    requires k != StringKind && rep.sizeStatus == 0
    ensures ScalarRead(k, Ok(rep)) == Err(Mismatch("Value cannot be read as " + TypeName(k)))
      <==> rep.paramType != typeNull && rep.paramType != Tag(k)
  {
  }

  /** A string read fails with "Value cannot be read as String" exactly when the answer is not text. */
  lemma StringMismatchExactly(rep: Reply)
    requires rep.sizeStatus == 0
    ensures StringRead(Ok(rep)) == Err(Mismatch("Value cannot be read as String"))
      <==> !ReadsAs(StringKind, rep.paramType)
  {
  }

  /**
   * What fails before anything is decoded is passed on unchanged: the round
   * trip's error, the status of the size query, and the status of the read
   * of a parameter whose type the kind decodes.
   */
  lemma ReadErrorsPropagate(k: Kind, fetched: Result<Reply>)
    ensures fetched.Err? ==> ReadOutcome(k, fetched) == Err(fetched.error)
    ensures fetched.Ok? && fetched.value.sizeStatus != 0 ==> ReadOutcome(k, fetched) == Err(Os(fetched.value.sizeStatus))
    ensures (fetched.Ok? && fetched.value.sizeStatus == 0 && ReadsAs(k, fetched.value.paramType)
      && fetched.value.readStatus != 0) ==> ReadOutcome(k, fetched) == Err(Os(fetched.value.readStatus))
  {
    TagsDistinct(k, k);
  }

  // ---------------------------------------------------------------------
  // Buffer sizes as the source passes them
  // ---------------------------------------------------------------------

  /**
   * The bytes the scalar `read`s as written let `AEGetParamPtr` store: they
   * pass the size the reply reports, not the width of the variable, as the
   * buffer's maximum size. `ScalarRead` passes the width instead.
   */
  function ScalarStoreAsWritten(rep: Reply): (b: seq<byte>)
    ensures |b| == Min(|rep.data|, rep.paramSize)
  {
    Copied(rep, rep.paramSize)
  }

  /** A 'long' answer of eight bytes makes the scalar read as written store eight bytes into a four-byte `i32`. */
  lemma ScalarStoreOverruns()
    ensures var rep := Answer(typeSInt32, [1, 0, 0, 0, 2, 0, 0, 0]);
      && rep.paramType == Tag(I32Kind)
      && |ScalarStoreAsWritten(rep)| > Width(I32Kind)
      && |Copied(rep, Width(I32Kind))| <= Width(I32Kind)
  {
  }

  /**
   * The length `String::read` as written gives its buffer after the read:
   * the size `AESizeOfParam` reported for the parameter in its own type,
   * whatever the coerced read stored. `StringRead` decodes what was stored.
   */
  function StringLengthAsWritten(rep: Reply): (n: nat)
    ensures |Copied(rep, rep.paramSize)| <= n
  {
    rep.paramSize
  }

  /**
   * A 'vers' parameter of 12 bytes whose 'utxt' coercion is 8 bytes long:
   * the buffer as written ends in 4 bytes the read never stored.
   */
  lemma StringLengthOverrunsStored()
    ensures var rep := Reply(0, typeVersion, 12, 0, [0x31, 0, 0x2e, 0, 0x30, 0, 0x30, 0], 0);
      StringLengthAsWritten(rep) == |Copied(rep, rep.paramSize)| + 4
  {
  }

  // ---------------------------------------------------------------------
  // Evented objects, property descriptors, readers
  // ---------------------------------------------------------------------

  /**
   * What `EventedObject` exposes: the target application's signature and
   * bundle id, and the descriptor of the object addressed (null for the
   * application itself). The bundle id is the text before its terminating NUL,
   * which is what `strlen` measures.
   */
  datatype EventedObject = EventedObject(signature: ResType, bundleId: string, targetObject: AEDesc)

  /** `PropertyDescriptor`: a reply, with the type and size of its direct parameter. */
  datatype PropertyDescriptor = PropertyDescriptor(event: AEDesc, propType: ResType, size: nat)

  /** The result of `PropertyDescriptor::read`: the descriptor back, or an error with a rebuilt descriptor. */
  datatype ReadResult = Read(desc: PropertyDescriptor) | ReadFailed(error: Error, desc: PropertyDescriptor)

  /** `EventPropertyReader`: an object, and the getter query for one of its properties. */
  datatype EventPropertyReader = EventPropertyReader(signature: ResType, bundleId: string, targetObject: AEDesc,
                                                     query: string)
  {
    /** `EventPropertyReader::new`: fails only when the property code cannot be put in a C string. */
    static function New(signature: ResType, bundleId: string, targetObject: AEDesc, property: ResType)
      : (r: Result<EventPropertyReader>)
      reads targetObject
      ensures r.Err? <==> HasNul(property)
      ensures r.Err? ==> r.error == InteriorNul
      ensures r.Ok? ==> (r.value.signature == signature && r.value.bundleId == bundleId
        && r.value.targetObject == targetObject && r.value.query == GetterText(targetObject.IsNull(), property))
    {
      var query :- PropertyGetterFormat(targetObject, property);
      Ok(EventPropertyReader(signature, bundleId, targetObject, query))
    }

    /** The arguments the getter event takes: the target, unless it is null. */
    function Params(): seq<DescValue>
      reads targetObject
    {
      if targetObject.IsNull() then [] else [targetObject.Value()]
    }

    /** The event `compose_and_read_getter_event` builds. */
    function Build(): Call
      reads targetObject
    {
      BuildEvent(kAECoreSuite, kAEGetData, typeApplicationBundleID, bundleId, kAutoGenerateReturnID,
                 kAnyTransactionID, query, Params())
    }
  }

  /** A reader's query asks for exactly the arguments its getter event passes. */
  lemma ReaderQueryMatchesParams(signature: ResType, bundleId: string, target: AEDesc, property: ResType)
    requires QuoteFree(property)
    requires EventPropertyReader.New(signature, bundleId, target, property).Ok?
    ensures var reader := EventPropertyReader.New(signature, bundleId, target, property).value;
      Takes(reader.query, |reader.Params()|)
  {
    GetterFacts(target.IsNull(), property);
  }

  /** The calls of a getter round trip whose event got handle `h`: built, then, if built, sent and disposed. */
  function RoundTrip(build: Call, h: nat, built: bool): seq<Call>
  {
    [build] + if built then [Send(DescValue(typeAppleEvent, h), BitOr(kAEWaitReply, kAENeverInteract), kAEDefaultTimeout),
                             Dispose(h)]
              else []
  }

  /** `compose_and_read_getter_event`. */
  method ComposeAndReadGetterEvent(reader: EventPropertyReader, t: Transport) returns (r: Result<AEDesc>)
    requires t.Valid()
    modifies t`log, t`live, t`next, t`replyOf, t`pending
    ensures t.Valid() && unchanged(reader.targetObject)
    ensures r.Ok? <==> t.buildStatus == 0 && t.sendStatus == 0
    ensures r.Err? ==> Err(r.error) == Fetch(t.buildStatus, t.buildError, t.sendStatus, old(t.NextReply()))
    ensures t.log == old(t.log) + RoundTrip(old(reader.Build()), old(t.next), t.buildStatus == 0)
    ensures r.Ok? ==> (fresh(r.value) && r.value.Value() == DescValue(typeAppleEvent, old(t.next) + 1)
      && t.live == old(t.live) + {old(t.next) + 1} && t.ReplyAt(old(t.next) + 1) == old(t.NextReply())
      && t.next == old(t.next) + 2)
    ensures r.Err? ==> t.live == old(t.live)
    ensures t.pending == Remaining(old(t.pending), t.buildStatus == 0 && t.sendStatus == 0)
    ensures old(t.next) <= t.next
    ensures forall h | h in old(t.replyOf) :: h in t.replyOf && t.replyOf[h] == old(t.replyOf[h])
  {
    var event := new AEDesc.Default();
    var params := reader.Params();
    var status, err := t.AEBuildAppleEvent(kAECoreSuite, kAEGetData, typeApplicationBundleID, reader.bundleId,
                                           kAutoGenerateReturnID, kAnyTransactionID, event, reader.query, params);
    if status == 0 {
      var reply := new AEDesc.Default();
      var sent := t.AESendMessage(event, reply, BitOr(kAEWaitReply, kAENeverInteract), kAEDefaultTimeout);
      if sent == 0 {
        r := Ok(reply);
      } else {
        reply.Drop(t);
        r := Err(Os(sent));
      }
    } else {
      r := Err(EventBuildError.New(err));
    }
    event.Drop(t);
  }

  /** The calls of disposing a descriptor that held handle `h`: none for a null handle. */
  function Released(h: nat): seq<Call>
  {
    if h == 0 then [] else [Dispose(h)]
  }

  /** `PropertyDescriptor::new`: takes the reply; on failure the reply is dropped. */
  method NewPropertyDescriptor(event: AEDesc, t: Transport) returns (r: Result<PropertyDescriptor>)
    requires t.Valid() && event.OwnedIn(t)
    modifies t`log, t`live, event`dataHandle
    ensures t.Valid()
    ensures var rep := t.ReplyAt(old(event.dataHandle));
      r == if rep.sizeStatus == 0 then Ok(PropertyDescriptor(event, rep.paramType, rep.paramSize))
           else Err(Os(rep.sizeStatus))
    ensures r.Ok? ==> t.log == old(t.log) && t.live == old(t.live) && event.dataHandle == old(event.dataHandle)
    ensures r.Err? ==> t.log == old(t.log) + Released(old(event.dataHandle)) && t.live == old(t.live) - {old(event.dataHandle)}
  {
    var status, propType, size := t.AESizeOfParam(event, keyDirectObject);
    if status == 0 {
      r := Ok(PropertyDescriptor(event, propType, size));
    } else {
      event.Drop(t);
      r := Err(Os(status));
    }
  }

  /**
   * `PropertyDescriptor::read`: copies the direct parameter, as `bufferType`,
   * into a buffer of `bufferSize` bytes; `written` is what lands in the buffer.
   */
  method ReadParam(pd: PropertyDescriptor, bufferType: ResType, bufferSize: nat, t: Transport)
    returns (r: ReadResult, written: seq<byte>)
    ensures var rep := t.ReplyAt(pd.event.dataHandle);
      rep.readStatus == 0 ==> r == Read(pd) && written == Copied(rep, bufferSize)
    ensures var rep := t.ReplyAt(pd.event.dataHandle);
      rep.readStatus != 0 ==> (r == ReadFailed(Os(rep.readStatus), PropertyDescriptor(pd.event, DefaultResType(), 0))
        && written == [])
  {
    var status, propType, size;
    status, propType, written, size := t.AEGetParamPtr(pd.event, keyDirectObject, bufferType, bufferSize);
    if status == 0 {
      r := Read(pd);
    } else {
      r := ReadFailed(Os(status), PropertyDescriptor(pd.event, propType, size));
    }
  }

  /** `EventPropertyReader::property_descriptor`. */
  method PropertyDescriptorOf(reader: EventPropertyReader, t: Transport) returns (r: Result<PropertyDescriptor>)
    requires t.Valid()
    modifies t`log, t`live, t`next, t`replyOf, t`pending
    ensures t.pending == Remaining(old(t.pending), t.buildStatus == 0 && t.sendStatus == 0)
    ensures t.Valid() && unchanged(reader.targetObject)
    ensures var f := Fetch(t.buildStatus, t.buildError, t.sendStatus, old(t.NextReply()));
      var trip := old(t.log) + RoundTrip(old(reader.Build()), old(t.next), t.buildStatus == 0);
      && (f.Err? ==> r == Err(f.error) && t.log == trip && t.live == old(t.live))
      && (f.Ok? && f.value.sizeStatus != 0 ==>
            r == Err(Os(f.value.sizeStatus)) && t.log == trip + [Dispose(old(t.next) + 1)] && t.live == old(t.live))
      && (f.Ok? && f.value.sizeStatus == 0 ==>
            r.Ok? && r.value.propType == f.value.paramType && r.value.size == f.value.paramSize
            && fresh(r.value.event) && r.value.event.Value() == DescValue(typeAppleEvent, old(t.next) + 1)
            && t.ReplyAt(old(t.next) + 1) == f.value
            && t.log == trip && t.live == old(t.live) + {old(t.next) + 1})
  {
    var event :- ComposeAndReadGetterEvent(reader, t);
    r := NewPropertyDescriptor(event, t);
  }

  /** The calls one property read makes: the round trip, then the disposal of a reply if one came back. */
  function ReadLog(build: Call, h: nat, buildStatus: int, sendStatus: int): seq<Call>
  {
    RoundTrip(build, h, buildStatus == 0) + if buildStatus == 0 && sendStatus == 0 then [Dispose(h + 1)] else []
  }

  /**
   * The scalar `read`s (bool, f64, i16, i32, i64, `EventEnum::read`): the
   * result is `ScalarRead` of the transport's answers, and the reply is
   * disposed on every path.
   */
  method ReadScalar(k: Kind, reader: EventPropertyReader, t: Transport) returns (r: Result<Option<Value>>)
    requires t.Valid() && k != StringKind
    modifies t`log, t`live, t`next, t`replyOf, t`pending
    ensures t.pending == Remaining(old(t.pending), t.buildStatus == 0 && t.sendStatus == 0)
    ensures t.Valid() && unchanged(reader.targetObject)
    ensures r == ScalarRead(k, Fetch(t.buildStatus, t.buildError, t.sendStatus, old(t.NextReply())))
    ensures t.log == old(t.log) + ReadLog(old(reader.Build()), old(t.next), t.buildStatus, t.sendStatus)
    ensures t.live == old(t.live)
  {
    var pd :- PropertyDescriptorOf(reader, t);
    if pd.propType == typeNull {
      pd.event.Drop(t);
      r := Ok(None);
    } else if pd.propType == Tag(k) {
      var res, written := ReadParam(pd, Tag(k), Width(k), t);
      match res
      case Read(d) =>
        r := Ok(Some(Decode(k, Filled(written, Width(k)))));
        d.event.Drop(t);
      case ReadFailed(e, d) =>
        r := Err(e);
        d.event.Drop(t);
    } else {
      pd.event.Drop(t);
      r := Err(Mismatch("Value cannot be read as " + TypeName(k)));
    }
  }

  /** `String::read`: the result is `StringRead` of the transport's answers; the reply is disposed on every path. */
  method ReadString(reader: EventPropertyReader, t: Transport) returns (r: Result<Option<Value>>)
    requires t.Valid()
    modifies t`log, t`live, t`next, t`replyOf, t`pending
    ensures t.pending == Remaining(old(t.pending), t.buildStatus == 0 && t.sendStatus == 0)
    ensures t.Valid() && unchanged(reader.targetObject)
    ensures r == StringRead(Fetch(t.buildStatus, t.buildError, t.sendStatus, old(t.NextReply())))
    ensures t.log == old(t.log) + ReadLog(old(reader.Build()), old(t.next), t.buildStatus, t.sendStatus)
    ensures t.live == old(t.live)
  {
    var pd :- PropertyDescriptorOf(reader, t);
    if pd.propType == typeUnicodeText || pd.propType == typeVersion {
      var res, written := ReadParam(pd, typeUnicodeText, pd.size, t);
      match res
      case Read(d) =>
        var text := DecodeUtf16(written);
        r := if text.Some? then Ok(Some(Text(text.value))) else Err(Undecodable);
        d.event.Drop(t);
      case ReadFailed(e, d) =>
        r := Err(e);
        d.event.Drop(t);
    } else if pd.propType == typeChar {
      var res, written := ReadParam(pd, typeChar, pd.size, t);
      match res
      case Read(d) =>
        var text := DecodeAscii(written);
        r := if text.Some? then Ok(Some(Text(text.value))) else Err(Undecodable);
        d.event.Drop(t);
      case ReadFailed(e, d) =>
        r := Err(e);
        d.event.Drop(t);
    } else {
      pd.event.Drop(t);
      r := Err(Mismatch("Value cannot be read as String"));
    }
  }

  /** `EventPropertyType::read` for kind `k`. */
  method ReadProperty(k: Kind, reader: EventPropertyReader, t: Transport) returns (r: Result<Option<Value>>)
    requires t.Valid()
    modifies t`log, t`live, t`next, t`replyOf, t`pending
    ensures t.pending == Remaining(old(t.pending), t.buildStatus == 0 && t.sendStatus == 0)
    ensures t.Valid() && unchanged(reader.targetObject)
    ensures r == ReadOutcome(k, Fetch(t.buildStatus, t.buildError, t.sendStatus, old(t.NextReply())))
    ensures t.log == old(t.log) + ReadLog(old(reader.Build()), old(t.next), t.buildStatus, t.sendStatus)
    ensures t.live == old(t.live)
  {
    if k == StringKind {
      r := ReadString(reader, t);
    } else {
      r := ReadScalar(k, reader, t);
    }
  }

  /** What `EventPropertyReader::descriptor` yields, given the round trip's outcome and the next free handle. */
  function DescriptorOutcome(f: Result<Reply>, h: nat): Result<DescValue>
  {
    match f
    case Err(e) => Err(e)
    case Ok(rep) =>
      if rep.descStatus != 0 then Err(Os(rep.descStatus))
      else if rep.paramType == typeNull then Ok(DescValue(typeNull, 0))
      else Ok(DescValue(rep.paramType, h))
  }

  /** `EventPropertyReader::descriptor`: the direct parameter as a descriptor of its own, which the caller owns. */
  method Descriptor(reader: EventPropertyReader, t: Transport) returns (r: Result<AEDesc>)
    requires t.Valid()
    modifies t`log, t`live, t`next, t`replyOf, t`pending
    ensures t.pending == Remaining(old(t.pending), t.buildStatus == 0 && t.sendStatus == 0)
    ensures t.Valid() && unchanged(reader.targetObject)
    ensures var f := Fetch(t.buildStatus, t.buildError, t.sendStatus, old(t.NextReply()));
      var out := DescriptorOutcome(f, old(t.next) + 2);
      && (r.Ok? <==> out.Ok?)
      && (r.Err? ==> out == Err(r.error) && t.live == old(t.live))
      && (r.Ok? ==> (fresh(r.value) && out.value == r.value.Value() && r.value.OwnedIn(t)
            && t.live == old(t.live) + (if r.value.dataHandle == 0 then {} else {r.value.dataHandle})))
    ensures t.log == old(t.log) + ReadLog(old(reader.Build()), old(t.next), t.buildStatus, t.sendStatus)
  {
    var event :- ComposeAndReadGetterEvent(reader, t);
    var obj := new AEDesc.Default();
    var status := t.AEGetParamDesc(event, keyDirectObject, typeWildCard, obj);
    if status == 0 {
      r := Ok(obj);
    } else {
      r := Err(Os(status));
    }
    event.Drop(t);
  }

  /**
   * `EventedSubObject::read`: the object the property names, addressed by the
   * returned descriptor; never `None`, and a 'null' answer gives an object
   * whose target is null.
   */
  method ReadSubObject(reader: EventPropertyReader, t: Transport) returns (r: Result<Option<EventedObject>>)
    requires t.Valid()
    modifies t`log, t`live, t`next, t`replyOf, t`pending
    ensures t.pending == Remaining(old(t.pending), t.buildStatus == 0 && t.sendStatus == 0)
    ensures t.Valid() && unchanged(reader.targetObject)
    ensures var f := Fetch(t.buildStatus, t.buildError, t.sendStatus, old(t.NextReply()));
      var out := DescriptorOutcome(f, old(t.next) + 2);
      && (r.Ok? <==> out.Ok?)
      && (r.Err? ==> out == Err(r.error) && t.live == old(t.live))
      && (r.Ok? ==> (r.value.Some? && r.value.value.signature == reader.signature
            && r.value.value.bundleId == reader.bundleId
            && fresh(r.value.value.targetObject) && r.value.value.targetObject.Value() == out.value
            && r.value.value.targetObject.OwnedIn(t)
            && t.live == old(t.live) + (if r.value.value.targetObject.dataHandle == 0 then {}
                                        else {r.value.value.targetObject.dataHandle})
            && (r.value.value.targetObject.IsNull() <==> f.value.paramType == typeNull || f.value.paramType.IsNull())))
    ensures t.log == old(t.log) + ReadLog(old(reader.Build()), old(t.next), t.buildStatus, t.sendStatus)
  {
    var descriptor :- Descriptor(reader, t);
    r := Ok(Some(EventedObject(reader.signature, reader.bundleId, descriptor)));
  }

  // ---------------------------------------------------------------------
  // Writing values
  // ---------------------------------------------------------------------

  /** The arguments `to_desc` passes after its format: the value, as each `build_desc!` call spells it. */
  function Args(v: Value): (args: seq<DataArg>)
    ensures v.Text? ==> |args| == 2 && args[1] == Bytes(EncodeUtf16(v.s)) && args[0] == UInt(|args[1].data|)
    ensures !v.Text? ==> |args| == 1
    ensures v.I16? ==> args[0].UInt? && args[0].u < 0x1_0000_0000
  {
    match v
    case Text(s) => [UInt(|EncodeUtf16(s)|), Bytes(EncodeUtf16(s))]
    case Bool(b) => [UInt(if b then 1 else 0)]
    case F64(bits) => [Double(bits)]
    case I16(i) => [UInt(i % 0x1_0000_0000)]
    case I32(i) => [Int(i)]
    case I64(i) => [Int(i)]
    case Enum(code) => [UInt(code as nat)]
  }

  /** The value a list of `to_desc` arguments stands for, for a given kind. */
  function FromArgs(k: Kind, args: seq<DataArg>): Option<Value>
  {
    match k
    case StringKind =>
      if |args| == 2 && args[1].Bytes? then
        match DecodeUtf16(args[1].data) case Some(s) => Some(Text(s)) case None => None
      else None
    case BoolKind => if |args| == 1 && args[0].UInt? then Some(Bool(args[0].u != 0)) else None
    case F64Kind => if |args| == 1 && args[0].Double? then Some(F64(args[0].bits)) else None
    case I16Kind => if |args| == 1 && args[0].UInt? then Some(I16(Signed(args[0].u, 0x8000_0000))) else None
    case I32Kind => if |args| == 1 && args[0].Int? then Some(I32(args[0].i)) else None
    case I64Kind => if |args| == 1 && args[0].Int? then Some(I64(args[0].i)) else None
    case EnumKind =>
      if |args| == 1 && args[0].UInt? && args[0].u < 0x1_0000_0000 then Some(Enum(args[0].u as u32)) else None
  }

  /** What `to_desc` passes determines the value: no two values of a kind are sent alike. */
  lemma ArgsRoundTrip(v: Value)
    requires InRange(v)
    ensures FromArgs(KindOf(v), Args(v)) == Some(v)
  {
    if v.Text? {
      DecodeEncodeUtf16(v.s);
    }
  }

  /**
   * Whether `to_desc` turns `v` into a descriptor when the build is answered
   * with `a`. An enumeration never does: `EventPropertyType` is implemented for
   * it only through the blanket implementation for `AutoPropertyType`, which
   * forwards `read` alone, so its `to_desc` is the default one, which panics.
   */
  predicate Converts(v: Value, a: DescAnswer)
  {
    !v.Enum? && a.status == 0
  }

  /** How `to_desc` fails: the panic of `unimplemented!()` for an enumeration, the build error otherwise. */
  function ConversionError(v: Value, a: DescAnswer): (e: Error)
    ensures e.Panic? <==> v.Enum?
  {
    if v.Enum? then Panic("not implemented") else EventBuildError.New(a.error)
  }

  /** The `build_desc!` call `to_desc` makes for `v`: none for an enumeration, which panics first. */
  function ConversionLog(v: Value): (calls: seq<Call>)
    ensures |calls| == (if v.Enum? then 0 else 1)
    ensures !v.Enum? ==> calls[0].BuildDesc? && calls[0].data == Args(v)
  {
    if v.Enum? then [] else [BuildDesc(DescText(Tag(KindOf(v))), Args(v))]
  }

  /**
   * `EventPropertyType::to_desc` for every property value: one `build_desc!`
   * of the kind's type, or, for an enumeration, a panic before any call.
   */
  method ToDesc(v: Value, t: Transport) returns (r: Result<AEDesc>)
    requires t.Valid()
    modifies t`log, t`live, t`next, t`descScript
    ensures t.Valid()
    ensures t.log == old(t.log) + ConversionLog(v)
    ensures t.descScript == After(old(t.descScript), |ConversionLog(v)|)
    ensures r.Ok? <==> Converts(v, old(t.NextDesc()))
    ensures r.Ok? ==> (fresh(r.value) && r.value.Value() == DescValue(Tag(KindOf(v)), old(t.next))
      && t.live == old(t.live) + {old(t.next)} && t.next == old(t.next) + 1)
    ensures r.Err? ==> (r.error == ConversionError(v, old(t.NextDesc())) && t.live == old(t.live)
      && t.next == old(t.next))
  {
    if v.Enum? {
      assert old(t.descScript)[0..] == old(t.descScript);
      return Err(Panic("not implemented"));
    }
    var k := KindOf(v);
    TagsDistinct(k, k);
    DescTextFacts(Tag(k));
    var format := DescText(Tag(k));
    var event := new AEDesc.Default();
    var status, err := t.AEBuildDesc(event, format, Args(v));
    if status == 0 {
      r := Ok(event);
    } else {
      r := Err(EventBuildError.New(err));
    }
  }

  /** `to_desc` for an argument of `call!`: the temporary is known by its value until it is dropped. */
  method ToDescValue(v: Value, t: Transport) returns (r: Result<DescValue>)
    requires t.Valid()
    modifies t`log, t`live, t`next, t`descScript
    ensures t.Valid()
    ensures t.log == old(t.log) + ConversionLog(v)
    ensures t.descScript == After(old(t.descScript), |ConversionLog(v)|)
    ensures r.Ok? <==> Converts(v, old(t.NextDesc()))
    ensures r.Ok? ==> (r.value == DescValue(Tag(KindOf(v)), old(t.next))
      && t.live == old(t.live) + {old(t.next)} && t.next == old(t.next) + 1)
    ensures r.Err? ==> (r.error == ConversionError(v, old(t.NextDesc())) && t.live == old(t.live)
      && t.next == old(t.next))
  {
    var d := ToDesc(v, t);
    r := if d.Ok? then Ok(d.value.Value()) else Err(d.error);
  }

  /** `EventPropertyWriter`: an object, and the setter query for one of its properties. */
  datatype EventPropertyWriter = EventPropertyWriter(signature: ResType, bundleId: string, targetObject: AEDesc,
                                                     query: string)
  {
    /** `EventPropertyWriter::new`: fails only when the property code cannot be put in a C string. */
    static function New(signature: ResType, bundleId: string, targetObject: AEDesc, property: ResType)
      : (r: Result<EventPropertyWriter>)
      reads targetObject
      ensures r.Err? <==> HasNul(property)
      ensures r.Err? ==> r.error == InteriorNul
      ensures r.Ok? ==> (r.value.signature == signature && r.value.bundleId == bundleId
        && r.value.targetObject == targetObject && r.value.query == SetterText(targetObject.IsNull(), property))
    {
      var query :- PropertySetterFormat(targetObject, property);
      Ok(EventPropertyWriter(signature, bundleId, targetObject, query))
    }

    /** The arguments of the setter event: the new value, then the target unless it is null. */
    function Params(property: DescValue): seq<DescValue>
      reads targetObject
    {
      if targetObject.IsNull() then [property] else [property, targetObject.Value()]
    }

    function Build(property: DescValue): Call
      reads targetObject
    {
      BuildEvent(kAECoreSuite, kAESetData, typeApplicationBundleID, bundleId, kAutoGenerateReturnID,
                 kAnyTransactionID, query, Params(property))
    }
  }

  /** A writer's query asks for exactly the arguments its setter event passes. */
  lemma WriterQueryMatchesParams(signature: ResType, bundleId: string, target: AEDesc, property: ResType,
                                 value: DescValue)
    requires QuoteFree(property)
    requires EventPropertyWriter.New(signature, bundleId, target, property).Ok?
    ensures var writer := EventPropertyWriter.New(signature, bundleId, target, property).value;
      Takes(writer.query, |writer.Params(value)|)
  {
    SetterFacts(target.IsNull(), property);
  }

  /** The calls of sending an event held in `h` without waiting for a reply, then disposing it. */
  function SendNoReply(h: nat, sendMode: int): seq<Call>
  {
    [Send(DescValue(typeAppleEvent, h), sendMode, kAEDefaultTimeout), Dispose(h)]
  }

  /** How a command or a setter event ends: a build failure, a send failure, or success. */
  function SendOutcome(buildStatus: int, buildError: AEBuildError, sendStatus: int): (r: Result<()>)
    ensures r.Ok? <==> buildStatus == 0 && sendStatus == 0
  {
    if buildStatus != 0 then Err(EventBuildError.New(buildError))
    else if sendStatus != 0 then Err(Os(sendStatus))
    else Ok(())
  }

  /** `EventPropertyWriter::write`: builds and sends the setter event; the event and then the value are disposed. */
  method Write(writer: EventPropertyWriter, property: AEDesc, t: Transport) returns (r: Result<()>)
    requires t.Valid() && property.OwnedIn(t) && property != writer.targetObject
    modifies t`log, t`live, t`next, t`replyOf, t`pending, property`dataHandle
    ensures t.pending == old(t.pending) && t.replyOf == old(t.replyOf)
    ensures t.Valid() && unchanged(writer.targetObject)
    ensures r == SendOutcome(t.buildStatus, t.buildError, t.sendStatus)
    ensures t.log == old(t.log) + [old(writer.Build(property.Value()))]
      + (if t.buildStatus == 0 then SendNoReply(old(t.next), kAENoReply) else [])
      + Released(old(property.dataHandle))
    ensures t.live == old(t.live) - {old(property.dataHandle)}
  {
    var event := new AEDesc.Default();
    var status, err := t.AEBuildAppleEvent(kAECoreSuite, kAESetData, typeApplicationBundleID, writer.bundleId,
                                           kAutoGenerateReturnID, kAnyTransactionID, event, writer.query,
                                           writer.Params(property.Value()));
    if status == 0 {
      var sent := t.AESendMessage(event, null, kAENoReply, kAEDefaultTimeout);
      r := if sent == 0 then Ok(()) else Err(Os(sent));
    } else {
      r := Err(EventBuildError.New(err));
    }
    event.Drop(t);
    property.Drop(t);
  }

  // ---------------------------------------------------------------------
  // Evented objects: properties and commands
  // ---------------------------------------------------------------------

  /** The getter event `get_property` builds for `property` of `obj`. */
  function GetterCall(obj: EventedObject, property: ResType): Call
    reads obj.targetObject
  {
    BuildEvent(kAECoreSuite, kAEGetData, typeApplicationBundleID, obj.bundleId, kAutoGenerateReturnID,
               kAnyTransactionID, GetterText(obj.targetObject.IsNull(), property),
               if obj.targetObject.IsNull() then [] else [obj.targetObject.Value()])
  }

  /** The setter event `set_property` builds for `property` of `obj`, carrying `value`. */
  function SetterCall(obj: EventedObject, property: ResType, value: DescValue): Call
    reads obj.targetObject
  {
    BuildEvent(kAECoreSuite, kAESetData, typeApplicationBundleID, obj.bundleId, kAutoGenerateReturnID,
               kAnyTransactionID, SetterText(obj.targetObject.IsNull(), property),
               if obj.targetObject.IsNull() then [value] else [value, obj.targetObject.Value()])
  }

  /**
   * `EventedObject::get_property` for a property of kind `k`: a code that
   * cannot be put in a C string fails before anything is sent; otherwise
   * the result is `ReadOutcome` of the transport's answers.
   */
  method GetProperty(obj: EventedObject, property: ResType, k: Kind, t: Transport) returns (r: Result<Option<Value>>)
    requires t.Valid()
    modifies t`log, t`live, t`next, t`replyOf, t`pending
    ensures t.descScript == old(t.descScript)
    ensures t.pending == Remaining(old(t.pending), !HasNul(property) && t.buildStatus == 0 && t.sendStatus == 0)
    ensures t.Valid() && unchanged(obj.targetObject) && t.live == old(t.live)
    ensures HasNul(property) ==> r == Err(InteriorNul) && t.log == old(t.log)
    ensures !HasNul(property) ==> (
      && r == ReadOutcome(k, Fetch(t.buildStatus, t.buildError, t.sendStatus, old(t.NextReply())))
      && t.log == old(t.log) + ReadLog(old(GetterCall(obj, property)), old(t.next), t.buildStatus, t.sendStatus))
  {
    var reader :- EventPropertyReader.New(obj.signature, obj.bundleId, obj.targetObject, property);
    r := ReadProperty(k, reader, t);
  }

  /**
   * `EventedObject::get_property` for a property that names an object
   * (`EventedSubObject::read`): the new object shares `obj`'s application
   * and owns the descriptor the reply named.
   */
  method GetSubObject(obj: EventedObject, property: ResType, t: Transport) returns (r: Result<Option<EventedObject>>)
    requires t.Valid()
    modifies t`log, t`live, t`next, t`replyOf, t`pending
    ensures t.descScript == old(t.descScript)
    ensures t.pending == Remaining(old(t.pending), !HasNul(property) && t.buildStatus == 0 && t.sendStatus == 0)
    ensures t.Valid() && unchanged(obj.targetObject)
    ensures HasNul(property) ==> r == Err(InteriorNul) && t.log == old(t.log) && t.live == old(t.live)
    ensures !HasNul(property) ==> (
      var f := Fetch(t.buildStatus, t.buildError, t.sendStatus, old(t.NextReply()));
      var out := DescriptorOutcome(f, old(t.next) + 2);
      && (r.Ok? <==> out.Ok?)
      && (r.Err? ==> out == Err(r.error) && t.live == old(t.live))
      && (r.Ok? ==> (r.value.Some? && r.value.value.signature == obj.signature
            && r.value.value.bundleId == obj.bundleId
            && fresh(r.value.value.targetObject) && r.value.value.targetObject.Value() == out.value
            && r.value.value.targetObject.OwnedIn(t)
            && t.live == old(t.live) + (if r.value.value.targetObject.dataHandle == 0 then {}
                                        else {r.value.value.targetObject.dataHandle})))
      && t.log == old(t.log) + ReadLog(old(GetterCall(obj, property)), old(t.next), t.buildStatus, t.sendStatus))
  {
    var reader :- EventPropertyReader.New(obj.signature, obj.bundleId, obj.targetObject, property);
    r := ReadSubObject(reader, t);
  }

  /**
   * `EventedObject::set_property`: the writer is made first, then the
   * value's descriptor, then the setter event is built and sent; every
   * descriptor made is disposed again.
   */
  method SetProperty(obj: EventedObject, property: ResType, v: Value, t: Transport) returns (r: Result<()>)
    requires t.Valid()
    modifies t`log, t`live, t`next, t`replyOf, t`pending, t`descScript
    ensures t.pending == old(t.pending) && t.replyOf == old(t.replyOf)
    ensures t.descScript == if HasNul(property) then old(t.descScript)
                            else After(old(t.descScript), |ConversionLog(v)|)
    ensures t.Valid() && unchanged(obj.targetObject) && t.live == old(t.live)
    ensures HasNul(property) ==> r == Err(InteriorNul) && t.log == old(t.log)
    ensures !HasNul(property) && !Converts(v, old(t.NextDesc())) ==> (
      && r == Err(ConversionError(v, old(t.NextDesc())))
      && t.log == old(t.log) + ConversionLog(v))
    ensures !HasNul(property) && Converts(v, old(t.NextDesc())) ==> (
      && r == SendOutcome(t.buildStatus, t.buildError, t.sendStatus)
      && t.log == old(t.log) + [BuildDesc(DescText(Tag(KindOf(v))), Args(v))]
           + [old(SetterCall(obj, property, DescValue(Tag(KindOf(v)), t.next)))]
           + (if t.buildStatus == 0 then SendNoReply(old(t.next) + 1, kAENoReply) else [])
           + [Dispose(old(t.next))])
  {
    var writer :- EventPropertyWriter.New(obj.signature, obj.bundleId, obj.targetObject, property);
    var desc :- ToDesc(v, t);
    r := Write(writer, desc, t);
  }

  /** The event a `call!` builds: class is the application's signature, addressed by bundle identifier. */
  function CommandCall(obj: EventedObject, eventID: ResType, query: string, params: seq<DescValue>): Call
  {
    BuildEvent(obj.signature, eventID, typeApplicationBundleID, obj.bundleId, kAutoGenerateReturnID,
               kAnyTransactionID, query, params)
  }

  /** The send mode of every `call!`. */
  const CommandSendMode := BitOr(kAENoReply, kAENeverInteract)

  /**
   * What a `call!` does once its arguments exist: the build, the disposal
   * of the argument descriptors (temporaries of the build statement, held
   * in `h0`, `h0 + 1`, ..., dropped last first), then the send without a
   * reply and the disposal of the event, held in `h`.
   */
  function CommandTail(obj: EventedObject, eventID: ResType, query: string, params: seq<DescValue>, h0: nat, h: nat,
                       built: bool): seq<Call>
  {
    [CommandCall(obj, eventID, query, params)] + DisposeDown(h0, |params|)
      + if built then SendNoReply(h, CommandSendMode) else []
  }

  /** The descriptors `descs` hold the consecutive handles `h0`, `h0 + 1`, ..., and each is live. */
  predicate Held(descs: seq<DescValue>, h0: nat, live: set<nat>)
  {
    forall j | 0 <= j < |descs| :: descs[j].dataHandle == h0 + j && descs[j].dataHandle in live
  }

  lemma HeldInLarger(descs: seq<DescValue>, h0: nat, live0: set<nat>, live1: set<nat>)
    requires Held(descs, h0, live0) && live0 <= live1
    ensures Held(descs, h0, live1)
  {
    forall j | 0 <= j < |descs|
      ensures descs[j].dataHandle == h0 + j && descs[j].dataHandle in live1
    {
    }
  }

  /** The build statement of a `call!`: build the event from `params`, then drop them, last first. */
  method BuildCommand(obj: EventedObject, eventID: ResType, query: string, params: seq<DescValue>, h0: nat,
                      t: Transport) returns (event: AEDesc, status: int, err: AEBuildError)
    requires t.Valid()
    requires Held(params, h0, t.live)
    modifies t`log, t`live, t`next
    ensures t.Valid() && fresh(event) && status == t.buildStatus
    ensures t.log == old(t.log) + [CommandCall(obj, eventID, query, params)] + DisposeDown(h0, |params|)
    ensures status == 0 ==> (event.Value() == DescValue(typeAppleEvent, old(t.next)) && t.next == old(t.next) + 1
      && t.live == old(t.live) - HandleRange(h0, |params|) + {old(t.next)})
    ensures status != 0 ==> (err == t.buildError && event.dataHandle == 0 && t.next == old(t.next)
      && t.live == old(t.live) - HandleRange(h0, |params|))
  {
    ghost var live0, next0 := t.live, t.next;
    if |params| > 0 {
      var last := params[|params| - 1];
      assert last.dataHandle == h0 + |params| - 1 && last.dataHandle in live0;
    }
    assert next0 !in HandleRange(h0, |params|);
    event := new AEDesc.Default();
    status, err := t.AEBuildAppleEvent(obj.signature, eventID, typeApplicationBundleID, obj.bundleId,
                                       kAutoGenerateReturnID, kAnyTransactionID, event, query, params);
    HeldInLarger(params, h0, live0, t.live);
    DropInReverse(params, h0, t);
  }

  /** The part every arm of `call!` shares: build the event from `params`, drop them, send, drop the event. */
  method SendCommand(obj: EventedObject, eventID: ResType, query: string, params: seq<DescValue>, h0: nat,
                     t: Transport) returns (r: Result<()>)
    requires t.Valid()
    requires Held(params, h0, t.live)
    modifies t`log, t`live, t`next, t`replyOf, t`pending
    ensures t.pending == old(t.pending) && t.replyOf == old(t.replyOf)
    ensures t.Valid()
    ensures r == SendOutcome(t.buildStatus, t.buildError, t.sendStatus)
    ensures t.log == old(t.log) + CommandTail(obj, eventID, query, params, h0, old(t.next), t.buildStatus == 0)
    ensures t.live == old(t.live) - HandleRange(h0, |params|)
  {
    var event, status, err := BuildCommand(obj, eventID, query, params, h0, t);
    if status == 0 {
      var sent := t.AESendMessage(event, null, CommandSendMode, kAEDefaultTimeout);
      r := if sent == 0 then Ok(()) else Err(Os(sent));
    } else {
      r := Err(EventBuildError.New(err));
    }
    event.Drop(t);
  }

  /** `call!(obj, id)`: a command without parameters; its query names the direct object 'null'. */
  method Call0(obj: EventedObject, eventID: ResType, t: Transport) returns (r: Result<()>)
    requires t.Valid()
    modifies t`log, t`live, t`next, t`replyOf, t`pending
    ensures t.pending == old(t.pending) && t.replyOf == old(t.replyOf) && t.descScript == old(t.descScript)
    ensures t.Valid() && t.live == old(t.live)
    ensures r == SendOutcome(t.buildStatus, t.buildError, t.sendStatus)
    ensures t.log == old(t.log) + CommandTail(obj, eventID, NoParameterQuery, [], old(t.next), old(t.next),
                                                t.buildStatus == 0)
  {
    r := SendCommand(obj, eventID, NoParameterQuery, [], t.next, t);
  }

  /**
   * `call!(obj, id, param)`: the parameter's descriptor is a temporary of
   * the build statement, so it is disposed before the event is sent.
   */
  method Call1(obj: EventedObject, eventID: ResType, param: Value, t: Transport) returns (r: Result<()>)
    requires t.Valid()
    modifies t`log, t`live, t`next, t`replyOf, t`pending, t`descScript
    ensures t.pending == old(t.pending) && t.replyOf == old(t.replyOf)
    ensures t.descScript == After(old(t.descScript), |ConversionLog(param)|)
    ensures t.Valid() && t.live == old(t.live)
    ensures !Converts(param, old(t.NextDesc())) ==> (
      && r == Err(ConversionError(param, old(t.NextDesc())))
      && t.log == old(t.log) + ConversionLog(param))
    ensures Converts(param, old(t.NextDesc())) ==> (
      && r == SendOutcome(t.buildStatus, t.buildError, t.sendStatus)
      && t.log == old(t.log) + [BuildDesc(DescText(Tag(KindOf(param))), Args(param))]
           + CommandTail(obj, eventID, DirectParameterQuery, [DescValue(Tag(KindOf(param)), old(t.next))],
                         old(t.next), old(t.next) + 1, t.buildStatus == 0))
  {
    var h0 := t.next;
    var desc :- ToDesc(param, t);
    r := SendCommand(obj, eventID, DirectParameterQuery, [desc.Value()], h0, t);
  }

  /** The keywords of a command's named parameters. */
  function Keys(named: seq<(ResType, Value)>): (keys: seq<ResType>)
    ensures |keys| == |named| && forall i | 0 <= i < |named| :: keys[i] == named[i].0
  {
    seq(|named|, i requires 0 <= i < |named| => named[i].0)
  }

  /** The values a command sends, direct parameter first, in the order their descriptors are made. */
  function Arguments(param: Value, named: seq<(ResType, Value)>): (vs: seq<Value>)
    ensures |vs| == 1 + |named| && vs[0] == param && forall i | 0 <= i < |named| :: vs[i + 1] == named[i].1
  {
    [param] + seq(|named|, i requires 0 <= i < |named| => named[i].1)
  }

  /** The `build_desc!` calls of converting `vs` in order. */
  function BuildDescs(vs: seq<Value>): (calls: seq<Call>)
    ensures |calls| == |vs|
  {
    if vs == [] then [] else BuildDescs(vs[..|vs| - 1]) + [BuildDesc(DescText(Tag(KindOf(vs[|vs| - 1]))), Args(vs[|vs| - 1]))]
  }

  lemma BuildDescsSnoc(vs: seq<Value>, v: Value)
    ensures BuildDescs(vs + [v]) == BuildDescs(vs) + [BuildDesc(DescText(Tag(KindOf(v))), Args(v))]
  {
    assert (vs + [v])[..|vs|] == vs;
  }

  /** The descriptors of `vs` when they were given consecutive handles from `h0`. */
  function Handles(vs: seq<Value>, h0: nat): (ds: seq<DescValue>)
    ensures |ds| == |vs| && forall i | 0 <= i < |vs| :: ds[i] == DescValue(Tag(KindOf(vs[i])), h0 + i)
  {
    seq(|vs|, i requires 0 <= i < |vs| => DescValue(Tag(KindOf(vs[i])), h0 + i))
  }

  lemma HandlesSnoc(vs: seq<Value>, v: Value, h0: nat)
    ensures Handles(vs + [v], h0) == Handles(vs, h0) + [DescValue(Tag(KindOf(v)), h0 + |vs|)]
  {
    assert (vs + [v])[..|vs|] == vs;
  }

  /** The handles `lo`, ..., `lo + n - 1`. */
  function HandleRange(lo: nat, n: nat): (hs: set<nat>)
    ensures forall h :: h in hs <==> lo <= h < lo + n
  {
    if n == 0 then {} else HandleRange(lo, n - 1) + {lo + n - 1}
  }

  /** Disposing the handles `lo + n - 1` down to `lo`: temporaries go in the reverse of their creation. */
  function DisposeDown(lo: nat, n: nat): (calls: seq<Call>)
    ensures |calls| == n && forall m | 0 <= m < n :: calls[m] == Dispose(lo + n - 1 - m)
  {
    seq(n, m requires 0 <= m < n => Dispose(lo + n - 1 - m))
  }

  /**
   * Drops the temporary descriptors whose values are `descs`, last first, as
   * Rust does at the end of a statement; `Drop for AEDesc` disposes each
   * non-null handle.
   */
  method DropInReverse(descs: seq<DescValue>, h0: nat, t: Transport)
    requires t.Valid()
    requires Held(descs, h0, t.live)
    modifies t`log, t`live
    ensures t.Valid()
    ensures t.log == old(t.log) + DisposeDown(h0, |descs|)
    ensures t.live == old(t.live) - HandleRange(h0, |descs|)
  {
    var i := |descs|;
    while i > 0
      invariant 0 <= i <= |descs| && t.Valid()
      invariant forall j | 0 <= j < i :: descs[j].dataHandle in t.live
      invariant t.log == old(t.log) + DisposeDown(h0 + i, |descs| - i)
      invariant t.live == old(t.live) - HandleRange(h0 + i, |descs| - i)
    {
      i := i - 1;
      if descs[i].dataHandle != 0 {
        t.AEDisposeDesc(descs[i].dataHandle);
      }
      assert DisposeDown(h0 + i, |descs| - i) == DisposeDown(h0 + i + 1, |descs| - i - 1) + [Dispose(h0 + i)];
    }
  }

  lemma SnocAssoc<T>(a: seq<T>, b: seq<T>, x: T)
    ensures a + b + [x] == a + (b + [x])
  {
  }

  /** How the bookkeeping of `ToDescs` grows by one converted value. */
  lemma ConversionStep(values: seq<Value>, k: nat, h0: nat, log0: seq<Call>, live0: set<nat>)
    requires k < |values|
    ensures log0 + BuildDescs(values[..k]) + [BuildDesc(DescText(Tag(KindOf(values[k]))), Args(values[k]))]
      == log0 + BuildDescs(values[..k + 1])
    ensures Handles(values[..k], h0) + [DescValue(Tag(KindOf(values[k])), h0 + k)] == Handles(values[..k + 1], h0)
    ensures live0 + HandleRange(h0, k) + {h0 + k} == live0 + HandleRange(h0, k + 1)
  {
    assert values[..k + 1] == values[..k] + [values[k]];
    HandlesSnoc(values[..k], values[k], h0);
    BuildDescsSnoc(values[..k], values[k]);
    SnocAssoc(log0, BuildDescs(values[..k]), BuildDesc(DescText(Tag(KindOf(values[k]))), Args(values[k])));
  }

  /**
   * Where converting `values` from index `i` on stops under `script`: the
   * index of the first value whose `to_desc` fails, or `|values|` when all of
   * them convert. The value at index `j` meets the `j`-th answer of the script.
   */
  function FirstFailureFrom(values: seq<Value>, script: seq<DescAnswer>, i: nat): (k: nat)
    requires i <= |values|
    ensures i <= k <= |values|
    ensures forall j | i <= j < k :: Converts(values[j], AnswerAt(script, j))
    ensures k < |values| ==> !Converts(values[k], AnswerAt(script, k))
    decreases |values| - i
  {
    if i == |values| then i
    else if !Converts(values[i], AnswerAt(script, i)) then i
    else FirstFailureFrom(values, script, i + 1)
  }

  /** The first `n` of `values` all convert under `script`. */
  predicate AllConvert(values: seq<Value>, script: seq<DescAnswer>, n: nat)
    requires n <= |values|
  {
    forall j | 0 <= j < n :: Converts(values[j], AnswerAt(script, j))
  }

  lemma AllConvertStep(values: seq<Value>, script: seq<DescAnswer>, k: nat)
    requires k < |values| && AllConvert(values, script, k) && Converts(values[k], AnswerAt(script, k))
    ensures AllConvert(values, script, k + 1)
  {
  }

  /** The index of the first of `values` that `to_desc` fails on under `script`, or `|values|`. */
  function FirstFailure(values: seq<Value>, script: seq<DescAnswer>): (k: nat)
    ensures k <= |values| && AllConvert(values, script, k)
    ensures k < |values| ==> !Converts(values[k], AnswerAt(script, k))
  {
    FirstFailureFrom(values, script, 0)
  }

  /** The first failure is pinned down by the values before it converting and itself not. */
  lemma FirstFailureIs(values: seq<Value>, script: seq<DescAnswer>, k: nat)
    requires k <= |values| && AllConvert(values, script, k)
    requires k < |values| ==> !Converts(values[k], AnswerAt(script, k))
    ensures FirstFailure(values, script) == k
  {
  }

  /**
   * A later value can fail after earlier ones were built: with every value a
   * non-enumeration and the script failing first at `k`, conversion stops at `k`.
   */
  lemma LaterFailure(values: seq<Value>, script: seq<DescAnswer>, k: nat)
    requires k < |values| && k < |script|
    requires forall j | 0 <= j < |values| :: !values[j].Enum?
    requires forall j | 0 <= j < k :: script[j].status == 0
    requires script[k].status != 0
    ensures FirstFailure(values, script) == k
    ensures ConversionError(values[k], AnswerAt(script, k)) == EventBuildError.New(script[k].error)
  {
    FirstFailureIs(values, script, k);
  }

  /**
   * The calls of converting `values` when the one at `k` fails: the builds
   * up to it (none for an enumeration, which panics), then the disposal of the
   * `k` descriptors already made, held in `h0`, ..., last first.
   */
  function FailedConversion(values: seq<Value>, k: nat, h0: nat): (calls: seq<Call>)
    requires k < |values|
    ensures |calls| == 2 * k + |ConversionLog(values[k])|
  {
    BuildDescs(values[..k]) + ConversionLog(values[k]) + DisposeDown(h0, k)
  }

  /** Consecutive fresh descriptors are held in the live set they were added to. */
  lemma HandlesHeld(vs: seq<Value>, h0: nat, live0: set<nat>)
    ensures Held(Handles(vs, h0), h0, live0 + HandleRange(h0, |vs|))
  {
    var ds := Handles(vs, h0);
    forall j | 0 <= j < |ds|
      ensures ds[j].dataHandle == h0 + j && ds[j].dataHandle in live0 + HandleRange(h0, |vs|)
    {
    }
  }

  /** The rest of a script after `n` builds and then `m` more. */
  lemma AfterAfter(script: seq<DescAnswer>, n: nat, m: nat)
    ensures After(After(script, n), m) == After(script, n + m)
  {
  }

  /**
   * The `?` of a failed `to_desc` in the argument list of `call!`: the
   * descriptors made for the values before it are dropped, last first.
   */
  method DropConverted(values: seq<Value>, descs: seq<DescValue>, h0: nat, ghost live0: set<nat>,
                       ghost log0: seq<Call>, t: Transport)
    requires t.Valid() && |descs| < |values| && descs == Handles(values[..|descs|], h0)
    requires forall h | h in live0 :: h < h0
    requires t.live == live0 + HandleRange(h0, |descs|)
    requires t.log == log0 + BuildDescs(values[..|descs|]) + ConversionLog(values[|descs|])
    modifies t`log, t`live
    ensures t.Valid() && t.live == live0
    ensures t.log == log0 + FailedConversion(values, |descs|, h0)
  {
    HandlesHeld(values[..|descs|], h0, live0);
    DropInReverse(descs, h0, t);
    ReleaseRange(live0, h0, |descs|);
  }

  /**
   * One value of the argument list of `call!`: its `to_desc`, after the
   * descriptors `descs` of the values before it; if it fails, those are
   * dropped, last first.
   */
  method ConvertNext(values: seq<Value>, descs: seq<DescValue>, h0: nat, ghost s0: seq<DescAnswer>,
                     ghost live0: set<nat>, ghost log0: seq<Call>, t: Transport) returns (r: Result<seq<DescValue>>)
    requires t.Valid() && |descs| < |values| && t.next == h0 + |descs| && descs == Handles(values[..|descs|], h0)
    requires forall h | h in live0 :: h < h0
    requires t.descScript == After(s0, |descs|)
    requires t.live == live0 + HandleRange(h0, |descs|)
    requires t.log == log0 + BuildDescs(values[..|descs|])
    requires AllConvert(values, s0, |descs|)
    modifies t`log, t`live, t`next, t`descScript
    ensures t.Valid()
    ensures r.Ok? <==> Converts(values[|descs|], AnswerAt(s0, |descs|))
    ensures r.Ok? ==> (var n := |r.value|;
      && n == |descs| + 1 && n <= |values| && t.next == h0 + n
      && AllConvert(values, s0, n)
      && t.descScript == After(s0, n)
      && r.value == Handles(values[..n], h0)
      && t.live == live0 + HandleRange(h0, n)
      && t.log == log0 + BuildDescs(values[..n]))
    ensures r.Err? ==> (var k := |descs|;
      && FirstFailure(values, s0) == k
      && r.error == ConversionError(values[k], AnswerAt(s0, k)) && t.next == h0 + k
      && t.descScript == After(s0, k + |ConversionLog(values[k])|)
      && t.live == live0
      && t.log == log0 + FailedConversion(values, k, h0))
  {
    var k := |descs|;
    var d := ToDescValue(values[k], t);
    AfterAfter(s0, k, |ConversionLog(values[k])|);
    if d.Err? {
      FirstFailureIs(values, s0, k);
      DropConverted(values, descs, h0, live0, log0, t);
      r := Err(d.error);
    } else {
      AllConvertStep(values, s0, k);
      ConversionStep(values, k, h0, log0, live0);
      r := Ok(descs + [d.value]);
    }
  }

  /**
   * The argument list of `call!` with named parameters: one `to_desc` per
   * value, in order. When one fails, the `?` leaves the build statement and
   * the descriptors already made, temporaries of it, are dropped last first.
   * On success the result holds the descriptors handed to the build, which
   * the caller still has to drop.
   */
  method ToDescs(values: seq<Value>, t: Transport) returns (r: Result<seq<DescValue>>)
    requires t.Valid()
    modifies t`log, t`live, t`next, t`descScript
    ensures t.Valid()
    ensures r.Ok? <==> FirstFailure(values, old(t.descScript)) == |values|
    ensures r.Ok? ==> (r.value == Handles(values, old(t.next)) && t.next == old(t.next) + |values|
      && t.live == old(t.live) + HandleRange(old(t.next), |values|)
      && t.log == old(t.log) + BuildDescs(values)
      && t.descScript == After(old(t.descScript), |values|))
    ensures r.Err? ==> (var k := FirstFailure(values, old(t.descScript));
      && k < |values|
      && r.error == ConversionError(values[k], AnswerAt(old(t.descScript), k))
      && t.next == old(t.next) + k && t.live == old(t.live)
      && t.log == old(t.log) + FailedConversion(values, k, old(t.next))
      && t.descScript == After(old(t.descScript), k + |ConversionLog(values[k])|))
  {
    var h0 := t.next;
    ghost var s0 := t.descScript;
    assert s0[0..] == s0;
    var descs: seq<DescValue> := [];
    while |descs| < |values|
      invariant t.Valid() && |descs| <= |values| && t.next == h0 + |descs|
      invariant AllConvert(values, s0, |descs|)
      invariant t.descScript == After(s0, |descs|)
      invariant descs == Handles(values[..|descs|], h0)
      invariant t.live == old(t.live) + HandleRange(h0, |descs|)
      invariant t.log == old(t.log) + BuildDescs(values[..|descs|])
    {
      var next := ConvertNext(values, descs, h0, s0, old(t.live), old(t.log), t);
      if next.Err? {
        return Err(next.error);
      }
      descs := next.value;
    }
    FirstFailureIs(values, s0, |values|);
    assert values[..|descs|] == values;
    r := Ok(descs);
  }

  /**
   * How many scripted answers converting `values` in order takes: one per
   * value up to the first failure, and one more for a failing build (an
   * enumeration panics before it builds anything).
   */
  function AnswersUsed(values: seq<Value>, script: seq<DescAnswer>): (n: nat)
    ensures n <= |values|
    ensures FirstFailure(values, script) == |values| ==> n == |values|
    ensures FirstFailure(values, script) < |values| ==> n == FirstFailure(values, script) + |ConversionLog(values[FirstFailure(values, script)])|
  {
    var k := FirstFailure(values, script);
    if k == |values| then k else k + |ConversionLog(values[k])|
  }

  /** Handles made after every live one are gone again once they are released. */
  lemma ReleaseRange(live0: set<nat>, lo: nat, n: nat)
    requires forall h | h in live0 :: h < lo
    ensures live0 + HandleRange(lo, n) - HandleRange(lo, n) == live0
  {
  }

  /**
   * The argument part of `call!` with named parameters: one descriptor per
   * value in order, then the build from them, their disposal, last first,
   * and the send.
   */
  method SendValues(obj: EventedObject, eventID: ResType, query: string, values: seq<Value>, t: Transport)
    returns (r: Result<()>)
    requires t.Valid() && |values| >= 1
    modifies t`log, t`live, t`next, t`replyOf, t`pending, t`descScript
    ensures t.pending == old(t.pending) && t.replyOf == old(t.replyOf)
    ensures t.descScript == After(old(t.descScript), AnswersUsed(values, old(t.descScript)))
    ensures t.Valid() && t.live == old(t.live)
    ensures var k := FirstFailure(values, old(t.descScript));
      k < |values| ==> (
      && r == Err(ConversionError(values[k], AnswerAt(old(t.descScript), k)))
      && t.log == old(t.log) + FailedConversion(values, k, old(t.next)))
    ensures FirstFailure(values, old(t.descScript)) == |values| ==> (
      && r == SendOutcome(t.buildStatus, t.buildError, t.sendStatus)
      && t.log == old(t.log) + BuildDescs(values)
           + CommandTail(obj, eventID, query, Handles(values, old(t.next)), old(t.next), old(t.next) + |values|,
                         t.buildStatus == 0))
  {
    var h0 := t.next;
    ghost var live0 := t.live;
    var descs :- ToDescs(values, t);
    ReleaseRange(live0, h0, |values|);
    r := SendCommand(obj, eventID, query, descs, h0, t);
  }

  /**
   * `call!(obj, id, param, key: value, ...)`: the query is made first (a
   * keyword holding NUL fails before anything is sent), then one descriptor
   * per value in order; they are disposed, last first, before the event is
   * sent.
   */
  method CallN(obj: EventedObject, eventID: ResType, param: Value, named: seq<(ResType, Value)>, t: Transport)
    returns (r: Result<()>)
    requires t.Valid() && |named| >= 1
    modifies t`log, t`live, t`next, t`replyOf, t`pending, t`descScript
    ensures t.pending == old(t.pending) && t.replyOf == old(t.replyOf)
    ensures t.descScript == if NamedParameterQuery(Keys(named)).Err? then old(t.descScript)
                            else After(old(t.descScript), AnswersUsed(Arguments(param, named), old(t.descScript)))
    ensures t.Valid() && t.live == old(t.live)
    ensures NamedParameterQuery(Keys(named)).Err? ==> r == Err(InteriorNul) && t.log == old(t.log)
    ensures NamedParameterQuery(Keys(named)).Ok? ==> (
      var vs := Arguments(param, named);
      var k := FirstFailure(vs, old(t.descScript));
      && (k < |vs| ==> (
        && r == Err(ConversionError(vs[k], AnswerAt(old(t.descScript), k)))
        && t.log == old(t.log) + FailedConversion(vs, k, old(t.next))))
      && (k == |vs| ==> (
        && r == SendOutcome(t.buildStatus, t.buildError, t.sendStatus)
        && t.log == old(t.log) + BuildDescs(vs)
             + CommandTail(obj, eventID, NamedParameterQuery(Keys(named)).value, Handles(vs, old(t.next)),
                           old(t.next), old(t.next) + |vs|, t.buildStatus == 0))))
  {
    var query :- NamedParameterQuery(Keys(named));
    r := SendValues(obj, eventID, query, Arguments(param, named), t);
  }
}
