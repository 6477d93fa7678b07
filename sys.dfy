/**
 * Model of src/sys.rs: four-character codes, the Apple Event descriptor and
 * its dispose-on-drop rule, the build-error record, the constants, and the
 * Apple Event Manager entry points. The entry points are foreign code; the
 * model replaces them by `Transport`, a scripted stand-in that records every
 * call which builds, sends or disposes something and tracks which data
 * handles are live, so that callers can be proved to dispose each handle
 * exactly once.
 */
module Sys {
  import opened Prelude

  newtype byte = x: int | 0 <= x < 0x100
  newtype u32 = x: int | 0 <= x < 0x1_0000_0000

  // ---------------------------------------------------------------------
  // Four-character codes
  // ---------------------------------------------------------------------

  /** The four bytes of `v`, most significant first. */
  function BigEndian(v: u32): (b: seq<byte>)
    ensures |b| == 4
  {
    var x := v as int;
    var y := x / 0x100;
    var z := y / 0x100;
    [(z / 0x100) as byte, (z % 0x100) as byte, (y % 0x100) as byte, (x % 0x100) as byte]
  }

  function FromBigEndian(b: seq<byte>): (v: u32)
    requires |b| == 4
  {
    (((b[0] as int * 0x100 + b[1] as int) * 0x100 + b[2] as int) * 0x100 + b[3] as int) as u32
  }

  lemma BigEndianRoundTrip(v: u32)
    ensures FromBigEndian(BigEndian(v)) == v
  {
    var x := v as int;
    var y := x / 0x100;
    var z := y / 0x100;
    assert x == y * 0x100 + x % 0x100;
    assert y == z * 0x100 + y % 0x100;
    assert z == (z / 0x100) * 0x100 + z % 0x100;
  }

  lemma FromBigEndianRoundTrip(b: seq<byte>)
    requires |b| == 4
    ensures BigEndian(FromBigEndian(b)) == b
  {
    var z := b[0] as int * 0x100 + b[1] as int;
    var y := z * 0x100 + b[2] as int;
    var x := y * 0x100 + b[3] as int;
    assert x / 0x100 == y && x % 0x100 == b[3] as int;
    assert y / 0x100 == z && y % 0x100 == b[2] as int;
    assert z / 0x100 == b[0] as int && z % 0x100 == b[1] as int;
  }

  /** A four-character code (`ResType`), carried as one 32-bit value. */
  datatype ResType = ResType(code: u32) {

    /** `ResType::new`: the code whose numeric value is `value`. */
    static function New(value: u32): (r: ResType)
      ensures r.ToU32() == value
    {
      ResType(value)
    }

    function ToU32(): u32
    {
      code
    }

    /** `ResType::is_null`: the all-zero code. */
    predicate IsNull()
    {
      ToU32() == 0
    }

    /** The four characters of the code, one per byte, most significant first. */
    function ToString(): (s: string)
      ensures |s| == 4
      ensures forall i | 0 <= i < 4 :: s[i] as int == BigEndian(code)[i] as int
    {
      var b := BigEndian(code);
      [b[0] as int as char, b[1] as int as char, b[2] as int as char, b[3] as int as char]
    }

    /** `Display`: the code between single quotes, as AEBuild grammar spells a code. */
    function Display(): (s: string)
      ensures |s| == 6 && s[0] == '\'' && s[5] == '\'' && s[1..5] == ToString()
    {
      "'" + ToString() + "'"
    }
  }

  /** The strings that spell a four-character code: four characters of one byte each. */
  predicate IsCodeText(s: string)
  {
    |s| == 4 && forall i | 0 <= i < 4 :: s[i] as int < 0x100
  }

  /** `res_type!`: the code spelled by the four characters of `s`. */
  function FourCC(s: string): (r: ResType)
    requires IsCodeText(s)
    ensures r.ToString() == s
  {
    var b: seq<byte> := [s[0] as int as byte, s[1] as int as byte, s[2] as int as byte, s[3] as int as byte];
    FromBigEndianRoundTrip(b);
    ResType(FromBigEndian(b))
  }

  /** Spelling a code and reading the spelling back gives the same code. */
  lemma FourCCOfToString(r: ResType)
    ensures IsCodeText(r.ToString()) && FourCC(r.ToString()) == r
  {
    var s := r.ToString();
    var b: seq<byte> := [s[0] as int as byte, s[1] as int as byte, s[2] as int as byte, s[3] as int as byte];
    assert b == BigEndian(r.code);
    BigEndianRoundTrip(r.code);
  }

  /** Two codes are displayed alike exactly when they are the same code. */
  lemma DisplayInjective(a: ResType, b: ResType)
    ensures a.Display() == b.Display() <==> a == b
  {
    if a.Display() == b.Display() {
      assert a.ToString() == a.Display()[1..5] == b.Display()[1..5] == b.ToString();
      FourCCOfToString(a);
      FourCCOfToString(b);
    }
  }

  /** `Default for ResType`: the zero code, which is null. */
  function DefaultResType(): (r: ResType)
    ensures r.IsNull() && r == ResType.New(0)
  {
    ResType.New(0)
  }

  // ---------------------------------------------------------------------
  // Constants
  // ---------------------------------------------------------------------

  const kAECoreSuite: ResType := ResType(0x636f_7265)  // "core"
  const kAEGetData: ResType := ResType(0x6765_7464)  // "getd"
  const kAESetData: ResType := ResType(0x7365_7464)  // "setd"
  const keyDirectObject: ResType := ResType(0x2d2d_2d2d)  // "----"
  const typeApplicationBundleID: ResType := ResType(0x6275_6e64)  // "bund"
  const typeNull: ResType := ResType(0x6e75_6c6c)  // "null"
  const typeBoolean: ResType := ResType(0x626f_6f6c)  // "bool"
  const typeUnicodeText: ResType := ResType(0x7574_7874)  // "utxt"
  const typeChar: ResType := ResType(0x5445_5854)  // "TEXT"
  const typeVersion: ResType := ResType(0x7665_7273)  // "vers"
  const typeWildCard: ResType := ResType(0x2a2a_2a2a)  // "****"
  const typeApplSignature: ResType := ResType(0x7369_676e)  // "sign"
  const typeEnumerated: ResType := ResType(0x656e_756d)  // "enum"
  const typeIEEE64BitFloatingPoint: ResType := ResType(0x646f_7562)  // "doub"
  const typeFloat: ResType := typeIEEE64BitFloatingPoint
  const typeLongFloat: ResType := typeIEEE64BitFloatingPoint
  const typeSInt16: ResType := ResType(0x7368_6f72)  // "shor"
  const typeSMInt: ResType := typeSInt16
  const typeShortInteger: ResType := typeSInt16
  const typeSInt32: ResType := ResType(0x6c6f_6e67)  // "long"
  const typeInteger: ResType := typeSInt32
  const typeLongInteger: ResType := typeSInt32
  const typeSInt64: ResType := ResType(0x636f_6d70)  // "comp"
  const typeComp: ResType := typeSInt64
  const typeType: ResType := ResType(0x7479_7065)  // "type"

  /** The type the Apple Event Manager gives to a built or received Apple event. */
  const typeAppleEvent: ResType := ResType(0x6165_7674)  // "aevt"

  /** Each code constant is the code `res_type!` makes of its four letters. */
  lemma Spellings()
    ensures kAECoreSuite == FourCC("core") && kAEGetData == FourCC("getd") && kAESetData == FourCC("setd")
    ensures keyDirectObject == FourCC("----") && typeApplicationBundleID == FourCC("bund")
    ensures typeNull == FourCC("null") && typeBoolean == FourCC("bool") && typeUnicodeText == FourCC("utxt")
    ensures typeChar == FourCC("TEXT") && typeVersion == FourCC("vers") && typeWildCard == FourCC("****")
    ensures typeApplSignature == FourCC("sign") && typeEnumerated == FourCC("enum")
    ensures typeIEEE64BitFloatingPoint == FourCC("doub") && typeSInt16 == FourCC("shor")
    ensures typeSInt32 == FourCC("long") && typeSInt64 == FourCC("comp") && typeType == FourCC("type")
    ensures typeAppleEvent == FourCC("aevt")
  {
  }

  const kAutoGenerateReturnID: int := -1
  const kAnyTransactionID: int := 0
  const kAEDefaultTimeout: int := -1
  const kNoTimeOut: int := -2

  const kAENoReply: int := 0x0000_0001
  const kAEQueueReply: int := 0x0000_0002
  const kAEWaitReply: int := 0x0000_0003
  const kAEDontReconnect: int := 0x0000_0080
  const kAEWantReceipt: int := 0x0000_0200
  const kAENeverInteract: int := 0x0000_0010
  const kAECanInteract: int := 0x0000_0020
  const kAEAlwaysInteract: int := 0x0000_0030
  const kAECanSwitchLayer: int := 0x0000_0040
  const kAEDontRecord: int := 0x0000_1000
  const kAEDontExecute: int := 0x0000_2000
  const kAEProcessNonReplyEvents: int := 0x0000_8000
  const kAEDoNotAutomaticallyAddAnnotationsToEvent: int := 0x0001_0000

  /** The status the Apple Event Manager reports for a missing parameter (errAEDescNotFound). */
  const errAEDescNotFound: int := -1701

  /** Rust's `|` on two non-negative flag words. */
  function BitOr(a: int, b: int): (r: int)
    requires 0 <= a < 0x1_0000_0000 && 0 <= b < 0x1_0000_0000
    ensures 0 <= r < 0x1_0000_0000
  {
    (a as bv32 | b as bv32) as int
  }

  /** The send modes the library combines: reply modes keep the low two bits, interaction the next two. */
  lemma SendModes()
    ensures BitOr(kAENoReply, kAENeverInteract) == 0x11
    ensures BitOr(kAEWaitReply, kAENeverInteract) == 0x13
  {
  }

  /** The aliases name the same codes as the constants they stand for, and the codes the readers dispatch on differ. */
  lemma CodesDistinct()
    ensures typeFloat == typeLongFloat == FourCC("doub")
    ensures typeSMInt == typeShortInteger == FourCC("shor")
    ensures typeInteger == typeLongInteger == FourCC("long")
    ensures typeComp == FourCC("comp")
    ensures typeNull.ToString() == "null" && !typeNull.IsNull()
    ensures typeNull != typeBoolean && typeNull != typeFloat && typeNull != typeSInt16
    ensures typeNull != typeSInt32 && typeNull != typeSInt64 && typeNull != typeEnumerated
    ensures typeUnicodeText != typeVersion && typeUnicodeText != typeChar && typeVersion != typeChar
  {
    Spellings();
  }

  // ---------------------------------------------------------------------
  // Build errors and descriptors
  // ---------------------------------------------------------------------

  /** `AEBuildError`: the error code and the position in the format where building stopped. */
  datatype AEBuildError = AEBuildError(fError: u32, fErrorPos: u32)

  /** `Default for AEBuildError`. */
  function DefaultBuildError(): (e: AEBuildError)
    ensures e.fError == 0 && e.fErrorPos == 0
  {
    AEBuildError(0, 0)
  }

  /** The two fields of a descriptor at one moment; handle 0 is the null pointer. */
  datatype DescValue = DescValue(descriptorType: ResType, dataHandle: nat) {

    /** `AEDesc::is_null`: decided by the type alone, never by the handle. */
    predicate IsNull()
    {
      descriptorType.IsNull() || descriptorType == typeNull
    }
  }

  /** A descriptor counts as null exactly for the zero code and 'null', whatever its handle. */
  lemma NullnessIgnoresHandle(t: ResType, h1: nat, h2: nat)
    ensures DescValue(t, h1).IsNull() <==> (t.code == 0 || t.ToString() == "null")
    ensures DescValue(t, h1).IsNull() == DescValue(t, h2).IsNull()
  {
    if t.ToString() == "null" {
      FourCCOfToString(t);
    }
  }

  /** `AEDesc`: a descriptor type and a data handle owned by the Apple Event Manager. */
  class AEDesc {
    var descriptorType: ResType
    var dataHandle: nat

    /** `Default for AEDesc`: a 'null' descriptor with a null handle. */
    constructor Default()
      ensures descriptorType == typeNull && dataHandle == 0
    {
      descriptorType := typeNull;
      dataHandle := 0;
    }

    function Value(): DescValue
      reads this
    {
      DescValue(descriptorType, dataHandle)
    }

    /** `AEDesc::is_null`. */
    predicate IsNull()
      reads this
    {
      Value().IsNull()
    }

    /** The descriptor owns nothing, or a handle the transport still holds live. */
    ghost predicate OwnedIn(t: Transport)
      reads this, t
    {
      dataHandle == 0 || dataHandle in t.live
    }

    /** `Drop for AEDesc`: a non-null handle is disposed, once, and then nulled. */
    method Drop(t: Transport)
      requires t.Valid() && OwnedIn(t)
      modifies this`dataHandle, t`log, t`live
      ensures t.Valid() && dataHandle == 0
      ensures old(dataHandle) == 0 ==> t.log == old(t.log) && t.live == old(t.live)
      ensures old(dataHandle) != 0 ==>
        t.log == old(t.log) + [Dispose(old(dataHandle))] && t.live == old(t.live) - {old(dataHandle)}
    {
      if dataHandle != 0 {
        t.AEDisposeDesc(dataHandle);
        dataHandle := 0;
      }
    }
  }

  // ---------------------------------------------------------------------
  // The Apple Event Manager, as a scripted transport
  // ---------------------------------------------------------------------

  /** A data value passed through the variadic part of `AEBuildDesc`. */
  datatype DataArg = UInt(u: nat) | Int(i: int) | Double(bits: nat) | Bytes(data: seq<byte>)

  /** A transport call that builds, sends or disposes something. */
  datatype Call =
    | BuildEvent(eventClass: ResType, eventID: ResType, addressType: ResType, address: string,
                 returnID: int, transactionID: int, format: string, params: seq<DescValue>)
    | BuildDesc(format: string, data: seq<DataArg>)
    | Send(event: DescValue, sendMode: int, timeout: int)
    | Dispose(handle: nat)

  /**
   * What the application answers to one getter event, as the accessors see it:
   * the status, type and size `AESizeOfParam` reports for the direct
   * parameter; the status of `AEGetParamPtr` and the bytes of the parameter
   * after coercion to the type the reader asks for; the status of `AEGetParamDesc`.
   */
  datatype Reply = Reply(sizeStatus: int, paramType: ResType, paramSize: nat,
                         readStatus: int, data: seq<byte>, descStatus: int)

  /** The reply of an application that answered without a direct parameter. */
  const NoDirectParameter: Reply :=
    Reply(errAEDescNotFound, DefaultResType(), 0, errAEDescNotFound, [], errAEDescNotFound)

  /** What `AEBuildDesc` answers to one call: its status, and the build error it reports when that is not 0. */
  datatype DescAnswer = DescAnswer(status: int, error: AEBuildError)

  /** The answer of a descriptor build nobody scripted: success. */
  function DescBuilt(): DescAnswer
  {
    DescAnswer(0, DefaultBuildError())
  }

  /** The answer the `i`-th of the next descriptor builds receives under `script`. */
  function AnswerAt(script: seq<DescAnswer>, i: nat): (a: DescAnswer)
    ensures i < |script| ==> a == script[i]
    ensures i >= |script| ==> a == DescBuilt()
  {
    if i < |script| then script[i] else DescBuilt()
  }

  /** What is left of `script` after `n` descriptor builds. */
  function After(script: seq<DescAnswer>, n: nat): (rest: seq<DescAnswer>)
    ensures forall i: nat :: AnswerAt(rest, i) == AnswerAt(script, n + i)
  {
    if n <= |script| then script[n..] else []
  }

  /** The type `AEBuildDesc` gives to the descriptor a `'cccc'(@)` format builds. */
  function DescFormatType(format: string): (r: ResType)
    ensures (|format| == 9 && format[0] == '\'' && format[5..] == "'(@)" && IsCodeText(format[1..5]))
            ==> r.ToString() == format[1..5]
  {
    if |format| == 9 && format[0] == '\'' && format[5..] == "'(@)" && IsCodeText(format[1..5])
    then FourCC(format[1..5])
    else typeWildCard
  }

  /** The replies still waiting once a send has taken the next one exactly when `took`. */
  function Remaining(pending: seq<Reply>, took: bool): seq<Reply>
  {
    if took && pending != [] then pending[1..] else pending
  }

  /**
   * The Apple Event Manager as the library sees it. The statuses of building
   * an event and of sending it are scripted constants; descriptor builds take
   * their answers in turn from the queue `descScript` (and succeed once it is
   * used up); the answers to waiting sends come from the queue `pending`, one
   * per reply, and are then looked up by the reply's handle.
   */
  class Transport {
    const buildStatus: int
    const buildError: AEBuildError
    const sendStatus: int

    var descScript: seq<DescAnswer>
    var pending: seq<Reply>
    var replyOf: map<nat, Reply>
    var log: seq<Call>
    var live: set<nat>
    var next: nat

    ghost predicate Valid()
      reads this
    {
      0 < next && (forall h | h in live :: 0 < h < next) && (forall h | h in replyOf :: 0 < h < next)
    }

    constructor (buildStatus: int, buildError: AEBuildError, descAnswers: seq<DescAnswer>,
                 sendStatus: int, replies: seq<Reply>)
      ensures Valid()
      ensures this.buildStatus == buildStatus && this.buildError == buildError
      ensures descScript == descAnswers && this.sendStatus == sendStatus
      ensures pending == replies && replyOf == map[] && log == [] && live == {}
    {
      this.buildStatus := buildStatus;
      this.buildError := buildError;
      descScript := descAnswers;
      this.sendStatus := sendStatus;
      pending := replies;
      replyOf := map[];
      log := [];
      live := {};
      next := 1;
    }

    /** The answer the next waiting send receives. */
    function NextReply(): (r: Reply)
      reads this
      ensures pending != [] ==> r == pending[0]
      ensures pending == [] ==> r == NoDirectParameter
    {
      if pending == [] then NoDirectParameter else pending[0]
    }

    /** The answer the next descriptor build receives. */
    function NextDesc(): (a: DescAnswer)
      reads this
      ensures a == AnswerAt(descScript, 0)
    {
      if descScript == [] then DescBuilt() else descScript[0]
    }

    /** The answer recorded for the reply held in `h`. */
    function ReplyAt(h: nat): (r: Reply)
      reads this
      ensures h in replyOf ==> r == replyOf[h]
      ensures h !in replyOf ==> r == NoDirectParameter
    {
      if h in replyOf then replyOf[h] else NoDirectParameter
    }

    method Allocate() returns (h: nat)
      requires Valid()
      modifies this`live, this`next
      ensures Valid() && h == old(next) && next == h + 1 && h !in old(live) && h !in replyOf
      ensures live == old(live) + {h}
    {
      h := next;
      live := live + {h};
      next := next + 1;
    }

    method AEBuildAppleEvent(theClass: ResType, theID: ResType, addressType: ResType, addressData: string,
                             returnID: int, transactionID: int, result: AEDesc, paramsFmt: string,
                             params: seq<DescValue>)
      returns (status: int, error: AEBuildError)
      requires Valid()
      modifies this`log, this`live, this`next, result
      ensures Valid() && status == buildStatus
      ensures log == old(log) + [BuildEvent(theClass, theID, addressType, addressData, returnID,
                                            transactionID, paramsFmt, params)]
      ensures status == 0 ==> (error == DefaultBuildError() && next == old(next) + 1
        && result.Value() == DescValue(typeAppleEvent, old(next)) && live == old(live) + {old(next)})
      ensures status != 0 ==> (error == buildError && next == old(next)
        && result.Value() == old(result.Value()) && live == old(live))
    {
      log := log + [BuildEvent(theClass, theID, addressType, addressData, returnID, transactionID,
                               paramsFmt, params)];
      status := buildStatus;
      if status == 0 {
        error := DefaultBuildError();
        var h := Allocate();
        result.descriptorType := typeAppleEvent;
        result.dataHandle := h;
      } else {
        error := buildError;
      }
    }

    method AEBuildDesc(result: AEDesc, src: string, data: seq<DataArg>)
      returns (status: int, error: AEBuildError)
      requires Valid()
      modifies this`log, this`live, this`next, this`descScript, result
      ensures Valid() && status == old(NextDesc()).status && descScript == After(old(descScript), 1)
      ensures log == old(log) + [BuildDesc(src, data)]
      ensures status == 0 ==> (error == DefaultBuildError() && next == old(next) + 1
        && result.Value() == DescValue(DescFormatType(src), old(next)) && live == old(live) + {old(next)})
      ensures status != 0 ==> (error == old(NextDesc()).error && next == old(next)
        && result.Value() == old(result.Value()) && live == old(live))
    {
      log := log + [BuildDesc(src, data)];
      var answer := NextDesc();
      descScript := After(descScript, 1);
      status := answer.status;
      if status == 0 {
        error := DefaultBuildError();
        var h := Allocate();
        result.descriptorType := DescFormatType(src);
        result.dataHandle := h;
      } else {
        error := answer.error;
      }
    }

    /** Sends `event`; a successful send with a reply descriptor fills it with the next scripted answer. */
    method AESendMessage(event: AEDesc, reply: AEDesc?, sendMode: int, timeOutInTicks: int)
      returns (status: int)
      requires Valid() && reply != event
      modifies this`log, this`live, this`next, this`replyOf, this`pending, reply
      ensures Valid() && status == sendStatus
      ensures log == old(log) + [Send(old(event.Value()), sendMode, timeOutInTicks)]
      ensures unchanged(event) && pending == Remaining(old(pending), status == 0 && reply != null)
      ensures status == 0 && reply != null ==>
        next == old(next) + 1 && live == old(live) + {old(next)}
        && reply.Value() == DescValue(typeAppleEvent, old(next))
        && replyOf == old(replyOf)[old(next) := old(NextReply())]
      ensures status != 0 || reply == null ==>
        next == old(next) && live == old(live) && replyOf == old(replyOf)
        && (reply != null ==> reply.Value() == old(reply.Value()))
    {
      log := log + [Send(event.Value(), sendMode, timeOutInTicks)];
      status := sendStatus;
      if status == 0 && reply != null {
        var answer := NextReply();
        var h := Allocate();
        replyOf := replyOf[h := answer];
        pending := Remaining(pending, true);
        reply.descriptorType := typeAppleEvent;
        reply.dataHandle := h;
      }
    }

    /** The type and size of parameter `keyword` of `event`; only the direct parameter is modelled. */
    method AESizeOfParam(event: AEDesc, keyword: ResType)
      returns (status: int, typeCode: ResType, dataSize: nat)
      ensures var r := ReplyAt(event.dataHandle);
        keyword != keyDirectObject ==> status == errAEDescNotFound && typeCode == DefaultResType() && dataSize == 0
      ensures var r := ReplyAt(event.dataHandle);
        keyword == keyDirectObject ==> (status == r.sizeStatus
        && (status == 0 ==> typeCode == r.paramType && dataSize == r.paramSize)
        && (status != 0 ==> typeCode == DefaultResType() && dataSize == 0))
    {
      var r := ReplyAt(event.dataHandle);
      status := if keyword == keyDirectObject then r.sizeStatus else errAEDescNotFound;
      if status == 0 {
        typeCode, dataSize := r.paramType, r.paramSize;
      } else {
        typeCode, dataSize := DefaultResType(), 0;
      }
    }

    /**
     * Copies parameter `keyword` of `event`, coerced to `desiredType`, into a
     * buffer: at most `maximumSize` bytes are written (`written`), and the
     * full size of the coerced data is reported.
     */
    method AEGetParamPtr(event: AEDesc, keyword: ResType, desiredType: ResType, maximumSize: nat)
      returns (status: int, actualType: ResType, written: seq<byte>, actualSize: nat)
      ensures var r := ReplyAt(event.dataHandle);
        status == (if keyword == keyDirectObject then r.readStatus else errAEDescNotFound)
      ensures var r := ReplyAt(event.dataHandle);
        status == 0 ==> (actualType == desiredType && actualSize == |r.data|
        && written == r.data[..Min(|r.data|, maximumSize)])
      ensures status != 0 ==> actualType == DefaultResType() && actualSize == 0 && written == []
    {
      var r := ReplyAt(event.dataHandle);
      status := if keyword == keyDirectObject then r.readStatus else errAEDescNotFound;
      if status == 0 {
        actualType, actualSize := desiredType, |r.data|;
        written := r.data[..Min(|r.data|, maximumSize)];
      } else {
        actualType, actualSize, written := DefaultResType(), 0, [];
      }
    }

    /** A new descriptor holding parameter `keyword` of `event`; a 'null' parameter comes with no handle. */
    method AEGetParamDesc(event: AEDesc, keyword: ResType, desiredType: ResType, result: AEDesc)
      returns (status: int)
      requires Valid() && result != event
      modifies this`live, this`next, result
      ensures Valid()
      ensures var r := old(ReplyAt(event.dataHandle));
        status == (if keyword == keyDirectObject then r.descStatus else errAEDescNotFound)
      ensures var r := old(ReplyAt(event.dataHandle));
        status == 0 && r.paramType != typeNull ==>
        next == old(next) + 1 && live == old(live) + {old(next)} && result.Value() == DescValue(r.paramType, old(next))
      ensures var r := old(ReplyAt(event.dataHandle));
        status == 0 && r.paramType == typeNull ==>
        next == old(next) && live == old(live) && result.Value() == DescValue(typeNull, 0)
      ensures status != 0 ==> next == old(next) && live == old(live) && result.Value() == old(result.Value())
    {
      var r := ReplyAt(event.dataHandle);
      status := if keyword == keyDirectObject then r.descStatus else errAEDescNotFound;
      if status == 0 {
        if r.paramType == typeNull {
          result.descriptorType, result.dataHandle := typeNull, 0;
        } else {
          var h := Allocate();
          result.descriptorType, result.dataHandle := r.paramType, h;
        }
      }
    }

    method AEDisposeDesc(handle: nat)
      requires Valid() && handle in live
      modifies this`log, this`live
      ensures Valid() && log == old(log) + [Dispose(handle)] && live == old(live) - {handle}
    {
      log := log + [Dispose(handle)];
      live := live - {handle};
    }
  }
}
