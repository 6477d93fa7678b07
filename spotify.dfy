/**
 * The Spotify scripting interface (`src/spotify.rs`): the player state
 * enumeration, the application's identity, its commands, properties and
 * current track, and the rewrite of a track's Spotify URI into a web link.
 */
module Spotify {
  import opened Prelude
  import opened Sys
  import opened EventFormats
  import opened Encoding
  import opened Events

  // ---------------------------------------------------------------------
  // Player state
  // ---------------------------------------------------------------------

  /** `State`, whose discriminants are its four-character codes 'kPSS', 'kPSP' and 'kPSp'. */
  datatype State = Stopped | Playing | Paused

  /** `Into<u32> for State` (and so `EventEnum::to_int`). */
  function ToInt(s: State): u32
  {
    match s
    case Stopped => 0x6b50_5353
    case Playing => 0x6b50_5350
    case Paused => 0x6b50_5370
  }

  /** `EventEnum::from_int`: defined on the three codes; any other code panics. */
  function FromInt(v: u32): (r: Result<State>)
    ensures r.Ok? <==> v == ToInt(Stopped) || v == ToInt(Playing) || v == ToInt(Paused)
    ensures r.Ok? ==> ToInt(r.value) == v
    ensures r.Err? ==> r.error == Panic("Invalid enum value")
  {
    if v == 0x6b50_5353 then Ok(Stopped)
    else if v == 0x6b50_5350 then Ok(Playing)
    else if v == 0x6b50_5370 then Ok(Paused)
    else Err(Panic("Invalid enum value"))
  }

  /** Every state survives the trip through its code, and distinct states have distinct codes. */
  lemma StateRoundTrip(s: State, s': State)
    ensures FromInt(ToInt(s)) == Ok(s)
    ensures ToInt(s) == ToInt(s') ==> s == s'
  {
  }

  /** `EventEnum::to_res_type`. */
  function ToResType(s: State): (r: ResType)
    ensures r.ToU32() == ToInt(s)
  {
    ResType.New(ToInt(s))
  }

  /** `EventEnum::from_res_type`. */
  function FromResType(r: ResType): Result<State>
  {
    FromInt(r.ToU32())
  }

  /** The code of a state names it again; a code that names no state panics. */
  lemma ResTypeRoundTrip(s: State, r: ResType)
    ensures FromResType(ToResType(s)) == Ok(s)
    ensures FromResType(r).Ok? ==> ToResType(FromResType(r).value) == r
  {
  }

  // ---------------------------------------------------------------------
  // The application's identity, events and keywords
  // ---------------------------------------------------------------------

  const SIGNATURE: ResType := ResType(0x7370_6679)  // "spfy"
  const BUNDLE_ID: string := "com.spotify.client"
  const EVENT_ID_PLAYPAUSE: ResType := ResType(0x506c_5073)  // "PlPs"
  const EVENT_ID_PLAY: ResType := ResType(0x506c_6179)  // "Play"
  const EVENT_ID_PAUSE: ResType := ResType(0x5061_7573)  // "Paus"
  const EVENT_ID_NEXT: ResType := ResType(0x4e65_7874)  // "Next"
  const EVENT_ID_PREVIOUS: ResType := ResType(0x5072_6576)  // "Prev"
  const EVENT_ID_PLAY_TRACK: ResType := ResType(0x5043_7478)  // "PCtx"
  const KEY_CONTEXT: ResType := ResType(0x636f_7478)  // "cotx"

  /** The codes are the ones their comments spell. */
  lemma IdentitySpellings()
    ensures SIGNATURE == FourCC("spfy") && EVENT_ID_PLAYPAUSE == FourCC("PlPs") && EVENT_ID_PLAY == FourCC("Play")
    ensures EVENT_ID_PAUSE == FourCC("Paus") && EVENT_ID_NEXT == FourCC("Next")
    ensures EVENT_ID_PREVIOUS == FourCC("Prev") && EVENT_ID_PLAY_TRACK == FourCC("PCtx")
    ensures KEY_CONTEXT == FourCC("cotx")
  {
  }

  /** The context keyword can be written into a query. */
  lemma ContextKeyword()
    ensures !HasNul(KEY_CONTEXT) && QuoteFree(KEY_CONTEXT)
  {
    PlainCode(0x63, 0x6f, 0x74, 0x78);
  }

  // ---------------------------------------------------------------------
  // Properties
  // ---------------------------------------------------------------------

  /** The player's settings, each read by a getter and written by a setter of `Spotify`. */
  datatype Setting = Shuffling | Repeating | Position | Volume

  /** The property code of each setting ('pShu', 'pRep', 'pPos', 'pVol'). */
  function SettingCode(s: Setting): ResType
  {
    match s
    case Shuffling => ResType(0x7053_6875)
    case Repeating => ResType(0x7052_6570)
    case Position => ResType(0x7050_6f73)
    case Volume => ResType(0x7056_6f6c)
  }

  /** The Rust type of each setting: `bool`, `bool`, `f64`, `i32`. */
  function SettingKind(s: Setting): Kind
  {
    match s
    case Shuffling => BoolKind
    case Repeating => BoolKind
    case Position => F64Kind
    case Volume => I32Kind
  }

  /** The fields of a track, each read by a getter of `SpotifyTrack`. */
  datatype TrackField =
    | Artist | Id | Name | Album | AlbumArtist | ArtworkUrl | DiskNumber | Duration
    | PlayedCount | Popularity | SpotifyUrl | Starred | TrackNumber

  /** The property code of each field. */
  function FieldCode(f: TrackField): ResType
  {
    match f
    case Artist => ResType(0x7041_7274)       // "pArt"
    case Id => ResType(0x4944_2020)           // "ID  "
    case Name => ResType(0x706e_616d)         // "pnam"
    case Album => ResType(0x7041_6c62)        // "pAlb"
    case AlbumArtist => ResType(0x7041_6c41)  // "pAlA"
    case ArtworkUrl => ResType(0x6155_726c)   // "aUrl"
    case DiskNumber => ResType(0x7044_734e)   // "pDsN"
    case Duration => ResType(0x7044_7572)     // "pDur"
    case PlayedCount => ResType(0x7050_6c43)  // "pPlC"
    case Popularity => ResType(0x7370_506f)   // "spPo"
    case SpotifyUrl => ResType(0x7370_7572)   // "spur"
    case Starred => ResType(0x7370_5374)      // "spSt"
    case TrackNumber => ResType(0x7054_724e)  // "pTrN"
  }

  /** The Rust type of each field: text, `i32`, or `bool` for `starred`. */
  function FieldKind(f: TrackField): Kind
  {
    match f
    case Artist | Id | Name | Album | AlbumArtist | ArtworkUrl | SpotifyUrl => StringKind
    case DiskNumber | Duration | PlayedCount | Popularity | TrackNumber => I32Kind
    case Starred => BoolKind
  }

  const PROPERTY_STATE: ResType := ResType(0x7050_6c53)  // "pPlS"
  const PROPERTY_TRACK: ResType := ResType(0x7054_726b)  // "pTrk"

  /** A setting's code can be written into a query. */
  lemma SettingCodeWritable(s: Setting)
    ensures !HasNul(SettingCode(s)) && QuoteFree(SettingCode(s))
  {
    match s
    case Shuffling => PlainCode(0x70, 0x53, 0x68, 0x75);
    case Repeating => PlainCode(0x70, 0x52, 0x65, 0x70);
    case Position => PlainCode(0x70, 0x50, 0x6f, 0x73);
    case Volume => PlainCode(0x70, 0x56, 0x6f, 0x6c);
  }

  /** A track field's code can be written into a query. */
  lemma FieldCodeWritable(f: TrackField)
    ensures !HasNul(FieldCode(f)) && QuoteFree(FieldCode(f))
  {
    match f
    case Artist => PlainCode(0x70, 0x41, 0x72, 0x74);
    case Id => PlainCode(0x49, 0x44, 0x20, 0x20);
    case Name => PlainCode(0x70, 0x6e, 0x61, 0x6d);
    case Album => PlainCode(0x70, 0x41, 0x6c, 0x62);
    case AlbumArtist => PlainCode(0x70, 0x41, 0x6c, 0x41);
    case ArtworkUrl => PlainCode(0x61, 0x55, 0x72, 0x6c);
    case DiskNumber => PlainCode(0x70, 0x44, 0x73, 0x4e);
    case Duration => PlainCode(0x70, 0x44, 0x75, 0x72);
    case PlayedCount => PlainCode(0x70, 0x50, 0x6c, 0x43);
    case Popularity => PlainCode(0x73, 0x70, 0x50, 0x6f);
    case SpotifyUrl => PlainCode(0x73, 0x70, 0x75, 0x72);
    case Starred => PlainCode(0x73, 0x70, 0x53, 0x74);
    case TrackNumber => PlainCode(0x70, 0x54, 0x72, 0x4e);
  }

  /** The state and track property codes can be written into a query. */
  lemma PlayerCodesWritable()
    ensures !HasNul(PROPERTY_STATE) && QuoteFree(PROPERTY_STATE)
    ensures !HasNul(PROPERTY_TRACK) && QuoteFree(PROPERTY_TRACK)
  {
    PlainCode(0x70, 0x50, 0x6c, 0x53);
    PlainCode(0x70, 0x54, 0x72, 0x6b);
  }

  // ---------------------------------------------------------------------
  // The application object
  // ---------------------------------------------------------------------

  /** The application itself: Spotify's identity and the null descriptor as target. */
  predicate IsApplication(app: EventedObject)
    reads app.targetObject
  {
    app.signature == SIGNATURE && app.bundleId == BUNDLE_ID && app.targetObject.IsNull()
  }

  /** `Spotify::new`. */
  method New() returns (app: EventedObject)
    ensures IsApplication(app) && fresh(app.targetObject)
    ensures app.targetObject.Value() == DescValue(typeNull, 0)
  {
    var target := new AEDesc.Default();
    app := EventedObject(SIGNATURE, BUNDLE_ID, target);
  }

  /**
   * The application's getter and setter events address it by bundle id and
   * name 'null' as the container, so they carry no descriptor for a target:
   * a getter has no placeholder and a setter one, for the value.
   */
  lemma ApplicationEvents(app: EventedObject, property: ResType, value: DescValue)
    requires IsApplication(app) && QuoteFree(property)
    ensures var g := GetterCall(app, property);
      && g.address == "com.spotify.client" && g.params == [] && Takes(g.format, 0)
      && g.format == GetterText(true, property)
    ensures var s := SetterCall(app, property, value);
      s.params == [value] && Takes(s.format, 1)
  {
    GetterFacts(true, property);
    SetterFacts(true, property);
  }

  // ---------------------------------------------------------------------
  // Commands
  // ---------------------------------------------------------------------

  /** The commands of `Spotify` that take no parameter; `prev` is `previous`. */
  datatype Command = PlayPause | Play | Pause | Next | Previous

  function EventID(c: Command): ResType
  {
    match c
    case PlayPause => EVENT_ID_PLAYPAUSE
    case Play => EVENT_ID_PLAY
    case Pause => EVENT_ID_PAUSE
    case Next => EVENT_ID_NEXT
    case Previous => EVENT_ID_PREVIOUS
  }

  /** Each command sends its own event. */
  lemma EventIDsDistinct(c: Command, c': Command)
    ensures EventID(c) == EventID(c') ==> c == c'
    ensures EventID(c) != EVENT_ID_PLAY_TRACK
  {
  }

  /** `play_pause`, `play`, `pause`, `next`, `previous`: `call!` without parameters. */
  method Perform(app: EventedObject, c: Command, t: Transport) returns (r: Result<()>)
    requires t.Valid()
    modifies t`log, t`live, t`next, t`replyOf, t`pending
    ensures t.pending == old(t.pending) && t.replyOf == old(t.replyOf) && t.descScript == old(t.descScript)
    ensures t.Valid() && t.live == old(t.live)
    ensures r == SendOutcome(t.buildStatus, t.buildError, t.sendStatus)
    ensures t.log == old(t.log) + CommandTail(app, EventID(c), NoParameterQuery, [], old(t.next), old(t.next),
                                                t.buildStatus == 0)
  {
    r := Call0(app, EventID(c), t);
  }

  /** The query `play_track` sends with a context. */
  const ContextQueryText := "'----':@, 'cotx':@"

  /** The query of `play_track` with a context: two placeholders, the track's and the context's under 'cotx'. */
  lemma ContextQuery()
    ensures NamedParameterQuery([KEY_CONTEXT]) == Ok(ContextQueryText)
    ensures Takes(ContextQueryText, 2)
  {
    ContextQueryJoined();
    ContextKeyword();
    NamedParameterQueryFacts([KEY_CONTEXT]);
  }

  lemma ContextQueryJoined()
    ensures Join([DirectParameterQuery] + NamedPlaceholders([KEY_CONTEXT]), ", ") == ContextQueryText
  {
    assert KEY_CONTEXT.ToString() == "cotx" by {
      IdentitySpellings();
    }
    var p := KEY_CONTEXT.Display() + ":@";
    assert p == "'cotx':@";
    assert [KEY_CONTEXT][1..] == [];
    assert NamedPlaceholders([KEY_CONTEXT]) == [p];
    var parts := [DirectParameterQuery, p];
    assert parts[1..] == [p];
    assert [DirectParameterQuery] + NamedPlaceholders([KEY_CONTEXT]) == parts;
    assert Join(parts, ", ") == DirectParameterQuery + ", " + p;
  }

  /** Where converting a track and a context stops, and what a failure at the context leaves in the log. */
  lemma TwoConversions(track: string, context: string, script: seq<DescAnswer>, h0: nat)
    ensures var vs := [Text(track), Text(context)];
      var a0, a1 := AnswerAt(script, 0), AnswerAt(script, 1);
      && (a0.status != 0 ==> (FirstFailure(vs, script) == 0
            && FailedConversion(vs, 0, h0) == [BuildDesc(DescText(typeUnicodeText), Args(Text(track)))]))
      && (a0.status == 0 && a1.status != 0 ==> (FirstFailure(vs, script) == 1
            && FailedConversion(vs, 1, h0) == BuildDescs(vs) + [Dispose(h0)]))
      && (a0.status == 0 && a1.status == 0 ==> FirstFailure(vs, script) == 2)
  {
    var vs := [Text(track), Text(context)];
    var a0, a1 := AnswerAt(script, 0), AnswerAt(script, 1);
    assert vs[..0] == [] && vs[..1] == [Text(track)] && vs == vs[..1] + [Text(context)];
    BuildDescsSnoc([], Text(track));
    BuildDescsSnoc([Text(track)], Text(context));
    if a0.status != 0 {
      FirstFailureIs(vs, script, 0);
    } else if a1.status != 0 {
      assert AllConvert(vs, script, 1) by {
        assert Converts(vs[0], a0);
      }
      FirstFailureIs(vs, script, 1);
    } else {
      assert AllConvert(vs, script, 2) by {
        assert Converts(vs[0], a0) && Converts(vs[1], a1);
      }
      FirstFailureIs(vs, script, 2);
    }
  }

  /** The arm of `play_track` with a context: `call!` with the track and the context under 'cotx'. */
  method PlayTrackInContext(app: EventedObject, track: string, context: string, t: Transport) returns (r: Result<()>)
    requires t.Valid()
    modifies t`log, t`live, t`next, t`replyOf, t`pending, t`descScript
    ensures t.pending == old(t.pending) && t.replyOf == old(t.replyOf)
    ensures t.descScript == After(old(t.descScript), if AnswerAt(old(t.descScript), 0).status != 0 then 1 else 2)
    ensures t.Valid() && t.live == old(t.live)
    ensures var a0 := AnswerAt(old(t.descScript), 0);
      a0.status != 0 ==> (
      && r == Err(EventBuildError.New(a0.error))
      && t.log == old(t.log) + [BuildDesc(DescText(typeUnicodeText), Args(Text(track)))])
    ensures var a0, a1 := AnswerAt(old(t.descScript), 0), AnswerAt(old(t.descScript), 1);
      a0.status == 0 && a1.status != 0 ==> (
      && r == Err(EventBuildError.New(a1.error))
      && t.log == old(t.log) + BuildDescs([Text(track), Text(context)]) + [Dispose(old(t.next))])
    ensures var a0, a1 := AnswerAt(old(t.descScript), 0), AnswerAt(old(t.descScript), 1);
      a0.status == 0 && a1.status == 0 ==> (
      var vs := [Text(track), Text(context)];
      && r == SendOutcome(t.buildStatus, t.buildError, t.sendStatus)
      && t.log == old(t.log) + BuildDescs(vs)
           + CommandTail(app, EVENT_ID_PLAY_TRACK, ContextQueryText, Handles(vs, old(t.next)),
                         old(t.next), old(t.next) + 2, t.buildStatus == 0))
  {
    ContextQuery();
    var named := [(KEY_CONTEXT, Text(context))];
    assert Keys(named) == [KEY_CONTEXT];
    var vs := [Text(track), Text(context)];
    assert Arguments(Text(track), named) == vs;
    ghost var s0, h0 := t.descScript, t.next;
    r := CallN(app, EVENT_ID_PLAY_TRACK, Text(track), named, t);
    TwoConversions(track, context, s0, h0);
  }

  /**
   * `Spotify::play_track`: the track alone goes as direct parameter; with a
   * context, the context follows under the keyword 'cotx'.
   */
  method PlayTrack(app: EventedObject, track: string, context: Option<string>, t: Transport) returns (r: Result<()>)
    requires t.Valid()
    modifies t`log, t`live, t`next, t`replyOf, t`pending, t`descScript
    ensures t.pending == old(t.pending) && t.replyOf == old(t.replyOf)
    ensures t.descScript == After(old(t.descScript),
                                  if context.None? || AnswerAt(old(t.descScript), 0).status != 0 then 1 else 2)
    ensures t.Valid() && t.live == old(t.live)
    ensures var a0 := AnswerAt(old(t.descScript), 0);
      a0.status != 0 ==> (
      && r == Err(EventBuildError.New(a0.error))
      && t.log == old(t.log) + [BuildDesc(DescText(typeUnicodeText), Args(Text(track)))])
    ensures AnswerAt(old(t.descScript), 0).status == 0 && context.None? ==> (
      && r == SendOutcome(t.buildStatus, t.buildError, t.sendStatus)
      && t.log == old(t.log) + [BuildDesc(DescText(typeUnicodeText), Args(Text(track)))]
           + CommandTail(app, EVENT_ID_PLAY_TRACK, DirectParameterQuery, [DescValue(typeUnicodeText, old(t.next))],
                         old(t.next), old(t.next) + 1, t.buildStatus == 0))
    ensures var a0, a1 := AnswerAt(old(t.descScript), 0), AnswerAt(old(t.descScript), 1);
      a0.status == 0 && a1.status != 0 && context.Some? ==> (
      && r == Err(EventBuildError.New(a1.error))
      && t.log == old(t.log) + BuildDescs([Text(track), Text(context.value)]) + [Dispose(old(t.next))])
    ensures var a0, a1 := AnswerAt(old(t.descScript), 0), AnswerAt(old(t.descScript), 1);
      a0.status == 0 && a1.status == 0 && context.Some? ==> (
      var vs := [Text(track), Text(context.value)];
      && r == SendOutcome(t.buildStatus, t.buildError, t.sendStatus)
      && t.log == old(t.log) + BuildDescs(vs)
           + CommandTail(app, EVENT_ID_PLAY_TRACK, ContextQueryText, Handles(vs, old(t.next)),
                         old(t.next), old(t.next) + 2, t.buildStatus == 0))
  {
    match context
    case Some(c) =>
      r := PlayTrackInContext(app, track, c, t);
    case None =>
      r := Call1(app, EVENT_ID_PLAY_TRACK, Text(track), t);
  }

  // ---------------------------------------------------------------------
  // Reading and writing properties
  // ---------------------------------------------------------------------

  /** What `state` makes of an enumeration read: `from_int` applied to the code. */
  function StateOf(out: Result<Option<Value>>): (r: Result<Option<State>>)
    requires out.Ok? && out.value.Some? ==> out.value.value.Enum?
    ensures out.Err? ==> r == Err(out.error)
    ensures out == Ok(None) ==> r == Ok(None)
    ensures out.Ok? && out.value.Some? ==> (
      && (r.Ok? <==> FromInt(out.value.value.code).Ok?)
      && (r.Ok? ==> r.value.Some? && ToInt(r.value.value) == out.value.value.code)
      && (r.Err? ==> r.error == Panic("Invalid enum value")))
  {
    match out
    case Err(e) => Err(e)
    case Ok(None) => Ok(None)
    case Ok(Some(v)) =>
      var s :- FromInt(v.code);
      Ok(Some(s))
  }

  /** An application answering with a state's code is read as that state; any other code panics. */
  lemma StateReadBack(s: State, code: u32)
    ensures StateOf(ReadOutcome(EnumKind, Ok(Answer(typeEnumerated, Native(Enum(ToInt(s))))))) == Ok(Some(s))
    ensures FromInt(code).Err? ==>
      StateOf(ReadOutcome(EnumKind, Ok(Answer(typeEnumerated, Native(Enum(code)))))) == Err(Panic("Invalid enum value"))
  {
    ScalarAnswerReadBack(Enum(ToInt(s)));
    ScalarAnswerReadBack(Enum(code));
  }

  /** `Spotify::state`. */
  method GetState(app: EventedObject, t: Transport) returns (r: Result<Option<State>>)
    requires t.Valid()
    modifies t`log, t`live, t`next, t`replyOf, t`pending
    ensures t.descScript == old(t.descScript)
    ensures t.pending == Remaining(old(t.pending), t.buildStatus == 0 && t.sendStatus == 0)
    ensures t.Valid() && unchanged(app.targetObject) && t.live == old(t.live)
    ensures r == StateOf(ReadOutcome(EnumKind, Fetch(t.buildStatus, t.buildError, t.sendStatus, old(t.NextReply()))))
    ensures t.log == old(t.log) + ReadLog(old(GetterCall(app, PROPERTY_STATE)), old(t.next), t.buildStatus, t.sendStatus)
  {
    PlayerCodesWritable();
    var out := GetProperty(app, PROPERTY_STATE, EnumKind, t);
    r := StateOf(out);
  }

  /**
   * `is_shuffling`, `is_repeating`, `position` (and `pos`), `volume`: the
   * value read has the setting's type.
   */
  method GetSetting(app: EventedObject, s: Setting, t: Transport) returns (r: Result<Option<Value>>)
    requires t.Valid()
    modifies t`log, t`live, t`next, t`replyOf, t`pending
    ensures t.descScript == old(t.descScript)
    ensures t.pending == Remaining(old(t.pending), t.buildStatus == 0 && t.sendStatus == 0)
    ensures t.Valid() && unchanged(app.targetObject) && t.live == old(t.live)
    ensures r == ReadOutcome(SettingKind(s), Fetch(t.buildStatus, t.buildError, t.sendStatus, old(t.NextReply())))
    ensures r.Ok? && r.value.Some? ==> KindOf(r.value.value) == SettingKind(s)
    ensures t.log == old(t.log) + ReadLog(old(GetterCall(app, SettingCode(s))), old(t.next), t.buildStatus, t.sendStatus)
  {
    SettingCodeWritable(s);
    r := GetProperty(app, SettingCode(s), SettingKind(s), t);
  }

  /** `set_shuffling`, `set_repeating`, `set_position` (and `set_pos`), `set_volume`. */
  method ChangeSetting(app: EventedObject, s: Setting, v: Value, t: Transport) returns (r: Result<()>)
    requires t.Valid() && KindOf(v) == SettingKind(s)
    modifies t`log, t`live, t`next, t`replyOf, t`pending, t`descScript
    ensures t.pending == old(t.pending) && t.replyOf == old(t.replyOf)
    ensures t.descScript == After(old(t.descScript), 1)
    ensures t.Valid() && unchanged(app.targetObject) && t.live == old(t.live)
    ensures old(t.NextDesc()).status != 0 ==> (
      && r == Err(EventBuildError.New(old(t.NextDesc()).error))
      && t.log == old(t.log) + [BuildDesc(DescText(Tag(SettingKind(s))), Args(v))])
    ensures old(t.NextDesc()).status == 0 ==> (
      && r == SendOutcome(t.buildStatus, t.buildError, t.sendStatus)
      && t.log == old(t.log) + [BuildDesc(DescText(Tag(SettingKind(s))), Args(v))]
           + [old(SetterCall(app, SettingCode(s), DescValue(Tag(SettingKind(s)), t.next)))]
           + (if t.buildStatus == 0 then SendNoReply(old(t.next) + 1, kAENoReply) else [])
           + [Dispose(old(t.next))])
  {
    SettingCodeWritable(s);
    r := SetProperty(app, SettingCode(s), v, t);
  }

  /** `Spotify::track`: the current track, an object of Spotify's whose fields are read one round trip each. */
  method Track(app: EventedObject, t: Transport) returns (r: Result<Option<EventedObject>>)
    requires t.Valid()
    modifies t`log, t`live, t`next, t`replyOf, t`pending
    ensures t.descScript == old(t.descScript)
    ensures t.pending == Remaining(old(t.pending), t.buildStatus == 0 && t.sendStatus == 0)
    ensures t.Valid() && unchanged(app.targetObject)
    ensures
      var f := Fetch(t.buildStatus, t.buildError, t.sendStatus, old(t.NextReply()));
      var out := DescriptorOutcome(f, old(t.next) + 2);
      && (r.Ok? <==> out.Ok?)
      && (r.Err? ==> out == Err(r.error) && t.live == old(t.live))
      && (r.Ok? ==> (r.value.Some? && r.value.value.signature == app.signature
            && r.value.value.bundleId == app.bundleId
            && fresh(r.value.value.targetObject) && r.value.value.targetObject.Value() == out.value
            && r.value.value.targetObject.OwnedIn(t)
            && t.live == old(t.live) + (if r.value.value.targetObject.dataHandle == 0 then {}
                                        else {r.value.value.targetObject.dataHandle})))
      && t.log == old(t.log) + ReadLog(old(GetterCall(app, PROPERTY_TRACK)), old(t.next), t.buildStatus, t.sendStatus)
  {
    PlayerCodesWritable();
    r := GetSubObject(app, PROPERTY_TRACK, t);
  }

  /** The getters of `SpotifyTrack`: the value read has the field's type. */
  method GetField(track: EventedObject, f: TrackField, t: Transport) returns (r: Result<Option<Value>>)
    requires t.Valid()
    modifies t`log, t`live, t`next, t`replyOf, t`pending
    ensures t.descScript == old(t.descScript)
    ensures t.pending == Remaining(old(t.pending), t.buildStatus == 0 && t.sendStatus == 0)
    ensures t.Valid() && unchanged(track.targetObject) && t.live == old(t.live)
    ensures r == ReadOutcome(FieldKind(f), Fetch(t.buildStatus, t.buildError, t.sendStatus, old(t.NextReply())))
    ensures r.Ok? && r.value.Some? ==> KindOf(r.value.value) == FieldKind(f)
    ensures t.log == old(t.log) + ReadLog(old(GetterCall(track, FieldCode(f))), old(t.next), t.buildStatus, t.sendStatus)
  {
    FieldCodeWritable(f);
    r := GetProperty(track, FieldCode(f), FieldKind(f), t);
  }

  // ---------------------------------------------------------------------
  // The web link of a track
  // ---------------------------------------------------------------------

  /** The number of bytes UTF-8 spends on `c` (RFC 3629, section 3). */
  function Utf8Width(c: char): (n: nat)
    ensures 1 <= n <= 4
  {
    if c as int < 0x80 then 1 else if c as int < 0x800 then 2 else if c as int < 0x1_0000 then 3 else 4
  }

  /** The length in bytes of the UTF-8 form of `s`, which is how Rust measures and indexes a `String`. */
  function Utf8Length(s: string): (n: nat)
    ensures |s| <= n <= 4 * |s|
  {
    if s == [] then 0 else Utf8Width(s[0]) + Utf8Length(s[1..])
  }

  /**
   * `&s[n..]` for a `String` `s`: the text after its first `n` bytes. Rust
   * panics when `n` lies beyond the end or inside the bytes of a character.
   */
  function ByteSuffix(s: string, n: nat): (r: Result<string>)
    ensures r.Ok? ==> |r.value| <= |s|
    ensures r.Err? ==> r.error.Panic?
    decreases |s|
  {
    if n == 0 then Ok(s)
    else if s == [] then Err(Panic("byte index out of bounds"))
    else if n < Utf8Width(s[0]) then Err(Panic("byte index is not a char boundary"))
    else ByteSuffix(s[1..], n - Utf8Width(s[0]))
  }

  /** Slicing at the byte offset where the `k`-th character starts yields the characters from `k` on. */
  lemma {:induction false} ByteSuffixAtBoundary(s: string, k: nat)
    requires k <= |s|
    ensures ByteSuffix(s, Utf8Length(s[..k])) == Ok(s[k..])
  {
    if k > 0 {
      ByteSuffixAtBoundary(s[1..], k - 1);
      assert s[..k][1..] == s[1..][..k - 1];
      assert s[1..][k - 1..] == s[k..];
    } else {
      assert s[..k] == [];
    }
  }

  /** Slicing succeeds only at the byte offset where some character starts. */
  lemma {:induction false} ByteSuffixOnlyAtBoundary(s: string, n: nat)
    requires ByteSuffix(s, n).Ok?
    ensures var k := |s| - |ByteSuffix(s, n).value|;
      Utf8Length(s[..k]) == n && ByteSuffix(s, n).value == s[k..]
    decreases |s|
  {
    if n > 0 {
      ByteSuffixOnlyAtBoundary(s[1..], n - Utf8Width(s[0]));
      var k := |s| - |ByteSuffix(s, n).value|;
      assert s[..k][1..] == s[1..][..k - 1];
      assert s[1..][k - 1..] == s[k..];
    } else {
      assert s[..0] == [];
    }
  }

  /** Text of ASCII characters takes one byte per character. */
  lemma {:induction false} AsciiUtf8Length(s: string)
    requires forall i | 0 <= i < |s| :: s[i] as int < 0x80
    ensures Utf8Length(s) == |s|
  {
    if s != [] {
      AsciiUtf8Length(s[1..]);
    }
  }

  /** The prefix `url` cuts off: a Spotify track URI's 14 bytes "spotify:track:". */
  const TrackUriPrefix := "spotify:track:"
  const TrackLinkPrefix := "https://open.spotify.com/track/"

  /** `SpotifyTrack::url` once the Spotify URI is read: a web link to the same track. */
  function UrlOf(uri: Option<string>): (r: Result<Option<string>>)
    ensures uri.None? ==> r == Ok(None)
    ensures uri.Some? ==> r != Ok(None) && (r.Err? ==> r.error.Panic?)
  {
    match uri
    case None => Ok(None)
    case Some(u) =>
      var id :- ByteSuffix(u, 14);
      Ok(Some(TrackLinkPrefix + id))
  }

  /** A track URI becomes the web link of the same id. */
  lemma UrlOfTrackUri(id: string)
    ensures UrlOf(Some(TrackUriPrefix + id)) == Ok(Some(TrackLinkPrefix + id))
  {
    var u := TrackUriPrefix + id;
    assert u[..14] == TrackUriPrefix;
    AsciiUtf8Length(TrackUriPrefix);
    ByteSuffixAtBoundary(u, 14);
    assert u[14..] == id;
  }

  /**
   * `url` succeeds on a URI exactly when a character starts at its 14th byte,
   * and then links to the text from there on; otherwise it panics.
   */
  lemma UrlOfExactly(u: string)
    ensures UrlOf(Some(u)).Ok? <==> exists k | 0 <= k <= |u| :: Utf8Length(u[..k]) == 14
    ensures UrlOf(Some(u)).Ok? ==>
      exists k | 0 <= k <= |u| :: Utf8Length(u[..k]) == 14 && UrlOf(Some(u)) == Ok(Some(TrackLinkPrefix + u[k..]))
  {
    if UrlOf(Some(u)).Ok? {
      ByteSuffixOnlyAtBoundary(u, 14);
    }
    if exists k | 0 <= k <= |u| :: Utf8Length(u[..k]) == 14 {
      var k :| 0 <= k <= |u| && Utf8Length(u[..k]) == 14;
      ByteSuffixAtBoundary(u, k);
    }
  }

  /** What `url` makes of the read of the Spotify URI. */
  function UrlOutcome(out: Result<Option<Value>>): Result<Option<string>>
    requires out.Ok? && out.value.Some? ==> out.value.value.Text?
  {
    match out
    case Err(e) => Err(e)
    case Ok(None) => Ok(None)
    case Ok(Some(v)) => UrlOf(Some(v.s))
  }

  /**
   * A string read never yields `None`, so `url` never does: its `None` arm
   * is unreachable. An application answering with a track URI gives its link.
   */
  lemma UrlOutcomeFacts(f: Result<Reply>, id: string)
    ensures UrlOutcome(ReadOutcome(StringKind, f)) != Ok(None)
    ensures UrlOutcome(ReadOutcome(StringKind, Ok(Answer(typeUnicodeText, EncodeUtf16(TrackUriPrefix + id)))))
      == Ok(Some(TrackLinkPrefix + id))
  {
    StringAnswerReadBack(TrackUriPrefix + id);
    UrlOfTrackUri(id);
  }

  /** `SpotifyTrack::url`: reads the Spotify URI ('spur'), then rewrites it. */
  method Url(track: EventedObject, t: Transport) returns (r: Result<Option<string>>)
    requires t.Valid()
    modifies t`log, t`live, t`next, t`replyOf, t`pending
    ensures t.descScript == old(t.descScript)
    ensures t.pending == Remaining(old(t.pending), t.buildStatus == 0 && t.sendStatus == 0)
    ensures t.Valid() && unchanged(track.targetObject) && t.live == old(t.live)
    ensures r == UrlOutcome(ReadOutcome(StringKind, Fetch(t.buildStatus, t.buildError, t.sendStatus, old(t.NextReply()))))
    ensures t.log == old(t.log) + ReadLog(old(GetterCall(track, FieldCode(SpotifyUrl))), old(t.next), t.buildStatus,
                                          t.sendStatus)
  {
    var out := GetField(track, SpotifyUrl, t);
    r := UrlOutcome(out);
  }
}
