# macos-spotify in Dafny

A model of the core of `macos-spotify`, a Rust library that drives the Spotify
desktop application through Apple Events, together with proofs about that
model. The library does three things:

- it writes AEBuild format strings (property getter and setter queries, and
  command queries of three arities);
- it sends the events it builds and decodes the typed replies;
- it owns the descriptors the Apple Event Manager hands out, and disposes each
  one when it is dropped.

The zero-parameter command's query `'----':'null'()` (`src/events.rs:47`)
has no placeholder and passes no argument; `EventFormats.QueryConstantsTake`
proves it takes 0.

The model has five modules:

- `Sys` (`sys.dfy`, for `src/sys.rs`):
  - four-character codes (`ResType`) and their big-endian spelling;
  - the type-tag constants;
  - `AEDesc` as a class with a `Drop` method.
  - The Apple Event Manager entry points become `Transport`, a scripted
    stand-in. It returns per-scenario status codes and replies, records every
    build, send and dispose in `log`, and tracks the set of `live` data
    handles. It refuses to dispose a handle that is not live. So every method
    that verifies against it disposes each handle at most once, and each
    method's `live` postcondition shows that nothing leaks.
- `Encoding` (`encoding.dfy`): strict UTF-16LE (RFC 2781, section 2.2) and
  strict 7-bit ASCII. These are the two decoders the library takes from the
  `encoding` crate.
- `EventFormats` (`event_formats.dfy`, the textual half of `src/events.rs`):
  - the error values and `EventBuildError`'s message;
  - `CString::new`;
  - the getter, setter, command and descriptor format strings.
  - A placeholder counter, `Takes(s, n)`, states that format `s` consumes
    exactly `n` arguments: an `@` counts only outside a single-quoted code.
- `Events` (`events.dfy`, the transport half of `src/events.rs`):
  - property descriptors, and the getter round trip;
  - the per-type read rules and `to_desc`;
  - property readers and writers;
  - `get_property`, `set_property` and sub-object reads;
  - the three arms of `call!`.
- `Spotify` (`spotify.dfy`, for `src/spotify.rs`):
  - the player `State` enumeration and its codes;
  - the application's identity;
  - the commands, `play_track`, the settings and the current track;
  - the rewrite of a track's `spotify:track:` URI into a web link.

Every state-changing method states three things:
- its result, as a function of the transport's answers;
- the exact list of calls it appends to the transport's log;
- its new set of live handles.

Lemmas beside them prove the grammar and decoding facts: placeholder counts,
round trips, and the outcome of each reply tag.

## Model

| member | source | states |
|---|---|---|
| Sys.BigEndianRoundTrip | src/sys.rs:23-30 | a 32-bit code spelled as four bytes and read back is the same code |
| Sys.FromBigEndianRoundTrip | src/sys.rs:66-70 | four bytes read as a code and spelled again are the same bytes |
| Sys.ResType.New | src/sys.rs:23-30 | `ResType::new(v).to_u32() == v` |
| Sys.ResType.ToString | src/sys.rs:32-34 | a code renders as exactly four characters, the bytes of the code, most significant first |
| Sys.ResType.Display | src/sys.rs:41-45 | the display form is six characters: the four-character spelling between single quotes |
| Sys.FourCC | src/sys.rs:66-70 | the code written by `res_type!` spells back as the literal it was written from |
| Sys.FourCCOfToString | src/sys.rs:32-34 | every code's spelling is a valid literal, and it denotes that same code |
| Sys.DisplayInjective | src/sys.rs:41-45 | two codes display alike exactly when they are equal, so a format string names its code unambiguously |
| Sys.DefaultResType | src/sys.rs:204-208 | the default code is code 0, and it is null |
| Sys.Spellings | src/sys.rs:99-125 | each numeric tag constant is the code of its four-letter literal ('core', 'getd', 'setd', '----', 'bund', 'null', …, 'type') |
| Sys.CodesDistinct | src/sys.rs:114-125 | the aliases `typeFloat`/`typeLongFloat`, `typeSMInt`/`typeShortInteger`, `typeInteger`/`typeLongInteger` and `typeComp` equal their base tags; 'null' is not the zero code and differs from every scalar tag; 'utxt', 'vers' and 'TEXT' are pairwise distinct |
| Sys.SendModes | src/events.rs:417 | the send modes are 0x11 for commands (kAENoReply or kAENeverInteract) and 0x13 for getters (kAEWaitReply or kAENeverInteract) |
| Sys.DefaultBuildError | src/sys.rs:236-243 | the default build error has code 0 and position 0 |
| Sys.NullnessIgnoresHandle | src/sys.rs:79-81 | a descriptor is null exactly when its type is the zero code or 'null', and its data handle never changes that |
| Sys.AEDesc.Default | src/sys.rs:210-217 | the default descriptor has type 'null' and a null handle |
| Sys.AEDesc.Drop | src/sys.rs:195-202 | a non-null handle is disposed exactly once and then cleared; a second drop, or the drop of a null handle, makes no call and changes nothing |
| Sys.DescFormatType | src/events.rs:25 | the descriptor type AEBuild reads from a `'<code>'(@)` format is the quoted code |
| Sys.Transport.constructor | src/sys.rs:147-193 | a fresh stand-in transport has an empty log, no live handles, and the scripted descriptor-build answers and replies queued |
| Sys.Transport.AEBuildAppleEvent | src/sys.rs:149-161 | logs the build; on status 0 it allocates the event's handle, otherwise it returns the scripted build error and allocates nothing |
| Sys.Transport.AEBuildDesc | src/sys.rs:190 | logs the build and consumes the next scripted answer; on status 0 it allocates a descriptor of the format's type, otherwise it returns that answer's build error and allocates nothing |
| Sys.Transport.AESendMessage | src/sys.rs:163-168 | logs the send; when a reply is wanted and the send succeeds, it allocates the reply's handle and binds the next scripted reply to it; the descriptor-build script is left alone, and a waiting reply is taken only then |
| Sys.Transport.AESizeOfParam | src/sys.rs:169-174 | the direct parameter's type and size come from the reply; any other keyword is `errAEDescNotFound` |
| Sys.Transport.AEGetParamPtr | src/sys.rs:175-183 | writes at most `maximumSize` bytes of the reply's data and reports the full data size |
| Sys.Transport.AEGetParamDesc | src/sys.rs:184-189 | hands out a new owned descriptor of the reply's type, or the null descriptor for a 'null' reply |
| Sys.Transport.AEDisposeDesc | src/sys.rs:162 | only a live handle may be disposed; disposal logs it and removes it from the live set |
| Encoding.DecodeEncodeUtf16 | src/events.rs:599-604 | strict UTF-16LE decoding inverts the encoding `to_desc` sends, for every string |
| Encoding.EncodeDecodeUtf16 | src/events.rs:565-574 | every byte string the strict decoder accepts is exactly the encoding of what it decodes to |
| Encoding.OddLengthRejected | src/events.rs:571-574 | the strict UTF-16LE decoder rejects every odd-length buffer |
| Encoding.DecodeAsciiExactly | src/events.rs:578-587 | strict ASCII decoding succeeds exactly when every byte is below 0x80, and then maps byte i to character i |
| EventFormats.CStringNew | src/events.rs:279-281 | `CString::new` fails, with the interior-NUL error, exactly when the text holds a NUL byte, and otherwise keeps the text unchanged |
| EventFormats.EventBuildError.New | src/events.rs:228-249 | a build failure becomes an InvalidInput `EventBuildError` whose `code()` is `fError` and whose `position()` and `pos()` are `fErrorPos` |
| EventFormats.DecimalRoundTrip | src/events.rs:258-266 | the decimal rendering of a number reads back as that number |
| EventFormats.MessageAfterPrefix | src/events.rs:258-266 | after "Error ", the message is the code in decimal, " occurred while building event at position ", then the position in decimal |
| EventFormats.BuildErrorMessageDeterminesError | src/events.rs:258-266 | two build errors have the same message exactly when they have the same code and position |
| EventFormats.PropertyGetterFormat | src/events.rs:269-282 | the getter query fails, with InvalidInput, exactly when the property code holds a NUL byte; otherwise, for a code without quotes, it takes no argument for a null target and one for any other |
| EventFormats.PropertySetterFormat | src/events.rs:284-297 | the setter query fails exactly when the code holds a NUL byte; otherwise, for a code without quotes, it takes one argument more than the getter: 1 for a null target, 2 otherwise |
| EventFormats.FromFacts | src/events.rs:273-277 | `from:'null'()` takes no argument and `from:@` takes one; neither holds a NUL byte |
| EventFormats.GetterFacts | src/events.rs:269-282 | the getter text holds a NUL byte exactly when the property code does, and it takes 0 or 1 arguments by target |
| EventFormats.SetterFacts | src/events.rs:284-297 | the setter text is the getter text after `data:@, `: NUL exactly when the code has one, and 1 or 2 arguments by target |
| EventFormats.QueryConstantsTake | src/events.rs:47-90 | the zero-argument command query takes no argument and the one-argument query takes exactly one |
| EventFormats.PlaceholderFacts | src/events.rs:134 | a named placeholder `'<key>':@` takes one argument, and it holds a NUL byte exactly when the key does |
| EventFormats.JoinFacts | src/events.rs:134 | joining the direct placeholder and one placeholder per key with ", " takes 1 + N arguments |
| EventFormats.JoinNulFacts | src/events.rs:134 | the joined query holds a NUL byte exactly when its first part or some key does |
| EventFormats.NamedParameterQueryFacts | src/events.rs:134 | the N-key command query fails exactly when some key holds a NUL byte, and otherwise takes 1 + N arguments |
| EventFormats.DescTextFacts | src/events.rs:21-38 | the `build_desc!` format `'<tag>'(@)` takes one argument, holds a NUL byte exactly when the tag does, and builds a descriptor of that tag |
| Events.TagsDistinct | src/events.rs:561-740 | the seven value tags ('utxt', 'bool', 'doub', 'shor', 'long', 'comp', 'enum') are pairwise distinct, none of them is 'null' (text included), and all are safe to quote |
| Events.LittleEndianRoundTrip | src/events.rs:614-618 | a value stored little-endian in its buffer width reads back unchanged |
| Events.NativeRoundTrip | src/events.rs:607-740 | every in-range scalar stored in its native buffer decodes back to itself |
| Events.Fetch | src/events.rs:411-429 | the getter round trip succeeds exactly when build and send both return 0; a build failure gives `EventBuildError` (and no send), a send failure gives the raw OS status |
| Events.Copied | src/sys.rs:175-183 | the bytes that reach a buffer never exceed the buffer's capacity or the reply's data |
| Events.ScalarRead | src/events.rs:607-735 | a scalar or enum read succeeds exactly when the round trip and size query succeed and the reply is 'null', or is of the kind's own type and its read succeeds; a value it yields is of the kind's own type |
| Events.StringRead | src/events.rs:561-597 | a String read never answers `None`; it succeeds only on a 'utxt', 'vers' or 'TEXT' reply whose size query and read succeed, and then yields text |
| Events.ReadOutcome | src/events.rs:561-735 | a value read as kind k is of kind k, and a String read never answers `Ok(None)` |
| Events.ScalarAnswerReadBack | src/events.rs:607-735 | a reply of the codec's own tag that carries a value's native bytes reads back as `Ok(Some(value))` |
| Events.StringAnswerReadBack | src/events.rs:561-577 | a 'utxt' reply that carries a string's UTF-16LE encoding reads back as that string |
| Events.NullAnswer | src/events.rs:561-735 | every 'null' reply, whatever its size and data, reads as `Ok(None)` for every scalar and enum kind, and as the mismatch "Value cannot be read as String" for text |
| Events.ScalarMismatchExactly | src/events.rs:607-735 | a scalar read fails with exactly "Value cannot be read as <type>" (bool, f64, i16, i32, i64, enum) exactly when the reply's tag is neither 'null' nor the kind's own |
| Events.StringMismatchExactly | src/events.rs:561-597 | a String read fails with exactly "Value cannot be read as String" exactly when the reply's tag is not 'utxt', 'vers' or 'TEXT' |
| Events.ReadErrorsPropagate | src/events.rs:561-735 | a read passes on unchanged the round trip's error, the size query's OS status, and the OS status of a failed read of an accepted tag |
| Events.ScalarStoreAsWritten | src/events.rs:694-699 | as written, a scalar read may copy as many bytes as the reply declares, whatever the width of the scalar buffer |
| Events.ScalarStoreOverruns | src/events.rs:694-699 | a 'long' reply carrying 8 bytes makes the as-written read store more than the 4 bytes of an `i32`; a read bounded by the width stays inside |
| Events.StringLengthAsWritten | src/events.rs:566-570 | as written, the String buffer's length is the declared size, which is at least what was copied |
| Events.StringLengthOverrunsStored | src/events.rs:565-570 | a 'vers' reply declared as 12 bytes but coerced to 8 makes the as-written length cover 4 bytes that were never written |
| Events.EventPropertyReader.New | src/events.rs:433-445 | forming a reader fails with `InteriorNul` exactly when the property code holds a NUL byte; otherwise its query is the getter text for the target |
| Events.ReaderQueryMatchesParams | src/events.rs:376-408 | the getter query takes exactly as many arguments as the getter event passes: none for a null target, the target otherwise |
| Events.ComposeAndReadGetterEvent | src/events.rs:376-430 | builds, then sends with a wanted reply only if the build succeeded; on success returns the fresh reply bound to the next scripted answer; a built event is always disposed, and only a returned reply stays live; the next waiting reply is taken exactly when the event was built and sent |
| Events.NewPropertyDescriptor | src/events.rs:307-322 | reads the direct parameter's type and size from the reply, or returns the OS status and drops the reply event |
| Events.ReadParam | src/events.rs:332-365 | on status 0 the descriptor is returned and the buffer receives the reply's bytes up to its capacity; otherwise the OS error and an emptied descriptor |
| Events.PropertyDescriptorOf | src/events.rs:447-449 | each call performs its own build and send; a size failure disposes the reply; a success hands the live reply to the descriptor |
| Events.ReadScalar | src/events.rs:607-735 | a scalar or enum read returns the tag-dispatch outcome of the fetched reply, makes exactly one round trip and leaves no handle live |
| Events.ReadString | src/events.rs:561-597 | a String read returns the tag-dispatch outcome ('utxt'/'vers' as UTF-16LE, 'TEXT' as ASCII, anything else an error), with one round trip and no handle left live |
| Events.ReadProperty | src/events.rs:768-771 | a read of any kind agrees with `ReadOutcome` of the fetched reply, and leaves the live set unchanged |
| Events.Descriptor | src/events.rs:451-462 | returns the reply's direct parameter as a fresh descriptor that the caller owns (the only handle left live), or the fetch or OS error with nothing left live |
| Events.ReadSubObject | src/events.rs:808-816 | a sub-object read always answers `Some`, carrying the reader's signature and bundle id and the descriptor of the reply, whose handle is the only one added to the live set |
| Events.Args | src/events.rs:599-740 | a string is sent as its UTF-16LE bytes preceded by their byte count; every other value as one data argument, an `i16` widened to an unsigned 32-bit argument |
| Events.ArgsRoundTrip | src/events.rs:599-740 | the data arguments `to_desc` passes for a value determine that value |
| Events.ConversionError | src/events.rs:549-555 | `to_desc` fails by panicking exactly for an enumeration, whose `to_desc` is the unimplemented default reached through the blanket implementation of lines 768-772; any other value fails with its build error |
| Events.ToDesc | src/events.rs:549-740 | an enumeration panics with "not implemented" before any transport call; any other value builds one descriptor of its tag from its data arguments, consuming one scripted answer: on success the caller owns a fresh handle, on failure the answer's build error is returned and nothing is allocated |
| Events.ToDescValue | src/events.rs:21-42 | the same as `ToDesc`, stated on the descriptor's value |
| Events.EventPropertyWriter.New | src/events.rs:481-494 | forming a writer fails with `InteriorNul` exactly when the property code holds a NUL byte; otherwise its query is the setter text |
| Events.WriterQueryMatchesParams | src/events.rs:501-530 | the setter query takes exactly as many arguments as the setter event passes: the value, then the target unless it is null |
| Events.SendOutcome | src/events.rs:533-545 | a write or command succeeds exactly when build and send both return 0 |
| Events.Write | src/events.rs:496-546 | builds the setter event, sends it with `kAENoReply` only if it was built, then disposes the event and the value's descriptor |
| Events.GetProperty | src/events.rs:793-800 | a NUL in the property code fails before any transport call; otherwise the read outcome of one getter round trip; no descriptor build is scripted away, and the next waiting reply is taken exactly when the event was built and sent |
| Events.GetSubObject | src/events.rs:805-816 | a NUL in the property code fails before any transport call; otherwise `Some` sub-object holding the caller-owned reply descriptor, whose handle is the only one added to the live set; no descriptor build is scripted away, and the next waiting reply is taken exactly when the event was built and sent |
| Events.SetProperty | src/events.rs:781-791 | the writer is formed first, then the value's descriptor (an enumeration panics there), then the setter event; a failure at any step stops the later ones; the value's descriptor is disposed last; one descriptor-build answer is used unless the code holds a NUL or the value is an enumeration; no waiting reply is taken |
| Events.BuildCommand | src/events.rs:141-158 | the build statement of a `call!`: the event is built from the given descriptors, which are then disposed last first, before any send; a failed build allocates nothing and returns the scripted build error |
| Events.SendCommand | src/events.rs:141-177 | builds the command event from the given descriptors and disposes them last first; only if the event was built is it sent with no reply and then disposed |
| Events.Call0 | src/events.rs:46-87 | the zero-argument command passes no descriptor, and its outcome is the build and send status; neither queue of scripted answers is touched |
| Events.Call1 | src/events.rs:89-131 | the one-argument command builds the value's descriptor first; if that fails (a panic for an enumeration, the build error otherwise) nothing else happens, otherwise one descriptor is passed and disposed; one descriptor-build answer is used unless the value is an enumeration; no waiting reply is taken |
| Events.Keys | src/events.rs:134 | the keys of the named parameters, in declaration order |
| Events.Arguments | src/events.rs:153-156 | the direct parameter first, then the named values in declaration order |
| Events.DropInReverse | src/events.rs:153-158 | temporaries are disposed last first, each exactly once |
| Events.FirstFailure | src/events.rs:153-156 | the index where converting the arguments stops: every value before it converts under its scripted answer, and the value at it does not |
| Events.LaterFailure | src/events.rs:153-156 | a failure after earlier successes is possible: with no enumeration among the values, conversion stops at the first failing answer, with that answer's build error |
| Events.DropConverted | src/events.rs:153-156 | when a `to_desc` fails, the descriptors made before it are disposed last first and the live set is what it was before the first |
| Events.ConvertNext | src/events.rs:153-156 | one argument's `to_desc`: on success one more consecutive handle is held; on failure the first failure is at this value and the earlier descriptors are released, last first |
| Events.ToDescs | src/events.rs:153-156 | converts the values in order into consecutive fresh handles; if the value at index k fails, the k descriptors already made are disposed last first, the error is that value's, and the live set is unchanged |
| Events.SendValues | src/events.rs:133-178 | a command over converted values: on a failure at index k, the builds up to k then the disposal of the first k descriptors; otherwise every descriptor build, then the command; the live set ends as it began; one descriptor-build answer per value up to and including a failing build; no waiting reply is taken |
| Events.CallN | src/events.rs:133-178 | the N-key command forms its query before any transport call, then converts the 1 + N values in declaration order; a failure at any of them releases the earlier ones; otherwise it passes 1 + N descriptors, matching the query's 1 + N placeholders; one descriptor-build answer per value up to and including a failing build; no waiting reply is taken |
| Spotify.FromInt | src/spotify.rs:23-30 | `from_int` accepts exactly the three state codes and inverts `into` on them; any other code panics with "Invalid enum value" |
| Spotify.StateRoundTrip | src/spotify.rs:8-31 | `from_int(into(s)) == s` for every state, and the three codes are distinct |
| Spotify.ToResType | src/events.rs:192-194 | a state's code as a `ResType` carries the state's integer |
| Spotify.ResTypeRoundTrip | src/events.rs:184-194 | `from_res_type` inverts `to_res_type`, and a code it accepts is the code of the state it gives |
| Spotify.IdentitySpellings | src/spotify.rs:43-52 | the signature and event codes are 'spfy', 'PlPs', 'Play', 'Paus', 'Next', 'Prev', 'PCtx', and the context key is 'cotx' |
| Spotify.ContextKeyword | src/spotify.rs:52 | 'cotx' holds no NUL byte and no quote, so it can be named in a query |
| Spotify.SettingCodeWritable | src/spotify.rs:55-58 | the setting codes 'pShu', 'pRep', 'pPos' and 'pVol' are safe in a query |
| Spotify.FieldCodeWritable | src/spotify.rs:60-73 | every track field code is safe in a query |
| Spotify.PlayerCodesWritable | src/spotify.rs:54-59 | the state and track property codes 'pPlS' and 'pTrk' are safe in a query |
| Spotify.New | src/spotify.rs:204-209 | the application object has signature 'spfy', bundle id "com.spotify.client" and a fresh default (null) target |
| Spotify.ApplicationEvents | src/spotify.rs:190-209 | the application's getters use `from:'null'()`, take no argument and pass none; its setters pass only the value |
| Spotify.EventIDsDistinct | src/spotify.rs:45-50 | the five command codes are distinct, and none is the play-track code |
| Spotify.Perform | src/spotify.rs:211-233 | each command is the zero-argument `call!` with its own event code; neither queue of scripted answers is touched |
| Spotify.ContextQuery | src/spotify.rs:285 | the play-track query with a context is `'----':@, 'cotx':@`, which takes exactly two arguments |
| Spotify.ContextQueryJoined | src/spotify.rs:285 | the direct placeholder joined with the 'cotx' placeholder spells that query |
| Spotify.TwoConversions | src/spotify.rs:285 | converting a track and a context stops at the track when its build fails, at the context when only the context's fails, and a failure at the context leaves both builds and the track's disposal in the log |
| Spotify.PlayTrackInContext | src/spotify.rs:284-285 | with a context, the track's and the context's descriptors are built in that order and passed to the two-placeholder query; if the context's build fails, the track's descriptor is disposed and that build error returned; it uses one descriptor-build answer if the track's build fails and two otherwise; no waiting reply is taken |
| Spotify.PlayTrack | src/spotify.rs:283-289 | without a context, `play_track` uses the one-argument command; with one, the two-argument command keyed 'cotx', with either descriptor build able to fail; it uses one descriptor-build answer, or two when a context follows a successful track build; no waiting reply is taken |
| Spotify.StateOf | src/spotify.rs:235-237 | the state read passes errors and `None` through; a code yields the state whose code it is, and any other code panics with "Invalid enum value" |
| Spotify.StateReadBack | src/events.rs:196-208 | an 'enum' reply carrying a state's code reads as that state; one carrying any other code panics |
| Spotify.GetState | src/spotify.rs:235-237 | `state()` reads 'pPlS' as an enum and maps the code through `from_int`; no descriptor build is scripted away, and the next waiting reply is taken exactly when the event was built and sent |
| Spotify.GetSetting | src/spotify.rs:239-273 | each setting getter reads its own code and yields a value of its own type (bool, f64 or i32); no descriptor build is scripted away, and the next waiting reply is taken exactly when the event was built and sent |
| Spotify.ChangeSetting | src/spotify.rs:243-277 | each setting setter writes a value of its own type under its own code; a failed descriptor build stops it with that build error; it uses exactly one descriptor-build answer; no waiting reply is taken |
| Spotify.Track | src/spotify.rs:279-281 | `track()` always answers `Some` track on success, holding the reply's descriptor and the application's identity; the track's handle is the only one added to the live set; no descriptor build is scripted away, and the next waiting reply is taken exactly when the event was built and sent |
| Spotify.GetField | src/spotify.rs:82-143 | each track getter is a fresh round trip on the track object and yields a value of its field's type; no descriptor build is scripted away, and the next waiting reply is taken exactly when the event was built and sent |
| Spotify.ByteSuffix | src/spotify.rs:130 | slicing from byte n either panics or yields a suffix no longer than the string |
| Spotify.ByteSuffixAtBoundary | src/spotify.rs:130 | slicing at the UTF-8 length of a prefix yields exactly the rest of the string |
| Spotify.ByteSuffixOnlyAtBoundary | src/spotify.rs:130 | slicing succeeds only at the UTF-8 length of some prefix, and then yields the rest after that prefix |
| Spotify.AsciiUtf8Length | src/spotify.rs:130 | an ASCII string's UTF-8 length is its character count |
| Spotify.UrlOf | src/spotify.rs:126-135 | no URI gives `Ok(None)`; a URI never gives `Ok(None)`, and fails only by panicking |
| Spotify.UrlOfTrackUri | src/spotify.rs:126-135 | `spotify:track:<id>` becomes `https://open.spotify.com/track/<id>` |
| Spotify.UrlOfExactly | src/spotify.rs:126-135 | `url()` succeeds exactly when the URI has a prefix of 14 UTF-8 bytes, and then replaces that prefix with the web-link prefix |
| Spotify.UrlOutcomeFacts | src/spotify.rs:126-135 | since a String read never answers `Ok(None)`, `url()` never does; a 'utxt' reply with a track URI gives its link |
| Spotify.Url | src/spotify.rs:126-135 | `url()` makes one round trip for 'spur' on the track and rewrites the answer; no descriptor build is scripted away, and the next waiting reply is taken exactly when the event was built and sent |

## Left out

- The Apple Event Manager itself (`src/sys.rs:147-193`) is foreign code. `Sys.Transport` stands in for it:
  - it returns per-scenario status codes, build errors and replies;
  - its postconditions are the behaviour the library relies on, not a model of the framework;
  - timeouts, delivery and interaction semantics of the send modes are not modelled;
  - only the flags each path passes are recorded.
- The statuses of building and sending an event are constant for one transport; only descriptor builds and replies are scripted per call. Once the script of descriptor-build answers is used up, every later build succeeds.
- `AEGetParamPtr` outputs on failure: the transport reports the default type and size 0. The framework's real outputs on failure are not modelled.
- `Debug` for `ResType` and `AEDesc` (`src/sys.rs:59-63`, `src/sys.rs:221-234`), `AEPrintDescToHandle` and `DisposeHandle` are left out. They are formatting through foreign calls.
- The query `CString`s leaked through `into_raw` (`src/events.rs:443`, `src/events.rs:492`) are left out. They are a leak of process memory, not behaviour.
- The `four_char_code` crate is not part of this model. Its rendering is modelled as one character per byte, most significant byte first.
- f64 values are carried as their 64 bits. Floating-point semantics are not modelled.
- The reinterpretation of raw buffers is modelled as little-endian bytes of the buffer's width.
- The C-varargs widening of `bool`/`i16` to `c_uint` is modelled as an unsigned data argument.
- `EventEnum::to_desc` (`src/events.rs:217-219`) is unreachable from the core: `State` implements `AutoPropertyType::to_desc` with it (`src/spotify.rs:38-40`), but `set_property` and `call!` reach `EventPropertyType::to_desc`, and the blanket implementation for `AutoPropertyType` types (`src/events.rs:768-772`) forwards only `read`. `Events.Args` keeps its arguments for the enumeration case, but `Events.ToDesc` panics instead of using them.
- A Rust panic is modelled as an `Err(Panic(..))` result that returns through the callers. Unwinding drops the same temporaries as the `?` path, last first, so the log and the live set are the same.
- The typed getters and setters return a `Value` of the stated kind rather than a Rust type. `Spotify.GetSetting`, `Spotify.GetField` and `Spotify.ChangeSetting` state the kind in their contracts.
- The aliases `prev`, `pos` and `set_pos` are the same operations as `previous`, `position` and `set_position`.
- The thin per-field getters and setters of `SpotifyTrack` and `Spotify` are modelled through `Spotify.GetField`, `Spotify.GetSetting` and `Spotify.ChangeSetting`, indexed by field or setting.
- `src/lib.rs` holds only module declarations and is not part of this model.
- Spotify.ByteSuffix: the panic messages are abbreviated to "byte index out of bounds" and "byte index is not a char boundary". The standard library's messages also quote the index and the string.

## Findings

For each row, the rest of the model uses the corrected read: `Events.ScalarRead` copies at most the scalar's width, and `Events.StringRead` decodes exactly the bytes that were copied.

| source | as written | input that shows it | evidently intended | confidence | as-written member | corrected member |
|---|---|---|---|---|---|---|
| src/events.rs:694-699 | scalar and enum reads pass `descriptor.size()`, the size the reply declares, as the maximum number of bytes to write into a fixed-width scalar buffer (the same in the bool, f64, i16, i64 and enum reads) | a 'long' reply whose data is 8 bytes: up to 8 bytes are written into a 4-byte `i32` | pass the buffer's own width (`size_of` the scalar) | not executed | Events.ScalarStoreOverruns | Events.ScalarAnswerReadBack |
| src/events.rs:565-570 | the String read sets the buffer's length to `desc.size()`, the declared size before coercion to 'utxt', not the number of bytes actually written | a 'vers' reply declared as 12 bytes that coerces to 8 bytes of UTF-16LE: the length covers 4 uninitialised bytes | set the length to the size actually written | not executed | Events.StringLengthOverrunsStored | Events.StringAnswerReadBack |
