# worker-dom offscreen canvas polyfill calls, in Dafny

worker-dom runs a page's code in a Web Worker. A worker has no real canvas,
so drawing calls go to a 2D-context polyfill instead. Each setter or method
call on the polyfill becomes one flat record of numbers. The record is
appended to the outgoing mutation transfer. On the main thread the
offscreen-polyfill processor reads the record back and replays it on the real
context. This project models the three pieces of that protocol and proves
that they agree.

- `wire.dfy` (module `Wire`) holds the shared wire format:
  - the 16-bit words of the `Uint16Array`;
  - the argument tags;
  - the record layout `[OFFSCREEN_POLYFILL, canvas index, argument count, method id, setter flag, ...arguments]`;
  - the errors either side can raise.
- `strings.dfy` (module `Strings`) is the string table. The worker's `store`
  is an append-only interning list, wrapped in a `StringTable` class. The
  main thread's `Strings.get` is `Lookup` on the same list.
- `global_id.dfy` (module `GlobalId`) covers the argument codec:
  - `isSmallInt`;
  - `serialize`, as a loop that pushes words (`Serialize`, with one turn in `SerializeArg`);
  - the function `Encode` that specifies `serialize`;
  - `Deserialize`, the main-thread reader, defined from the same encoding;
  - the round trip between the two.
- `canvas_polyfill.dfy` (module `CanvasPolyfill`) is the worker side:
  - `OffscreenCanvasPolyfill.getContext`;
  - the context polyfill's `postToMainThread`;
  - the forwarding methods, the no-argument methods and the property setters;
  - `setLineDash` / `getLineDash`;
  - the `clip` / `fill` / `setTransform` guards;
  - the stubbed methods.
  The outgoing transfer is the owning document's `pending` list of records.
- `polyfill_calls.dfy` (module `PolyfillCalls`) is the main-thread processor.
  `Execute` appends one event to the real context's log: an assignment or an
  invocation. `Print` builds the descriptor and changes nothing. Both rest on
  the shared decode `DecodeCall`.
- `protocol.dfy` (module `Protocol`) connects the two sides. `PostCalls` makes
  a run of calls on one context, and the rest is stated about what it emits:
  - a record emitted by the worker decodes, wherever it sits in the main
    thread's buffer, to the call as sent;
  - the decode ends exactly after the record;
  - a whole transfer of records replays, in order, to the calls' events and
    consumes every word;
  - the same holds for a run whose caller catches each `CannotSerialize` and
    carries on: only the calls that did not throw are replayed, and the
    strings the thrown calls stored shift the later ids alike on both sides.

A JS number is a `real`. The float32 conversion is a parameter, `Float32Codec`.
It has two parts:
- `split`: the two 16-bit lanes that alias the `Float32Array`;
- `join`: the number rebuilt from those lanes.

A float therefore comes back as `Rounded(c, x)`. Nothing is assumed about IEEE
rounding or byte order. The values of the tags, of the mutation type and of the
header offsets are symbolic constants. The offsets are fixed by the order in
which `postToMainThread` writes its header.

The main thread's `deserialize` is not part of this model. `Deserialize` is
defined from the encoding that `serialize` produces.

## Model

| member | source | states |
|---|---|---|
| `GlobalId.IsSmallInt` | src/worker-thread/global-id.ts:23-28 | a number survives the 16-bit lane unchanged exactly when it is an integer in [0, 65535] |
| `GlobalId.Encode` | src/worker-thread/global-id.ts:38-67 | the serializer succeeds exactly when every argument is a number or a string; otherwise it fails with `CannotSerialize` and gives no output; an empty list gives no words |
| `GlobalId.SerializeArg` | src/worker-thread/global-id.ts:44-63 | one loop turn: a small integer pushes `[SMALL_INT, n]`, any other number `[FLOAT, w0, w1]` from the float32 lanes, a string `[STRING, id]` after storing it; anything else (booleans, arrays, objects) throws; only a string changes the table |
| `GlobalId.Serialize` | src/worker-thread/global-id.ts:38-67 | the loop returns `Encode(args, table)`: each argument's words in order, or the throw; the table ends as `TableAfter`, with every string before the first unsupported argument stored |
| `GlobalId.TableAfter` | src/worker-thread/global-id.ts:54-56 | serializing only ever extends the string table |
| `GlobalId.EncodeArg` | src/worker-thread/global-id.ts:44-57 | one argument's words open with one of the three tags; the tag tells which case produced them (small integer, other number, string), and the tag alone gives their number (3 for a float, else 2) |
| `GlobalId.EncodeLength` | src/worker-thread/global-id.ts:39-66 | the output length is the sum of the per-argument widths, so between 2 and 3 words per argument |
| `GlobalId.EncodeFits` | src/worker-thread/global-id.ts:44-57 | while the table holds at most 65536 strings, every serialized word already fits a 16-bit lane, so the Uint16Array copy of the output is the output itself |
| `GlobalId.EncodeHead` | src/worker-thread/global-id.ts:41-64 | the output is the first argument's words before the rest's; an unsupported first argument throws and leaves the table unchanged |
| `GlobalId.DecodeOne` | src/worker-thread/global-id.ts:44-57 | a successful read of one argument advances by exactly the width its tag announces |
| `GlobalId.Deserialize` | src/worker-thread/global-id.ts:38-67 | a successful read of `count` arguments gives `count` values and an end offset no earlier than the start, inside the buffer whenever an argument is read |
| `GlobalId.DecodeOneEncoded` | src/worker-thread/global-id.ts:44-57 | one argument's words read back, wherever they sit, to the number (a float at single precision) or the stored string, and the reader stops right after them |
| `GlobalId.DecodeFirst` | src/worker-thread/global-id.ts:41-57 | the first argument of a held encoding reads back, and the rest of the encoding is held right after it |
| `GlobalId.DeserializeEncoded` | src/worker-thread/global-id.ts:38-67 | round trip: reading back what `serialize(args)` produced yields every argument in order and ends exactly after the last word |
| `GlobalId.TransferredExact` | src/worker-thread/global-id.ts:47-50 | when every non-small number is exactly a float32, the round trip gives back the arguments themselves |
| `Strings.Intern` | src/worker-thread/global-id.ts:55 | `store` keeps every earlier entry, holds the string afterwards, and adds at most one entry |
| `Strings.IndexOf` | src/worker-thread/global-id.ts:55 | the id `store` hands out for a stored string is a position in the table that holds that string |
| `Strings.Lookup` | src/main-thread/commands/offscreen-polyfill-calls.ts:11 | `Strings.get` answers a string exactly for the ids inside the table, and that string is the one stored at the id |
| `Strings.IndexOfDistinct` | src/worker-thread/global-id.ts:55 | in a table without repeats, the string at position i has id i |
| `Strings.IndexOfStable` | src/worker-thread/global-id.ts:55 | ids never change meaning as the table grows |
| `Strings.StoreThenLookup` | src/main-thread/commands/offscreen-polyfill-calls.ts:11 | the main thread's lookup of a stored id, in any later copy of the table, gives back the stored string |
| `Strings.StoreIdempotent` | src/worker-thread/global-id.ts:55 | storing the same string twice gives the same id and does not grow the table |
| `Strings.StringTable.Store` | src/worker-thread/global-id.ts:55 | `store` keeps the table free of repeats and returns the string's id in the interned list |
| `Wire.Record` | src/worker-thread/canvas/OffscreenCanvasPolyfill.ts:50-57 | the record layout: the type, canvas index, argument count, method id and setter flag at their fixed offsets, then the argument words |
| `Wire.RecordHeld` | src/main-thread/commands/offscreen-polyfill-calls.ts:10-14 | a record copied into the buffer reads back at the fixed header offsets, with the arguments from offset `ARGS` |
| `CanvasPolyfill.NormalisedDash` | src/worker-thread/canvas/OffscreenCanvasPolyfill.ts:237-240 | an even-length dash list is kept as is, and an odd-length one becomes the list followed by itself; the result always has even length |
| `CanvasPolyfill.PostLayout` | src/worker-thread/canvas/OffscreenCanvasPolyfill.ts:49-58 | a call with serializable arguments emits a record with the type, canvas index, LOGICAL argument count and setter flag; its method id looks up to the name; it carries 2 to 3 words per argument |
| `CanvasPolyfill.PostRecord` | src/worker-thread/canvas/OffscreenCanvasPolyfill.ts:49-58 | the record a call emits exists exactly when every argument is a number or a string; otherwise the call throws `CannotSerialize` |
| `CanvasPolyfill.BooleanArgumentThrows` | src/worker-thread/canvas/OffscreenCanvasPolyfill.ts:232-234 | any call with a boolean argument, e.g. the `imageSmoothingEnabled` setter, throws and emits nothing |
| `CanvasPolyfill.Context2DPolyfill.constructor` | src/worker-thread/canvas/OffscreenCanvasPolyfill.ts:44-47 | a new context starts with an empty dash shadow |
| `CanvasPolyfill.OffscreenCanvasPolyfill.constructor` | src/worker-thread/canvas/OffscreenCanvasPolyfill.ts:24-26 | a new polyfill holds the canvas it was given and has no context yet, so its first `GetContext` decides whether one is created |
| `CanvasPolyfill.Context2DPolyfill.PostToMainThread` | src/worker-thread/canvas/OffscreenCanvasPolyfill.ts:49-58 | the name is stored first, then the arguments' strings; exactly one record is appended to the transfer, or nothing and the throw |
| `CanvasPolyfill.Context2DPolyfill.Call` | src/worker-thread/canvas/OffscreenCanvasPolyfill.ts:64-230 | a forwarding method (the 17 from `clearRect` to `quadraticCurveTo`) posts its name, setter flag FALSE and the arguments as passed |
| `CanvasPolyfill.Context2DPolyfill.CallNoArgs` | src/worker-thread/canvas/OffscreenCanvasPolyfill.ts:92-170 | `closePath`, `stroke`, `restore`, `save`, `resetTransform` and `beginPath` always succeed and append one record with no arguments |
| `CanvasPolyfill.Context2DPolyfill.Set` | src/worker-thread/canvas/OffscreenCanvasPolyfill.ts:76-234 | a property setter (the 20 from `lineWidth` to `imageSmoothingEnabled`) posts its name, setter flag TRUE and its single value |
| `CanvasPolyfill.Context2DPolyfill.SetLineDash` | src/worker-thread/canvas/OffscreenCanvasPolyfill.ts:236-243 | the shadow becomes the normalised list, and that list is posted as the arguments; the shadow is set before posting, so it changes even if posting throws |
| `CanvasPolyfill.Context2DPolyfill.GetLineDash` | src/worker-thread/canvas/OffscreenCanvasPolyfill.ts:245-247 | returns the current shadow list and sends nothing |
| `CanvasPolyfill.Context2DPolyfill.CallGuarded` | src/worker-thread/canvas/OffscreenCanvasPolyfill.ts:249-269 | `clip`, `fill` and `setTransform` with an object first argument throw, leaving the table and the transfer untouched; otherwise they forward like any method |
| `CanvasPolyfill.Context2DPolyfill.CallStub` | src/worker-thread/canvas/OffscreenCanvasPolyfill.ts:273-307 | the read-returning stubs answer a placeholder, `true` for the point-in-path tests, or nothing, and emit no record |
| `CanvasPolyfill.OffscreenCanvasPolyfill.GetContext` | src/worker-thread/canvas/OffscreenCanvasPolyfill.ts:28-37 | the first call creates the context only for '2d' or '2D' and throws otherwise; once it exists, every later call returns the same context whatever the argument |
| `PolyfillCalls.Reshape` | src/main-thread/commands/offscreen-polyfill-calls.ts:17-19 | `setLineDash` gets its decoded arguments back as one list; every other method keeps them as they are |
| `PolyfillCalls.DecodeCall` | src/main-thread/commands/offscreen-polyfill-calls.ts:10-19 | a successful decode reads the argument count, the method name (through the table) and the setter flag (TRUE exactly) at the fixed offsets, yields `argCount` arguments (one list for `setLineDash`) and ends inside the buffer past the header |
| `PolyfillCalls.DecodeCallReads` | src/main-thread/commands/offscreen-polyfill-calls.ts:10-19 | the decode is determined by its parts: the header words, the stored name and the arguments that deserialize |
| `PolyfillCalls.Effect` | src/main-thread/commands/offscreen-polyfill-calls.ts:22-26 | a setter record assigns its first argument to the named property; any other record invokes the named method with all arguments |
| `PolyfillCalls.OffscreenPolyfillCallProcessor.Execute` | src/main-thread/commands/offscreen-polyfill-calls.ts:9-29 | a record that decodes adds exactly its effect to the context and returns the offset after it; one that does not decode changes nothing; the buffer is never written |
| `PolyfillCalls.OffscreenPolyfillCallProcessor.constructor` | src/main-thread/commands/offscreen-polyfill-calls.ts:7-8 | the processor reads names through the string table it was given, the one `Execute` and `Print` look ids up in |
| `PolyfillCalls.OffscreenPolyfillCallProcessor.Print` | src/main-thread/commands/offscreen-polyfill-calls.ts:30-51 | succeeds exactly when `Execute` would; the descriptor carries the same header fields, the same arguments and, as `End`, the offset `Execute` returns |
| `Protocol.RecordDecodes` | src/main-thread/commands/offscreen-polyfill-calls.ts:10-28 | a held record whose name is stored decodes to the logical count, the name, the setter flag and the arguments as sent, ending after its last word |
| `Protocol.PostThenDecode` | src/worker-thread/canvas/OffscreenCanvasPolyfill.ts:49-58 | the record `postToMainThread` emits decodes on the main thread, wherever it lands, to the call as made and ends exactly after the record |
| `Protocol.SetterAssigns` | src/main-thread/commands/offscreen-polyfill-calls.ts:22-23 | a property setter's record assigns exactly the value it was given |
| `Protocol.MethodInvokes` | src/main-thread/commands/offscreen-polyfill-calls.ts:24-25 | a forwarding method's record invokes that method once with all its arguments in order |
| `Protocol.TransferredAppend` | src/worker-thread/canvas/OffscreenCanvasPolyfill.ts:239 | sending a doubled list gives back the doubled values |
| `Protocol.DashReplayed` | src/worker-thread/canvas/OffscreenCanvasPolyfill.ts:236-243 | the `setLineDash` record's count is the normalised length, and the main context receives one list: the dash list if even, the list followed by itself if odd |
| `Protocol.CountWraps` | src/worker-thread/canvas/OffscreenCanvasPolyfill.ts:53 | a call with 65536 arguments is sent with a count that the 16-bit copy turns into 0: the main thread decodes a call without arguments and resumes inside the record, at its first argument word |
| `Protocol.Records` | src/worker-thread/canvas/OffscreenCanvasPolyfill.ts:49-58 | a run of successful calls appends one record per call |
| `Protocol.TableAfterCalls` | src/worker-thread/canvas/OffscreenCanvasPolyfill.ts:54 | a run of calls only ever extends the string table |
| `Protocol.RunRecords` | src/worker-thread/canvas/OffscreenCanvasPolyfill.ts:49-58 | the records a run appends, throw or not: each one comes from a call whose arguments are all supported, and the run stops at the first call that has an unsupported one |
| `Protocol.RunTable` | src/worker-thread/canvas/OffscreenCanvasPolyfill.ts:50-55 | the string table after a run, throw or not, only extends the table it started from; a call that throws has still stored its name and the strings before the unsupported argument |
| `Protocol.RunComplete` | src/worker-thread/canvas/OffscreenCanvasPolyfill.ts:49-58 | a run without a throw appends exactly `Records` and leaves the table at `TableAfterCalls` |
| `Protocol.PostCalls` | src/worker-thread/canvas/OffscreenCanvasPolyfill.ts:49-58 | successive `postToMainThread` calls on one context append `RunRecords` to the transfer and leave the table at `RunTable` on every path, including the throw; without a throw that is exactly `Records` and `TableAfterCalls` and the result is `Done`; the first unsupported argument stops the run with `CannotSerialize` |
| `Protocol.PostDecodes` | src/worker-thread/canvas/OffscreenCanvasPolyfill.ts:49-58 | the record emitted for a call decodes, at every position of every buffer that holds it, to the call as sent |
| `Protocol.RecordsDecode` | src/worker-thread/canvas/OffscreenCanvasPolyfill.ts:49-58 | every record of a run of calls decodes to its own call |
| `Protocol.Replay` | src/main-thread/commands/offscreen-polyfill-calls.ts:28 | the dispatch loop, continuing at the offset each `execute` returns: a successful replay applies at most one event per `ARGS` (5) words |
| `Protocol.ReplayStep` | src/main-thread/commands/offscreen-polyfill-calls.ts:28 | one dispatch step applies the record's effect and continues at the offset `execute` returned |
| `Protocol.ReplayRecords` | src/main-thread/commands/offscreen-polyfill-calls.ts:9-29 | consecutive records replayed from the first word apply their calls' effects in order and consume every word |
| `Protocol.ReplayTransfer` | src/main-thread/commands/offscreen-polyfill-calls.ts:9-29 | the whole transfer of a run of calls, once copied into 16-bit lanes, replays to exactly those calls' effects, in order |
| `Protocol.CaughtRecords` | src/worker-thread/canvas/OffscreenCanvasPolyfill.ts:49-58 | a run whose caller catches each throw and carries on appends at most one record per call, while the table grows along `TableAfterCalls` through the calls that threw |
| `Protocol.CaughtComplete` | src/worker-thread/canvas/OffscreenCanvasPolyfill.ts:49-58 | with no throw to catch, such a run appends exactly `Records` and is sent as `SentAll` |
| `Protocol.CaughtRecordsDecode` | src/worker-thread/canvas/OffscreenCanvasPolyfill.ts:49-58 | every record of a run with caught throws decodes to its own call, under ids shifted by the strings the thrown calls stored |
| `Protocol.ReplayCaught` | src/main-thread/commands/offscreen-polyfill-calls.ts:9-29 | the transfer of a run with caught throws replays to the effects of exactly the calls that did not throw, in order, consuming every word |

## Left out

- The IEEE-754 float32 conversion and the platform byte order behind the aliased `Float32Array` / `Uint16Array` are a parameter (`Float32Codec`). The model proves that floats come back as `join(split(x))`, and no more.
- NaN, the infinities and negative zero are not modelled: a JS number is a `real`.
- The transport (`transfer` and the mutation-transfer machinery) is modelled as appending to the document's `pending` list. The main-thread buffer is that list's words copied into 16-bit lanes (`ToWords`).
- The string table module (`store` / `Strings.get`) is not part of this model. It is an append-only interning list shared by both sides.
- The real canvas and dynamic property assignment or method invocation by name are replaced by an event log on `Context2D`.
- The numeric values of the tags, of the mutation type and of `NumericBoolean` are symbolic constants. The header offsets follow the producer's write order.
- The main-thread `deserialize` is defined from the encoding, not from its own source.
- A header read past the end of the buffer (the source reads `undefined`) is the error `Truncated`. An unknown tag or string id is also an error rather than a value.
- Records of other mutation types belong to other processors. The dispatch loop `Replay` stops with `UnsupportedMutation` on them.
- `Protocol.PostThenDecode`: requires fewer than 65536 arguments and at most 65536 stored strings. Beyond those limits the count and the ids wrap in the 16-bit lanes, and the round trip does not hold; `Protocol.CountWraps` shows what the main thread decodes for 65536 arguments.
- `Protocol.DashReplayed`: same limits, on the normalised dash list's length.
- `Protocol.ReplayTransfer` and `Protocol.ReplayCaught`: same limits on every call's argument count and on the final string table.
- `GlobalId.DeserializeEncoded`: requires at most 65536 stored strings, for the same reason.
- The `canvas` getter of the context polyfill (it only returns the element) is not modelled.
- Which method names are forwarding methods, no-argument methods, setters, guarded methods or stubs is encoded in the `Method`, `NoArgMethod`, `Property`, `GuardedMethod` and `StubMethod` datatypes.
- TypeScript generics, the declared parameter types and the `CanvasTypes` enums are not modelled. Any argument list can be passed, as in JS.
