// The two sides together: what the worker emits for a call is what the main
// thread replays, record by record, in order, with the cursor landing exactly
// on the next record each time.
module Protocol {
  import opened Wire
  import opened Strings
  import opened GlobalId
  import opened CanvasPolyfill
  import opened PolyfillCalls

  /** One call made on the worker's context: the name posted, the setter flag and the arguments. */
  datatype PolyfillCall = PolyfillCall(name: string, isSetter: Word, args: seq<Arg>)

  /** What the main thread should decode for a call the worker made (the end offset depends on where the record sits). */
  function Sent(call: PolyfillCall, c: Float32Codec): DecodedCall
    requires AllSerializable(call.args) && |call.args| < 0x1_0000
  {
    DecodedCall(|call.args|, call.name, call.isSetter == TRUE, Reshape(call.name, Transferred(call.args, c)), 0)
  }

  /** Every call of a run has serializable arguments. */
  predicate CallsSerializable(calls: seq<PolyfillCall>)
    decreases |calls|
  {
    calls != [] ==> AllSerializable(calls[0].args) && CallsSerializable(calls[1..])
  }

  /** Every call of a run passes fewer arguments than the count lane can hold. */
  predicate CountsFit(calls: seq<PolyfillCall>)
    decreases |calls|
  {
    calls != [] ==> |calls[0].args| < 0x1_0000 && CountsFit(calls[1..])
  }

  /** A record whose name is already stored in `t` decodes, header and arguments, to the call. */
  lemma {:induction false} RecordDecodes(t: seq<string>, index: nat, name: string, isSetter: Word, args: seq<Arg>,
                                         c: Float32Codec, buf: seq<Word>, pos: nat, names: seq<string>)
    requires AllSerializable(args) && |args| < 0x1_0000 && name in t
    requires |TableAfter(args, t)| <= 0x1_0000 && TableAfter(args, t) <= names
    requires HoldsAt(buf, pos, Record(index, |args|, IndexOf(t, name), isSetter, Encode(args, t, c).value))
    ensures pos < |buf| && buf[pos] == OFFSCREEN_POLYFILL
    ensures DecodeCall(buf, pos, names, c) ==
      Ok(DecodedCall(|args|, name, isSetter == TRUE, Reshape(name, Transferred(args, c)),
                     pos + ARGS + |Encode(args, t, c).value|))
  {
    var words := Encode(args, t, c).value;
    RecordHeld(buf, pos, index, |args|, IndexOf(t, name), isSetter, words);
    IndexOfStable(t, names, name);
    DeserializeEncoded(args, t, c, buf, pos + ARGS, names);
    DecodeCallReads(buf, pos, names, c, |args|, name, Transferred(args, c), pos + ARGS + |words|);
  }

  /**
   * One record, both sides: wherever the words of the record the worker
   * emitted for a call sit in the main thread's buffer, decoding there gives
   * the logical argument count, the name, the setter flag and the arguments
   * as sent, and ends exactly after the record.
   */
  lemma {:induction false} PostThenDecode(table: seq<string>, index: nat, name: string, isSetter: Word, args: seq<Arg>,
                                          c: Float32Codec, buf: seq<Word>, pos: nat, names: seq<string>)
    requires AllSerializable(args) && |args| < 0x1_0000
    requires |PostTable(table, name, args)| <= 0x1_0000 && PostTable(table, name, args) <= names
    requires HoldsAt(buf, pos, PostRecord(table, index, name, isSetter, args, c).value)
    ensures pos < |buf| && buf[pos] == OFFSCREEN_POLYFILL
    ensures DecodeCall(buf, pos, names, c) ==
      Ok(DecodedCall(|args|, name, isSetter == TRUE, Reshape(name, Transferred(args, c)),
                     pos + |PostRecord(table, index, name, isSetter, args, c).value|))
  {
    RecordDecodes(Intern(table, name), index, name, isSetter, args, c, buf, pos, names);
  }

  /** A property setter's record assigns exactly the value it was given. */
  lemma {:induction false} SetterAssigns(table: seq<string>, index: nat, p: Property, value: Arg,
                      c: Float32Codec, buf: seq<Word>, pos: nat, names: seq<string>)
    requires Serializable(value)
    requires |PostTable(table, p.Name(), [value])| <= 0x1_0000 && PostTable(table, p.Name(), [value]) <= names
    requires HoldsAt(buf, pos, PostRecord(table, index, p.Name(), TRUE, [value], c).value)
    ensures DecodeCall(buf, pos, names, c).Ok?
    ensures Effect(DecodeCall(buf, pos, names, c).value) == Assign(p.Name(), TransferredArg(value, c))
  {
    PostThenDecode(table, index, p.Name(), TRUE, [value], c, buf, pos, names);
  }

  /** A forwarding method's record invokes the method once, with all its arguments in order. */
  lemma {:induction false} MethodInvokes(table: seq<string>, index: nat, m: Method, args: seq<Arg>,
                      c: Float32Codec, buf: seq<Word>, pos: nat, names: seq<string>)
    requires AllSerializable(args) && |args| < 0x1_0000
    requires |PostTable(table, m.Name(), args)| <= 0x1_0000 && PostTable(table, m.Name(), args) <= names
    requires HoldsAt(buf, pos, PostRecord(table, index, m.Name(), FALSE, args, c).value)
    ensures DecodeCall(buf, pos, names, c).Ok?
    ensures Effect(DecodeCall(buf, pos, names, c).value) == Invoke(m.Name(), Transferred(args, c))
  {
    PostThenDecode(table, index, m.Name(), FALSE, args, c, buf, pos, names);
  }

  lemma {:induction false} TransferredAppend(a: seq<Arg>, b: seq<Arg>, c: Float32Codec)
    requires AllSerializable(a) && AllSerializable(b)
    ensures AllSerializable(a + b)
    ensures Transferred(a + b, c) == Transferred(a, c) + Transferred(b, c)
  {
    if a != [] {
      assert (a + b)[1..] == a[1..] + b;
      TransferredAppend(a[1..], b, c);
    } else {
      assert a + b == b;
    }
  }

  /**
   * Dash normalisation seen from the main thread: the record carries the
   * normalised list's length as its count, and the context receives a single
   * list argument: the dash list itself if its length is even, the list
   * followed by itself if odd.
   */
  lemma {:induction false} DashReplayed(table: seq<string>, index: nat, dash: seq<Arg>,
                     c: Float32Codec, buf: seq<Word>, pos: nat, names: seq<string>)
    requires AllSerializable(dash) && |NormalisedDash(dash)| < 0x1_0000
    requires var n := NormalisedDash(dash);
      |PostTable(table, "setLineDash", n)| <= 0x1_0000 && PostTable(table, "setLineDash", n) <= names
    requires HoldsAt(buf, pos, PostRecord(table, index, "setLineDash", FALSE, NormalisedDash(dash), c).value)
    ensures DecodeCall(buf, pos, names, c).Ok?
    ensures DecodeCall(buf, pos, names, c).value.argCount == |NormalisedDash(dash)|
    ensures |dash| % 2 == 0 ==>
      Effect(DecodeCall(buf, pos, names, c).value) == Invoke("setLineDash", [List(Transferred(dash, c))])
    ensures |dash| % 2 != 0 ==>
      Effect(DecodeCall(buf, pos, names, c).value) == Invoke("setLineDash", [List(Transferred(dash, c) + Transferred(dash, c))])
  {
    var n := NormalisedDash(dash);
    if |dash| % 2 != 0 {
      TransferredAppend(dash, dash, c);
    }
    PostThenDecode(table, index, "setLineDash", FALSE, n, c, buf, pos, names);
  }

  /**
   * Past the count lane's range the round trip breaks. A call with 65536
   * arguments is sent with the count 65536, which the Uint16Array copy turns
   * into 0. The main thread then decodes a call without arguments and resumes
   * at the record's first argument word, inside the record.
   */
  lemma {:induction false} CountWraps(table: seq<string>, index: nat, name: string, isSetter: Word, args: seq<Arg>,
                                      c: Float32Codec, buf: seq<Word>, pos: nat, names: seq<string>)
    requires AllSerializable(args) && |args| == 0x1_0000
    requires |Intern(table, name)| <= 0x1_0000 && Intern(table, name) <= names
    requires HoldsAt(buf, pos, PostRecord(table, index, name, isSetter, args, c).value)
    ensures PostRecord(table, index, name, isSetter, args, c).value[ARGUMENT_COUNT] == 0x1_0000
    ensures DecodeCall(buf, pos, names, c) == Ok(DecodedCall(0, name, isSetter == TRUE, Reshape(name, []), pos + ARGS))
    ensures pos + ARGS < pos + |PostRecord(table, index, name, isSetter, args, c).value|
  {
    var t := Intern(table, name);
    var record := PostRecord(table, index, name, isSetter, args, c).value;
    EncodeLength(args, t, c);
    assert record == Record(index, |args|, IndexOf(t, name), isSetter, Encode(args, t, c).value);
    assert buf[pos + ARGUMENT_COUNT] == Uint16(record[ARGUMENT_COUNT]) == 0;
    assert buf[pos + METHOD_CALLED] == Uint16(record[METHOD_CALLED]) == IndexOf(t, name);
    IndexOfStable(t, names, name);
    DecodeCallReads(buf, pos, names, c, 0, name, [], pos + ARGS);
  }

  /** The records a sequence of successful calls appends to the transfer. */
  function Records(table: seq<string>, index: nat, calls: seq<PolyfillCall>, c: Float32Codec): (rs: seq<seq<int>>)
    requires CallsSerializable(calls)
    ensures |rs| == |calls|
    decreases |calls|
  {
    if calls == [] then []
    else
      [PostRecord(table, index, calls[0].name, calls[0].isSetter, calls[0].args, c).value]
      + Records(PostTable(table, calls[0].name, calls[0].args), index, calls[1..], c)
  }

  /** The string table after a sequence of calls. */
  function TableAfterCalls(table: seq<string>, calls: seq<PolyfillCall>): (t: seq<string>)
    ensures table <= t
    decreases |calls|
  {
    if calls == [] then table
    else TableAfterCalls(PostTable(table, calls[0].name, calls[0].args), calls[1..])
  }

  /** The words of consecutive records, as the transfer carries them. */
  function Flatten(records: seq<seq<int>>): seq<int> {
    if records == [] then [] else records[0] + Flatten(records[1..])
  }

  /**
   * The records a run of calls appends, whether or not it throws: one per
   * call up to the first call with an unsupported argument, which throws and
   * appends nothing, and none after it.
   */
  function RunRecords(table: seq<string>, index: nat, calls: seq<PolyfillCall>, c: Float32Codec): (rs: seq<seq<int>>)
    ensures |rs| <= |calls|
    ensures forall i :: 0 <= i < |rs| ==> AllSerializable(calls[i].args)
    ensures |rs| < |calls| ==> !AllSerializable(calls[|rs|].args)
    decreases |calls|
  {
    if calls == [] || !AllSerializable(calls[0].args) then []
    else
      [PostRecord(table, index, calls[0].name, calls[0].isSetter, calls[0].args, c).value]
      + RunRecords(PostTable(table, calls[0].name, calls[0].args), index, calls[1..], c)
  }

  /**
   * The string table after a run of calls, whether or not it throws: the call
   * that throws has still stored its name and the strings before its
   * unsupported argument.
   */
  function RunTable(table: seq<string>, calls: seq<PolyfillCall>): (t: seq<string>)
    ensures table <= t
    decreases |calls|
  {
    if calls == [] then table
    else if !AllSerializable(calls[0].args) then PostTable(table, calls[0].name, calls[0].args)
    else RunTable(PostTable(table, calls[0].name, calls[0].args), calls[1..])
  }

  /** A run without a throw appends exactly `Records` and leaves the table at `TableAfterCalls`. */
  lemma {:induction false} RunComplete(table: seq<string>, index: nat, calls: seq<PolyfillCall>, c: Float32Codec)
    requires CallsSerializable(calls)
    ensures RunRecords(table, index, calls, c) == Records(table, index, calls, c)
    ensures RunTable(table, calls) == TableAfterCalls(table, calls)
    decreases |calls|
  {
    if calls != [] {
      RunComplete(PostTable(table, calls[0].name, calls[0].args), index, calls[1..], c);
    }
  }

  /**
   * A run of calls made one after the other on the same context; the first
   * call that throws ends the run. On every path the transfer grows by
   * `RunRecords` and the table becomes `RunTable`; without a throw these are
   * `Records` and `TableAfterCalls`.
   */
  method PostCalls(ctx: Context2DPolyfill, calls: seq<PolyfillCall>) returns (r: Outcome)
    requires ctx.strings.Valid()
    modifies ctx.strings, ctx.canvasElement.ownerDocument
    ensures ctx.strings.Valid()
    ensures ctx.strings.entries == RunTable(old(ctx.strings.entries), calls)
    ensures ctx.canvasElement.ownerDocument.pending ==
            old(ctx.canvasElement.ownerDocument.pending) + RunRecords(old(ctx.strings.entries), ctx.canvasElement.index, calls, ctx.codec)
    ensures CallsSerializable(calls) ==>
      && r == Done
      && ctx.strings.entries == TableAfterCalls(old(ctx.strings.entries), calls)
      && ctx.canvasElement.ownerDocument.pending ==
         old(ctx.canvasElement.ownerDocument.pending) + Records(old(ctx.strings.entries), ctx.canvasElement.index, calls, ctx.codec)
    ensures !CallsSerializable(calls) ==> r == Threw(CannotSerialize)
    decreases |calls|
  {
    if calls == [] {
      return Done;
    }
    var call, strings, document := calls[0], ctx.strings, ctx.canvasElement.ownerDocument;
    ghost var table, before := strings.entries, document.pending;
    RunStep(table, ctx.canvasElement.index, calls, ctx.codec);
    if CallsSerializable(calls) {
      RunComplete(table, ctx.canvasElement.index, calls, ctx.codec);
    }
    r := ctx.PostToMainThread(call.name, call.isSetter, call.args);
    if r.Threw? {
      assert before + [] == before;
      return;
    }
    ghost var posted, mid := document.pending, strings.entries;
    r := PostCalls(ctx, calls[1..]);
    AppendRun(before, posted, document.pending,
              PostRecord(table, ctx.canvasElement.index, call.name, call.isSetter, call.args, ctx.codec).value,
              RunRecords(mid, ctx.canvasElement.index, calls[1..], ctx.codec));
  }

  lemma {:induction false} AppendRun(before: seq<seq<int>>, posted: seq<seq<int>>, after: seq<seq<int>>, record: seq<int>, rest: seq<seq<int>>)
    requires posted == before + [record] && after == posted + rest
    ensures after == before + ([record] + rest)
  {
  }

  /** One step of a run: the first call's record and table, then the rest of the run from there. */
  lemma {:induction false} RunStep(table: seq<string>, index: nat, calls: seq<PolyfillCall>, c: Float32Codec)
    requires calls != []
    ensures CallsSerializable(calls) ==> AllSerializable(calls[0].args)
    ensures !AllSerializable(calls[0].args) ==>
      RunRecords(table, index, calls, c) == [] && RunTable(table, calls) == PostTable(table, calls[0].name, calls[0].args)
    ensures AllSerializable(calls[0].args) ==>
      && RunRecords(table, index, calls, c) ==
           [PostRecord(table, index, calls[0].name, calls[0].isSetter, calls[0].args, c).value]
           + RunRecords(PostTable(table, calls[0].name, calls[0].args), index, calls[1..], c)
      && RunTable(table, calls) == RunTable(PostTable(table, calls[0].name, calls[0].args), calls[1..])
      && (CallsSerializable(calls) <==> CallsSerializable(calls[1..]))
  {
  }

  /** What the main thread should decode for each call of a run, in order. */
  function SentAll(calls: seq<PolyfillCall>, c: Float32Codec): (sent: seq<DecodedCall>)
    requires CallsSerializable(calls) && CountsFit(calls)
    ensures |sent| == |calls|
    decreases |calls|
  {
    if calls == [] then [] else [Sent(calls[0], c)] + SentAll(calls[1..], c)
  }

  /** The events a run of decoded records applies, in order. */
  function Effects(sent: seq<DecodedCall>): (es: seq<Event>)
    ensures |es| == |sent|
  {
    if sent == [] then [] else [Effect(sent[0])] + Effects(sent[1..])
  }

  /**
   * The dispatch loop, restricted to this record type: apply the record at
   * `pos`, continue at the offset it returns, stop at the end of the buffer.
   */
  function Replay(buf: seq<Word>, pos: nat, names: seq<string>, c: Float32Codec): (r: Result<seq<Event>>)
    ensures r.Ok? && pos <= |buf| ==> ARGS * |r.value| <= |buf| - pos
    decreases |buf| - pos
  {
    if pos >= |buf| then Ok([])
    else if buf[pos] != OFFSCREEN_POLYFILL then Err(UnsupportedMutation(buf[pos]))
    else
      match DecodeCall(buf, pos, names, c)
      case Err(e) => Err(e)
      case Ok(call) =>
        match Replay(buf, call.end, names, c)
        case Err(e) => Err(e)
        case Ok(events) => Ok([Effect(call)] + events)
  }

  /** Wherever `record` sits in a buffer, it opens with the polyfill type and decodes to `call`, ending right after itself. */
  ghost predicate Decodes(record: seq<int>, call: DecodedCall, names: seq<string>, c: Float32Codec) {
    forall buf: seq<Word>, pos: nat {:trigger HoldsAt(buf, pos, record)} :: HoldsAt(buf, pos, record) ==>
      && pos < |buf| && buf[pos] == OFFSCREEN_POLYFILL
      && DecodeCall(buf, pos, names, c) == Ok(call.(end := pos + |record|))
  }

  /** The record the worker emits for a call decodes, wherever it lands, to the call as sent. */
  lemma {:induction false} PostDecodes(table: seq<string>, index: nat, call: PolyfillCall, c: Float32Codec, names: seq<string>)
    requires AllSerializable(call.args) && |call.args| < 0x1_0000
    requires |PostTable(table, call.name, call.args)| <= 0x1_0000 && PostTable(table, call.name, call.args) <= names
    ensures Decodes(PostRecord(table, index, call.name, call.isSetter, call.args, c).value, Sent(call, c), names, c)
  {
    var record := PostRecord(table, index, call.name, call.isSetter, call.args, c).value;
    forall buf: seq<Word>, pos: nat {:trigger HoldsAt(buf, pos, record)} | HoldsAt(buf, pos, record)
      ensures && pos < |buf| && buf[pos] == OFFSCREEN_POLYFILL
              && DecodeCall(buf, pos, names, c) == Ok(Sent(call, c).(end := pos + |record|))
    {
      PostThenDecode(table, index, call.name, call.isSetter, call.args, c, buf, pos, names);
    }
  }

  /** Record by record, each of `records` decodes to the call at the same place in `sent`. */
  ghost predicate AllDecode(records: seq<seq<int>>, sent: seq<DecodedCall>, names: seq<string>, c: Float32Codec)
    decreases |sent|
  {
    |records| == |sent| &&
    (sent != [] ==> Decodes(records[0], sent[0], names, c) && AllDecode(records[1..], sent[1..], names, c))
  }

  /** Every record of a run of calls decodes to its own call. */
  lemma {:induction false} RecordsDecode(table: seq<string>, index: nat, calls: seq<PolyfillCall>, c: Float32Codec, names: seq<string>)
    requires CallsSerializable(calls) && CountsFit(calls)
    requires |TableAfterCalls(table, calls)| <= 0x1_0000 && TableAfterCalls(table, calls) <= names
    ensures AllDecode(Records(table, index, calls, c), SentAll(calls, c), names, c)
    decreases |calls|
  {
    if calls != [] {
      var next := PostTable(table, calls[0].name, calls[0].args);
      assert TableAfterCalls(table, calls) == TableAfterCalls(next, calls[1..]);
      RecordsDecode(next, index, calls[1..], c, names);
      PostDecodes(table, index, calls[0], c, names);
    }
  }

  /** One step of the dispatch loop: a record that decodes to `call`, followed by words that replay to `events`. */
  lemma {:induction false} ReplayStep(record: seq<int>, call: DecodedCall, c: Float32Codec, buf: seq<Word>, pos: nat,
                                      names: seq<string>, events: seq<Event>)
    requires Decodes(record, call, names, c) && HoldsAt(buf, pos, record)
    requires Replay(buf, pos + |record|, names, c) == Ok(events)
    ensures Replay(buf, pos, names, c) == Ok([Effect(call)] + events)
  {
  }

  /**
   * Cursor correctness and order: a buffer made of records, each of which
   * decodes to its call, replayed from its first word, applies exactly the
   * calls' events in the order of the records and consumes every word.
   */
  lemma {:induction false} ReplayRecords(records: seq<seq<int>>, sent: seq<DecodedCall>,
                                         c: Float32Codec, buf: seq<Word>, pos: nat, names: seq<string>)
    requires AllDecode(records, sent, names, c)
    requires HoldsAt(buf, pos, Flatten(records)) && pos + |Flatten(records)| == |buf|
    ensures Replay(buf, pos, names, c) == Ok(Effects(sent))
    decreases |records|
  {
    if records != [] {
      HoldsAtSplit(buf, pos, records[0], Flatten(records[1..]));
      ReplayRecords(records[1..], sent[1..], c, buf, pos + |records[0]|, names);
      ReplayStep(records[0], sent[0], c, buf, pos, names, Effects(sent[1..]));
    }
  }

  /** The whole transfer, as the main thread receives it after the Uint16Array copy. */
  lemma {:induction false} ReplayTransfer(table: seq<string>, index: nat, calls: seq<PolyfillCall>, c: Float32Codec, names: seq<string>)
    requires CallsSerializable(calls) && CountsFit(calls)
    requires |TableAfterCalls(table, calls)| <= 0x1_0000 && TableAfterCalls(table, calls) <= names
    ensures Replay(ToWords(Flatten(Records(table, index, calls, c))), 0, names, c) == Ok(Effects(SentAll(calls, c)))
  {
    var words := Flatten(Records(table, index, calls, c));
    HoldsAtToWords([], words);
    assert [] + words == words;
    RecordsDecode(table, index, calls, c, names);
    ReplayRecords(Records(table, index, calls, c), SentAll(calls, c), c, ToWords(words), 0, names);
  }

  /**
   * A run in which the caller catches every `CannotSerialize` and carries on:
   * a call with an unsupported argument appends nothing, but the strings it
   * stored before throwing stay in the table, so the table still grows along
   * `TableAfterCalls` and later ids are taken after them.
   */
  function CaughtRecords(table: seq<string>, index: nat, calls: seq<PolyfillCall>, c: Float32Codec): (rs: seq<seq<int>>)
    ensures |rs| <= |calls|
    decreases |calls|
  {
    if calls == [] then []
    else
      var next := PostTable(table, calls[0].name, calls[0].args);
      if AllSerializable(calls[0].args) then
        [PostRecord(table, index, calls[0].name, calls[0].isSetter, calls[0].args, c).value] + CaughtRecords(next, index, calls[1..], c)
      else CaughtRecords(next, index, calls[1..], c)
  }

  /** What the main thread should decode for a run with caught throws: the calls that did not throw, in order. */
  function SentCaught(calls: seq<PolyfillCall>, c: Float32Codec): seq<DecodedCall>
    requires CountsFit(calls)
    decreases |calls|
  {
    if calls == [] then []
    else if AllSerializable(calls[0].args) then [Sent(calls[0], c)] + SentCaught(calls[1..], c)
    else SentCaught(calls[1..], c)
  }

  /** Without a throw to catch, the run appends exactly `Records` and is sent as `SentAll`. */
  lemma {:induction false} CaughtComplete(table: seq<string>, index: nat, calls: seq<PolyfillCall>, c: Float32Codec)
    requires CallsSerializable(calls) && CountsFit(calls)
    ensures CaughtRecords(table, index, calls, c) == Records(table, index, calls, c)
    ensures SentCaught(calls, c) == SentAll(calls, c)
    decreases |calls|
  {
    if calls != [] {
      CaughtComplete(PostTable(table, calls[0].name, calls[0].args), index, calls[1..], c);
    }
  }

  /** Every record of a run with caught throws decodes to its own call, the ids reflecting the thrown calls' strings. */
  lemma {:induction false} CaughtRecordsDecode(table: seq<string>, index: nat, calls: seq<PolyfillCall>, c: Float32Codec, names: seq<string>)
    requires CountsFit(calls)
    requires |TableAfterCalls(table, calls)| <= 0x1_0000 && TableAfterCalls(table, calls) <= names
    ensures AllDecode(CaughtRecords(table, index, calls, c), SentCaught(calls, c), names, c)
    decreases |calls|
  {
    if calls != [] {
      var next := PostTable(table, calls[0].name, calls[0].args);
      assert TableAfterCalls(table, calls) == TableAfterCalls(next, calls[1..]);
      CaughtRecordsDecode(next, index, calls[1..], c, names);
      if AllSerializable(calls[0].args) {
        PostDecodes(table, index, calls[0], c, names);
      }
    }
  }

  /** The whole transfer of a run with caught throws replays to the effects of exactly the calls that did not throw, in order. */
  lemma {:induction false} ReplayCaught(table: seq<string>, index: nat, calls: seq<PolyfillCall>, c: Float32Codec, names: seq<string>)
    requires CountsFit(calls)
    requires |TableAfterCalls(table, calls)| <= 0x1_0000 && TableAfterCalls(table, calls) <= names
    ensures Replay(ToWords(Flatten(CaughtRecords(table, index, calls, c))), 0, names, c) == Ok(Effects(SentCaught(calls, c)))
  {
    var words := Flatten(CaughtRecords(table, index, calls, c));
    HoldsAtToWords([], words);
    assert [] + words == words;
    CaughtRecordsDecode(table, index, calls, c, names);
    ReplayRecords(CaughtRecords(table, index, calls, c), SentCaught(calls, c), c, ToWords(words), 0, names);
  }
}
