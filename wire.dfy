// The wire format shared by the worker-side producer and the main-thread
// consumer of offscreen-canvas polyfill calls: 16-bit words, the argument
// tags, the fixed record layout and the errors either side can raise.
module Wire {

  /** One lane of the Uint16Array that carries mutations to the main thread. */
  type Word = w: int | 0 <= w < 0x1_0000

  datatype Option<+T> = None | Some(value: T)

  /** What the source reports by throwing (producer) or by failing to decode (consumer). */
  datatype Error =
    | CannotSerialize                    // serialize met an argument that is neither number nor string
    | ContextTypeNotSupported            // getContext with a type other than '2d' / '2D'
    | NotSupported(name: string)         // clip / fill / setTransform with an object first argument
    | Truncated                          // a read past the end of the mutation buffer
    | UnknownTag(tag: Word)              // an argument tag that is none of the three
    | UnknownString(id: Word)            // a string id the main-thread table does not hold
    | UnsupportedMutation(kind: Word)    // a record of another mutation type, which other processors handle

  datatype Result<+T> = Ok(value: T) | Err(error: Error)

  /** The outcome of a producer call that returns nothing but may throw. */
  datatype Outcome = Done | Threw(error: Error)

  // TransferrableArgs: the tag word that opens every serialized argument.
  const SMALL_INT: Word := 0
  const FLOAT: Word := 1
  const STRING: Word := 2

  // TransferrableMutationType.OFFSCREEN_POLYFILL.
  const OFFSCREEN_POLYFILL: Word := 15

  // NumericBoolean.
  const FALSE: Word := 0
  const TRUE: Word := 1

  // OffscreenContextPolyfillMutationIndex: offsets of the header fields
  // from the first word of a record (the mutation type sits at offset 0).
  const TARGET: nat := 1
  const ARGUMENT_COUNT: nat := 2
  const METHOD_CALLED: nat := 3
  const IS_SETTER: nat := 4
  const ARGS: nat := 5

  /** ToUint16 on an integer: the value a Uint16Array lane holds after storing `n`. */
  function Uint16(n: int): (w: Word)
    ensures 0 <= n < 0x1_0000 ==> w == n
  {
    n % 0x1_0000
  }

  /** The words the main thread reads once a record (a list of JS numbers) is copied into a Uint16Array. */
  function ToWords(record: seq<int>): (ws: seq<Word>)
    ensures |ws| == |record|
    ensures forall i :: 0 <= i < |record| ==> ws[i] == Uint16(record[i])
  {
    if record == [] then [] else [Uint16(record[0])] + ToWords(record[1..])
  }

  /** The buffer holds, from `pos` on, the words of `record` as the Uint16Array copy left them. */
  predicate HoldsAt(buf: seq<Word>, pos: nat, record: seq<int>) {
    pos + |record| <= |buf| && forall k :: 0 <= k < |record| ==> buf[pos + k] == Uint16(record[k])
  }

  lemma {:induction false} HoldsAtSplit(buf: seq<Word>, pos: nat, a: seq<int>, b: seq<int>)
    requires HoldsAt(buf, pos, a + b)
    ensures HoldsAt(buf, pos, a) && HoldsAt(buf, pos + |a|, b)
  {
    forall k | 0 <= k < |a| ensures buf[pos + k] == Uint16(a[k]) {
      assert (a + b)[k] == a[k];
    }
    forall k | 0 <= k < |b| ensures buf[pos + |a| + k] == Uint16(b[k]) {
      assert (a + b)[|a| + k] == b[k];
    }
  }

  /** A transferred buffer holds each of its pieces at the piece's offset. */
  lemma {:induction false} HoldsAtToWords(a: seq<int>, b: seq<int>)
    ensures HoldsAt(ToWords(a + b), |a|, b)
  {
    var buf := ToWords(a + b);
    forall k | 0 <= k < |b| ensures buf[|a| + k] == Uint16(b[k]) {
      assert (a + b)[|a| + k] == b[k];
    }
  }

  /** Every word of `record` already fits a 16-bit lane. */
  predicate Fits(record: seq<int>) {
    forall i :: 0 <= i < |record| ==> 0 <= record[i] < 0x1_0000
  }

  /** One offscreen-polyfill mutation record, laid out as the producer writes it. */
  function Record(target: int, argCount: int, methodId: int, isSetter: Word, argWords: seq<int>): (r: seq<int>)
    ensures |r| == ARGS + |argWords| && r[ARGS..] == argWords
    ensures r[0] == OFFSCREEN_POLYFILL && r[TARGET] == target && r[ARGUMENT_COUNT] == argCount
    ensures r[METHOD_CALLED] == methodId && r[IS_SETTER] == isSetter
  {
    [OFFSCREEN_POLYFILL, target, argCount, methodId, isSetter] + argWords
  }

  /** A held record reads back at the fixed offsets: the type, the header fields that fit a lane, and the argument words after them. */
  lemma {:induction false} RecordHeld(buf: seq<Word>, pos: nat, target: int, argCount: Word, methodId: Word, isSetter: Word, argWords: seq<int>)
    requires HoldsAt(buf, pos, Record(target, argCount, methodId, isSetter, argWords))
    ensures pos + ARGS <= |buf| && buf[pos] == OFFSCREEN_POLYFILL
    ensures buf[pos + ARGUMENT_COUNT] == argCount && buf[pos + METHOD_CALLED] == methodId && buf[pos + IS_SETTER] == isSetter
    ensures HoldsAt(buf, pos + ARGS, argWords)
  {
    var header := [OFFSCREEN_POLYFILL, target, argCount, methodId, isSetter];
    assert Record(target, argCount, methodId, isSetter, argWords) == header + argWords;
    HoldsAtSplit(buf, pos, header, argWords);
    assert buf[pos + 0] == Uint16(header[0]);
    assert buf[pos + ARGUMENT_COUNT] == Uint16(header[2]);
    assert buf[pos + METHOD_CALLED] == Uint16(header[3]);
    assert buf[pos + IS_SETTER] == Uint16(header[4]);
  }
}
