// The argument codec: `serialize` turns a call's argument list into tagged
// 16-bit words on the worker; `Deserialize`, its main-thread counterpart, is
// defined here from the same encoding so that both sides share one format.
module GlobalId {
  import opened Wire
  import opened Strings

  /** A JS value handed to `serialize`. Numbers are reals: NaN and the infinities are not modelled. */
  datatype Arg = Num(x: real) | Str(s: string) | Bool(b: bool) | Arr(items: seq<Arg>) | Obj | Null | Undef

  /**
   * A value as the main thread rebuilds it. `List` only arises when the consumer
   * re-wraps a dash list; `Undefined` is what reading past the arguments gives.
   */
  datatype Value = Number(x: real) | Text(s: string) | List(items: seq<Value>) | Undefined

  /**
   * The float32 image of a number, seen through the two lanes of the Uint16Array
   * that aliases the Float32Array (`split`), and the number the main thread
   * rebuilds from the two lanes (`join`). Which half lands in which lane depends
   * on the platform's byte order, so nothing here says which is high or low.
   */
  datatype Float32Codec = Float32Codec(split: real -> (Word, Word), join: (Word, Word) -> real)

  /** What a number sent as a float comes back as: its single-precision rounding. */
  function Rounded(c: Float32Codec, x: real): real {
    var (w0, w1) := c.split(x);
    c.join(w0, w1)
  }

  /** ToInteger: truncation toward zero. */
  function Trunc(x: real): int {
    if x >= 0.0 then x.Floor else -((-x).Floor)
  }

  /** The value a Uint16Array lane holds after `u16[0] = x`. */
  function ToUint16(x: real): Word {
    Uint16(Trunc(x))
  }

  /**
   * `isSmallInt`: storing `x` into a 16-bit lane and reading it back gives `x`
   * again, which happens exactly for the integers 0 to 65535.
   */
  predicate IsSmallInt(x: real): (small: bool)
    ensures small <==> x.Floor as real == x && 0.0 <= x <= 65535.0
  {
    var w := ToUint16(x);
    assert (w as real).Floor == w;
    w as real == x
  }

  /** The arguments `serialize` accepts: numbers and strings. */
  predicate Serializable(a: Arg) {
    a.Num? || a.Str?
  }

  predicate AllSerializable(args: seq<Arg>) {
    forall i :: 0 <= i < |args| ==> Serializable(args[i])
  }

  /** The table after an argument has been serialized: strings are stored, numbers leave it alone. */
  function InternArg(table: seq<string>, a: Arg): seq<string> {
    if a.Str? then Intern(table, a.s) else table
  }

  /**
   * The table after `serialize(args)`, whether it returns or throws: every
   * string before the first unsupported argument has been stored.
   */
  function TableAfter(args: seq<Arg>, table: seq<string>): (t: seq<string>)
    ensures table <= t
  {
    if args == [] || !Serializable(args[0]) then table
    else TableAfter(args[1..], InternArg(table, args[0]))
  }

  /**
   * The words of one argument, given the table in which its string (if any) is
   * stored. They open with one of the three tags, the tag tells which case
   * produced them, and the tag alone gives their number.
   */
  function EncodeArg(a: Arg, table: seq<string>, c: Float32Codec): (e: seq<int>)
    requires Serializable(a) && (a.Str? ==> a.s in table)
    ensures |e| == Width(a) == TagWidth(e[0])
    ensures e[0] == SMALL_INT <==> a.Num? && IsSmallInt(a.x)
    ensures e[0] == FLOAT <==> a.Num? && !IsSmallInt(a.x)
    ensures e[0] == STRING <==> a.Str?
  {
    match a
    case Num(x) =>
      if IsSmallInt(x) then [SMALL_INT, x.Floor]
      else var (w0, w1) := c.split(x); [FLOAT, w0, w1]
    case Str(s) => [STRING, IndexOf(table, s)]
  }

  function Prepend(prefix: seq<int>, r: Result<seq<int>>): Result<seq<int>> {
    match r
    case Ok(words) => Ok(prefix + words)
    case Err(e) => Err(e)
  }

  lemma {:induction false} PrependAssoc(a: seq<int>, b: seq<int>, r: Result<seq<int>>)
    ensures Prepend(a, Prepend(b, r)) == Prepend(a + b, r)
  {
    if r.Ok? {
      assert a + (b + r.value) == a + b + r.value;
    }
  }

  /** What `serialize(args)` returns when the table starts as `table`. */
  function Encode(args: seq<Arg>, table: seq<string>, c: Float32Codec): (r: Result<seq<int>>)
    ensures r.Ok? <==> AllSerializable(args)
    ensures r.Err? ==> r.error == CannotSerialize
    ensures args == [] ==> r == Ok([])
  {
    if args == [] then Ok([])
    else if !Serializable(args[0]) then Err(CannotSerialize)
    else
      var t := InternArg(table, args[0]);
      Prepend(EncodeArg(args[0], t, c), Encode(args[1..], t, c))
  }

  /** `serialize` at its first argument: that argument's words before the rest's, or the throw and the table as it was. */
  lemma {:induction false} EncodeHead(args: seq<Arg>, table: seq<string>, c: Float32Codec)
    requires args != []
    ensures var t := InternArg(table, args[0]);
      Serializable(args[0]) ==>
        && Encode(args, table, c) == Prepend(EncodeArg(args[0], t, c), Encode(args[1..], t, c))
        && TableAfter(args, table) == TableAfter(args[1..], t)
    ensures !Serializable(args[0]) ==> Encode(args, table, c) == Err(CannotSerialize) && TableAfter(args, table) == table
  {
  }

  /** The number of words an argument takes: two, or three for a float. */
  function Width(a: Arg): nat
    requires Serializable(a)
  {
    if a.Num? && !IsSmallInt(a.x) then 3 else 2
  }

  function SumWidths(args: seq<Arg>): nat
    requires AllSerializable(args)
  {
    if args == [] then 0 else Width(args[0]) + SumWidths(args[1..])
  }

  /** The number of words an argument takes, read off its tag. */
  function TagWidth(tag: int): nat {
    if tag == FLOAT then 3 else 2
  }

  /** The output's length is the sum of the argument widths: between two and three words per argument. */
  lemma {:induction false} EncodeLength(args: seq<Arg>, table: seq<string>, c: Float32Codec)
    requires AllSerializable(args)
    ensures |Encode(args, table, c).value| == SumWidths(args)
    ensures 2 * |args| <= SumWidths(args) <= 3 * |args|
  {
    if args != [] {
      var t := InternArg(table, args[0]);
      EncodeLength(args[1..], t, c);
    }
  }

  /**
   * While the table holds at most 65536 strings, every serialized word fits a
   * 16-bit lane, so the Uint16Array copy of the output is the output itself.
   */
  lemma {:induction false} EncodeFits(args: seq<Arg>, table: seq<string>, c: Float32Codec)
    requires AllSerializable(args) && |TableAfter(args, table)| <= 0x1_0000
    ensures Fits(Encode(args, table, c).value)
    ensures ToWords(Encode(args, table, c).value) == Encode(args, table, c).value
  {
    if args != [] {
      var t := InternArg(table, args[0]);
      var e := EncodeArg(args[0], t, c);
      assert TableAfter(args, table) == TableAfter(args[1..], t);
      assert Fits(e) by {
        if args[0].Num? && IsSmallInt(args[0].x) {
          assert 0 <= args[0].x.Floor < 0x1_0000;
        } else if args[0].Str? {
          assert IndexOf(t, args[0].s) < |t| <= |TableAfter(args[1..], t)|;
        } else {
          var (w0, w1) := c.split(args[0].x);
          assert e == [FLOAT, w0, w1];
        }
      }
      EncodeFits(args[1..], t, c);
    }
  }

  /** One turn of `serialize`'s loop: the argument's words pushed onto `serialized`, or the throw for an unsupported argument. */
  method SerializeArg(arg: Arg, serialized: seq<int>, strings: StringTable, c: Float32Codec) returns (r: Result<seq<int>>)
    requires strings.Valid()
    modifies strings
    ensures strings.Valid()
    ensures strings.entries == InternArg(old(strings.entries), arg)
    ensures Serializable(arg) ==> r == Ok(serialized + EncodeArg(arg, strings.entries, c))
    ensures !Serializable(arg) ==> r == Err(CannotSerialize)
  {
    if arg.Num? {
      if IsSmallInt(arg.x) {
        r := Ok(serialized + [SMALL_INT, arg.x.Floor]);
      } else {
        var (w0, w1) := c.split(arg.x);
        r := Ok(serialized + [FLOAT, w0, w1]);
      }
    } else if arg.Str? {
      var id := strings.Store(arg.s);
      r := Ok(serialized + [STRING, id]);
    } else {
      // Arrays, booleans and objects are not supported: throw.
      r := Err(CannotSerialize);
    }
  }

  /** `serialize`: a loop over the arguments, pushing each one's words and storing its strings. */
  method Serialize(args: seq<Arg>, strings: StringTable, c: Float32Codec) returns (r: Result<seq<int>>)
    requires strings.Valid()
    modifies strings
    ensures strings.Valid()
    ensures r == Encode(args, old(strings.entries), c)
    ensures strings.entries == TableAfter(args, old(strings.entries))
  {
    var serialized: seq<int> := [];
    var i := 0;
    assert args[i..] == args;
    assert Prepend([], Encode(args, strings.entries, c)) == Encode(args, strings.entries, c) by {
      var r0 := Encode(args, strings.entries, c);
      if r0.Ok? { assert [] + r0.value == r0.value; }
    }
    while i < |args|
      invariant 0 <= i <= |args|
      invariant strings.Valid()
      invariant Encode(args, old(strings.entries), c) == Prepend(serialized, Encode(args[i..], strings.entries, c))
      invariant TableAfter(args, old(strings.entries)) == TableAfter(args[i..], strings.entries)
    {
      var arg := args[i];
      ghost var before := strings.entries;
      EncodeHead(args[i..], before, c);
      assert args[i..][0] == arg && args[i..][1..] == args[i + 1..];
      var pushed := SerializeArg(arg, serialized, strings, c);
      if pushed.Err? {
        return pushed;
      }
      PrependAssoc(serialized, EncodeArg(arg, strings.entries, c), Encode(args[i + 1..], strings.entries, c));
      serialized := pushed.value;
      i := i + 1;
    }
    assert args[i..] == [] && serialized + [] == serialized;
    r := Ok(serialized);
  }

  /** The main thread's reading of one argument at `pos`: its tag, then one or two payload words. */
  function DecodeOne(buf: seq<Word>, pos: nat, names: seq<string>, c: Float32Codec): (r: Result<(nat, Value)>)
    ensures r.Ok? ==> pos < r.value.0 <= |buf| && r.value.0 == pos + TagWidth(buf[pos])
  {
    if pos >= |buf| then Err(Truncated)
    else if buf[pos] == SMALL_INT then
      if pos + 1 < |buf| then Ok((pos + 2, Number(buf[pos + 1] as real))) else Err(Truncated)
    else if buf[pos] == FLOAT then
      if pos + 2 < |buf| then Ok((pos + 3, Number(c.join(buf[pos + 1], buf[pos + 2])))) else Err(Truncated)
    else if buf[pos] == STRING then
      if pos + 1 < |buf| then
        match Lookup(names, buf[pos + 1])
        case Some(s) => Ok((pos + 2, Text(s)))
        case None => Err(UnknownString(buf[pos + 1]))
      else Err(Truncated)
    else Err(UnknownTag(buf[pos]))
  }

  /** `deserialize`: read `count` arguments from `start`; the offset past the last one and the values. */
  function Deserialize(buf: seq<Word>, start: nat, count: nat, names: seq<string>, c: Float32Codec): (r: Result<(nat, seq<Value>)>)
    ensures r.Ok? ==> start <= r.value.0 && (r.value.0 <= |buf| || r.value.0 == start) && |r.value.1| == count
    ensures r.Ok? && count > 0 ==> start < r.value.0
    decreases count
  {
    if count == 0 then Ok((start, []))
    else
      match DecodeOne(buf, start, names, c)
      case Err(e) => Err(e)
      case Ok((next, v)) =>
        match Deserialize(buf, next, count - 1, names, c)
        case Err(e) => Err(e)
        case Ok((end, vs)) => Ok((end, [v] + vs))
  }

  /** What the main thread gets back for an argument: the number (a float at single precision) or the string. */
  function TransferredArg(a: Arg, c: Float32Codec): Value
    requires Serializable(a)
  {
    match a
    case Num(x) => Number(if IsSmallInt(x) then x else Rounded(c, x))
    case Str(s) => Text(s)
  }

  function Transferred(args: seq<Arg>, c: Float32Codec): (vs: seq<Value>)
    requires AllSerializable(args)
    ensures |vs| == |args|
  {
    if args == [] then [] else [TransferredArg(args[0], c)] + Transferred(args[1..], c)
  }

  lemma {:induction false} DecodeOneEncoded(a: Arg, table: seq<string>, c: Float32Codec, buf: seq<Word>, pos: nat, names: seq<string>)
    requires Serializable(a) && (a.Str? ==> a.s in table)
    requires |table| <= 0x1_0000 && table <= names
    requires HoldsAt(buf, pos, EncodeArg(a, table, c))
    ensures DecodeOne(buf, pos, names, c) == Ok((pos + |EncodeArg(a, table, c)|, TransferredArg(a, c)))
  {
    var e := EncodeArg(a, table, c);
    assert buf[pos] == Uint16(e[0]) && buf[pos + 1] == Uint16(e[1]);
    match a
    case Num(x) =>
      if IsSmallInt(x) {
        assert buf[pos + 1] == x.Floor;
      } else {
        var (w0, w1) := c.split(x);
        assert e == [FLOAT, w0, w1];
        assert buf[pos + 1] == Uint16(e[1]) && buf[pos + 2] == Uint16(e[2]);
      }
    case Str(s) =>
      assert buf[pos + 1] == IndexOf(table, s);
  }

  /** `deserialize` reads the first argument, then the remaining ones from where it stopped. */
  lemma {:induction false} DeserializeCons(buf: seq<Word>, pos: nat, names: seq<string>, c: Float32Codec,
                                           args: seq<Arg>, next: nat, end: nat)
    requires args != [] && AllSerializable(args)
    requires DecodeOne(buf, pos, names, c) == Ok((next, TransferredArg(args[0], c)))
    requires Deserialize(buf, next, |args| - 1, names, c) == Ok((end, Transferred(args[1..], c)))
    ensures Deserialize(buf, pos, |args|, names, c) == Ok((end, Transferred(args, c)))
  {
  }

  /** The first argument of a held encoding reads back, and the rest of the encoding is held right after it. */
  lemma {:induction false} DecodeFirst(args: seq<Arg>, table: seq<string>, c: Float32Codec, buf: seq<Word>, pos: nat, names: seq<string>)
    requires args != [] && AllSerializable(args)
    requires |TableAfter(args, table)| <= 0x1_0000 && TableAfter(args, table) <= names
    requires HoldsAt(buf, pos, Encode(args, table, c).value)
    ensures var t := InternArg(table, args[0]);
      var e := EncodeArg(args[0], t, c);
      && DecodeOne(buf, pos, names, c) == Ok((pos + |e|, TransferredArg(args[0], c)))
      && AllSerializable(args[1..]) && |TableAfter(args[1..], t)| <= 0x1_0000 && TableAfter(args[1..], t) <= names
      && HoldsAt(buf, pos + |e|, Encode(args[1..], t, c).value)
      && |Encode(args, table, c).value| == |e| + |Encode(args[1..], t, c).value|
  {
    var t := InternArg(table, args[0]);
    var e := EncodeArg(args[0], t, c);
    var rest := Encode(args[1..], t, c).value;
    EncodeHead(args, table, c);
    HoldsAtSplit(buf, pos, e, rest);
    DecodeOneEncoded(args[0], t, c, buf, pos, names);
  }

  /**
   * Round trip: reading back the words `serialize(args)` produced, from wherever
   * they sit in the buffer, yields each argument as sent (a float at single
   * precision) and stops exactly after the last word.
   */
  lemma {:induction false} DeserializeEncoded(args: seq<Arg>, table: seq<string>, c: Float32Codec, buf: seq<Word>, pos: nat, names: seq<string>)
    requires AllSerializable(args)
    requires |TableAfter(args, table)| <= 0x1_0000 && TableAfter(args, table) <= names
    requires HoldsAt(buf, pos, Encode(args, table, c).value)
    ensures Deserialize(buf, pos, |args|, names, c) == Ok((pos + |Encode(args, table, c).value|, Transferred(args, c)))
  {
    if args != [] {
      var t := InternArg(table, args[0]);
      var next := pos + |EncodeArg(args[0], t, c)|;
      assert |args[1..]| == |args| - 1;
      DecodeFirst(args, table, c, buf, pos, names);
      DeserializeEncoded(args[1..], t, c, buf, next, names);
      DeserializeCons(buf, pos, names, c, args, next, pos + |Encode(args, table, c).value|);
    }
  }

  /** A number that is a float32 exactly comes back unchanged. */
  predicate Float32Exact(c: Float32Codec, x: real) {
    Rounded(c, x) == x
  }

  /** When every float argument is exactly a float32, the round trip is the identity on values. */
  lemma {:induction false} TransferredExact(args: seq<Arg>, c: Float32Codec)
    requires AllSerializable(args)
    requires forall i :: 0 <= i < |args| && args[i].Num? && !IsSmallInt(args[i].x) ==> Float32Exact(c, args[i].x)
    ensures forall i :: 0 <= i < |args| ==>
      Transferred(args, c)[i] == (if args[i].Num? then Number(args[i].x) else Text(args[i].s))
  {
    if args != [] {
      TransferredExact(args[1..], c);
      forall i | 1 <= i < |args|
        ensures Transferred(args, c)[i] == Transferred(args[1..], c)[i - 1]
      {
      }
    }
  }
}
