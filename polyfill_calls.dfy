// The main-thread processor for offscreen-polyfill records: `Execute` reads
// the header at fixed offsets, decodes the arguments and replays the call on
// the real 2D context; `Print` decodes the same way and only describes it.
module PolyfillCalls {
  import opened Wire
  import opened Strings
  import opened GlobalId

  /** What happens to the real 2D context: a property assignment or a method call. */
  datatype Event = Assign(property: string, value: Value) | Invoke(name: string, args: seq<Value>)

  /** The real main-thread 2D context, observed through the events applied to it. */
  class Context2D {
    var log: seq<Event>

    constructor ()
      ensures log == []
    {
      log := [];
    }
  }

  /** A real canvas element; `getContext('2d')` always answers the same context. */
  class HTMLCanvas {
    const context2d: Context2D

    constructor (context2d: Context2D)
      ensures this.context2d == context2d
    {
      this.context2d := context2d;
    }
  }

  /** A record as the processor reads it. */
  datatype DecodedCall = DecodedCall(argCount: Word, methodCalled: string, isSetter: bool, args: seq<Value>, end: nat)

  /** The one reshaping the processor does: `setLineDash` gets its arguments back as a single list. */
  function Reshape(methodCalled: string, args: seq<Value>): (r: seq<Value>)
    ensures methodCalled == "setLineDash" ==> r == [List(args)]
    ensures methodCalled != "setLineDash" ==> r == args
  {
    if methodCalled == "setLineDash" then [List(args)] else args
  }

  /**
   * The decode shared by `execute` and `print`: the argument count, the method
   * id and the setter flag at fixed offsets from `start`, then the arguments
   * from `start + ARGS`.
   */
  function DecodeCall(buf: seq<Word>, start: nat, names: seq<string>, c: Float32Codec): (r: Result<DecodedCall>)
    ensures r.Ok? ==> start + ARGS <= r.value.end <= |buf|
    ensures r.Ok? ==> && r.value.argCount == buf[start + ARGUMENT_COUNT]
                      && Lookup(names, buf[start + METHOD_CALLED]) == Some(r.value.methodCalled)
                      && (r.value.isSetter <==> buf[start + IS_SETTER] == TRUE)
    ensures r.Ok? && r.value.methodCalled == "setLineDash" ==> |r.value.args| == 1 && r.value.args[0].List?
    ensures r.Ok? && r.value.methodCalled != "setLineDash" ==> |r.value.args| == r.value.argCount
  {
    if start + ARGS > |buf| then Err(Truncated)
    else
      var argCount := buf[start + ARGUMENT_COUNT];
      match Lookup(names, buf[start + METHOD_CALLED])
      case None => Err(UnknownString(buf[start + METHOD_CALLED]))
      case Some(methodCalled) =>
        var isSetter := buf[start + IS_SETTER] == TRUE;
        match Deserialize(buf, start + ARGS, argCount, names, c)
        case Err(e) => Err(e)
        case Ok((offset, args)) => Ok(DecodedCall(argCount, methodCalled, isSetter, Reshape(methodCalled, args), offset))
  }

  /** `DecodeCall` from its parts: a header that names a stored method and arguments that deserialize. */
  lemma {:induction false} DecodeCallReads(buf: seq<Word>, start: nat, names: seq<string>, c: Float32Codec,
                                           argCount: Word, methodCalled: string, args: seq<Value>, end: nat)
    requires start + ARGS <= |buf| && buf[start + ARGUMENT_COUNT] == argCount
    requires Lookup(names, buf[start + METHOD_CALLED]) == Some(methodCalled)
    requires Deserialize(buf, start + ARGS, argCount, names, c) == Ok((end, args))
    ensures DecodeCall(buf, start, names, c) ==
      Ok(DecodedCall(argCount, methodCalled, buf[start + IS_SETTER] == TRUE, Reshape(methodCalled, args), end))
  {
  }

  /** What a decoded record does to the context: assign `args[0]` (undefined if there is none), or call with all arguments. */
  function Effect(call: DecodedCall): (e: Event)
    ensures call.isSetter ==> e.Assign? && e.property == call.methodCalled
    ensures call.isSetter && |call.args| > 0 ==> e.value == call.args[0]
    ensures !call.isSetter ==> e == Invoke(call.methodCalled, call.args)
  {
    if call.isSetter then Assign(call.methodCalled, if |call.args| > 0 then call.args[0] else Undefined)
    else Invoke(call.methodCalled, call.args)
  }

  /** `print`'s descriptor. */
  datatype Descriptor = Descriptor(
    kind: string,
    target: Option<HTMLCanvas>,
    ArgumentCount: Word,
    MethodCalled: string,
    IsSetter: bool,
    Args: seq<Value>,
    End: nat)

  /** `OffscreenPolyfillCallProcessor(strings)`: the main-thread string table and float32 reading are fixed per processor. */
  class OffscreenPolyfillCallProcessor {
    const strings: StringTable
    const codec: Float32Codec

    constructor (strings: StringTable, codec: Float32Codec)
      ensures this.strings == strings && this.codec == codec
    {
      this.strings := strings;
      this.codec := codec;
    }

    /** `execute`: apply the record at `startPosition` to the target's context and return the offset after it. */
    method Execute(mutations: array<Word>, startPosition: nat, target: HTMLCanvas) returns (r: Result<nat>)
      modifies target.context2d
      ensures match DecodeCall(mutations[..], startPosition, strings.entries, codec)
              case Ok(call) => r == Ok(call.end) && target.context2d.log == old(target.context2d.log) + [Effect(call)]
              case Err(e) => r == Err(e) && target.context2d.log == old(target.context2d.log)
    {
      if startPosition + ARGS > mutations.Length {
        return Err(Truncated);
      }
      var argCount := mutations[startPosition + ARGUMENT_COUNT];
      var methodId := mutations[startPosition + METHOD_CALLED];
      var methodCalled := Lookup(strings.entries, methodId);
      if methodCalled.None? {
        return Err(UnknownString(methodId));
      }
      var isSetter := mutations[startPosition + IS_SETTER] == TRUE;

      var argsStart := startPosition + ARGS;
      var decoded := Deserialize(mutations[..], argsStart, argCount, strings.entries, codec);
      if decoded.Err? {
        return Err(decoded.error);
      }
      var (offset, args) := decoded.value;

      if methodCalled.value == "setLineDash" {
        args := [List(args)];
      }

      var mainContext := target.context2d;
      if isSetter {
        mainContext.log := mainContext.log + [Assign(methodCalled.value, if |args| > 0 then args[0] else Undefined)];
      } else {
        mainContext.log := mainContext.log + [Invoke(methodCalled.value, args)];
      }
      r := Ok(offset);
    }

    /** `print`: the same decode, described instead of applied; it changes nothing. */
    function Print(mutations: array<Word>, startPosition: nat, target: Option<HTMLCanvas>): (r: Result<Descriptor>)
      reads mutations, strings
      ensures r.Ok? <==> DecodeCall(mutations[..], startPosition, strings.entries, codec).Ok?
      ensures r.Ok? ==>
        && r.value.kind == "OFFSCREEN_POLYFILL" && r.value.target == target
        && startPosition + ARGS <= r.value.End <= mutations.Length
        && r.value.ArgumentCount == mutations[startPosition + ARGUMENT_COUNT]
        && Lookup(strings.entries, mutations[startPosition + METHOD_CALLED]) == Some(r.value.MethodCalled)
        && (r.value.IsSetter <==> mutations[startPosition + IS_SETTER] == TRUE)
      ensures r.Ok? ==> var call := DecodeCall(mutations[..], startPosition, strings.entries, codec).value;
        r.value.End == call.end && r.value.Args == call.args
    {
      match DecodeCall(mutations[..], startPosition, strings.entries, codec)
      case Err(e) => Err(e)
      case Ok(call) =>
        Ok(Descriptor("OFFSCREEN_POLYFILL", target, call.argCount, call.methodCalled, call.isSetter, call.args, call.end))
    }
  }
}
