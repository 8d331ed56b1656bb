// The worker-side polyfill of a 2D canvas context: each setter and method
// call becomes one offscreen-polyfill mutation record appended to the
// document's outgoing transfer; nothing touches a real canvas here.
module CanvasPolyfill {
  import opened Wire
  import opened Strings
  import opened GlobalId

  /** The worker document: `pending` is the outgoing transfer, one entry per mutation record. */
  class Document {
    var pending: seq<seq<int>>

    constructor ()
      ensures pending == []
    {
      pending := [];
    }
  }

  /** The canvas element a context draws on: its node index and owning document. */
  class CanvasElement {
    const index: nat
    const ownerDocument: Document

    constructor (index: nat, ownerDocument: Document)
      ensures this.index == index && this.ownerDocument == ownerDocument
    {
      this.index := index;
      this.ownerDocument := ownerDocument;
    }
  }

  /** Methods that forward whatever arguments they were given. */
  datatype Method =
    | ClearRect | FillRect | StrokeRect | FillText | MoveTo | LineTo | Rotate | Transform | Translate | Scale
    | StrokeText | Arc | ArcTo | Ellipse | BezierCurveTo | Rect | QuadraticCurveTo
  {
    function Name(): string {
      match this
      case ClearRect => "clearRect"
      case FillRect => "fillRect"
      case StrokeRect => "strokeRect"
      case FillText => "fillText"
      case MoveTo => "moveTo"
      case LineTo => "lineTo"
      case Rotate => "rotate"
      case Transform => "transform"
      case Translate => "translate"
      case Scale => "scale"
      case StrokeText => "strokeText"
      case Arc => "arc"
      case ArcTo => "arcTo"
      case Ellipse => "ellipse"
      case BezierCurveTo => "bezierCurveTo"
      case Rect => "rect"
      case QuadraticCurveTo => "quadraticCurveTo"
    }
  }

  /** Methods that always send an empty argument list, whatever they were given. */
  datatype NoArgMethod = ClosePath | Stroke | Restore | Save | ResetTransform | BeginPath
  {
    function Name(): string {
      match this
      case ClosePath => "closePath"
      case Stroke => "stroke"
      case Restore => "restore"
      case Save => "save"
      case ResetTransform => "resetTransform"
      case BeginPath => "beginPath"
    }
  }

  /** Property setters: each sends its one value. */
  datatype Property =
    | LineWidth | GlobalAlpha | GlobalCompositeOperation | ImageSmoothingQuality | FillStyle | StrokeStyle
    | ShadowBlur | ShadowColor | ShadowOffsetX | ShadowOffsetY | Filter | TextAlign | TextBaseline
    | LineCap | LineDashOffset | LineJoin | MiterLimit | Direction | Font | ImageSmoothingEnabled
  {
    function Name(): string {
      match this
      case LineWidth => "lineWidth"
      case GlobalAlpha => "globalAlpha"
      case GlobalCompositeOperation => "globalCompositeOperation"
      case ImageSmoothingQuality => "imageSmoothingQuality"
      case FillStyle => "fillStyle"
      case StrokeStyle => "strokeStyle"
      case ShadowBlur => "shadowBlur"
      case ShadowColor => "shadowColor"
      case ShadowOffsetX => "shadowOffsetX"
      case ShadowOffsetY => "shadowOffsetY"
      case Filter => "filter"
      case TextAlign => "textAlign"
      case TextBaseline => "textBaseline"
      case LineCap => "lineCap"
      case LineDashOffset => "lineDashOffset"
      case LineJoin => "lineJoin"
      case MiterLimit => "miterLimit"
      case Direction => "direction"
      case Font => "font"
      case ImageSmoothingEnabled => "imageSmoothingEnabled"
    }
  }

  /** Methods that refuse an object (a Path2D or a DOMMatrix2DInit) as first argument. */
  datatype GuardedMethod = Clip | Fill | SetTransform
  {
    function Name(): string {
      match this
      case Clip => "clip"
      case Fill => "fill"
      case SetTransform => "setTransform"
    }
  }

  /** Read-returning methods that are stubbed on the worker and send nothing. */
  datatype StubMethod =
    | CreateLinearGradient | CreatePattern | CreateRadialGradient | IsPointInPath | IsPointInStroke
    | MeasureText | CreateImageData | GetImageData | PutImageData | DrawImage

  /** A stub's answer: an empty placeholder object, a constant boolean, or nothing. */
  datatype StubResult = Placeholder | Answer(b: bool) | Nothing

  /** `typeof a === 'object'`: arrays, plain objects and null. */
  predicate IsObject(a: Arg) {
    a.Arr? || a.Obj? || a.Null?
  }

  /**
   * The record `postToMainThread(name, isSetter, args)` emits, given the table
   * before the call. The call throws, with `CannotSerialize`, exactly when some
   * argument is neither a number nor a string.
   */
  function PostRecord(table: seq<string>, index: nat, name: string, isSetter: Word, args: seq<Arg>, c: Float32Codec): (r: Result<seq<int>>)
    ensures r.Ok? <==> AllSerializable(args)
    ensures r.Err? ==> r.error == CannotSerialize
  {
    var t := Intern(table, name);
    match Encode(args, t, c)
    case Ok(words) => Ok(Record(index, |args|, IndexOf(t, name), isSetter, words))
    case Err(e) => Err(e)
  }

  /** The table after `postToMainThread`: the name is stored first, then the arguments' strings. */
  function PostTable(table: seq<string>, name: string, args: seq<Arg>): seq<string> {
    TableAfter(args, Intern(table, name))
  }

  /** The transfer after a call: one more record and no error, or unchanged and the error thrown. */
  predicate Emitted(before: seq<seq<int>>, after: seq<seq<int>>, outcome: Outcome, record: Result<seq<int>>) {
    match record
    case Ok(r) => after == before + [r] && outcome == Done
    case Err(e) => after == before && outcome == Threw(e)
  }

  /** The dash list `setLineDash` keeps and sends: an odd-length list is repeated once. */
  function NormalisedDash(dash: seq<Arg>): (r: seq<Arg>)
    ensures |r| % 2 == 0
    ensures |dash| % 2 == 0 ==> r == dash
    ensures |dash| % 2 != 0 ==> |r| == 2 * |dash| && r[..|dash|] == dash && r[|dash|..] == dash
  {
    if |dash| % 2 != 0 then dash + dash else dash
  }

  /**
   * Layout of an emitted record: the mutation type, the canvas index, the
   * LOGICAL argument count (not the number of words), the id under which the
   * name is stored, the setter flag, then the serialized arguments, which take
   * between two and three words each.
   */
  lemma {:induction false} PostLayout(table: seq<string>, index: nat, name: string, isSetter: Word, args: seq<Arg>, c: Float32Codec)
    requires AllSerializable(args)
    ensures PostRecord(table, index, name, isSetter, args, c).Ok?
    ensures var r := PostRecord(table, index, name, isSetter, args, c).value;
      && r[0] == OFFSCREEN_POLYFILL && r[TARGET] == index && r[ARGUMENT_COUNT] == |args| && r[IS_SETTER] == isSetter
      && Lookup(PostTable(table, name, args), r[METHOD_CALLED]) == Some(name)
      && |r| == ARGS + SumWidths(args)
      && 2 * |args| <= |r| - ARGS <= 3 * |args|
  {
    var t := Intern(table, name);
    EncodeLength(args, t, c);
    StoreThenLookup(table, name, PostTable(table, name, args));
  }

  /**
   * A boolean argument (the `imageSmoothingEnabled` setter, `arc` with its
   * `anticlockwise` flag) always makes the call throw: no record is emitted.
   */
  lemma {:induction false} BooleanArgumentThrows(table: seq<string>, index: nat, name: string, isSetter: Word, args: seq<Arg>,
                                                 c: Float32Codec, i: nat)
    requires i < |args| && args[i].Bool?
    ensures PostRecord(table, index, name, isSetter, args, c) == Err(CannotSerialize)
  {
    assert !Serializable(args[i]);
  }

  class Context2DPolyfill {
    const canvasElement: CanvasElement
    const strings: StringTable
    const codec: Float32Codec
    /** The local shadow of the dash list, for `getLineDash`. */
    var lineDash: seq<Arg>

    constructor (canvas: CanvasElement, strings: StringTable, codec: Float32Codec)
      ensures canvasElement == canvas && this.strings == strings && this.codec == codec
      ensures lineDash == []
    {
      canvasElement := canvas;
      this.strings := strings;
      this.codec := codec;
      lineDash := [];
    }

    /** `postToMainThread`: store the name, serialize the arguments, append one record to the transfer. */
    method PostToMainThread(fnName: string, isSetter: Word, args: seq<Arg>) returns (r: Outcome)
      requires strings.Valid()
      modifies strings, canvasElement.ownerDocument
      ensures strings.Valid()
      ensures strings.entries == PostTable(old(strings.entries), fnName, args)
      ensures Emitted(old(canvasElement.ownerDocument.pending), canvasElement.ownerDocument.pending, r,
                      PostRecord(old(strings.entries), canvasElement.index, fnName, isSetter, args, codec))
    {
      var index := canvasElement.index;
      var argCount := |args|;
      var id := strings.Store(fnName);
      ghost var named := strings.entries;
      var words := Serialize(args, strings, codec);
      if words.Err? {
        return Threw(words.error);
      }
      assert id == IndexOf(named, fnName);
      var document := canvasElement.ownerDocument;
      document.pending := document.pending + [Record(index, argCount, id, isSetter, words.value)];
      r := Done;
    }

    /** A method that forwards its arguments as they were passed. */
    method Call(m: Method, args: seq<Arg>) returns (r: Outcome)
      requires strings.Valid()
      modifies strings, canvasElement.ownerDocument
      ensures strings.Valid()
      ensures strings.entries == PostTable(old(strings.entries), m.Name(), args)
      ensures Emitted(old(canvasElement.ownerDocument.pending), canvasElement.ownerDocument.pending, r,
                      PostRecord(old(strings.entries), canvasElement.index, m.Name(), FALSE, args, codec))
    {
      r := PostToMainThread(m.Name(), FALSE, args);
    }

    /** A method that sends no arguments. */
    method CallNoArgs(m: NoArgMethod) returns (r: Outcome)
      requires strings.Valid()
      modifies strings, canvasElement.ownerDocument
      ensures strings.Valid()
      ensures strings.entries == Intern(old(strings.entries), m.Name())
      ensures canvasElement.ownerDocument.pending ==
              old(canvasElement.ownerDocument.pending) + [PostRecord(old(strings.entries), canvasElement.index, m.Name(), FALSE, [], codec).value]
      ensures r == Done
    {
      r := PostToMainThread(m.Name(), FALSE, []);
    }

    /** A property setter: sends the one value with the setter flag raised. */
    method Set(p: Property, value: Arg) returns (r: Outcome)
      requires strings.Valid()
      modifies strings, canvasElement.ownerDocument
      ensures strings.Valid()
      ensures strings.entries == PostTable(old(strings.entries), p.Name(), [value])
      ensures Emitted(old(canvasElement.ownerDocument.pending), canvasElement.ownerDocument.pending, r,
                      PostRecord(old(strings.entries), canvasElement.index, p.Name(), TRUE, [value], codec))
    {
      r := PostToMainThread(p.Name(), TRUE, [value]);
    }

    /** `setLineDash`: normalise, keep the shadow copy, send the normalised list as the arguments. */
    method SetLineDash(dash: seq<Arg>) returns (r: Outcome)
      requires strings.Valid()
      modifies this, strings, canvasElement.ownerDocument
      ensures strings.Valid()
      ensures lineDash == NormalisedDash(dash)
      ensures strings.entries == PostTable(old(strings.entries), "setLineDash", NormalisedDash(dash))
      ensures Emitted(old(canvasElement.ownerDocument.pending), canvasElement.ownerDocument.pending, r,
                      PostRecord(old(strings.entries), canvasElement.index, "setLineDash", FALSE, NormalisedDash(dash), codec))
    {
      var copy := dash;
      if |copy| % 2 != 0 {
        copy := copy + copy;
      }
      lineDash := copy;
      r := PostToMainThread("setLineDash", FALSE, copy);
    }

    /** `getLineDash`: a copy of the shadow list; sends nothing. */
    method GetLineDash() returns (dash: seq<Arg>)
      ensures dash == lineDash
    {
      dash := lineDash;
    }

    /** `clip`, `fill`, `setTransform`: throw on an object first argument, else forward the arguments. */
    method CallGuarded(m: GuardedMethod, args: seq<Arg>) returns (r: Outcome)
      requires strings.Valid()
      modifies strings, canvasElement.ownerDocument
      ensures strings.Valid()
      ensures |args| > 0 && IsObject(args[0]) ==>
        && r == Threw(NotSupported(m.Name()))
        && strings.entries == old(strings.entries)
        && canvasElement.ownerDocument.pending == old(canvasElement.ownerDocument.pending)
      ensures !(|args| > 0 && IsObject(args[0])) ==>
        && strings.entries == PostTable(old(strings.entries), m.Name(), args)
        && Emitted(old(canvasElement.ownerDocument.pending), canvasElement.ownerDocument.pending, r,
                   PostRecord(old(strings.entries), canvasElement.index, m.Name(), FALSE, args, codec))
    {
      if |args| > 0 && IsObject(args[0]) {
        return Threw(NotSupported(m.Name()));
      }
      r := PostToMainThread(m.Name(), FALSE, args);
    }

    /** The stubbed read-returning methods: a placeholder answer, no record. */
    method CallStub(m: StubMethod) returns (r: StubResult)
      ensures m == IsPointInPath || m == IsPointInStroke ==> r == Answer(true)
      ensures m == PutImageData || m == DrawImage ==> r == Nothing
      ensures m !in {IsPointInPath, IsPointInStroke, PutImageData, DrawImage} ==> r == Placeholder
    {
      match m
      case IsPointInPath => r := Answer(true);
      case IsPointInStroke => r := Answer(true);
      case PutImageData => r := Nothing;
      case DrawImage => r := Nothing;
      case _ => r := Placeholder;
    }
  }

  /** `OffscreenCanvasPolyfill`: hands out one lazily created 2D context per canvas. */
  class OffscreenCanvasPolyfill {
    const canvas: CanvasElement
    const strings: StringTable
    const codec: Float32Codec
    var context: Context2DPolyfill?

    constructor (canvas: CanvasElement, strings: StringTable, codec: Float32Codec)
      ensures this.canvas == canvas && this.strings == strings && this.codec == codec
      ensures context == null
    {
      this.canvas := canvas;
      this.strings := strings;
      this.codec := codec;
      context := null;
    }

    /** `getContext`: only '2d' or '2D' may create the context; once created it is returned for any argument. */
    method GetContext(contextType: string) returns (r: Result<Context2DPolyfill>)
      modifies this
      ensures old(context) != null ==> context == old(context) && r == Ok(old(context))
      ensures old(context) == null && (contextType == "2D" || contextType == "2d") ==>
        && context != null && fresh(context) && r == Ok(context)
        && context.canvasElement == canvas && context.strings == strings && context.codec == codec
        && context.lineDash == []
      ensures old(context) == null && !(contextType == "2D" || contextType == "2d") ==>
        context == null && r == Err(ContextTypeNotSupported)
    {
      if context == null {
        if contextType == "2D" || contextType == "2d" {
          context := new Context2DPolyfill(canvas, strings, codec);
        } else {
          return Err(ContextTypeNotSupported);
        }
      }
      r := Ok(context);
    }
  }
}
