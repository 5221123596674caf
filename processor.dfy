/**
 * The transform pipeline of the image processor (`ProcessImageData`): resolve and validate
 * the output format, then run the optional stages background removal, resize and optimise
 * (an encode followed by a re-decode), in that fixed order, stopping at the first error.
 *
 * Images are opaque values and every collaborator (background removal, resize, optimise,
 * decode) is an arbitrary function that succeeds with a value or fails with a cause. The
 * method records, as a ghost trace, which collaborator it called on which input; the
 * functional definition `Pipeline` composes one function per stage, and the lemmas state
 * ordering, hand-off and short-circuit properties of that composition.
 */
module Processor {
  import opened Wrappers
  import opened GoInt
  import Formats
  import Quality

  type Bytes = seq<bv8>

  /** A decoded image; the pipeline never looks inside it. */
  datatype Image = Image(width: nat, height: nat, pixels: seq<int>)

  /** The error a collaborator returns. */
  datatype Cause = Cause(message: string)

  /** The resize collaborator's fit policy, passed through unchanged. */
  datatype ResizeMode = ResizeMode(code: int)

  /** The resampling filter; the pipeline always asks for Lanczos. */
  datatype Filter = Lanczos

  datatype ResizeOptions = ResizeOptions(width: int64, height: int64, mode: ResizeMode, filter: Filter)

  datatype ProcessOptions = ProcessOptions(
    width: int64,
    height: int64,
    resizeMode: ResizeMode,
    outputFormat: string,
    quality: int64,
    removeBackground: bool,
    optimizeImage: bool)

  datatype Config = Config(defaultQuality: int64, defaultFormat: string)

  datatype ImageProcessor = ImageProcessor(config: Config)

  /** The pipeline's result: the final image with the resolved format and the caller's quality. */
  datatype ProcessedImage = ProcessedImage(image: Image, format: string, quality: int64)

  /** The errors `ProcessImageData` returns, each naming the step that failed. */
  datatype Error =
    | UnsupportedFormat(format: string)
    | RemoveBackgroundFailed(cause: Cause)
    | ResizeFailed(cause: Cause)
    | OptimizeFailed(cause: Cause)
    | DecodeOptimizedFailed(cause: Cause)

  /**
   * The collaborators the pipeline calls. `optimize` stands for
   * `Optimize(buf, img, format, GetOptionsForQuality(format, tier))` and returns the bytes
   * it wrote into the buffer; `decode` stands for `image.Decode` of that buffer.
   */
  datatype Collaborators = Collaborators(
    removeBackground: Image -> Result<Image, Cause>,
    resize: (Image, ResizeOptions) -> Result<Image, Cause>,
    optimize: (Image, string, string) -> Result<Bytes, Cause>,
    decode: Bytes -> Result<Image, Cause>)

  /** `NewImageProcessor`: default quality 85 and default format "jpeg", a format the registry accepts. */
  function NewImageProcessor(): (p: ImageProcessor)
    ensures p.config.defaultQuality == 85 && p.config.defaultFormat == "jpeg"
    ensures Formats.IsValidFormat(p.config.defaultFormat)
  {
    ImageProcessor(Config(85, "jpeg"))
  }

  /** The output format after defaulting: an empty request takes the configured default. */
  function ResolveFormat(p: ImageProcessor, requested: string): (format: string)
    ensures requested == "" ==> format == p.config.defaultFormat
    ensures requested != "" ==> format == requested
  {
    if requested == "" then p.config.defaultFormat else requested
  }

  /** Resizing is requested when either dimension is positive. */
  predicate WantsResize(opts: ProcessOptions)
  {
    opts.width > 0 || opts.height > 0
  }

  function ResizeOptionsFor(opts: ProcessOptions): ResizeOptions
  {
    ResizeOptions(opts.width, opts.height, opts.resizeMode, Lanczos)
  }

  // ---------------------------------------------------------------------------------------
  // The call trace

  datatype Stage = BackgroundRemoval | Resize | Optimize | DecodeOptimized

  /** One collaborator call with the arguments it received. */
  datatype Call =
    | RemoveBackgroundCall(input: Image)
    | ResizeCall(input: Image, options: ResizeOptions)
    | OptimizeCall(input: Image, format: string, level: string)
    | DecodeCall(data: Bytes)

  /** What passes from one call to the next: an image, or the optimised bytes. */
  datatype Payload = ImageData(image: Image) | EncodedData(bytes: Bytes)

  function StageOf(c: Call): Stage
  {
    match c
    case RemoveBackgroundCall(_) => BackgroundRemoval
    case ResizeCall(_, _) => Resize
    case OptimizeCall(_, _, _) => Optimize
    case DecodeCall(_) => DecodeOptimized
  }

  /** The position of a stage in the fixed pipeline order. */
  function Rank(s: Stage): nat
  {
    match s
    case BackgroundRemoval => 0
    case Resize => 1
    case Optimize => 2
    case DecodeOptimized => 3
  }

  function InputOf(c: Call): Payload
  {
    match c
    case RemoveBackgroundCall(img) => ImageData(img)
    case ResizeCall(img, _) => ImageData(img)
    case OptimizeCall(img, _, _) => ImageData(img)
    case DecodeCall(data) => EncodedData(data)
  }

  function AsImage(r: Result<Image, Cause>): Result<Payload, Cause>
  {
    match r
    case Success(img) => Success(ImageData(img))
    case Failure(e) => Failure(e)
  }

  /** What the collaborator answers to a call. */
  function OutputOf(env: Collaborators, c: Call): Result<Payload, Cause>
  {
    match c
    case RemoveBackgroundCall(img) => AsImage(env.removeBackground(img))
    case ResizeCall(img, o) => AsImage(env.resize(img, o))
    case OptimizeCall(img, f, l) =>
      (match env.optimize(img, f, l)
       case Success(b) => Success(EncodedData(b))
       case Failure(e) => Failure(e))
    case DecodeCall(data) => AsImage(env.decode(data))
  }

  /** The error the pipeline reports when call `c` fails with `cause`. */
  function FailureOf(c: Call, cause: Cause): Error
  {
    match c
    case RemoveBackgroundCall(_) => RemoveBackgroundFailed(cause)
    case ResizeCall(_, _) => ResizeFailed(cause)
    case OptimizeCall(_, _, _) => OptimizeFailed(cause)
    case DecodeCall(_) => DecodeOptimizedFailed(cause)
  }

  function Last(t: seq<Call>): Call
    requires t != []
  {
    t[|t| - 1]
  }

  /** The stages that occur in a trace. */
  function Kinds(t: seq<Call>): set<Stage>
  {
    set c | c in t :: StageOf(c)
  }

  /** The stages the options ask for; optimising always includes the re-decode. */
  function Requested(opts: ProcessOptions): set<Stage>
  {
    (if opts.removeBackground then {BackgroundRemoval} else {})
    + (if WantsResize(opts) then {Resize} else {})
    + (if opts.optimizeImage then {Optimize, DecodeOptimized} else {})
  }

  // ---------------------------------------------------------------------------------------
  // The pipeline as a composition of stages

  /** The state between stages: still running with the current image, or stopped by an error. */
  datatype Progress =
    | Running(image: Image, trace: seq<Call>)
    | Aborted(error: Error, trace: seq<Call>)

  function Validate(format: string, img: Image): Progress
  {
    if Formats.IsValidFormat(format) then Running(img, []) else Aborted(UnsupportedFormat(format), [])
  }

  function BackgroundStage(s: Progress, opts: ProcessOptions, env: Collaborators): Progress
  {
    if s.Aborted? || !opts.removeBackground then s
    else
      var call := RemoveBackgroundCall(s.image);
      match env.removeBackground(s.image)
      case Success(out) => Running(out, s.trace + [call])
      case Failure(e) => Aborted(RemoveBackgroundFailed(e), s.trace + [call])
  }

  function ResizeStage(s: Progress, opts: ProcessOptions, env: Collaborators): Progress
  {
    if s.Aborted? || !WantsResize(opts) then s
    else
      var call := ResizeCall(s.image, ResizeOptionsFor(opts));
      match env.resize(s.image, ResizeOptionsFor(opts))
      case Success(out) => Running(out, s.trace + [call])
      case Failure(e) => Aborted(ResizeFailed(e), s.trace + [call])
  }

  function OptimizeStage(s: Progress, format: string, opts: ProcessOptions, env: Collaborators): Progress
  {
    if s.Aborted? || !opts.optimizeImage then s
    else
      var level := Quality.GetQualityLevel(opts.quality);
      var optimize := OptimizeCall(s.image, format, level);
      match env.optimize(s.image, format, level)
      case Failure(e) => Aborted(OptimizeFailed(e), s.trace + [optimize])
      case Success(buf) =>
        var decode := DecodeCall(buf);
        match env.decode(buf)
        case Failure(e) => Aborted(DecodeOptimizedFailed(e), s.trace + [optimize] + [decode])
        case Success(out) => Running(out, s.trace + [optimize] + [decode])
  }

  function Pipeline(p: ImageProcessor, img: Image, opts: ProcessOptions, env: Collaborators): Progress
  {
    var format := ResolveFormat(p, opts.outputFormat);
    OptimizeStage(ResizeStage(BackgroundStage(Validate(format, img), opts, env), opts, env), format, opts, env)
  }

  function Finish(s: Progress, format: string, quality: int64): Result<ProcessedImage, Error>
  {
    match s
    case Running(img, _) => Success(ProcessedImage(img, format, quality))
    case Aborted(e, _) => Failure(e)
  }

  /** The result `ProcessImageData` returns. */
  function Process(p: ImageProcessor, img: Image, opts: ProcessOptions, env: Collaborators): Result<ProcessedImage, Error>
  {
    Finish(Pipeline(p, img, opts, env), ResolveFormat(p, opts.outputFormat), opts.quality)
  }

  // ---------------------------------------------------------------------------------------
  // The imperative pipeline

  /**
   * `ProcessImageData`: the options are a local copy whose format is defaulted in place; the
   * current image is overwritten by each stage that fires and every failure returns at once.
   */
  method ProcessImageData(p: ImageProcessor, img: Image, opts: ProcessOptions, env: Collaborators)
    returns (r: Result<ProcessedImage, Error>, ghost trace: seq<Call>)
    ensures r == Process(p, img, opts, env) && trace == Pipeline(p, img, opts, env).trace
    ensures !Formats.IsValidFormat(ResolveFormat(p, opts.outputFormat)) ==>
              r == Failure(UnsupportedFormat(ResolveFormat(p, opts.outputFormat))) && trace == []
    ensures r.Success? ==> r.value.format == ResolveFormat(p, opts.outputFormat) && r.value.quality == opts.quality
    ensures r.Success? ==> Kinds(trace) == Requested(opts)
    ensures r.Failure? && trace != [] ==>
              OutputOf(env, Last(trace)).Failure? && r.error == FailureOf(Last(trace), OutputOf(env, Last(trace)).error)
  {
    ResultFacts(p, img, opts, env);
    var o := opts;
    if o.outputFormat == "" {
      o := o.(outputFormat := p.config.defaultFormat);
    }
    trace := [];
    if !Formats.IsValidFormat(o.outputFormat) {
      r := Failure(UnsupportedFormat(o.outputFormat));
      return;
    }

    var current := img;
    if o.removeBackground {
      var res := env.removeBackground(current);
      trace := trace + [RemoveBackgroundCall(current)];
      if res.Failure? {
        r := Failure(RemoveBackgroundFailed(res.error));
        return;
      }
      current := res.value;
    }

    if o.width > 0 || o.height > 0 {
      var resizeOpts := ResizeOptions(o.width, o.height, o.resizeMode, Lanczos);
      var res := env.resize(current, resizeOpts);
      trace := trace + [ResizeCall(current, resizeOpts)];
      if res.Failure? {
        r := Failure(ResizeFailed(res.error));
        return;
      }
      current := res.value;
    }

    if o.optimizeImage {
      var level := Quality.GetQualityLevel(o.quality);
      var buf := env.optimize(current, o.outputFormat, level);
      trace := trace + [OptimizeCall(current, o.outputFormat, level)];
      if buf.Failure? {
        r := Failure(OptimizeFailed(buf.error));
        return;
      }
      var decoded := env.decode(buf.value);
      trace := trace + [DecodeCall(buf.value)];
      if decoded.Failure? {
        r := Failure(DecodeOptimizedFailed(decoded.error));
        return;
      }
      current := decoded.value;
    }

    r := Success(ProcessedImage(current, o.outputFormat, o.quality));
  }

  // ---------------------------------------------------------------------------------------
  // Properties of the stage composition

  /** Each call after the first receives exactly what the call before it produced, and the first receives the input image. */
  ghost predicate Handoff(env: Collaborators, img: Image, t: seq<Call>)
  {
    (t != [] ==> InputOf(t[0]) == ImageData(img))
    && forall i :: 0 <= i < |t| - 1 ==> OutputOf(env, t[i]) == Success(InputOf(t[i + 1]))
  }

  /** Calls occur in strictly increasing stage order, so each stage runs at most once. */
  ghost predicate Ordered(t: seq<Call>)
  {
    forall i, j :: 0 <= i < j < |t| ==> Rank(StageOf(t[i])) < Rank(StageOf(t[j]))
  }

  ghost predicate Below(t: seq<Call>, n: nat)
  {
    forall i :: 0 <= i < |t| ==> Rank(StageOf(t[i])) < n
  }

  /**
   * What holds between stages: a running state holds the last call's output (or the input
   * image if nothing was called); an aborted state holds the wrapped error of a last call that
   * failed (or the format error if nothing was called).
   */
  ghost predicate Consistent(env: Collaborators, img: Image, s: Progress)
  {
    Handoff(env, img, s.trace) && Ordered(s.trace)
    && match s
       case Running(cur, t) =>
         if t == [] then cur == img else OutputOf(env, Last(t)) == Success(ImageData(cur))
       case Aborted(e, t) =>
         if t == [] then e.UnsupportedFormat?
         else OutputOf(env, Last(t)).Failure? && e == FailureOf(Last(t), OutputOf(env, Last(t)).error)
  }

  lemma {:induction false} AppendCall(env: Collaborators, img: Image, t: seq<Call>, c: Call)
    requires Handoff(env, img, t) && Ordered(t) && Below(t, Rank(StageOf(c)))
    requires t == [] ==> InputOf(c) == ImageData(img)
    requires t != [] ==> OutputOf(env, Last(t)) == Success(InputOf(c))
    ensures Handoff(env, img, t + [c]) && Ordered(t + [c])
    ensures Kinds(t + [c]) == Kinds(t) + {StageOf(c)}
  {
    var t' := t + [c];
    forall i | 0 <= i < |t'| - 1
      ensures OutputOf(env, t'[i]) == Success(InputOf(t'[i + 1]))
    {
      if i < |t| - 1 {
        assert t'[i] == t[i] && t'[i + 1] == t[i + 1];
      } else {
        assert t'[i] == Last(t) && t'[i + 1] == c;
      }
    }
    forall i, j | 0 <= i < j < |t'|
      ensures Rank(StageOf(t'[i])) < Rank(StageOf(t'[j]))
    {
      assert t'[i] == t[i];
    }
    assert forall x :: x in t' <==> x in t || x == c;
  }

  lemma ValidateConsistent(env: Collaborators, format: string, img: Image)
    ensures Consistent(env, img, Validate(format, img))
    ensures Kinds(Validate(format, img).trace) == {}
    ensures Validate(format, img).trace == []
  {
  }

  lemma {:induction false} BackgroundStageConsistent(env: Collaborators, img: Image, s: Progress, opts: ProcessOptions)
    requires Consistent(env, img, s) && Below(s.trace, Rank(BackgroundRemoval))
    ensures var s' := BackgroundStage(s, opts, env);
      Consistent(env, img, s') && Below(s'.trace, Rank(Resize))
      && Kinds(s.trace) <= Kinds(s'.trace) <= Kinds(s.trace) + Requested(opts)
      && (s'.Running? ==> s.Running? && Kinds(s'.trace) == Kinds(s.trace) + (if opts.removeBackground then {BackgroundRemoval} else {}))
    ensures !s.Running? || !opts.removeBackground ==> BackgroundStage(s, opts, env) == s
    ensures s.Running? && opts.removeBackground ==>
      BackgroundStage(s, opts, env).trace == s.trace + [RemoveBackgroundCall(s.image)]
  {
    if s.Running? && opts.removeBackground {
      var call := RemoveBackgroundCall(s.image);
      AppendCall(env, img, s.trace, call);
    }
  }

  lemma {:induction false} ResizeStageConsistent(env: Collaborators, img: Image, s: Progress, opts: ProcessOptions)
    requires Consistent(env, img, s) && Below(s.trace, Rank(Resize))
    ensures var s' := ResizeStage(s, opts, env);
      Consistent(env, img, s') && Below(s'.trace, Rank(Optimize))
      && Kinds(s.trace) <= Kinds(s'.trace) <= Kinds(s.trace) + Requested(opts)
      && (s'.Running? ==> s.Running? && Kinds(s'.trace) == Kinds(s.trace) + (if WantsResize(opts) then {Resize} else {}))
    ensures !s.Running? || !WantsResize(opts) ==> ResizeStage(s, opts, env) == s
    ensures s.Running? && WantsResize(opts) ==>
      ResizeStage(s, opts, env).trace == s.trace + [ResizeCall(s.image, ResizeOptionsFor(opts))]
  {
    if s.Running? && WantsResize(opts) {
      var call := ResizeCall(s.image, ResizeOptionsFor(opts));
      AppendCall(env, img, s.trace, call);
    }
  }

  lemma {:induction false} OptimizeStageConsistent(env: Collaborators, img: Image, s: Progress, format: string, opts: ProcessOptions)
    requires Consistent(env, img, s) && Below(s.trace, Rank(Optimize))
    ensures var s' := OptimizeStage(s, format, opts, env);
      Consistent(env, img, s')
      && Kinds(s.trace) <= Kinds(s'.trace) <= Kinds(s.trace) + Requested(opts)
      && (s'.Running? ==> s.Running? && Kinds(s'.trace) == Kinds(s.trace) + (if opts.optimizeImage then {Optimize, DecodeOptimized} else {}))
    ensures !s.Running? || !opts.optimizeImage ==> OptimizeStage(s, format, opts, env) == s
    ensures s.Running? && opts.optimizeImage ==>
      var level := Quality.GetQualityLevel(opts.quality);
      var t1 := s.trace + [OptimizeCall(s.image, format, level)];
      OptimizeStage(s, format, opts, env).trace
        == if env.optimize(s.image, format, level).Success?
           then t1 + [DecodeCall(env.optimize(s.image, format, level).value)]
           else t1
  {
    if s.Running? && opts.optimizeImage {
      assert {Optimize, DecodeOptimized} <= Requested(opts);
      OptimizeRunConsistent(env, img, s, format, Quality.GetQualityLevel(opts.quality));
    }
  }

  /** The optimise-and-decode step on a running state, with its three possible outcomes. */
  lemma {:induction false} OptimizeRunConsistent(env: Collaborators, img: Image, s: Progress, format: string, level: string)
    requires Consistent(env, img, s) && Below(s.trace, Rank(Optimize)) && s.Running?
    ensures var t1 := s.trace + [OptimizeCall(s.image, format, level)];
      match env.optimize(s.image, format, level)
      case Failure(e) =>
        Consistent(env, img, Aborted(OptimizeFailed(e), t1)) && Kinds(t1) == Kinds(s.trace) + {Optimize}
      case Success(buf) =>
        var t2 := t1 + [DecodeCall(buf)];
        Kinds(t2) == Kinds(s.trace) + {Optimize, DecodeOptimized}
        && match env.decode(buf)
           case Failure(e) => Consistent(env, img, Aborted(DecodeOptimizedFailed(e), t2))
           case Success(out) => Consistent(env, img, Running(out, t2))
  {
    var optimize := OptimizeCall(s.image, format, level);
    AppendCall(env, img, s.trace, optimize);
    var t1 := s.trace + [optimize];
    match env.optimize(s.image, format, level)
    case Failure(e) =>
      AbortedAfter(env, img, t1, e);
    case Success(buf) =>
      DecodeRunConsistent(env, img, t1, buf);
  }

  /** The re-decode receives exactly the bytes the optimise call produced. */
  lemma DecodeRunConsistent(env: Collaborators, img: Image, t1: seq<Call>, buf: Bytes)
    requires Handoff(env, img, t1) && Ordered(t1) && Below(t1, Rank(DecodeOptimized)) && t1 != []
    requires OutputOf(env, Last(t1)) == Success(EncodedData(buf))
    ensures var t2 := t1 + [DecodeCall(buf)];
      Kinds(t2) == Kinds(t1) + {DecodeOptimized}
      && match env.decode(buf)
         case Failure(e) => Consistent(env, img, Aborted(DecodeOptimizedFailed(e), t2))
         case Success(out) => Consistent(env, img, Running(out, t2))
  {
    var t2 := t1 + [DecodeCall(buf)];
    AppendCall(env, img, t1, DecodeCall(buf));
    match env.decode(buf)
    case Failure(e) =>
      AbortedAfter(env, img, t2, e);
    case Success(out) =>
      RunningAfter(env, img, t2, out);
  }

  /** A trace whose last call failed, closed by the error wrapping that failure, is consistent. */
  lemma AbortedAfter(env: Collaborators, img: Image, t: seq<Call>, cause: Cause)
    requires Handoff(env, img, t) && Ordered(t) && t != []
    requires OutputOf(env, Last(t)) == Failure(cause)
    ensures Consistent(env, img, Aborted(FailureOf(Last(t), cause), t))
  {
  }

  /** A trace whose last call produced `out`, continued with `out` as the current image, is consistent. */
  lemma RunningAfter(env: Collaborators, img: Image, t: seq<Call>, out: Image)
    requires Handoff(env, img, t) && Ordered(t) && t != []
    requires OutputOf(env, Last(t)) == Success(ImageData(out))
    ensures Consistent(env, img, Running(out, t))
  {
  }

  /** The whole composition keeps the stage invariant, and only requested stages appear. */
  lemma {:induction false} PipelineConsistent(p: ImageProcessor, img: Image, opts: ProcessOptions, env: Collaborators)
    ensures Consistent(env, img, Pipeline(p, img, opts, env))
    ensures Kinds(Pipeline(p, img, opts, env).trace) <= Requested(opts)
    ensures Pipeline(p, img, opts, env).Running? ==> Kinds(Pipeline(p, img, opts, env).trace) == Requested(opts)
  {
    var format := ResolveFormat(p, opts.outputFormat);
    var s0 := Validate(format, img);
    ValidateConsistent(env, format, img);
    var s1 := BackgroundStage(s0, opts, env);
    BackgroundStageConsistent(env, img, s0, opts);
    var s2 := ResizeStage(s1, opts, env);
    ResizeStageConsistent(env, img, s1, opts);
    OptimizeStageConsistent(env, img, s2, format, opts);
  }

  /** The facts the method's postconditions draw from the composition. */
  lemma ResultFacts(p: ImageProcessor, img: Image, opts: ProcessOptions, env: Collaborators)
    ensures var s := Pipeline(p, img, opts, env); var r := Process(p, img, opts, env);
      (r.Success? ==> Kinds(s.trace) == Requested(opts))
      && (r.Failure? && s.trace != [] ==>
            OutputOf(env, Last(s.trace)).Failure? && r.error == FailureOf(Last(s.trace), OutputOf(env, Last(s.trace)).error))
  {
    PipelineConsistent(p, img, opts, env);
  }
}
