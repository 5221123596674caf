/**
 * What `ProcessImageData` promises, stated over the stage composition `Processor.Pipeline`
 * that the method is proved equal to: format gate first, fixed stage order, each stage fed
 * by the previous one, errors terminal, and the shape of a successful result.
 */
module PipelineProperties {
  import opened Wrappers
  import opened GoInt
  import Formats
  import Quality
  import opened Processor

  /**
   * Calls happen in the fixed order background removal, resize, optimise, re-decode, each at
   * most once; the first call receives the input image and every later call receives what the
   * call before it produced.
   */
  lemma StagesRunInOrder(p: ImageProcessor, img: Image, opts: ProcessOptions, env: Collaborators)
    ensures var t := Pipeline(p, img, opts, env).trace;
      (t != [] ==> InputOf(t[0]) == ImageData(img))
      && (forall i, j :: 0 <= i < j < |t| ==> Rank(StageOf(t[i])) < Rank(StageOf(t[j])))
      && (forall i :: 0 <= i < |t| - 1 ==> OutputOf(env, t[i]) == Success(InputOf(t[i + 1])))
  {
    PipelineConsistent(p, img, opts, env);
  }

  /** An unsupported format is reported before any collaborator is called; a supported one is never reported as unsupported. */
  lemma UnsupportedFormatRejectedFirst(p: ImageProcessor, img: Image, opts: ProcessOptions, env: Collaborators)
    ensures var format := ResolveFormat(p, opts.outputFormat);
      !Formats.IsValidFormat(format) <==>
        (Pipeline(p, img, opts, env).trace == [] && Process(p, img, opts, env) == Failure(UnsupportedFormat(format)))
    ensures var r := Process(p, img, opts, env);
      r.Failure? && r.error.UnsupportedFormat? ==> !Formats.IsValidFormat(ResolveFormat(p, opts.outputFormat))
  {
    var format := ResolveFormat(p, opts.outputFormat);
    var s0 := Validate(format, img);
    var s1 := BackgroundStage(s0, opts, env);
    var s2 := ResizeStage(s1, opts, env);
    var s3 := OptimizeStage(s2, format, opts, env);
    assert s1.Aborted? ==> s1.trace != [] || s0.Aborted?;
    assert s2.Aborted? ==> s2.trace != [] || s0.Aborted?;
    assert s3.Aborted? ==> s3.trace != [] || s0.Aborted?;
  }

  /** An empty format means the configured default, so with `NewImageProcessor` it is accepted and resolves to "jpeg". */
  lemma EmptyFormatUsesDefault(img: Image, opts: ProcessOptions, env: Collaborators)
    requires opts.outputFormat == ""
    ensures ResolveFormat(NewImageProcessor(), opts.outputFormat) == "jpeg"
    ensures var r := Process(NewImageProcessor(), img, opts, env);
      !(r.Failure? && r.error.UnsupportedFormat?)
      && (r.Success? ==> r.value.format == "jpeg")
  {
    UnsupportedFormatRejectedFirst(NewImageProcessor(), img, opts, env);
  }

  /**
   * A failing collaborator call is the last call made and the pipeline then returns only an
   * error, the one wrapping that call's cause; a successful run had every call succeed.
   */
  lemma ErrorsAreTerminal(p: ImageProcessor, img: Image, opts: ProcessOptions, env: Collaborators)
    ensures var t := Pipeline(p, img, opts, env).trace; var r := Process(p, img, opts, env);
      (forall i :: 0 <= i < |t| && OutputOf(env, t[i]).Failure? ==> i == |t| - 1 && r.Failure?)
      && (r.Failure? && t != [] ==>
            OutputOf(env, Last(t)).Failure? && r.error == FailureOf(Last(t), OutputOf(env, Last(t)).error))
      && (r.Success? ==> forall i :: 0 <= i < |t| ==> OutputOf(env, t[i]).Success?)
  {
    PipelineConsistent(p, img, opts, env);
  }

  /**
   * On success the result holds the last stage's output (the input image when no stage ran),
   * the resolved format and the caller's quality unchanged; exactly the requested stages ran.
   */
  lemma SuccessfulResult(p: ImageProcessor, img: Image, opts: ProcessOptions, env: Collaborators)
    ensures var t := Pipeline(p, img, opts, env).trace; var r := Process(p, img, opts, env);
      r.Success? ==>
        r.value.format == ResolveFormat(p, opts.outputFormat) && Formats.IsValidFormat(r.value.format)
        && r.value.quality == opts.quality
        && Kinds(t) == Requested(opts)
        && (t == [] ==> r.value.image == img)
        && (t != [] ==> OutputOf(env, Last(t)) == Success(ImageData(r.value.image)))
    ensures Formats.IsValidFormat(ResolveFormat(p, opts.outputFormat)) && Requested(opts) == {} ==>
      Process(p, img, opts, env) == Success(ProcessedImage(img, ResolveFormat(p, opts.outputFormat), opts.quality))
  {
    PipelineConsistent(p, img, opts, env);
    UnsupportedFormatRejectedFirst(p, img, opts, env);
  }

  /** Only requested stages are ever called, whatever the outcome. */
  lemma OnlyRequestedStagesRun(p: ImageProcessor, img: Image, opts: ProcessOptions, env: Collaborators)
    ensures Kinds(Pipeline(p, img, opts, env).trace) <= Requested(opts)
    ensures !opts.removeBackground ==> forall c :: c in Pipeline(p, img, opts, env).trace ==> !c.RemoveBackgroundCall?
    ensures !WantsResize(opts) ==> forall c :: c in Pipeline(p, img, opts, env).trace ==> !c.ResizeCall?
    ensures !opts.optimizeImage ==>
      forall c :: c in Pipeline(p, img, opts, env).trace ==> !c.OptimizeCall? && !c.DecodeCall?
  {
    PipelineConsistent(p, img, opts, env);
    var t := Pipeline(p, img, opts, env).trace;
    forall c | c in t ensures StageOf(c) in Requested(opts) {
      assert StageOf(c) in Kinds(t);
    }
  }

  /**
   * With a supported format every requested stage is called, unless an earlier stage's call
   * failed: a requested stage missing from the calls ranks after the failing last call.
   */
  lemma RequestedStagesRunUntilFailure(p: ImageProcessor, img: Image, opts: ProcessOptions, env: Collaborators)
    ensures var t := Pipeline(p, img, opts, env).trace;
      Formats.IsValidFormat(ResolveFormat(p, opts.outputFormat)) ==>
        forall st :: st in Requested(opts) ==>
          st in Kinds(t) || (t != [] && OutputOf(env, Last(t)).Failure? && Rank(StageOf(Last(t))) < Rank(st))
  {
    var format := ResolveFormat(p, opts.outputFormat);
    var s0 := Validate(format, img);
    var s1 := BackgroundStage(s0, opts, env);
    var s2 := ResizeStage(s1, opts, env);
    var s3 := OptimizeStage(s2, format, opts, env);
    if !Formats.IsValidFormat(format) {
    } else if s3.Running? {
      PipelineConsistent(p, img, opts, env);
    } else if s1.Aborted? {
      BackgroundAbortCovers(img, opts, env);
    } else if s2.Aborted? {
      ValidateConsistent(env, format, img);
      BackgroundStageConsistent(env, img, s0, opts);
      ResizeAbortCovers(img, s1, opts, env);
    } else {
      ValidateConsistent(env, format, img);
      BackgroundStageConsistent(env, img, s0, opts);
      ResizeStageConsistent(env, img, s1, opts);
      OptimizeAbortCovers(img, s2, format, opts, env);
    }
  }

  /** Background removal failed: it is the only call. */
  lemma BackgroundAbortCovers(img: Image, opts: ProcessOptions, env: Collaborators)
    requires BackgroundStage(Running(img, []), opts, env).Aborted?
    ensures var t := BackgroundStage(Running(img, []), opts, env).trace;
      t == [RemoveBackgroundCall(img)] && OutputOf(env, Last(t)).Failure? && Kinds(t) == {BackgroundRemoval}
  {
    var t := BackgroundStage(Running(img, []), opts, env).trace;
    assert t[0] in t;
  }

  /** Resize failed on a running state: its call is the last one, after the requested background removal. */
  lemma ResizeAbortCovers(img: Image, s: Progress, opts: ProcessOptions, env: Collaborators)
    requires s.Running? && Kinds(s.trace) == (if opts.removeBackground then {BackgroundRemoval} else {})
    requires ResizeStage(s, opts, env).Aborted?
    ensures var t := ResizeStage(s, opts, env).trace;
      t != [] && Last(t).ResizeCall? && OutputOf(env, Last(t)).Failure?
      && Kinds(t) == Kinds(s.trace) + {Resize}
  {
    KindsSnoc(s.trace, ResizeCall(s.image, ResizeOptionsFor(opts)));
  }

  /** Optimise or the re-decode failed on a running state: the failing call is the last one, and optimise ran. */
  lemma OptimizeAbortCovers(img: Image, s: Progress, format: string, opts: ProcessOptions, env: Collaborators)
    requires s.Running?
    requires OptimizeStage(s, format, opts, env).Aborted?
    ensures var t := OptimizeStage(s, format, opts, env).trace;
      t != [] && OutputOf(env, Last(t)).Failure?
      && (Last(t).OptimizeCall? || Last(t).DecodeCall?)
      && Kinds(t) == Kinds(s.trace) + {Optimize} + (if Last(t).DecodeCall? then {DecodeOptimized} else {})
  {
    var level := Quality.GetQualityLevel(opts.quality);
    var t1 := s.trace + [OptimizeCall(s.image, format, level)];
    KindsSnoc(s.trace, OptimizeCall(s.image, format, level));
    if env.optimize(s.image, format, level).Success? {
      KindsSnoc(t1, DecodeCall(env.optimize(s.image, format, level).value));
    }
  }

  /** Appending a call adds exactly its stage to the set of stages called. */
  lemma KindsSnoc(t: seq<Call>, c: Call)
    ensures Kinds(t + [c]) == Kinds(t) + {StageOf(c)}
  {
    assert c in t + [c];
    forall d | d in t + [c] ensures d in t || d == c { }
    forall d | d in t ensures d in t + [c] { }
  }

  /** Resize gets the caller's dimensions and mode with the Lanczos filter; optimise gets the resolved format and the quality's tier. */
  lemma CollaboratorArguments(p: ImageProcessor, img: Image, opts: ProcessOptions, env: Collaborators)
    ensures forall c :: c in Pipeline(p, img, opts, env).trace && c.ResizeCall? ==>
      c.options == ResizeOptions(opts.width, opts.height, opts.resizeMode, Lanczos)
    ensures forall c :: c in Pipeline(p, img, opts, env).trace && c.OptimizeCall? ==>
      c.format == ResolveFormat(p, opts.outputFormat) && c.level == Quality.GetQualityLevel(opts.quality)
  {
    var format := ResolveFormat(p, opts.outputFormat);
    var s0 := Validate(format, img);
    var s1 := BackgroundStage(s0, opts, env);
    var s2 := ResizeStage(s1, opts, env);
    assert forall c :: c in s1.trace ==> c.RemoveBackgroundCall?;
    assert forall c :: c in s2.trace ==> c.RemoveBackgroundCall? || c == ResizeCall(s1.image, ResizeOptionsFor(opts));
  }

  /** Background removal's output is exactly what resize receives when both are requested and removal succeeds. */
  lemma BackgroundOutputFeedsResize(p: ImageProcessor, img: Image, opts: ProcessOptions, env: Collaborators, cleared: Image)
    requires Formats.IsValidFormat(ResolveFormat(p, opts.outputFormat))
    requires opts.removeBackground && WantsResize(opts)
    requires env.removeBackground(img) == Success(cleared)
    ensures var t := Pipeline(p, img, opts, env).trace;
      |t| >= 2 && t[0] == RemoveBackgroundCall(img) && t[1] == ResizeCall(cleared, ResizeOptionsFor(opts))
  {
  }

  /** A failing resize stops the pipeline: neither optimise nor the re-decode is called. */
  lemma ResizeFailureSkipsOptimize(p: ImageProcessor, img: Image, opts: ProcessOptions, env: Collaborators)
    requires exists c :: c in Pipeline(p, img, opts, env).trace && c.ResizeCall? && OutputOf(env, c).Failure?
    ensures forall c :: c in Pipeline(p, img, opts, env).trace ==> !c.OptimizeCall? && !c.DecodeCall?
    ensures Process(p, img, opts, env).Failure? && Process(p, img, opts, env).error.ResizeFailed?
  {
    ErrorsAreTerminal(p, img, opts, env);
    StagesRunInOrder(p, img, opts, env);
    var t := Pipeline(p, img, opts, env).trace;
    var c :| c in t && c.ResizeCall? && OutputOf(env, c).Failure?;
    var k :| 0 <= k < |t| && t[k] == c;
    assert k == |t| - 1;
    forall d | d in t ensures !d.OptimizeCall? && !d.DecodeCall? {
      var m :| 0 <= m < |t| && t[m] == d;
      if m != k {
        assert Rank(StageOf(t[m])) < Rank(StageOf(t[k]));
      }
    }
  }

  /** `Config.DefaultQuality` is never read: processors that differ only in it give the same result and trace. */
  lemma DefaultQualityUnused(q1: int64, q2: int64, format: string, img: Image, opts: ProcessOptions, env: Collaborators)
    ensures Process(ImageProcessor(Config(q1, format)), img, opts, env) == Process(ImageProcessor(Config(q2, format)), img, opts, env)
    ensures Pipeline(ImageProcessor(Config(q1, format)), img, opts, env).trace == Pipeline(ImageProcessor(Config(q2, format)), img, opts, env).trace
  {
  }
}
