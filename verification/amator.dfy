/**
 * The property tween bundled in dist/bundle.js (amator).  animate(source, target,
 * options) moves every key of target in the caller's source object from its current
 * value to the target value, one scheduler callback at a time; the environment plays
 * the scheduler by calling Step.
 */
module Amator {
  import opened Base
  import BezierEasing

  const DEFAULT_DURATION: real := 400.0
  const FRAMES_PER_MS: real := 0.06  // 60 frames per 1000 ms

  /** options.easing as the caller passes it: absent, a preset name, or a function. */
  datatype EasingOption = Unspecified | Named(name: string) | Custom(f: real -> real)

  /** The easing animate settles on. */
  datatype Easing = Bezier(curve: BezierEasing.Curve) | Function(f: real -> real)

  predicate EasingValid(e: Easing) {
    e.Bezier? ==> BezierEasing.ValidX(e.curve)
  }

  function EasingAt(e: Easing, x: real): real
    requires EasingValid(e)
  {
    match e
    case Bezier(c) => BezierEasing.EaseAt(c, x)
    case Function(f) => f(x)
  }

  /** A function is used as given; a preset name picks the preset; anything else
      (no easing, an unknown name) falls back to the ease preset. */
  function ResolveEasing(opt: EasingOption): (e: Easing)
    ensures EasingValid(e)
    ensures opt.Custom? ==> e == Function(opt.f)
    ensures opt.Named? && BezierEasing.PresetNamed(opt.name).Some? ==>
      e == Bezier(BezierEasing.PresetCurve(BezierEasing.PresetNamed(opt.name).value))
    ensures opt.Unspecified? || (opt.Named? && BezierEasing.PresetNamed(opt.name).None?) ==>
      e == Bezier(BezierEasing.PresetCurve(BezierEasing.Ease))
  {
    match opt
    case Custom(f) => Function(f)
    case Named(name) =>
      (match BezierEasing.PresetNamed(name)
       case Some(p) => Bezier(BezierEasing.PresetCurve(p))
       case None => Bezier(BezierEasing.PresetCurve(BezierEasing.Ease)))
    case Unspecified => Bezier(BezierEasing.PresetCurve(BezierEasing.Ease))
  }

  /** Whatever the option, unless it is a custom function the tween starts exactly at
      source and ends exactly at target: the resolved easing maps 0 to 0 and 1 to 1. */
  lemma ResolvedEasingFixesEnds(opt: EasingOption)
    requires !opt.Custom?
    ensures EasingAt(ResolveEasing(opt), 0.0) == 0.0
    ensures EasingAt(ResolveEasing(opt), 1.0) == 1.0
  {
    var e := ResolveEasing(opt);
    assert e.Bezier? && BezierEasing.ValidX(e.curve);
  }

  /** options.scheduler: absent, or an object that may lack next or cancel. */
  datatype SchedulerOption = DefaultScheduler | Supplied(hasNext: bool, hasCancel: bool)

  /** getScheduler: a supplied scheduler must have both next and cancel, next checked first. */
  function GetScheduler(opt: SchedulerOption): (r: Result<SchedulerOption>)
    ensures r.Ok? <==> (opt.Supplied? ==> opt.hasNext && opt.hasCancel)
    ensures r.Ok? ==> r.value == opt
    ensures r.Err? ==> r.error == (if !opt.hasNext then SchedulerWithoutNext else SchedulerWithoutCancel)
  {
    match opt
    case DefaultScheduler => Ok(opt)
    case Supplied(hasNext, hasCancel) =>
      if !hasNext then Err(SchedulerWithoutNext)
      else if !hasCancel then Err(SchedulerWithoutCancel)
      else Ok(opt)
  }

  datatype Options = Options(duration: Option<real>, easing: EasingOption, scheduler: SchedulerOption)

  /** options.duration || 400: a missing or zero duration means 400 ms. */
  function DurationInMs(d: Option<real>): (ms: real)
    ensures ms != 0.0
    ensures d.Some? && d.value != 0.0 ==> ms == d.value
    ensures d == None || d == Some(0.0) ==> ms == DEFAULT_DURATION
  {
    if d.Some? && d.value != 0.0 then d.value else DEFAULT_DURATION
  }

  /** durationInFrames as written: Math.max(1, ms * 0.06), not always a whole number. */
  function FramesAsWritten(ms: real): (f: real)
    ensures f >= 1.0 && f >= ms * FRAMES_PER_MS
    ensures f == 1.0 || f == ms * FRAMES_PER_MS
  {
    Max(1.0, ms * FRAMES_PER_MS)
  }

  /** durationInFrames rounded up to whole frames, so that the last step lands on the target. */
  function Frames(ms: real): (f: real)
    ensures f >= 1.0 && f >= ms * FRAMES_PER_MS
    ensures f == f.Floor as real
    ensures f < FramesAsWritten(ms) + 1.0
  {
    var exact := ms * FRAMES_PER_MS;
    var up := if exact == exact.Floor as real then exact else (exact.Floor + 1) as real;
    Max(1.0, up)
  }

  /** Where the two agree: whenever ms * 0.06 is already a whole number (400 ms gives 24). */
  lemma FramesAgreeOnWholeFrames(ms: real)
    requires ms * FRAMES_PER_MS == (ms * FRAMES_PER_MS).Floor as real
    ensures Frames(ms) == FramesAsWritten(ms)
  {
  }

  /** The easing argument of the last step of a run over durationInFrames frames:
      that step starts at frame floor(durationInFrames). */
  function LastProgress(durationInFrames: real): (p: real)
    requires durationInFrames >= 1.0
    ensures 0.0 < p <= 1.0
    ensures p == 1.0 <==> durationInFrames == durationInFrames.Floor as real
  {
    var last := durationInFrames.Floor as real;
    assert 1.0 <= last <= durationInFrames;
    last / durationInFrames
  }

  /** As written, a 20 ms duration gives 1.2 frames; the second and last step eases
      only 5/6 of the way, so a linear tween from 0 to 100 stops at 250/3. */
  lemma AsWrittenStopsShort()
    ensures FramesAsWritten(DurationInMs(Some(20.0))) == 1.2
    ensures LastProgress(1.2) == 5.0 / 6.0
    ensures 100.0 * EasingAt(Bezier(BezierEasing.PresetCurve(BezierEasing.Linear)), LastProgress(1.2)) + 0.0 == 250.0 / 3.0
  {
    assert (1.2).Floor == 1;
  }

  /** With whole frames the last step always eases at progress exactly 1. */
  lemma CorrectedLandsOnTarget(ms: real)
    ensures LastProgress(Frames(ms)) == 1.0
  {
  }

  /** The caller's object whose numeric fields animate writes in place. */
  class Record {
    var values: map<string, real>

    constructor (values: map<string, real>)
      ensures this.values == values
    {
      this.values := values;
    }
  }

  /** The closure state of one animate call. */
  class Tween {
    const source: Record
    const keys: set<string>              // Object.keys(target)
    const start: map<string, real>
    const diff: map<string, real>
    const easing: Easing
    const durationInFrames: real
    var frame: nat
    var handle: int                      // previousAnimationId; 0 once finished or cancelled

    ghost predicate Valid()
      reads this, source
    {
      EasingValid(easing) && durationInFrames >= 1.0 &&
      keys == start.Keys && keys == diff.Keys && keys <= source.values.Keys
    }

    /** Snapshots start and diff for every key of target, and holds the first handle. */
    constructor (source: Record, target: map<string, real>, easing: Easing, durationInFrames: real, firstHandle: int)
      requires target.Keys <= source.values.Keys
      requires EasingValid(easing) && durationInFrames >= 1.0
      ensures Valid()
      ensures this.source == source && keys == target.Keys
      ensures this.easing == easing && this.durationInFrames == durationInFrames
      ensures frame == 0 && handle == firstHandle
      ensures forall k :: k in keys ==> start[k] == source.values[k] && diff[k] == target[k] - source.values[k]
    {
      this.source := source;
      keys := target.Keys;
      start := map k | k in target.Keys :: source.values[k];
      diff := map k | k in target.Keys :: target[k] - source.values[k];
      this.easing := easing;
      this.durationInFrames := durationInFrames;
      frame := 0;
      handle := firstHandle;
    }

    /** loop: ease at frame / durationInFrames, advance the frame, write every key,
        then reschedule while frame <= durationInFrames or finish. */
    method Step(nextHandle: int)
      requires Valid() && handle != 0 && nextHandle != 0
      modifies this, source
      ensures Valid()
      ensures frame == old(frame) + 1
      ensures handle == if frame as real <= durationInFrames then nextHandle else 0
      ensures source.values.Keys == old(source.values.Keys)
      ensures forall k :: k in keys ==>
        source.values[k] == diff[k] * EasingAt(easing, old(frame) as real / durationInFrames) + start[k]
      ensures forall k :: k in old(source.values) && k !in keys ==> source.values[k] == old(source.values[k])
    {
      var t := EasingAt(easing, frame as real / durationInFrames);
      frame := frame + 1;
      SetValues(t);
      if frame as real <= durationInFrames {
        handle := nextHandle;
      } else {
        handle := 0;
      }
    }

    /** setValues: keys.forEach(key => source[key] = diff[key] * t + start[key]). */
    method SetValues(t: real)
      requires Valid()
      modifies source
      ensures Valid()
      ensures source.values.Keys == old(source.values.Keys)
      ensures forall k :: k in keys ==> source.values[k] == diff[k] * t + start[k]
      ensures forall k :: k in old(source.values) && k !in keys ==> source.values[k] == old(source.values[k])
    {
      var remaining := keys;
      while remaining != {}
        invariant remaining <= keys
        invariant source.values.Keys == old(source.values.Keys)
        invariant forall k :: k in source.values ==>
          source.values[k] == if k in keys && k !in remaining then diff[k] * t + start[k] else old(source.values[k])
        decreases remaining
      {
        var key :| key in remaining;
        source.values := source.values[key := diff[key] * t + start[key]];
        remaining := remaining - {key};
      }
    }

    /** cancel: the scheduler drops the pending callback and the handle is cleared. */
    method Cancel()
      modifies this`handle
      ensures handle == 0
    {
      handle := 0;
    }
  }

  /** animate as written: resolves the easing, validates the scheduler (which may throw),
      snapshots the keys of target and schedules the first step, whose handle is
      firstHandle.  The frame count is Math.max(1, ms * 0.06), whole or not. */
  method Animate(source: Record, target: map<string, real>, options: Options, firstHandle: int)
    returns (r: Result<Tween>)
    requires target.Keys <= source.values.Keys
    ensures r.Err? <==> GetScheduler(options.scheduler).Err?
    ensures r.Err? ==> r.error == GetScheduler(options.scheduler).error
    ensures r.Ok? ==> fresh(r.value) && r.value.Valid() && r.value.source == source
    ensures r.Ok? ==> r.value.keys == target.Keys && r.value.frame == 0 && r.value.handle == firstHandle
    ensures r.Ok? ==> r.value.easing == ResolveEasing(options.easing)
    ensures r.Ok? ==> r.value.durationInFrames == FramesAsWritten(DurationInMs(options.duration))
    ensures r.Ok? ==> forall k :: k in target ==> r.value.start[k] == source.values[k]
    ensures r.Ok? ==> forall k :: k in target ==> r.value.start[k] + r.value.diff[k] == target[k]
  {
    r := StartTween(source, target, options, firstHandle, FramesAsWritten(DurationInMs(options.duration)));
  }

  /** animate with the frame count rounded up to whole frames, so that (by
      RunToCompletion and CorrectedLandsOnTarget) the last step lands on the target. */
  method AnimateCorrected(source: Record, target: map<string, real>, options: Options, firstHandle: int)
    returns (r: Result<Tween>)
    requires target.Keys <= source.values.Keys
    ensures r.Err? <==> GetScheduler(options.scheduler).Err?
    ensures r.Err? ==> r.error == GetScheduler(options.scheduler).error
    ensures r.Ok? ==> fresh(r.value) && r.value.Valid() && r.value.source == source
    ensures r.Ok? ==> r.value.keys == target.Keys && r.value.frame == 0 && r.value.handle == firstHandle
    ensures r.Ok? ==> r.value.easing == ResolveEasing(options.easing)
    ensures r.Ok? ==> r.value.durationInFrames == Frames(DurationInMs(options.duration))
    ensures r.Ok? ==> forall k :: k in target ==> r.value.start[k] == source.values[k]
    ensures r.Ok? ==> forall k :: k in target ==> r.value.start[k] + r.value.diff[k] == target[k]
  {
    r := StartTween(source, target, options, firstHandle, Frames(DurationInMs(options.duration)));
  }

  /** The body of animate for a given frame count. */
  method StartTween(source: Record, target: map<string, real>, options: Options, firstHandle: int,
                    durationInFrames: real)
    returns (r: Result<Tween>)
    requires target.Keys <= source.values.Keys && durationInFrames >= 1.0
    ensures r.Err? <==> GetScheduler(options.scheduler).Err?
    ensures r.Err? ==> r.error == GetScheduler(options.scheduler).error
    ensures r.Ok? ==> fresh(r.value) && r.value.Valid() && r.value.source == source
    ensures r.Ok? ==> r.value.keys == target.Keys && r.value.frame == 0 && r.value.handle == firstHandle
    ensures r.Ok? ==> r.value.easing == ResolveEasing(options.easing)
    ensures r.Ok? ==> r.value.durationInFrames == durationInFrames
    ensures r.Ok? ==> forall k :: k in target ==> r.value.start[k] == source.values[k]
    ensures r.Ok? ==> forall k :: k in target ==> r.value.start[k] + r.value.diff[k] == target[k]
  {
    var easing := ResolveEasing(options.easing);
    var scheduler := GetScheduler(options.scheduler);
    if scheduler.Err? {
      return Err(scheduler.error);
    }
    var tween := new Tween(source, target, easing, durationInFrames, firstHandle);
    r := Ok(tween);
  }

  /** The scheduler driving a fresh tween to the end: floor(durationInFrames) + 1 steps,
      the last of which eases at LastProgress(durationInFrames). */
  method RunToCompletion(tween: Tween) returns (steps: nat)
    requires tween.Valid() && tween.frame == 0 && tween.handle != 0
    modifies tween, tween.source
    ensures tween.Valid() && tween.handle == 0
    ensures steps == tween.frame == tween.durationInFrames.Floor + 1
    ensures forall k :: k in tween.keys ==>
      tween.source.values[k] == tween.diff[k] * EasingAt(tween.easing, LastProgress(tween.durationInFrames)) + tween.start[k]
  {
    steps := 0;
    while tween.handle != 0
      invariant tween.Valid()
      invariant tween.frame == steps
      invariant steps as real <= tween.durationInFrames + 1.0
      invariant tween.handle != 0 <==> steps as real <= tween.durationInFrames
      invariant steps > 0 ==> forall k :: k in tween.keys ==>
        tween.source.values[k] == tween.diff[k] * EasingAt(tween.easing, (steps - 1) as real / tween.durationInFrames) + tween.start[k]
      decreases tween.durationInFrames.Floor + 1 - steps
    {
      tween.Step(1);
      steps := steps + 1;
    }
    assert steps - 1 == tween.durationInFrames.Floor;
  }
}
