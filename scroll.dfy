/** The scroll animator: resolves the options, computes the clamped target,
    and drives the frame loop that writes the viewport's vertical offset.
    The host's geometry queries are inputs, the frame clock is a sequence of
    timestamps, and the scroll writes are returned as a sequence. */
module Scroll {
  import opened Easings

  datatype Option<T> = None | Some(value: T)

  /** Duration used when the caller gives none, in milliseconds. */
  const DefaultDuration: real := 500.0

  /** Easing name used when the caller gives none. */
  const DefaultEasingName: string := "easeInOutCubic"

  /** The caller's options; each may be left out. */
  datatype ScrollOptions = ScrollOptions(duration: Option<real>, easing: Option<EasingSpec>, offset: Option<real>)

  /** The target element: the top of its bounding rectangle, relative to the viewport. */
  datatype Element = Element(top: real)

  /** The viewport geometry read when the call is made. */
  datatype Page = Page(pageYOffset: real, scrollHeight: real, innerHeight: real)

  /** The options once every omitted one has its default. */
  datatype Settings = Settings(offset: real, duration: real, easing: Easing)

  /** One animation: where it starts, where it ends, how long, and the
      resolved timing function the frames apply. */
  datatype Animation = Animation(startingY: real, targetY: real, duration: real, ease: real -> real)
  {
    /** The distance to cover, computed once. */
    function Diff(): real { targetY - startingY }
  }

  /** `x ?? d`: the given value, or the default when it is absent. Only an
      absent value is replaced; a given 0 stays 0. */
  function OrDefault<T>(x: Option<T>, d: T): (r: T)
    ensures x.Some? ==> r == x.value
    ensures x.None? ==> r == d
  {
    match x
    case Some(v) => v
    case None => d
  }

  /** Resolves the three options; an omitted option object omits all three. */
  function Resolve(params: Option<ScrollOptions>): (s: Settings)
    ensures params.None? ==> s == Settings(0.0, DefaultDuration, EaseInOutCubic)
    ensures params.Some? && params.value.offset.Some? ==> s.offset == params.value.offset.value
    ensures params.Some? && params.value.offset.None? ==> s.offset == 0.0
    ensures params.Some? && params.value.duration.Some? ==> s.duration == params.value.duration.value
    ensures params.Some? && params.value.duration.None? ==> s.duration == DefaultDuration
    ensures params.Some? && params.value.easing.Some? ==> s.easing == GetEasing(params.value.easing.value)
    ensures params.Some? && params.value.easing.None? ==> s.easing == EaseInOutCubic
  {
    var opts := OrDefault(params, ScrollOptions(None, None, None));
    Settings(
      OrDefault(opts.offset, 0.0),
      OrDefault(opts.duration, DefaultDuration),
      GetEasing(OrDefault(opts.easing, ByName(DefaultEasingName))))
  }

  /** The element's position on the page, less the caller's offset. */
  function ElementY(page: Page, element: Element, offset: real): (y: real)
    ensures y + offset == page.pageYOffset + element.top
  {
    page.pageYOffset + (element.top - offset)
  }

  /** The target offset: the element's position unless that would leave less
      than one viewport of content below it, in which case the largest offset
      the page can scroll to. This is the minimum of the two. */
  function TargetY(page: Page, elementY: real): (y: real)
    ensures y <= elementY
    ensures y <= page.scrollHeight - page.innerHeight
    ensures y == elementY || y == page.scrollHeight - page.innerHeight
  {
    if page.scrollHeight - elementY < page.innerHeight then page.scrollHeight - page.innerHeight else elementY
  }

  /** Everything computed before the first frame. No animation when the
      element is missing or when there is no distance to cover. */
  function Plan(element: Option<Element>, params: Option<ScrollOptions>, page: Page): (plan: Option<Animation>)
    ensures element.None? ==> plan.None?
    ensures element.Some? ==>
      var s := Resolve(params);
      var target := TargetY(page, ElementY(page, element.value, s.offset));
      (plan.None? <==> target == page.pageYOffset) &&
      (plan.Some? ==> plan.value == Animation(page.pageYOffset, target, s.duration, Curve(s.easing)))
    ensures plan.Some? ==> plan.value.Diff() != 0.0 && plan.value.startingY == page.pageYOffset
  {
    match element
    case None => None
    case Some(el) =>
      var s := Resolve(params);
      var startingY := page.pageYOffset;
      var targetY := TargetY(page, ElementY(page, el, s.offset));
      if targetY - startingY == 0.0 then None
      else Some(Animation(startingY, targetY, s.duration, Curve(s.easing)))
  }

  function Min(a: real, b: real): real
  {
    if a <= b then a else b
  }

  /** The time origin after a frame at `timestamp`: the origin is taken from
      the frame while it is still falsy, that is unset or 0. */
  function Origin(start: real, timestamp: real): (o: real)
    ensures start != 0.0 ==> o == start
    ensures start == 0.0 ==> o == timestamp
    ensures o == 0.0 <==> start == 0.0 && timestamp == 0.0
  {
    if start == 0.0 then timestamp else start
  }

  /** Normalised progress: elapsed time over duration, capped at 1. */
  function Progress(time: real, duration: real): (p: real)
    requires duration != 0.0
    ensures p <= 1.0
    ensures p <= time / duration
    ensures p == 1.0 || p == time / duration
    ensures duration > 0.0 && time >= duration ==> p == 1.0
    ensures duration > 0.0 && 0.0 <= time < duration ==> 0.0 <= p < 1.0 && p == time / duration
  {
    Min(time / duration, 1.0)
  }

  /** The offset written by a frame `time` after the origin. */
  function FrameY(a: Animation, time: real): (y: real)
    requires a.duration != 0.0
    ensures a.ease(Progress(time, a.duration)) == 0.0 ==> y == a.startingY
    ensures a.ease(Progress(time, a.duration)) == 1.0 ==> y == a.targetY
  {
    a.startingY + a.Diff() * a.ease(Progress(time, a.duration))
  }

  /** The offsets the frame loop writes when its frames arrive at
      `timestamps` and its origin so far is `start`. A frame whose elapsed time
      has reached the duration is the last: no further frame is requested. */
  function Writes(a: Animation, start: real, timestamps: seq<real>): (ys: seq<real>)
    requires a.duration != 0.0
    ensures |ys| <= |timestamps|
    ensures timestamps != [] ==> |ys| >= 1
    decreases |timestamps|
  {
    if timestamps == [] then []
    else
      var origin := Origin(start, timestamps[0]);
      var time := timestamps[0] - origin;
      if time < a.duration then [FrameY(a, time)] + Writes(a, origin, timestamps[1..])
      else [FrameY(a, time)]
  }

  /** The state a frame callback closes over: the animation, fixed when the
      call is made, and the time origin, captured by the first frame. */
  class FrameLoop {
    const anim: Animation
    /** The time origin; 0 stands for "not captured yet", since the source
        tests it only for falsiness and unset and 0 are both falsy. */
    var start: real

    constructor (anim: Animation)
      ensures this.anim == anim && start == 0.0
    {
      this.anim := anim;
      start := 0.0;
    }

    /** One frame callback at `timestamp`: fixes the origin if it is still
        unset, writes the eased offset and says whether another frame is
        requested. */
    method Step(timestamp: real) returns (y: real, again: bool)
      requires anim.duration != 0.0
      modifies this
      ensures start == Origin(old(start), timestamp)
      ensures y == FrameY(anim, timestamp - start)
      ensures again <==> timestamp - start < anim.duration
    {
      if start == 0.0 {
        start := timestamp;
      }
      var time := timestamp - start;
      var percent := Min(time / anim.duration, 1.0);
      percent := anim.ease(percent);
      y := anim.startingY + anim.Diff() * percent;
      again := time < anim.duration;
    }
  }

  /** The whole call, as a function: the offsets written in order. */
  function ScrollWrites(element: Option<Element>, params: Option<ScrollOptions>, page: Page, timestamps: seq<real>): (ys: seq<real>)
    requires DurationNonZero(params)
    ensures Plan(element, params, page).None? ==> ys == []
  {
    match Plan(element, params, page)
    case None => []
    case Some(a) => Writes(a, 0.0, timestamps)
  }

  /** The duration, when given, is not 0. */
  predicate DurationNonZero(params: Option<ScrollOptions>)
  {
    params.Some? && params.value.duration.Some? ==> params.value.duration.value != 0.0
  }

  /** `scrollTo`: returns the offsets written to the viewport, one per frame,
      when the host delivers frames at `timestamps`. Frames after the last
      one requested are not consumed. */
  method ScrollTo(element: Option<Element>, params: Option<ScrollOptions>, page: Page, timestamps: seq<real>)
    returns (writes: seq<real>)
    requires DurationNonZero(params)
    ensures writes == ScrollWrites(element, params, page, timestamps)
  {
    var plan := Plan(element, params, page);
    if plan.None? {
      return [];
    }
    writes := RunFrames(plan.value, timestamps);
  }

  /** The host's frame scheduling: a fresh frame callback gets the delivered
      timestamps one at a time for as long as it requests another frame. */
  method RunFrames(a: Animation, timestamps: seq<real>) returns (writes: seq<real>)
    requires a.duration != 0.0
    ensures writes == Writes(a, 0.0, timestamps)
  {
    var loop := new FrameLoop(a);
    writes := [];
    var i := 0;
    var again := true;
    while again && i < |timestamps|
      invariant 0 <= i <= |timestamps|
      invariant loop.anim == a
      invariant i == 0 ==> loop.start == 0.0
      invariant again ==> writes + Writes(a, loop.start, timestamps[i..]) == Writes(a, 0.0, timestamps)
      invariant !again ==> writes == Writes(a, 0.0, timestamps)
    {
      ghost var rest := timestamps[i..];
      WritesFirstFrame(a, loop.start, rest);
      assert rest[1..] == timestamps[i + 1..];
      var y, more := loop.Step(timestamps[i]);
      assert writes + [y] + Writes(a, loop.start, rest[1..]) == writes + ([y] + Writes(a, loop.start, rest[1..]));
      writes := writes + [y];
      again := more;
      i := i + 1;
    }
  }

  /** One frame of `Writes`: the first frame writes at its time since the
      origin it fixes, and the rest follows from that origin only while the
      frame is still short of the duration. */
  lemma WritesFirstFrame(a: Animation, start: real, timestamps: seq<real>)
    requires a.duration != 0.0 && timestamps != []
    ensures var o := Origin(start, timestamps[0]);
      Writes(a, start, timestamps) ==
        [FrameY(a, timestamps[0] - o)] + (if timestamps[0] - o < a.duration then Writes(a, o, timestamps[1..]) else [])
  {
  }

  /** The first frame is its own origin: its elapsed time is 0, so a named
      curve writes the starting offset. */
  lemma FirstFrameAtOrigin(a: Animation, e: Easing, timestamps: seq<real>)
    requires a.duration != 0.0 && timestamps != [] && a.ease == Curve(e)
    ensures Writes(a, 0.0, timestamps)[0] == FrameY(a, 0.0)
    ensures !e.Custom? ==> Writes(a, 0.0, timestamps)[0] == a.startingY
  {
    if !e.Custom? {
      Endpoints(e);
    }
  }

  /** Once the origin `o` is captured (not 0), it stays: every frame writes
      the curve at its time since `o`, frames continue while that time is
      below the duration, and a loop that stops before the timestamps run out
      stops at the first frame that reached the duration. */
  lemma {:induction false} FixedOrigin(a: Animation, o: real, timestamps: seq<real>)
    requires a.duration != 0.0 && o != 0.0
    ensures var ys := Writes(a, o, timestamps);
      && (forall k {:trigger ys[k]} :: 0 <= k < |ys| ==> ys[k] == FrameY(a, timestamps[k] - o))
      && (forall k :: 0 <= k < |ys| - 1 ==> timestamps[k] - o < a.duration)
      && (|ys| < |timestamps| ==> timestamps[|ys| - 1] - o >= a.duration)
    decreases |timestamps|
  {
    if timestamps != [] && timestamps[0] - o < a.duration {
      var rest := timestamps[1..];
      FixedOrigin(a, o, rest);
      var ys := Writes(a, o, timestamps);
      WritesFirstFrame(a, o, timestamps);
      assert ys == [FrameY(a, timestamps[0] - o)] + Writes(a, o, rest);
      var tail := Writes(a, o, rest);
      forall k {:trigger ys[k]} | 1 <= k < |ys|
        ensures ys[k] == FrameY(a, timestamps[k] - o)
      {
        assert ys[k] == tail[k - 1] == FrameY(a, rest[k - 1] - o);
      }
      forall k | 1 <= k < |ys| - 1
        ensures timestamps[k] - o < a.duration
      {
        assert rest[k - 1] - o < a.duration;
      }
      assert |ys| < |timestamps| ==> rest[|tail| - 1] - o >= a.duration;
    }
  }

  /** The frame loop from a fresh state, when the first timestamp is not 0:
      the origin is that first timestamp; frame k writes the curve at
      progress min((t_k - t_0) / duration, 1); frames continue exactly while
      the elapsed time is below the duration. */
  lemma FramesFromFirst(a: Animation, timestamps: seq<real>)
    requires a.duration != 0.0 && timestamps != [] && timestamps[0] != 0.0
    ensures var ys := Writes(a, 0.0, timestamps);
      && (forall k {:trigger ys[k]} :: 0 <= k < |ys| ==> ys[k] == FrameY(a, timestamps[k] - timestamps[0]))
      && (forall k :: 0 <= k < |ys| - 1 ==> timestamps[k] - timestamps[0] < a.duration)
      && (|ys| < |timestamps| ==> timestamps[|ys| - 1] - timestamps[0] >= a.duration)
  {
    FirstTimestampIsOrigin(a, timestamps);
    FixedOrigin(a, timestamps[0], timestamps);
  }

  /** A fresh loop whose first timestamp is not 0 behaves as one that already
      holds that timestamp as its origin. */
  lemma FirstTimestampIsOrigin(a: Animation, timestamps: seq<real>)
    requires a.duration != 0.0 && timestamps != [] && timestamps[0] != 0.0
    ensures Writes(a, 0.0, timestamps) == Writes(a, timestamps[0], timestamps)
  {
  }

  /** When some frame reaches the duration, the loop has stopped by then, and
      its last write is the curve at progress 1: for every named curve, the
      target offset exactly. */
  lemma LastWriteAtTarget(a: Animation, e: Easing, timestamps: seq<real>, k: nat)
    requires a.duration > 0.0 && timestamps != [] && timestamps[0] != 0.0 && a.ease == Curve(e)
    requires k < |timestamps| && timestamps[k] - timestamps[0] >= a.duration
    ensures var ys := Writes(a, 0.0, timestamps);
      && 1 <= |ys| <= k + 1
      && ys[|ys| - 1] == a.startingY + a.Diff() * Apply(e, 1.0)
      && (!e.Custom? ==> ys[|ys| - 1] == a.targetY)
  {
    var ys := Writes(a, 0.0, timestamps);
    FramesFromFirst(a, timestamps);
    var n := |ys|;
    LastFrameReached(timestamps, n, a.duration, k);
    var time := timestamps[n - 1] - timestamps[0];
    assert ys[n - 1] == FrameY(a, time);
    FinalFrame(a, e, time);
  }

  /** A frame that has reached a positive duration writes the curve at
      progress 1, which for a named curve is the target itself. */
  lemma FinalFrame(a: Animation, e: Easing, time: real)
    requires a.duration > 0.0 && time >= a.duration && a.ease == Curve(e)
    ensures FrameY(a, time) == a.startingY + a.Diff() * Apply(e, 1.0)
    ensures !e.Custom? ==> FrameY(a, time) == a.targetY
  {
    assert a.ease(1.0) == Apply(e, 1.0);
    if !e.Custom? {
      Endpoints(e);
    }
  }

  /** Of the first n frames, only the last may have reached the duration,
      and it has unless the frames ran out; so it is the first one that did. */
  lemma LastFrameReached(timestamps: seq<real>, n: nat, duration: real, k: nat)
    requires 1 <= n <= |timestamps| && k < |timestamps| && timestamps[k] - timestamps[0] >= duration
    requires forall j :: 0 <= j < n - 1 ==> timestamps[j] - timestamps[0] < duration
    requires n < |timestamps| ==> timestamps[n - 1] - timestamps[0] >= duration
    ensures n <= k + 1 && timestamps[n - 1] - timestamps[0] >= duration
  {
  }

  /** A frame at timestamp 0 does not fix the origin (0 is falsy): after
      writing the starting curve value, the loop behaves as if it were fresh. */
  lemma ZeroTimestampRecaptured(a: Animation, timestamps: seq<real>)
    requires a.duration > 0.0 && timestamps != [] && timestamps[0] == 0.0
    ensures Writes(a, 0.0, timestamps) == [FrameY(a, 0.0)] + Writes(a, 0.0, timestamps[1..])
  {
  }

  /** With a duration of 500 and frames 0, 100, 300, 500 and 600 ms after a
      non-zero first timestamp, the progress values are 0, 0.2, 0.6 and 1, and
      the frame at 500 is the last one. */
  lemma ProgressSample(a: Animation)
    requires a.duration == 500.0
    ensures Progress(0.0, 500.0) == 0.0
    ensures Progress(100.0, 500.0) == 0.2
    ensures Progress(300.0, 500.0) == 0.6
    ensures Progress(500.0, 500.0) == 1.0
    ensures Progress(600.0, 500.0) == 1.0
    ensures Writes(a, 0.0, [1000.0, 1100.0, 1300.0, 1500.0, 1600.0])
         == [FrameY(a, 0.0), FrameY(a, 100.0), FrameY(a, 300.0), FrameY(a, 500.0)]
  {
    var ts := [1000.0, 1100.0, 1300.0, 1500.0, 1600.0];
    assert ts[1..] == [1100.0, 1300.0, 1500.0, 1600.0];
    assert ts[1..][1..] == [1300.0, 1500.0, 1600.0];
    assert ts[1..][1..][1..] == [1500.0, 1600.0];
  }

  /** The same frames taken literally as timestamps 0, 100, 300, 500, 600:
      the frame at 0 leaves the origin unset, so the origin becomes 100 and
      the progress values are 0, 0, 0.4, 0.8 and 1. */
  lemma LiteralZeroSample(a: Animation)
    requires a.duration == 500.0
    ensures Writes(a, 0.0, [0.0, 100.0, 300.0, 500.0, 600.0])
         == [FrameY(a, 0.0), FrameY(a, 0.0), FrameY(a, 200.0), FrameY(a, 400.0), FrameY(a, 500.0)]
    ensures Progress(200.0, 500.0) == 0.4 && Progress(400.0, 500.0) == 0.8
  {
    var ts := [0.0, 100.0, 300.0, 500.0, 600.0];
    assert ts[1..] == [100.0, 300.0, 500.0, 600.0];
    assert ts[1..][1..] == [300.0, 500.0, 600.0];
    assert ts[1..][1..][1..] == [500.0, 600.0];
    assert ts[1..][1..][1..][1..] == [600.0];
  }

  /** With a named curve, no frame writes outside the segment between the
      starting and the target offset. */
  lemma NoOvershoot(a: Animation, e: Easing, time: real)
    requires a.duration > 0.0 && !e.Custom? && a.ease == Curve(e) && 0.0 <= time
    ensures a.startingY <= a.targetY ==> a.startingY <= FrameY(a, time) <= a.targetY
    ensures a.targetY <= a.startingY ==> a.targetY <= FrameY(a, time) <= a.startingY
  {
    var p := Progress(time, a.duration);
    CurveUnitRange(e, p);
    Interpolate(a.startingY, a.targetY, a.ease(p));
  }

  /** With a named curve and a clock that never goes back before the first
      frame, every offset the loop writes lies between the starting and the
      target offset. */
  lemma WritesWithinSegment(a: Animation, e: Easing, timestamps: seq<real>)
    requires a.duration > 0.0 && !e.Custom? && a.ease == Curve(e)
    requires timestamps != [] && timestamps[0] != 0.0
    requires forall k :: 0 <= k < |timestamps| ==> timestamps[0] <= timestamps[k]
    ensures var ys := Writes(a, 0.0, timestamps);
      forall k :: 0 <= k < |ys| ==>
        && (a.startingY <= a.targetY ==> a.startingY <= ys[k] <= a.targetY)
        && (a.targetY <= a.startingY ==> a.targetY <= ys[k] <= a.startingY)
  {
    var ys := Writes(a, 0.0, timestamps);
    FramesFromFirst(a, timestamps);
    forall k | 0 <= k < |ys|
      ensures a.startingY <= a.targetY ==> a.startingY <= ys[k] <= a.targetY
      ensures a.targetY <= a.startingY ==> a.targetY <= ys[k] <= a.startingY
    {
      assert ys[k] == FrameY(a, timestamps[k] - timestamps[0]);
      NoOvershoot(a, e, timestamps[k] - timestamps[0]);
    }
  }

  /** s + (t - s) q, for q in [0, 1], lies between s and t. */
  lemma Interpolate(s: real, t: real, q: real)
    requires 0.0 <= q <= 1.0
    ensures s <= t ==> s <= s + (t - s) * q <= t
    ensures t <= s ==> t <= s + (t - s) * q <= s
  {
    if s <= t {
      MulNonNegative(t - s, q);
      MulNonNegative(t - s, 1.0 - q);
    } else {
      MulNonNegative(s - t, q);
      MulNonNegative(s - t, 1.0 - q);
    }
  }

  /** Nothing is written exactly when there is no animation (no element, or
      no distance to cover) or no frame arrives. */
  lemma NoWritesIffNoAnimation(element: Option<Element>, params: Option<ScrollOptions>, page: Page, timestamps: seq<real>)
    requires DurationNonZero(params)
    ensures ScrollWrites(element, params, page, timestamps) == [] <==>
      Plan(element, params, page).None? || timestamps == []
  {
  }

  /** The clamp at the bottom of the page: with a page 2000 high, a viewport
      800 high and a position of 1500, the target is 2000 - 800 = 1200; a
      position of 1000 leaves a full viewport below and is kept. */
  lemma ClampSample(y: real)
    ensures TargetY(Page(y, 2000.0, 800.0), 1500.0) == 1200.0
    ensures TargetY(Page(y, 2000.0, 800.0), 1000.0) == 1000.0
  {
  }

  /** An element 300 below the top of an unscrolled page, an offset of 50 and
      the default duration and curve: the animation ends at 250, reached by
      the first frame at least 500 ms after the first one. */
  lemma EndToEndSample()
    ensures var params := Some(ScrollOptions(None, None, Some(50.0)));
      var page := Page(0.0, 2000.0, 800.0);
      var ys := ScrollWrites(Some(Element(300.0)), params, page, [16.0, 216.0, 416.0, 616.0, 816.0]);
      |ys| == 4 && ys[3] == 250.0
  {
    var params := Some(ScrollOptions(None, None, Some(50.0)));
    var page := Page(0.0, 2000.0, 800.0);
    var a := Animation(0.0, 250.0, 500.0, Curve(EaseInOutCubic));
    assert Resolve(params) == Settings(50.0, 500.0, EaseInOutCubic);
    assert Plan(Some(Element(300.0)), params, page) == Some(a);
    SampleFrames(a);
    FinalFrame(a, EaseInOutCubic, 600.0);
  }

  /** The frames of the end-to-end sample, for any animation of 500 ms: the
      fifth frame is never requested. */
  lemma SampleFrames(a: Animation)
    requires a.duration == 500.0
    ensures Writes(a, 0.0, [16.0, 216.0, 416.0, 616.0, 816.0])
      == [FrameY(a, 0.0), FrameY(a, 200.0), FrameY(a, 400.0), FrameY(a, 600.0)]
  {
    var ts := [16.0, 216.0, 416.0, 616.0, 816.0];
    assert ts[1..] == [216.0, 416.0, 616.0, 816.0];
    assert ts[1..][1..] == [416.0, 616.0, 816.0];
    assert ts[1..][1..][1..] == [616.0, 816.0];
  }

  /** For every call that starts an animation with a named curve and a
      positive duration, once some frame reaches the duration the last offset
      written is the clamped target: the element's position less the offset,
      capped at the largest scroll offset. */
  lemma ScrollEndsAtTarget(element: Option<Element>, params: Option<ScrollOptions>, page: Page,
                           timestamps: seq<real>, k: nat)
    requires DurationNonZero(params)
    requires element.Some? && Plan(element, params, page).Some?
    requires !Resolve(params).easing.Custom? && Resolve(params).duration > 0.0
    requires timestamps != [] && timestamps[0] != 0.0
    requires k < |timestamps| && timestamps[k] - timestamps[0] >= Resolve(params).duration
    ensures var ys := ScrollWrites(element, params, page, timestamps);
      && 1 <= |ys| <= k + 1
      && ys[|ys| - 1] == TargetY(page, ElementY(page, element.value, Resolve(params).offset))
      && ys[|ys| - 1] <= page.scrollHeight - page.innerHeight
  {
    var a := Plan(element, params, page).value;
    LastWriteAtTarget(a, Resolve(params).easing, timestamps, k);
  }
}
