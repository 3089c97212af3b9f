/**
 * scrollIntoViewIfNeeded (dist/index.js, repeated in dist/bundle.js).  Starting from
 * an element, it walks up the parentNode chain; at each parent it re-expresses the
 * element's box in the parent's client coordinates, picks a scroll offset per axis
 * (just enough to show the box, or the one that centres it), applies it directly or
 * hands it to the tween, and corrects the box by the offset it reads back.
 *
 * The DOM is plain data: the walk is the sequence of elements from the target up to
 * the last HTMLElement ancestor, and the scroll offsets of those elements are two
 * arrays indexed like that sequence.
 */
module ScrollIntoView {
  import opened Base
  import Amator

  /** makeArea's record: right and bottom are fixed when the area is made. */
  datatype Area = Area(left: real, top: real, width: real, height: real, right: real, bottom: real)

  predicate WellFormed(a: Area) {
    a.right == a.left + a.width && a.bottom == a.top + a.height
  }

  function MakeArea(left: real, top: real, width: real, height: real): (a: Area)
    ensures WellFormed(a)
    ensures a.left == left && a.top == top && a.width == width && a.height == height
  {
    Area(left, top, width, height, left + width, top + height)
  }

  /** translate(x, y): the same box shifted by (x, y). */
  function Translate(a: Area, x: real, y: real): (r: Area)
    ensures WellFormed(r)
    ensures r.left == a.left + x && r.top == a.top + y
    ensures r.width == a.width && r.height == a.height
    ensures WellFormed(a) ==> r.right == a.right + x && r.bottom == a.bottom + y
  {
    MakeArea(x + a.left, y + a.top, a.width, a.height)
  }

  /** An element of an offsetParent chain, with its identity. */
  datatype OffsetParent = OffsetParent(id: nat, offsetLeft: real, offsetTop: real, clientLeft: real, clientTop: real)

  /** The horizontal sum relativeFromTo accumulates along a chain. */
  function ChainLeft(chain: seq<OffsetParent>): real {
    if chain == [] then 0.0 else chain[0].offsetLeft + chain[0].clientLeft + ChainLeft(chain[1..])
  }

  /** The vertical sum relativeFromTo accumulates along a chain. */
  function ChainTop(chain: seq<OffsetParent>): real {
    if chain == [] then 0.0 else chain[0].offsetTop + chain[0].clientTop + ChainTop(chain[1..])
  }

  /** Walking one more element of the chain adds that element's offsets. */
  lemma {:induction false} ChainSumsExtend(chain: seq<OffsetParent>, p: OffsetParent)
    ensures ChainLeft(chain + [p]) == ChainLeft(chain) + p.offsetLeft + p.clientLeft
    ensures ChainTop(chain + [p]) == ChainTop(chain) + p.offsetTop + p.clientTop
  {
    if chain != [] {
      assert (chain + [p])[1..] == chain[1..] + [p];
      ChainSumsExtend(chain[1..], p);
    }
  }

  /** lhs.offsetParent === rhs.offsetParent, null === null included. */
  predicate SameOffsetParent(lhs: seq<OffsetParent>, rhs: seq<OffsetParent>) {
    (lhs == [] && rhs == []) || (lhs != [] && rhs != [] && lhs[0].id == rhs[0].id)
  }

  /** relativeFromTo as a value: the area moved from lhs's offset coordinates into rhs's. */
  function RelativeTo(a: Area, lhs: seq<OffsetParent>, rhs: seq<OffsetParent>): Area {
    if SameOffsetParent(lhs, rhs) then a
    else MakeArea(a.left + ChainLeft(lhs) - ChainLeft(rhs), a.top + ChainTop(lhs) - ChainTop(rhs), a.width, a.height)
  }

  /** relativeFromTo with its two for loops over the offsetParent chains of the child
      (lhs) and the parent (rhs). */
  method RelativeFromTo(area: Area, lhs: seq<OffsetParent>, rhs: seq<OffsetParent>) returns (r: Area)
    ensures r == RelativeTo(area, lhs, rhs)
    ensures SameOffsetParent(lhs, rhs) ==> r == area
    ensures !SameOffsetParent(lhs, rhs) ==>
      WellFormed(r) &&
      r.left == area.left + ChainLeft(lhs) - ChainLeft(rhs) &&
      r.top == area.top + ChainTop(lhs) - ChainTop(rhs)
    ensures r.width == area.width && r.height == area.height
  {
    var newLeft, newTop := area.left, area.top;
    if SameOffsetParent(lhs, rhs) {
      return area;
    }
    for i := 0 to |lhs|
      invariant newLeft == area.left + ChainLeft(lhs[..i])
      invariant newTop == area.top + ChainTop(lhs[..i])
    {
      ChainSumsExtend(lhs[..i], lhs[i]);
      assert lhs[..i + 1] == lhs[..i] + [lhs[i]];
      newLeft := newLeft + (lhs[i].offsetLeft + lhs[i].clientLeft);
      newTop := newTop + (lhs[i].offsetTop + lhs[i].clientTop);
    }
    assert lhs[..|lhs|] == lhs;
    for j := 0 to |rhs|
      invariant newLeft == area.left + ChainLeft(lhs) - ChainLeft(rhs[..j])
      invariant newTop == area.top + ChainTop(lhs) - ChainTop(rhs[..j])
    {
      ChainSumsExtend(rhs[..j], rhs[j]);
      assert rhs[..j + 1] == rhs[..j] + [rhs[j]];
      newLeft := newLeft - (rhs[j].offsetLeft + rhs[j].clientLeft);
      newTop := newTop - (rhs[j].offsetTop + rhs[j].clientTop);
    }
    assert rhs[..|rhs|] == rhs;
    r := MakeArea(newLeft, newTop, area.width, area.height);
  }

  /** The geometry of one element of the walk, read-only for the algorithm.  The
      scroll limits are the browser's (scrollWidth - clientWidth and the like). */
  datatype Element = Element(
    id: nat,
    offsetLeft: real, offsetTop: real, offsetWidth: real, offsetHeight: real,
    clientLeft: real, clientTop: real, clientWidth: real, clientHeight: real,
    scrollLeftMax: real, scrollTopMax: real,
    offsetParents: seq<OffsetParent>)

  /** centerIfNeeded === false: only the value false itself turns centring off. */
  predicate CentringOff(centerIfNeeded: Option<bool>) {
    centerIfNeeded == Some(false)
  }

  /** max <= value + extent && value <= min + extent: with min = far edge - extent and
      max = near edge, the box overlaps the viewport [value, value + extent]. */
  predicate Overlaps(value: real, min: real, max: real, extent: real) {
    max <= value + extent && value <= min + extent
  }

  /** withinBounds: clamp the current offset into [min, max] (no motion when it is
      already there, max when the box is larger than the viewport), or centre. */
  function WithinBounds(centerIfNeeded: Option<bool>, value: real, min: real, max: real, extent: real): (r: real)
    ensures CentringOff(centerIfNeeded) || Overlaps(value, min, max, extent) ==>
      (min <= value <= max ==> r == value) &&
      (value < min <= max ==> r == min) &&
      (max < value ==> r == max) &&
      (max < min ==> r == max) &&
      (min <= max ==> min <= r <= max)
    ensures !(CentringOff(centerIfNeeded) || Overlaps(value, min, max, extent)) ==> r == (min + max) / 2.0
  {
    if centerIfNeeded == Some(false) || (max <= value + extent && value <= min + extent) then
      Min(max, Max(min, value))
    else
      (min + max) / 2.0
  }

  /** The browser's clamp of an assigned scroll offset into [0, limit]; not part of the
      library, which reads the settled value back. */
  function Settle(v: real, limit: real): (r: real)
    ensures 0.0 <= limit ==> 0.0 <= r <= limit
    ensures 0.0 <= v <= limit ==> r == v
  {
    if v < 0.0 then 0.0 else if v > limit then limit else v
  }

  datatype ScrollPos = ScrollPos(left: real, top: real)

  /** The fixed inputs of one call: the walk, the centring argument, whether options
      were given (animated), and the scroll offsets before the call. */
  datatype Walk = Walk(path: seq<Element>, centerIfNeeded: Option<bool>, animated: bool,
                       scrollLeft: seq<real>, scrollTop: seq<real>)

  predicate WalkValid(w: Walk) {
    |w.path| > 0 && |w.scrollLeft| == |w.path| && |w.scrollTop| == |w.path|
  }

  /** The loop's state: the tracked box and the scroll offsets of every element of the walk. */
  datatype Progress = Progress(area: Area, scrollLeft: seq<real>, scrollTop: seq<real>)

  function InitialArea(e: Element): (a: Area)
    ensures WellFormed(a)
  {
    MakeArea(e.offsetLeft, e.offsetTop, e.offsetWidth, e.offsetHeight)
  }

  /** One level's geometry: the box, known in child's offset coordinates, moved into
      the client coordinates of parent (relativeFromTo, then translate by minus the
      parent's offsetLeft + clientLeft and offsetTop + clientTop). */
  function InParent(box: Area, child: Element, parent: Element): (a: Area)
    ensures WellFormed(a)
  {
    Translate(RelativeTo(box, child.offsetParents, parent.offsetParents),
              -(parent.offsetLeft + parent.clientLeft), -(parent.offsetTop + parent.clientTop))
  }

  /** The two withinBounds calls for parent, whose offsets are current, on box a. */
  function Request(centerIfNeeded: Option<bool>, a: Area, parent: Element, current: ScrollPos): ScrollPos {
    ScrollPos(
      WithinBounds(centerIfNeeded, current.left, a.right - parent.clientWidth, a.left, parent.clientWidth),
      WithinBounds(centerIfNeeded, current.top, a.bottom - parent.clientHeight, a.top, parent.clientHeight))
  }

  /** The offsets the browser keeps after the request is assigned. */
  function Settled(request: ScrollPos, parent: Element): ScrollPos {
    ScrollPos(Settle(request.left, parent.scrollLeftMax), Settle(request.top, parent.scrollTopMax))
  }

  /** The box after the parent's offsets were read back as read: translate by the
      parent's offsetLeft + clientLeft - scrollLeft and likewise vertically. */
  function Corrected(a: Area, parent: Element, read: ScrollPos): (r: Area)
    ensures WellFormed(r)
  {
    Translate(a, parent.offsetLeft + parent.clientLeft - read.left, parent.offsetTop + parent.clientTop - read.top)
  }

  predicate Sized(w: Walk, p: Progress) {
    |p.scrollLeft| == |w.path| && |p.scrollTop| == |w.path|
  }

  /** One pass of the loop body, for parent at index j whose child holds the box, from
      state p: the request is made on the offsets the parent has now, assigned unless
      animated, and read back. */
  function Visit(child: Element, parent: Element, centerIfNeeded: Option<bool>, animated: bool,
                 j: nat, p: Progress): (q: Progress)
    requires j < |p.scrollLeft| && j < |p.scrollTop|
    ensures |q.scrollLeft| == |p.scrollLeft| && |q.scrollTop| == |p.scrollTop|
    ensures forall k :: 0 <= k < |p.scrollLeft| && k != j ==> q.scrollLeft[k] == p.scrollLeft[k]
    ensures forall k :: 0 <= k < |p.scrollTop| && k != j ==> q.scrollTop[k] == p.scrollTop[k]
  {
    var level := InParent(p.area, child, parent);
    var current := ScrollPos(p.scrollLeft[j], p.scrollTop[j]);
    var read := if animated then current else Settled(Request(centerIfNeeded, level, parent, current), parent);
    Progress(Corrected(level, parent, read), p.scrollLeft[j := read.left], p.scrollTop[j := read.top])
  }

  /** The state when the loop reaches element i of the walk: the element itself and
      the ancestors not yet visited keep their offsets from before the call. */
  function Run(w: Walk, i: nat): (p: Progress)
    requires WalkValid(w) && i < |w.path|
    ensures Sized(w, p)
    ensures forall j :: 0 <= j < |w.path| && (j == 0 || i < j) ==>
      p.scrollLeft[j] == w.scrollLeft[j] && p.scrollTop[j] == w.scrollTop[j]
  {
    if i == 0 then Progress(InitialArea(w.path[0]), w.scrollLeft, w.scrollTop)
    else Visit(w.path[i - 1], w.path[i], w.centerIfNeeded, w.animated, i, Run(w, i - 1))
  }

  /** The tracked box in the client coordinates of parent j. */
  function LevelArea(w: Walk, j: nat): (a: Area)
    requires WalkValid(w) && 1 <= j < |w.path|
    ensures WellFormed(a)
  {
    InParent(Run(w, j - 1).area, w.path[j - 1], w.path[j])
  }

  /** The offsets requested of parent j. */
  function RequestAt(w: Walk, j: nat): ScrollPos
    requires WalkValid(w) && 1 <= j < |w.path|
  {
    var p := Run(w, j - 1);
    Request(w.centerIfNeeded, LevelArea(w, j), w.path[j], ScrollPos(p.scrollLeft[j], p.scrollTop[j]))
  }

  /** What reading parent j's offsets back yields once it is visited. */
  function ReadBackAt(w: Walk, j: nat): ScrollPos
    requires WalkValid(w) && 1 <= j < |w.path|
  {
    ScrollPos(Run(w, j).scrollLeft[j], Run(w, j).scrollTop[j])
  }

  /** Once the loop has visited element j, later passes leave its offsets as that visit
      left them (until then they are those before the call, as Run states). */
  lemma {:induction false} RunOffsets(w: Walk, i: nat)
    requires WalkValid(w) && i < |w.path|
    ensures forall j :: 1 <= j <= i ==>
      Run(w, i).scrollLeft[j] == Run(w, j).scrollLeft[j] && Run(w, i).scrollTop[j] == Run(w, j).scrollTop[j]
  {
    if i > 0 {
      RunOffsets(w, i - 1);
    }
  }

  /** Parent j is asked for offsets computed from the ones it had before the call, and
      keeps the settled request; animated, it keeps its offsets. */
  lemma ReadBackIsSettledRequest(w: Walk, j: nat)
    requires WalkValid(w) && 1 <= j < |w.path|
    ensures RequestAt(w, j) ==
      Request(w.centerIfNeeded, LevelArea(w, j), w.path[j], ScrollPos(w.scrollLeft[j], w.scrollTop[j]))
    ensures ReadBackAt(w, j) ==
      if w.animated then ScrollPos(w.scrollLeft[j], w.scrollTop[j]) else Settled(RequestAt(w, j), w.path[j])
  {
    RunOffsets(w, j - 1);
  }

  /** The index of the last element the loop visits, starting at i: it goes on while
      element i has an HTMLElement parent and is not finalElement. */
  function StopIndex(path: seq<Element>, finalElement: Option<nat>, i: nat): (k: nat)
    requires i < |path|
    ensures i <= k < |path|
    decreases |path| - i
  {
    if i + 1 < |path| && finalElement != Some(path[i].id) then StopIndex(path, finalElement, i + 1) else i
  }

  /** The loop goes on from i exactly when it does not stop there. */
  lemma StopIndexStep(path: seq<Element>, finalElement: Option<nat>, i: nat)
    requires i + 1 < |path| && finalElement != Some(path[i].id)
    ensures StopIndex(path, finalElement, i) == StopIndex(path, finalElement, i + 1)
  {
  }

  predicate DistinctIds(path: seq<Element>) {
    forall a, b :: 0 <= a < b < |path| ==> path[a].id != path[b].id
  }

  /** When finalElement is element f of the walk, f is the last parent scrolled and
      none of its ancestors is touched; f == 0 means nothing is scrolled. */
  lemma {:induction false} FinalElementIsLastScrolled(path: seq<Element>, f: nat, i: nat)
    requires DistinctIds(path) && i <= f < |path|
    ensures StopIndex(path, Some(path[f].id), i) == f
    decreases f - i
  {
    if i < f {
      assert path[i].id != path[f].id;
      FinalElementIsLastScrolled(path, f, i + 1);
    }
  }

  /** Without a finalElement on the walk, every ancestor up to the last HTMLElement is scrolled. */
  lemma {:induction false} WalkReachesTop(path: seq<Element>, finalElement: Option<nat>, i: nat)
    requires i < |path|
    requires forall j :: 0 <= j < |path| ==> finalElement != Some(path[j].id)
    ensures StopIndex(path, finalElement, i) == |path| - 1
    decreases |path| - i
  {
    if i + 1 < |path| {
      WalkReachesTop(path, finalElement, i + 1);
    }
  }

  /** Over one level the box moves by relativeFromTo and then by minus the offsets read
      back: the parent's own offsetLeft + clientLeft (offsetTop + clientTop) cancel. */
  lemma LevelNetShift(w: Walk, j: nat)
    requires WalkValid(w) && 1 <= j < |w.path|
    ensures Run(w, j).area ==
      Translate(RelativeTo(Run(w, j - 1).area, w.path[j - 1].offsetParents, w.path[j].offsetParents),
                -ReadBackAt(w, j).left, -ReadBackAt(w, j).top)
  {
  }

  /** A box already fully inside parent j's viewport leaves the parent where it was,
      with centring off or for any box of non-negative size. */
  lemma VisibleLevelUnchanged(w: Walk, j: nat)
    requires WalkValid(w) && 1 <= j < |w.path|
    requires CentringOff(w.centerIfNeeded) || (LevelArea(w, j).width >= 0.0 && LevelArea(w, j).height >= 0.0)
    requires LevelArea(w, j).right - w.path[j].clientWidth <= w.scrollLeft[j] <= LevelArea(w, j).left
    requires LevelArea(w, j).bottom - w.path[j].clientHeight <= w.scrollTop[j] <= LevelArea(w, j).top
    requires 0.0 <= w.scrollLeft[j] <= w.path[j].scrollLeftMax
    requires 0.0 <= w.scrollTop[j] <= w.path[j].scrollTopMax
    ensures RequestAt(w, j) == ScrollPos(w.scrollLeft[j], w.scrollTop[j])
    ensures ReadBackAt(w, j) == ScrollPos(w.scrollLeft[j], w.scrollTop[j])
  {
    ReadBackIsSettledRequest(w, j);
  }

  /** Centring: on each axis where centring applies, the offset chosen puts the middle
      of the box in the middle of the viewport. */
  lemma CentredLevelCentresBox(w: Walk, j: nat)
    requires WalkValid(w) && 1 <= j < |w.path| && !CentringOff(w.centerIfNeeded)
    ensures var a := LevelArea(w, j); var r := RequestAt(w, j).left; var cw := w.path[j].clientWidth;
      !Overlaps(w.scrollLeft[j], a.right - cw, a.left, cw) ==> (a.left - r) + (a.right - r) == cw
    ensures var a := LevelArea(w, j); var r := RequestAt(w, j).top; var ch := w.path[j].clientHeight;
      !Overlaps(w.scrollTop[j], a.bottom - ch, a.top, ch) ==> (a.top - r) + (a.bottom - r) == ch
  {
    ReadBackIsSettledRequest(w, j);
  }

  /** Minimal motion: on each axis where the chosen offset is a clamp, a box that fits
      the viewport ends inside it, and a larger one ends with its leading edge (left,
      top) at the viewport's. */
  lemma ClampedLevelShowsBox(w: Walk, j: nat)
    requires WalkValid(w) && 1 <= j < |w.path|
    ensures var a := LevelArea(w, j); var r := RequestAt(w, j).left; var cw := w.path[j].clientWidth;
      CentringOff(w.centerIfNeeded) || Overlaps(w.scrollLeft[j], a.right - cw, a.left, cw) ==>
        (a.width <= cw ==> 0.0 <= a.left - r && a.right - r <= cw) &&
        (a.width > cw ==> r == a.left)
    ensures var a := LevelArea(w, j); var r := RequestAt(w, j).top; var ch := w.path[j].clientHeight;
      CentringOff(w.centerIfNeeded) || Overlaps(w.scrollTop[j], a.bottom - ch, a.top, ch) ==>
        (a.height <= ch ==> 0.0 <= a.top - r && a.bottom - r <= ch) &&
        (a.height > ch ==> r == a.top)
  {
    ReadBackIsSettledRequest(w, j);
  }

  /** What a level hands to the tween: the parent and only {scrollLeft, scrollTop}. */
  datatype AnimationRequest = AnimationRequest(parent: nat, target: map<string, real>, options: Amator.Options)

  function RequestsUpTo(w: Walk, options: Amator.Options, n: nat): (rs: seq<AnimationRequest>)
    requires WalkValid(w) && n < |w.path|
    ensures |rs| == n
  {
    if n == 0 then [] else
    RequestsUpTo(w, options, n - 1) +
      [AnimationRequest(n, map["scrollLeft" := RequestAt(w, n).left, "scrollTop" := RequestAt(w, n).top], options)]
  }

  /** One pass of the loop, for parent at index j of the arrays and the box known in
      child's coordinates: the box in parent's coordinates, the offsets requested there,
      assigned unless animated, and the box corrected by the offsets read back. */
  method VisitParent(child: Element, parent: Element, centerIfNeeded: Option<bool>, animated: bool,
                     j: nat, area: Area, scrollLeft: array<real>, scrollTop: array<real>)
    returns (next: Area, left: real, top: real)
    requires j < scrollLeft.Length && j < scrollTop.Length && scrollLeft != scrollTop
    modifies scrollLeft, scrollTop
    ensures ScrollPos(left, top) ==
      Request(centerIfNeeded, InParent(area, child, parent), parent, ScrollPos(old(scrollLeft[j]), old(scrollTop[j])))
    ensures animated ==>
      && next == Corrected(InParent(area, child, parent), parent, ScrollPos(old(scrollLeft[j]), old(scrollTop[j])))
      && scrollLeft[..] == old(scrollLeft[..]) && scrollTop[..] == old(scrollTop[..])
    ensures !animated ==>
      var read := Settled(ScrollPos(left, top), parent);
      && next == Corrected(InParent(area, child, parent), parent, read)
      && scrollLeft[..] == old(scrollLeft[..])[j := read.left]
      && scrollTop[..] == old(scrollTop[..])[j := read.top]
  {
    var relative := RelativeFromTo(area, child.offsetParents, parent.offsetParents);
    var level := Translate(relative, -(parent.offsetLeft + parent.clientLeft), -(parent.offsetTop + parent.clientTop));
    var request := Request(centerIfNeeded, level, parent, ScrollPos(scrollLeft[j], scrollTop[j]));
    left, top := request.left, request.top;
    if !animated {
      var settled := Settled(request, parent);
      scrollLeft[j], scrollTop[j] := settled.left, settled.top;
    }
    next := Corrected(level, parent, ScrollPos(scrollLeft[j], scrollTop[j]));
  }

  /** What VisitParent establishes about parent i + 1, started from the state at element i,
      is the state at element i + 1 and the request made of that parent. */
  lemma LoopStep(w: Walk, i: nat, before: Progress, after: Progress, left: real, top: real)
    requires WalkValid(w) && i + 1 < |w.path| && before == Run(w, i)
    requires var level := InParent(before.area, w.path[i], w.path[i + 1]);
      var current := ScrollPos(before.scrollLeft[i + 1], before.scrollTop[i + 1]);
      && ScrollPos(left, top) == Request(w.centerIfNeeded, level, w.path[i + 1], current)
      && (w.animated ==>
            after == Progress(Corrected(level, w.path[i + 1], current), before.scrollLeft, before.scrollTop))
      && (!w.animated ==>
            var read := Settled(ScrollPos(left, top), w.path[i + 1]);
            after == Progress(Corrected(level, w.path[i + 1], read),
                              before.scrollLeft[i + 1 := read.left], before.scrollTop[i + 1 := read.top]))
    ensures after == Run(w, i + 1)
    ensures ScrollPos(left, top) == RequestAt(w, i + 1)
  {
    if w.animated {
      assert before.scrollLeft[i + 1 := before.scrollLeft[i + 1]] == before.scrollLeft;
      assert before.scrollTop[i + 1 := before.scrollTop[i + 1]] == before.scrollTop;
    }
  }

  /** The request recorded for parent i + 1 extends the list recorded so far. */
  lemma RequestsStep(w: Walk, i: nat, left: real, top: real, options: Amator.Options)
    requires WalkValid(w) && i + 1 < |w.path| && ScrollPos(left, top) == RequestAt(w, i + 1)
    ensures RequestsUpTo(w, options, i + 1) ==
      RequestsUpTo(w, options, i) + [AnimationRequest(i + 1, map["scrollLeft" := left, "scrollTop" := top], options)]
  {
  }

  /** Handing offsets to the tween throws: options were given and their scheduler lacks
      next or cancel. */
  predicate TweenThrows(options: Option<Amator.Options>) {
    options.Some? && Amator.GetScheduler(options.value.scheduler).Err?
  }

  /** scrollIntoViewIfNeeded(elem, centerIfNeeded, options, finalElement).  The walk
      path holds elem and its HTMLElement ancestors; an empty path is a missing elem.
      Without options each visited parent's offsets are assigned (and settled by the
      browser); with options they are handed to the tween and left as they are.  The
      offsets each element ends with are stated by Run and RunOffsets.

      A scheduler the tween rejects makes the first pass of the loop throw, before that
      pass assigns anything (with options nothing is ever assigned); every later pass
      would throw the same way.  So the call throws exactly when the loop makes a first
      pass, and that is tested once, with the loop's own condition, before the loop. */
  method ScrollIntoViewIfNeeded(path: seq<Element>, centerIfNeeded: Option<bool>, options: Option<Amator.Options>,
                                finalElement: Option<nat>, scrollLeft: array<real>, scrollTop: array<real>)
    returns (r: Result<seq<AnimationRequest>>)
    requires scrollLeft.Length == |path| && scrollTop.Length == |path| && scrollLeft != scrollTop
    modifies scrollLeft, scrollTop
    ensures r.Err? <==> path == [] || (TweenThrows(options) && StopIndex(path, finalElement, 0) > 0)
    ensures r.Err? ==> scrollLeft[..] == old(scrollLeft[..]) && scrollTop[..] == old(scrollTop[..])
    ensures r.Err? && path == [] ==> r.error == MissingElement
    ensures r.Err? && path != [] ==> options.Some? && r.error == Amator.GetScheduler(options.value.scheduler).error
    ensures r.Ok? ==>
      var w := Walk(path, centerIfNeeded, options.Some?, old(scrollLeft[..]), old(scrollTop[..]));
      var last := StopIndex(path, finalElement, 0);
      && scrollLeft[..] == Run(w, last).scrollLeft && scrollTop[..] == Run(w, last).scrollTop
      && r.value == (if options.Some? then RequestsUpTo(w, options.value, last) else [])
  {
    if path == [] {
      return Err(MissingElement);
    }
    if options.Some? && 1 < |path| && finalElement != Some(path[0].id) {
      var scheduler := Amator.GetScheduler(options.value.scheduler);
      if scheduler.Err? {
        return Err(scheduler.error);
      }
    }
    var requests := Propagate(path, centerIfNeeded, options, finalElement, scrollLeft, scrollTop);
    r := Ok(requests);
  }

  /** One pass of the while loop, over parent i + 1, from the state at element i: the
      state at element i + 1, and with options one more request handed to the tween. */
  method Pass(ghost w: Walk, path: seq<Element>, centerIfNeeded: Option<bool>, options: Option<Amator.Options>,
              i: nat, area: Area, requests: seq<AnimationRequest>, scrollLeft: array<real>, scrollTop: array<real>)
    returns (next: Area, extended: seq<AnimationRequest>)
    requires WalkValid(w) && w.path == path && w.centerIfNeeded == centerIfNeeded && w.animated == options.Some?
    requires i + 1 < |path| && scrollLeft.Length == |path| && scrollTop.Length == |path| && scrollLeft != scrollTop
    requires Progress(area, scrollLeft[..], scrollTop[..]) == Run(w, i)
    requires requests == if options.Some? then RequestsUpTo(w, options.value, i) else []
    modifies scrollLeft, scrollTop
    ensures Progress(next, scrollLeft[..], scrollTop[..]) == Run(w, i + 1)
    ensures extended == if options.Some? then RequestsUpTo(w, options.value, i + 1) else []
  {
    ghost var before := Progress(area, scrollLeft[..], scrollTop[..]);
    var left, top;
    next, left, top := VisitParent(path[i], path[i + 1], centerIfNeeded, options.Some?, i + 1, area, scrollLeft, scrollTop);
    LoopStep(w, i, before, Progress(next, scrollLeft[..], scrollTop[..]), left, top);
    extended := requests;
    if options.Some? {
      RequestsStep(w, i, left, top, options.value);
      extended := requests + [AnimationRequest(i + 1, map["scrollLeft" := left, "scrollTop" := top], options.value)];
    }
  }

  /** The while loop of scrollIntoViewIfNeeded over a walk that has an element. */
  method Propagate(path: seq<Element>, centerIfNeeded: Option<bool>, options: Option<Amator.Options>,
                   finalElement: Option<nat>, scrollLeft: array<real>, scrollTop: array<real>)
    returns (requests: seq<AnimationRequest>)
    requires path != [] && scrollLeft.Length == |path| && scrollTop.Length == |path| && scrollLeft != scrollTop
    modifies scrollLeft, scrollTop
    ensures var w := Walk(path, centerIfNeeded, options.Some?, old(scrollLeft[..]), old(scrollTop[..]));
      var last := StopIndex(path, finalElement, 0);
      && scrollLeft[..] == Run(w, last).scrollLeft && scrollTop[..] == Run(w, last).scrollTop
      && requests == (if options.Some? then RequestsUpTo(w, options.value, last) else [])
  {
    ghost var w := Walk(path, centerIfNeeded, options.Some?, scrollLeft[..], scrollTop[..]);
    requests := [];
    var area := MakeArea(path[0].offsetLeft, path[0].offsetTop, path[0].offsetWidth, path[0].offsetHeight);
    var i := 0;
    while i + 1 < |path| && finalElement != Some(path[i].id)
      invariant 0 <= i < |path|
      invariant StopIndex(path, finalElement, i) == StopIndex(path, finalElement, 0)
      invariant Progress(area, scrollLeft[..], scrollTop[..]) == Run(w, i)
      invariant requests == if options.Some? then RequestsUpTo(w, options.value, i) else []
      decreases |path| - i
    {
      StopIndexStep(path, finalElement, i);
      area, requests := Pass(w, path, centerIfNeeded, options, i, area, requests, scrollLeft, scrollTop);
      i := i + 1;
    }
  }
}
