/** Drag-to-zoom over a series of points: the hook's state, its derived values and every
    sequence of drags, resets and refetches. */
module ChartZoom {
  import opened Arithmetic
  import opened Options

  /** The hook's state. `heldBase` is the baseOffset that the registered mouseup listener
      closed over: the effect re-registers it only when a drag end changes. */
  datatype State<T> = State(points: seq<T>, zoomRange: Option<(int, int)>, dragStart: Option<int>, dragEnd: Option<int>,
      heldBase: int)

  function Clamped<T>(s: State<T>): Option<(int, int)> {
    if s.zoomRange.None? then None else
      Some((Max(0, Min(s.zoomRange.value.0, |s.points| - 2)), Min(s.zoomRange.value.1, |s.points| - 1)))
  }

  function BaseOffset<T>(s: State<T>): int {
    if Clamped(s).Some? then Clamped(s).value.0 else 0
  }

  /** JavaScript's slice for non-negative bounds. */
  function Slice<T>(xs: seq<T>, from: int, to: int): seq<T> {
    var hi := Min(to, |xs|);
    if 0 <= from <= hi then xs[from..hi] else []
  }

  function Display<T>(s: State<T>): seq<T> {
    if Clamped(s).Some? then Slice(s.points, Clamped(s).value.0, Clamped(s).value.1 + 1) else s.points
  }

  datatype Event<T> = StartDrag(local: int) | UpdateDrag(local: int) | Finish | Reset | Refetch(points: seq<T>)

  /** The charts clamp every index they pass to the displayed points; mouseup is listened for
      only during a drag. */
  predicate Can<T>(s: State<T>, e: Event<T>) {
    match e
    case StartDrag(i) => 0 <= i < |Display(s)|
    case UpdateDrag(i) => s.dragStart.Some? && 0 <= i < |Display(s)|
    case Finish => s.dragStart.Some?
    case _ => true
  }

  function Dragged<T>(s: State<T>, start: Option<int>, end: Option<int>): State<T> {
    s.(dragStart := start, dragEnd := end,
       heldBase := if start == s.dragStart && end == s.dragEnd then s.heldBase else BaseOffset(s))
  }

  function Apply<T>(s: State<T>, e: Event<T>): State<T> {
    match e
    case StartDrag(i) => Dragged(s, Some(i), Some(i))
    case UpdateDrag(i) => Dragged(s, s.dragStart, Some(i))
    case Finish =>
      var zoomed :=
        if s.dragStart.Some? && s.dragEnd.Some? && s.dragStart.value != s.dragEnd.value then
          Some((s.heldBase + Min(s.dragStart.value, s.dragEnd.value),
            s.heldBase + Max(s.dragStart.value, s.dragEnd.value)))
        else s.zoomRange;
      s.(zoomRange := zoomed, dragStart := None, dragEnd := None)
    case Reset => s.(zoomRange := None)
    case Refetch(points) => s.(points := points)
  }

  /** The hook as the object whose setters the charts call. */
  class Hook<T> {
    var points: seq<T>
    var zoomRange: Option<(int, int)>
    var dragStartLocal: Option<int>
    var dragEndLocal: Option<int>
    var heldBase: int

    constructor (points: seq<T>)
      ensures Value() == State(points, None, None, None, 0)
    {
      this.points := points;
      zoomRange, dragStartLocal, dragEndLocal, heldBase := None, None, None, 0;
    }

    function Value(): State<T>
      reads this
    {
      State(points, zoomRange, dragStartLocal, dragEndLocal, heldBase)
    }

    /** The effect: a changed drag end re-registers the listener with the current base. */
    method Effect(oldStart: Option<int>, oldEnd: Option<int>)
      modifies this`heldBase
      ensures Value() == old(Value()).(heldBase :=
        if dragStartLocal == oldStart && dragEndLocal == oldEnd then old(heldBase) else BaseOffset(old(Value())))
    {
      if dragStartLocal != oldStart || dragEndLocal != oldEnd {
        heldBase := BaseOffset(Value());
      }
    }

    method StartDrag(local: int)
      modifies this
      ensures Value() == Apply(old(Value()), Event<T>.StartDrag(local))
      ensures dragStartLocal == dragEndLocal == Some(local) && points == old(points) && zoomRange == old(zoomRange)
    {
      var oldStart, oldEnd := dragStartLocal, dragEndLocal;
      dragStartLocal := Some(local);
      dragEndLocal := Some(local);
      Effect(oldStart, oldEnd);
    }

    method UpdateDrag(local: int)
      modifies this
      ensures Value() == Apply(old(Value()), Event<T>.UpdateDrag(local))
      ensures dragEndLocal == Some(local)
      ensures dragStartLocal == old(dragStartLocal) && points == old(points) && zoomRange == old(zoomRange)
    {
      var oldEnd := dragEndLocal;
      dragEndLocal := Some(local);
      Effect(dragStartLocal, oldEnd);
    }

    method Finish()
      modifies this
      ensures Value() == Apply(old(Value()), Event<T>.Finish)
      ensures dragStartLocal == dragEndLocal == None && points == old(points) && heldBase == old(heldBase)
      ensures old(dragStartLocal) == None || old(dragEndLocal) == None || old(dragStartLocal) == old(dragEndLocal) ==>
        zoomRange == old(zoomRange)
      ensures forall a, b :: old(dragStartLocal) == Some(a) && old(dragEndLocal) == Some(b) && a != b ==>
        zoomRange == Some(if a < b then (heldBase + a, heldBase + b) else (heldBase + b, heldBase + a))
    {
      if dragStartLocal.Some? && dragEndLocal.Some? {
        var distance := dragEndLocal.value - dragStartLocal.value;
        if distance >= 1 || -distance >= 1 {
          var lo := Min(dragStartLocal.value, dragEndLocal.value);
          var hi := Max(dragStartLocal.value, dragEndLocal.value);
          zoomRange := Some((heldBase + lo, heldBase + hi));
        }
      }
      dragStartLocal := None;
      dragEndLocal := None;
    }

    method Reset()
      modifies this
      ensures Value() == Apply(old(Value()), Event<T>.Reset)
      ensures zoomRange == None && points == old(points) && heldBase == old(heldBase)
      ensures dragStartLocal == old(dragStartLocal) && dragEndLocal == old(dragEndLocal)
    {
      zoomRange := None;
    }
  }

  /** A drag may start at any displayed point and, once begun, go to any. */
  lemma {:induction false} AnyPointCanBeDragged<T>(s: State<T>, i: int)
    ensures Can(s, StartDrag(i)) <==> 0 <= i < |Display(s)|
    ensures s.dragStart.Some? ==> (Can(s, UpdateDrag(i)) <==> 0 <= i < |Display(s)|) && Can(s, Finish)
    ensures Can(s, Reset) && forall points :: Can(s, Refetch(points))
  {}

  // ---- every sequence of events ----

  ghost predicate Inv<T>(s: State<T>) {
    && s.heldBase >= 0
    && (s.zoomRange.Some? ==> 0 <= s.zoomRange.value.0 < s.zoomRange.value.1)
    && (s.dragStart.Some? <==> s.dragEnd.Some?)
    && (s.dragStart.Some? ==> s.dragStart.value >= 0 && s.dragEnd.value >= 0)
  }

  ghost predicate Reaches<T>(s: State<T>, es: seq<Event<T>>, t: State<T>)
    decreases |es|
  {
    if es == [] then s == t else Can(s, es[0]) && Reaches(Apply(s, es[0]), es[1..], t)
  }

  lemma {:induction false} InvAlways<T>(s: State<T>, es: seq<Event<T>>, t: State<T>)
    requires Inv(s) && Reaches(s, es, t)
    ensures Inv(t)
    decreases |es|
  {
    if es != [] {
      InvAlways(Apply(s, es[0]), es[1..], t);
    }
  }

  /** After any sequence of drags, resets and refetches the display is the contiguous slice of
      the points at baseOffset, with at least two points whenever there are two to show. */
  lemma {:induction false} DisplayIsSlice<T>(points: seq<T>, es: seq<Event<T>>, t: State<T>)
    requires Reaches(State(points, None, None, None, 0), es, t)
    ensures 0 <= BaseOffset(t) && BaseOffset(t) + |Display(t)| <= |t.points|
    ensures Display(t) == t.points[BaseOffset(t)..BaseOffset(t) + |Display(t)|]
    ensures |Display(t)| >= Min(2, |t.points|)
    ensures t.zoomRange.None? ==> Display(t) == t.points
    ensures t.zoomRange.Some? && |t.points| >= 2 ==>
      var (a, b) := t.zoomRange.value;
      && BaseOffset(t) == (if a <= |t.points| - 2 then a else |t.points| - 2)
      && BaseOffset(t) + |Display(t)| == (if b < |t.points| then b + 1 else |t.points|)
  {
    InvAlways(State(points, None, None, None, 0), es, t);
  }

  /** With no refetch since it began, a drag lies inside the display. */
  ghost predicate DragInside<T>(s: State<T>) {
    s.dragStart.Some? && s.dragEnd.Some? ==>
      && 0 <= s.dragStart.value < |Display(s)| && 0 <= s.dragEnd.value < |Display(s)|
      && (s.dragStart != s.dragEnd ==>
            && BaseOffset(s) <= s.heldBase + Min(s.dragStart.value, s.dragEnd.value)
            && s.heldBase + Max(s.dragStart.value, s.dragEnd.value) < BaseOffset(s) + |Display(s)|)
  }

  lemma {:induction false} DragInsideStep<T>(s: State<T>, e: Event<T>)
    requires Inv(s) && Can(s, e) && !e.Refetch? && (DragInside(s) || e.StartDrag?)
    ensures Inv(Apply(s, e)) && DragInside(Apply(s, e))
  {}

  lemma {:induction false} DragInsideAlways<T>(s: State<T>, es: seq<Event<T>>, t: State<T>)
    requires Inv(s) && DragInside(s) && Reaches(s, es, t) && forall i :: 0 <= i < |es| ==> !es[i].Refetch?
    ensures Inv(t) && DragInside(t)
    decreases |es|
  {
    if es != [] {
      DragInsideStep(s, es[0]);
      DragInsideAlways(Apply(s, es[0]), es[1..], t);
    }
  }

  /** The new zoom lies inside the display it was drawn on. */
  predicate StaysInside<T>(t: State<T>, u: State<T>) {
    BaseOffset(t) <= BaseOffset(u) && BaseOffset(u) + |Display(u)| <= BaseOffset(t) + |Display(t)|
  }

  lemma {:induction false} FinishInside<T>(t: State<T>)
    requires Inv(t) && DragInside(t) && Can(t, Finish)
    ensures StaysInside(t, Apply(t, Finish))
    ensures t.dragStart == t.dragEnd ==> Display(Apply(t, Finish)) == Display(t)
    ensures t.dragStart != t.dragEnd ==>
      var lo, hi := Min(t.dragStart.value, t.dragEnd.value), Max(t.dragStart.value, t.dragEnd.value);
      |Display(Apply(t, Finish))| == hi - lo + 1 && BaseOffset(Apply(t, Finish)) == t.heldBase + lo
  {}

  /** A drag that starts at s and finishes at t with no refetch in between either leaves the
      zoom alone or zooms to exactly the dragged points, which lie inside what was displayed. */
  lemma {:induction false} NewZoomInsidePrevious<T>(s: State<T>, local: int, es: seq<Event<T>>, t: State<T>)
    requires Inv(s) && Can(s, StartDrag(local)) && Reaches(Apply(s, StartDrag(local)), es, t) && Can(t, Finish)
    requires forall i :: 0 <= i < |es| ==> !es[i].Refetch?
    ensures t.dragStart.Some? && t.dragEnd.Some? && StaysInside(t, Apply(t, Finish))
    ensures t.dragStart == t.dragEnd ==> Display(Apply(t, Finish)) == Display(t)
    ensures t.dragStart != t.dragEnd ==>
      var lo, hi := Min(t.dragStart.value, t.dragEnd.value), Max(t.dragStart.value, t.dragEnd.value);
      |Display(Apply(t, Finish))| == hi - lo + 1 && BaseOffset(Apply(t, Finish)) == t.heldBase + lo
  {
    DragInsideStep(s, StartDrag(local));
    DragInsideAlways(Apply(s, StartDrag(local)), es, t);
    FinishInside(t);
  }

  /** At any reachable mouseup after a drag over more than one point, refetches during the drag
      included, the new zoom stays inside the display exactly if the range about to be set starts inside
      it and either ends inside it or the display already reaches the last point. */
  lemma {:induction false} StaysInsideExactly<T>(points: seq<T>, es: seq<Event<T>>, t: State<T>)
    requires Reaches(State(points, None, None, None, 0), es, t) && Can(t, Finish)
    requires t.dragEnd.Some? && t.dragStart != t.dragEnd
    ensures
      var lo := t.heldBase + Min(t.dragStart.value, t.dragEnd.value);
      var hi := t.heldBase + Max(t.dragStart.value, t.dragEnd.value);
      var end := BaseOffset(t) + |Display(t)|;
      StaysInside(t, Apply(t, Finish)) <==> BaseOffset(t) <= lo && (hi < end || end == |t.points|)
  {
    InvAlways(State(points, None, None, None, 0), es, t);
  }

  /** A drag that ends where it began changes nothing that is displayed. */
  lemma {:induction false} PointDragKeepsDisplay<T>(points: seq<T>, es: seq<Event<T>>, t: State<T>)
    requires Reaches(State(points, None, None, None, 0), es, t) && Can(t, Finish)
    ensures t.dragEnd.Some?
    ensures t.dragStart == t.dragEnd ==>
      Display(Apply(t, Finish)) == Display(t) && BaseOffset(Apply(t, Finish)) == BaseOffset(t)
  {
    InvAlways(State(points, None, None, None, 0), es, t);
  }

  /** The condition matters: a series that shrinks and grows again during a drag lets the new
      zoom fall outside what was displayed when it was finished. */
  lemma {:induction false} RefetchMidDragEscapes(ten: seq<int>, five: seq<int>)
    returns (es: seq<Event<int>>, t: State<int>)
    requires |ten| == 10 && |five| == 5
    ensures Reaches(State(ten, None, None, None, 0), es, t) && Can(t, Finish)
    ensures BaseOffset(Apply(t, Finish)) < BaseOffset(t) && !StaysInside(t, Apply(t, Finish))
  {
    var s0 := State(ten, None, None, None, 0);
    var s3 := State(ten, Some((8, 9)), None, None, 0);
    var s5 := State(five, Some((8, 9)), Some(0), Some(0), 3);
    t := State(ten, Some((8, 9)), Some(0), Some(1), 3);
    es := [StartDrag(8), UpdateDrag(9), Finish, Refetch(five), StartDrag(0), UpdateDrag(1), Refetch(ten)];
    assert Reaches(s5, es[5..], t) by {
      assert es[5..] == [UpdateDrag(1), Refetch(ten)];
      assert es[5..][1..] == [Refetch(ten)] && es[5..][1..][1..] == [];
    }
    assert Reaches(s3, es[3..], t) by {
      assert es[3..][1..] == es[4..] && es[4..][1..] == es[5..];
      assert es[3..][0] == Refetch(five) && es[4..][0] == StartDrag(0);
    }
    assert es[1..][1..] == es[2..] && es[2..][1..] == es[3..];
    assert es[1..][0] == UpdateDrag(9) && es[2..][0] == Finish;
  }
}
