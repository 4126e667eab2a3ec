/** The viewport-width classifier of the shared `useBreakpoint` hook. */
module Breakpoint {

  /** The three size classes, in increasing order of viewport width. */
  datatype SizeClass = Mobile | Tablet | Desktop

  /** Position of a class in the order mobile < tablet < desktop. */
  function Rank(c: SizeClass): nat {
    match c
    case Mobile => 0
    case Tablet => 1
    case Desktop => 2
  }

  /** Smallest tablet width and smallest desktop width, in CSS pixels. */
  const TabletMin: int := 640
  const DesktopMin: int := 1024

  /** The class of a viewport of `w` pixels. Every width gets exactly one class,
      the three classes being the intervals below 640, [640, 1024) and 1024 upwards. */
  function Classify(w: int): (c: SizeClass)
    ensures c == Mobile <==> w < TabletMin
    ensures c == Tablet <==> TabletMin <= w < DesktopMin
    ensures c == Desktop <==> DesktopMin <= w
  {
    if w < TabletMin then Mobile
    else if w < DesktopMin then Tablet
    else Desktop
  }

  /** A wider viewport never gets a smaller class. */
  lemma ClassifyMonotone(v: int, w: int)
    requires v <= w
    ensures Rank(Classify(v)) <= Rank(Classify(w))
  {
  }

  /** The class held after the hook has seen the widths `widths`, one resize
      event each, starting from class `start`. */
  function AfterResizes(start: SizeClass, widths: seq<int>): SizeClass
    decreases |widths|
  {
    if widths == [] then start else AfterResizes(Classify(widths[0]), widths[1..])
  }

  /** After at least one measurement the class is that of the last width alone. */
  lemma {:induction false} LastWidthDecides(start: SizeClass, widths: seq<int>)
    requires |widths| > 0
    ensures AfterResizes(start, widths) == Classify(widths[|widths| - 1])
    decreases |widths|
  {
    if |widths| > 1 {
      LastWidthDecides(Classify(widths[0]), widths[1..]);
    }
  }

  /** Two histories that end with the same widths give the same class. */
  lemma HistoryIrrelevant(s: SizeClass, t: SizeClass, earlier: seq<int>, widths: seq<int>)
    requires |widths| > 0
    ensures AfterResizes(s, earlier + widths) == AfterResizes(t, widths)
  {
    var all := earlier + widths;
    LastWidthDecides(s, all);
    LastWidthDecides(t, widths);
    assert all[|all| - 1] == widths[|widths| - 1];
  }

  /** The `bp` state of one mounted `useBreakpoint` hook. */
  class ViewportTracker {
    var bp: SizeClass

    /** The first render, before any measurement: desktop. */
    constructor ()
      ensures bp == Desktop
    {
      bp := Desktop;
    }

    /** `update`: run once by the mount effect and then on every resize event. */
    method Update(width: int)
      modifies this
      ensures bp == Classify(width)
    {
      if width < 640 {
        bp := Mobile;
      } else if width < 1024 {
        bp := Tablet;
      } else {
        bp := Desktop;
      }
    }
  }
}
