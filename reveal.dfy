/** Scroll-reveal animation (js/main.js, section 5): every tagged element
    gains the `revealed` class once its top comes within 50 units of the
    viewport's bottom edge, and never loses it. */
module Reveal {

  /** Margin above the viewport's bottom edge. */
  const RevealPoint := 50

  /** One evaluation, given each element's viewport-relative top. */
  function RevealStep(revealed: seq<bool>, tops: seq<int>, windowHeight: int): (r: seq<bool>)
    requires |tops| == |revealed|
    ensures |r| == |revealed|
    ensures forall i :: 0 <= i < |r| ==> (r[i] <==> revealed[i] || tops[i] < windowHeight - RevealPoint)
  {
    seq(|revealed|, i requires 0 <= i < |revealed| => revealed[i] || tops[i] < windowHeight - RevealPoint)
  }

  /** The indices of the revealed elements. */
  function RevealedSet(revealed: seq<bool>): set<nat>
  {
    set i: nat | i < |revealed| && revealed[i]
  }

  /** What one evaluation sees: element tops and the viewport height. */
  datatype Frame = Frame(tops: seq<int>, windowHeight: int)

  /** Evaluations for a series of frames, in order. */
  function RevealFrames(revealed: seq<bool>, frames: seq<Frame>): (r: seq<bool>)
    requires forall f :: f in frames ==> |f.tops| == |revealed|
    ensures |r| == |revealed|
    decreases |frames|
  {
    if frames == [] then revealed
    else RevealFrames(RevealStep(revealed, frames[0].tops, frames[0].windowHeight), frames[1..])
  }

  /** One evaluation never shrinks the revealed set. */
  lemma RevealStepGrows(revealed: seq<bool>, tops: seq<int>, windowHeight: int)
    requires |tops| == |revealed|
    ensures RevealedSet(revealed) <= RevealedSet(RevealStep(revealed, tops, windowHeight))
  {
  }

  /** One evaluation adds exactly the elements whose top is above the
      reveal line, to those already revealed. */
  lemma RevealStepAdds(revealed: seq<bool>, tops: seq<int>, windowHeight: int)
    requires |tops| == |revealed|
    ensures RevealedSet(RevealStep(revealed, tops, windowHeight))
         == RevealedSet(revealed) + set i: nat | i < |tops| && tops[i] < windowHeight - RevealPoint
  {
  }

  /** Evaluating the same frame twice is the same as once. */
  lemma RevealStepIdempotent(revealed: seq<bool>, tops: seq<int>, windowHeight: int)
    requires |tops| == |revealed|
    ensures RevealStep(RevealStep(revealed, tops, windowHeight), tops, windowHeight)
         == RevealStep(revealed, tops, windowHeight)
  {
  }

  /** Once revealed, an element stays revealed through every later frame,
      whatever the scroll position. */
  lemma {:induction false} RevealedStaysRevealed(revealed: seq<bool>, frames: seq<Frame>)
    requires forall f :: f in frames ==> |f.tops| == |revealed|
    ensures RevealedSet(revealed) <= RevealedSet(RevealFrames(revealed, frames))
    decreases |frames|
  {
    if frames != [] {
      var next := RevealStep(revealed, frames[0].tops, frames[0].windowHeight);
      RevealStepGrows(revealed, frames[0].tops, frames[0].windowHeight);
      assert forall f :: f in frames[1..] ==> f in frames;
      RevealedStaysRevealed(next, frames[1..]);
    }
  }

  /** The `.reveal-on-scroll` elements. */
  class RevealController {
    var revealed: seq<bool>

    /** The elements as the markup leaves them, before the initial check:
        each carries the `revealed` class or not as served. */
    constructor (revealed: seq<bool>)
      ensures this.revealed == revealed
    {
      this.revealed := revealed;
    }

    /** `revealOnScroll`, run at load and on each animation frame after a
        scroll. */
    method Check(tops: seq<int>, windowHeight: int)
      requires |tops| == |revealed|
      modifies this
      ensures revealed == RevealStep(old(revealed), tops, windowHeight)
    {
      var revealPoint := RevealPoint;
      var i := 0;
      while i < |tops|
        invariant 0 <= i <= |tops| && |revealed| == |tops|
        invariant forall k :: 0 <= k < i ==> (revealed[k] <==> old(revealed)[k] || tops[k] < windowHeight - RevealPoint)
        invariant forall k :: i <= k < |tops| ==> revealed[k] == old(revealed)[k]
      {
        if tops[i] < windowHeight - revealPoint {
          revealed := revealed[i := true];
        }
        i := i + 1;
      }
    }
  }
}
