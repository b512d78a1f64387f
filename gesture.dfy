/** The pinch gesture: the hit-test of the index fingertip against the buttons and the
    press/release debounce flag, stated as functions of the fingertip pixels and the state. */
module Gesture {
  import opened Wrappers
  import opened Layout

  /** The two fingertips of one detected hand, `None` when a tip did not map to a pixel. */
  datatype Hand = Hand(index: Option<Point>, middle: Option<Point>)

  /** The debounce flag and the text typed so far. */
  datatype Debounce = Debounce(pressed: bool, textString: string)

  /** Nothing pressed, nothing typed. */
  const Initial: Debounce := Debounce(false, "")

  /** A press needs the fingertips at most this far apart on each axis. */
  const PressSeparation: int := 30
  /** A release needs the fingertips more than this far apart horizontally. */
  const ReleaseSeparation: int := 40

  function Abs(x: int): (n: nat)
  {
    if x < 0 then -x else x
  }

  /** The fingertips are close together on both axes. */
  predicate Pinched(index: Point, middle: Point)
  {
    Abs(middle.0 - index.0) <= PressSeparation && Abs(middle.1 - index.1) <= PressSeparation
  }

  /** The fingertips are far apart horizontally; the vertical distance plays no part. */
  predicate Spread(index: Point, middle: Point)
  {
    Abs(middle.0 - index.0) > ReleaseSeparation
  }

  /** From the idle state, button b would fire. */
  predicate Fires(b: Button, index: Point, middle: Point)
  {
    Contains(b, index) && Pinched(index, middle)
  }

  /** The first button, in list order, that would fire. */
  function FirstFiring(bs: seq<Button>, index: Point, middle: Point): (r: Option<nat>)
    ensures r.Some? ==> r.value < |bs| && Fires(bs[r.value], index, middle)
    ensures r.Some? ==> forall k :: 0 <= k < r.value ==> !Fires(bs[k], index, middle)
    ensures r.None? <==> forall k :: 0 <= k < |bs| ==> !Fires(bs[k], index, middle)
  {
    if bs == [] then None
    else
      var front := bs[..|bs| - 1];
      assert forall k :: 0 <= k < |front| ==> front[k] == bs[k];
      match FirstFiring(front, index, middle)
      case Some(k) => Some(k)
      case None => if Fires(bs[|bs| - 1], index, middle) then Some(|bs| - 1) else None
  }

  /** The state after one scan of the buttons for one hand whose two fingertips are known.
      Idle: the first button that fires sets the flag and appends its label.
      Held: the flag clears when the fingertips are spread and there is a button to scan. */
  function Scan(bs: seq<Button>, index: Point, middle: Point, s: Debounce): (r: Debounce)
  {
    if !s.pressed then
      match FirstFiring(bs, index, middle)
      case None => s
      case Some(k) => Debounce(true, s.textString + bs[k].text)
    else if |bs| > 0 && Spread(index, middle) then Debounce(false, s.textString)
    else s
  }

  /** The state after one hand; a hand with a missing fingertip changes nothing. */
  function HandStep(bs: seq<Button>, hand: Hand, s: Debounce): (r: Debounce)
  {
    if hand.index.Some? && hand.middle.Some? then Scan(bs, hand.index.value, hand.middle.value, s)
    else s
  }

  /** The state after the hands of one frame, taken in order. */
  function FrameStep(bs: seq<Button>, hands: seq<Hand>, s: Debounce): (r: Debounce)
  {
    if hands == [] then s else FrameStep(bs, hands[1..], HandStep(bs, hands[0], s))
  }

  /** The state after a sequence of frames. */
  function Session(bs: seq<Button>, frames: seq<seq<Hand>>, s: Debounce): (r: Debounce)
  {
    if frames == [] then s else Session(bs, frames[1..], FrameStep(bs, frames[0], s))
  }

  function Flatten(frames: seq<seq<Hand>>): (hands: seq<Hand>)
  {
    if frames == [] then [] else frames[0] + Flatten(frames[1..])
  }

  /** The hand is tracked and its fingertips are spread, so it would release a held press. */
  predicate Releases(hand: Hand)
  {
    hand.index.Some? && hand.middle.Some? && Spread(hand.index.value, hand.middle.value)
  }

  /** From idle, the scan presses exactly when some button fires, and then appends the
      label of the first such button; otherwise nothing changes. */
  lemma ScanFromIdle(bs: seq<Button>, index: Point, middle: Point, s: Debounce)
    requires !s.pressed
    ensures Scan(bs, index, middle, s).pressed <==> exists k :: 0 <= k < |bs| && Fires(bs[k], index, middle)
    ensures !Scan(bs, index, middle, s).pressed ==> Scan(bs, index, middle, s) == s
    ensures Scan(bs, index, middle, s).pressed ==>
              exists k :: 0 <= k < |bs| && Fires(bs[k], index, middle) &&
                (forall j :: 0 <= j < k ==> !Fires(bs[j], index, middle)) &&
                Scan(bs, index, middle, s).textString == s.textString + bs[k].text
  {
    var r := FirstFiring(bs, index, middle);
    if r.Some? {
      assert Fires(bs[r.value], index, middle);
    }
  }

  /** While held, the scan appends nothing and clears the flag exactly when the
      fingertips are more than 40 px apart horizontally and the list is not empty. */
  lemma ScanWhileHeld(bs: seq<Button>, index: Point, middle: Point, s: Debounce)
    requires s.pressed
    ensures Scan(bs, index, middle, s).textString == s.textString
    ensures !Scan(bs, index, middle, s).pressed <==> |bs| > 0 && Abs(middle.0 - index.0) > 40
  {
  }

  /** While held, moving the fingertips vertically changes nothing about the scan. */
  lemma HeldIgnoresVertical(bs: seq<Button>, index: Point, middle: Point, index': Point, middle': Point, s: Debounce)
    requires s.pressed
    requires middle.0 - index.0 == middle'.0 - index'.0
    ensures Scan(bs, index, middle, s) == Scan(bs, index', middle', s)
  {
  }

  /** A horizontal separation in 30 < |dx| <= 40 neither presses nor releases. */
  lemma HysteresisBand(bs: seq<Button>, index: Point, middle: Point, s: Debounce)
    requires 30 < Abs(middle.0 - index.0) <= 40
    ensures Scan(bs, index, middle, s) == s
  {
    assert forall k :: 0 <= k < |bs| ==> !Fires(bs[k], index, middle);
  }

  /** A missing fingertip, or an empty button list, leaves the state unchanged. */
  lemma NoOpCases(bs: seq<Button>, hand: Hand, s: Debounce)
    requires hand.index.None? || hand.middle.None? || bs == []
    ensures HandStep(bs, hand, s) == s
  {
  }

  /** One hand appends at most one label, the label of one of the buttons. */
  lemma HandAppendsAtMostOne(bs: seq<Button>, hand: Hand, s: Debounce)
    ensures HandStep(bs, hand, s).textString == s.textString ||
            exists k :: 0 <= k < |bs| && HandStep(bs, hand, s).textString == s.textString + bs[k].text
  {
    if hand.index.Some? && hand.middle.Some? && !s.pressed {
      var r := FirstFiring(bs, hand.index.value, hand.middle.value);
      if r.Some? {
        assert HandStep(bs, hand, s).textString == s.textString + bs[r.value].text;
      }
    }
  }

  /** On a layout whose buttons do not overlap, the button that fires is the only one
      holding the index fingertip, whatever its place in the list. */
  lemma FiresOnlyButtonHit(bs: seq<Button>, index: Point, middle: Point, k: int)
    requires PairwiseDisjoint(bs)
    requires forall b :: b in bs ==> b.size.0 >= 0 && b.size.1 >= 0
    requires 0 <= k < |bs| && Fires(bs[k], index, middle)
    ensures FirstFiring(bs, index, middle) == Some(k)
    ensures forall l :: 0 <= l < |bs| && l != k ==> !Contains(bs[l], index)
  {
    forall l | 0 <= l < |bs| && l != k
      ensures !Contains(bs[l], index)
    {
      if l < k {
        assert Disjoint(bs[l], bs[k]);
        DisjointIffNoCommonPoint(bs[l], bs[k]);
      } else {
        assert Disjoint(bs[k], bs[l]);
        DisjointIffNoCommonPoint(bs[k], bs[l]);
      }
    }
  }

  /** Hands seen one after the other, in one frame or over several. */
  lemma {:induction false} FrameStepAppend(bs: seq<Button>, h1: seq<Hand>, h2: seq<Hand>, s: Debounce)
    ensures FrameStep(bs, h1 + h2, s) == FrameStep(bs, h2, FrameStep(bs, h1, s))
  {
    if h1 != [] {
      assert (h1 + h2)[1..] == h1[1..] + h2;
      FrameStepAppend(bs, h1[1..], h2, HandStep(bs, h1[0], s));
    } else {
      assert h1 + h2 == h2;
    }
  }

  /** A session is its frames' hands taken one after the other. */
  lemma {:induction false} SessionFlatten(bs: seq<Button>, frames: seq<seq<Hand>>, s: Debounce)
    ensures Session(bs, frames, s) == FrameStep(bs, Flatten(frames), s)
  {
    if frames != [] {
      SessionFlatten(bs, frames[1..], FrameStep(bs, frames[0], s));
      FrameStepAppend(bs, frames[0], Flatten(frames[1..]), s);
    }
  }

  /** A held pinch types nothing: as long as no hand spreads its fingertips, a held
      state stays held with the same text. */
  lemma {:induction false} HeldPinchTypesNothing(bs: seq<Button>, hands: seq<Hand>, s: Debounce)
    requires s.pressed
    requires forall h :: h in hands ==> !Releases(h)
    ensures FrameStep(bs, hands, s) == s
  {
    if hands != [] {
      assert hands[0] in hands;
      assert forall h :: h in hands[1..] ==> h in hands;
      HeldPinchTypesNothing(bs, hands[1..], HandStep(bs, hands[0], s));
    }
  }

  /** One pinch, one key: as long as no hand spreads its fingertips, at most one label is
      typed, however many hands and frames go by. */
  lemma {:induction false} PinchTypesAtMostOnce(bs: seq<Button>, hands: seq<Hand>, s: Debounce)
    requires forall h :: h in hands ==> !Releases(h)
    ensures FrameStep(bs, hands, s).textString == s.textString ||
            exists k :: 0 <= k < |bs| && FrameStep(bs, hands, s).textString == s.textString + bs[k].text
  {
    if hands != [] {
      var s1 := HandStep(bs, hands[0], s);
      assert forall h :: h in hands[1..] ==> h in hands;
      if s.pressed || !s1.pressed {
        assert hands[0] in hands;
        assert s1.pressed == s.pressed && s1.textString == s.textString;
        PinchTypesAtMostOnce(bs, hands[1..], s1);
      } else {
        HandAppendsAtMostOne(bs, hands[0], s);
        HeldPinchTypesNothing(bs, hands[1..], s1);
      }
    }
  }

  /** Every hand of the flattened frames is a hand of one of the frames. */
  lemma {:induction false} FlattenMem(frames: seq<seq<Hand>>)
    ensures forall h :: h in Flatten(frames) ==> exists f :: f in frames && h in f
  {
    if frames != [] {
      FlattenMem(frames[1..]);
      assert Flatten(frames) == frames[0] + Flatten(frames[1..]);
      assert forall f :: f in frames[1..] ==> f in frames;
    }
  }

  /** Over whole runs of frames: a held pinch types nothing while no hand in any frame
      spreads its fingertips. */
  lemma SessionHeldPinchTypesNothing(bs: seq<Button>, frames: seq<seq<Hand>>, s: Debounce)
    requires s.pressed
    requires forall f, h :: f in frames && h in f ==> !Releases(h)
    ensures Session(bs, frames, s) == s
  {
    SessionFlatten(bs, frames, s);
    FlattenMem(frames);
    HeldPinchTypesNothing(bs, Flatten(frames), s);
  }

  /** Over whole runs of frames: while no hand in any frame spreads its fingertips, at
      most one label is typed. */
  lemma SessionPinchTypesAtMostOnce(bs: seq<Button>, frames: seq<seq<Hand>>, s: Debounce)
    requires forall f, h :: f in frames && h in f ==> !Releases(h)
    ensures Session(bs, frames, s).textString == s.textString ||
            exists k :: 0 <= k < |bs| && Session(bs, frames, s).textString == s.textString + bs[k].text
  {
    SessionFlatten(bs, frames, s);
    FlattenMem(frames);
    PinchTypesAtMostOnce(bs, Flatten(frames), s);
  }

  /** The labels typed over a run of hands: at most one per hand, each a button's label. */
  lemma {:induction false} FrameTyped(bs: seq<Button>, hands: seq<Hand>, s: Debounce) returns (labels: seq<string>)
    ensures |labels| <= |hands|
    ensures forall l :: l in labels ==> exists k :: 0 <= k < |bs| && bs[k].text == l
    ensures FrameStep(bs, hands, s).textString == s.textString + Concat(labels)
  {
    if hands == [] {
      labels := [];
    } else {
      var s1 := HandStep(bs, hands[0], s);
      var rest := FrameTyped(bs, hands[1..], s1);
      HandAppendsAtMostOne(bs, hands[0], s);
      if s1.textString == s.textString {
        labels := rest;
      } else {
        var k :| 0 <= k < |bs| && s1.textString == s.textString + bs[k].text;
        labels := [bs[k].text] + rest;
        ConcatCons(bs[k].text, rest);
      }
    }
  }

  function Concat(ls: seq<string>): (text: string)
  {
    if ls == [] then "" else ls[0] + Concat(ls[1..])
  }

  lemma ConcatCons(l: string, ls: seq<string>)
    ensures Concat([l] + ls) == l + Concat(ls)
  {
    assert ([l] + ls)[1..] == ls;
  }
}
