/** The smart-light variant of the keyboard: the same layout and pinch gesture, where the
    keys "R", "G" and "B" also ask the first online bulb to change colour. */
module SmartLightControl {
  import opened Wrappers
  import opened Layout
  import opened Gesture

  /** A colour as (red, green, blue). */
  type Rgb = (int, int, int)

  /** What the program can know of an online bulb: whether it supports RGB colours
      (as reported after its status update). */
  datatype Bulb = Bulb(supportsRgb: bool)

  /** The three ways a colour request ends. */
  datatype MainOutcome = NoBulbFound | RgbUnsupported | ColourSet(rgb: Rgb)

  /** What one press does, in order: possibly a colour request, then the key appended. */
  datatype Effect = ColourCommand(outcome: MainOutcome) | Appended(text: string)

  /** The module-level layout loop: one button per key, row by row, into an empty list. */
  method BuildButtonList() returns (buttonList: seq<Button>)
    ensures buttonList == Grid(Keys)
  {
    var keys := Keys;
    buttonList := [];
    var i := 0;
    while i < |keys|
      invariant 0 <= i <= |keys|
      invariant buttonList == Grid(keys[..i])
    {
      var j := 0;
      while j < |keys[i]|
        invariant 0 <= j <= |keys[i]|
        invariant buttonList == Grid(keys[..i]) + Row(i, keys[i][..j])
      {
        buttonList := buttonList + [Button((100 * j + 50, 100 * i + 50), keys[i][j])];
        assert keys[i][..j + 1][..j] == keys[i][..j];
        j := j + 1;
      }
      assert keys[i][..j] == keys[i];
      assert keys[..i + 1][..i] == keys[..i];
      i := i + 1;
    }
    assert keys[..i] == keys;
  }

  /** The colour a key asks for: "R", "G" and "B" name the pure primaries, every other
      key asks for nothing. */
  function ColourFor(key: string): (c: Option<Rgb>)
  {
    if key == "R" then Some((255, 0, 0))
    else if key == "G" then Some((0, 255, 0))
    else if key == "B" then Some((0, 0, 255))
    else None
  }

  /** The request `main(colour)`: nothing without an online bulb, a refusal when the first
      bulb has no RGB support, and otherwise that bulb is set to exactly the colour given. */
  function MainCall(colour: Rgb, plugs: seq<Bulb>): (o: MainOutcome)
    ensures o.ColourSet? <==> |plugs| >= 1 && plugs[0].supportsRgb
    ensures o.ColourSet? ==> o.rgb == colour
    ensures o == NoBulbFound <==> plugs == []
  {
    if |plugs| < 1 then NoBulbFound
    else if !plugs[0].supportsRgb then RgbUnsupported
    else ColourSet(colour)
  }

  /** What a fired key does: its colour request, if it has one, then the append. */
  function Dispatch(key: string, plugs: seq<Bulb>): (es: seq<Effect>)
  {
    (match ColourFor(key)
     case Some(c) => [ColourCommand(MainCall(c, plugs))]
     case None => [])
    + [Appended(key)]
  }

  /** The effects of one scan: those of the first button to fire, if the scan starts idle. */
  function ScanEffects(bs: seq<Button>, index: Point, middle: Point, plugs: seq<Bulb>, s: Debounce): (es: seq<Effect>)
  {
    if s.pressed then []
    else
      match FirstFiring(bs, index, middle)
      case None => []
      case Some(k) => Dispatch(bs[k].text, plugs)
  }

  function HandEffects(bs: seq<Button>, hand: Hand, plugs: seq<Bulb>, s: Debounce): (es: seq<Effect>)
  {
    if hand.index.Some? && hand.middle.Some? then ScanEffects(bs, hand.index.value, hand.middle.value, plugs, s)
    else []
  }

  /** The effects of the hands of one frame, in order. */
  function FrameEffects(bs: seq<Button>, hands: seq<Hand>, plugs: seq<Bulb>, s: Debounce): (es: seq<Effect>)
  {
    if hands == [] then []
    else HandEffects(bs, hands[0], plugs, s) + FrameEffects(bs, hands[1..], plugs, HandStep(bs, hands[0], s))
  }

  /** The effects of a sequence of frames, in order. */
  function SessionEffects(bs: seq<Button>, frames: seq<seq<Hand>>, plugs: seq<Bulb>, s: Debounce): (es: seq<Effect>)
  {
    if frames == [] then []
    else FrameEffects(bs, frames[0], plugs, s) + SessionEffects(bs, frames[1..], plugs, FrameStep(bs, frames[0], s))
  }

  /** The text the effects append, in order. */
  function AppendedText(es: seq<Effect>): (text: string)
  {
    if es == [] then ""
    else (if es[0].Appended? then es[0].text else "") + AppendedText(es[1..])
  }

  /** The number of colour requests among the effects. */
  function CommandCount(es: seq<Effect>): (n: nat)
  {
    if es == [] then 0 else (if es[0].ColourCommand? then 1 else 0) + CommandCount(es[1..])
  }

  /** One scan of the button list for one hand, as in the keyboard, except that a press of
      "R", "G" or "B" first requests that colour from the bulb; the press is appended
      to the text either way. */
  method HitTestAndDispatch(buttonList: seq<Button>, index: Point, middle: Point, plugs: seq<Bulb>, s: Debounce)
    returns (r: Debounce, effects: seq<Effect>)
    ensures r == Scan(buttonList, index, middle, s)
    ensures effects == ScanEffects(buttonList, index, middle, plugs, s)
  {
    var pressed, textString := s.pressed, s.textString;
    effects := [];
    var n := 0;
    while n < |buttonList|
      invariant 0 <= n <= |buttonList|
      invariant !s.pressed ==>
                  match FirstFiring(buttonList[..n], index, middle)
                  case None => !pressed && textString == s.textString && effects == []
                  case Some(k) =>
                    pressed && textString == s.textString + buttonList[k].text &&
                    effects == Dispatch(buttonList[k].text, plugs)
      invariant s.pressed ==> pressed && textString == s.textString && effects == []
      invariant s.pressed && n > 0 ==> !Spread(index, middle)
    {
      assert buttonList[..n + 1][..n] == buttonList[..n];
      var button := buttonList[n];
      var (x, y) := button.pos;
      var (w, h) := button.size;
      if !pressed {
        if x <= index.0 <= x + w && y <= index.1 <= y + h {
          if Abs(middle.0 - index.0) <= 30 && Abs(middle.1 - index.1) <= 30 {
            pressed := true;
            if button.text == "R" {
              var colour := (255, 0, 0);
              effects := effects + [ColourCommand(MainCall(colour, plugs))];
            } else if button.text == "G" {
              var colour := (0, 255, 0);
              effects := effects + [ColourCommand(MainCall(colour, plugs))];
            } else if button.text == "B" {
              var colour := (0, 0, 255);
              effects := effects + [ColourCommand(MainCall(colour, plugs))];
            }
            effects := effects + [Appended(button.text)];
            textString := textString + button.text;
          }
        }
      } else {
        if Abs(middle.0 - index.0) > 40 {
          pressed := false;
          break;
        }
      }
      n := n + 1;
    }
    assert n == |buttonList| ==> buttonList[..n] == buttonList;
    r := Debounce(pressed, textString);
  }

  /** One frame: every hand whose two fingertips map to pixels is hit-tested in turn,
      and the effects of all of them are collected in order. */
  method HitTestFrameAndDispatch(buttonList: seq<Button>, hands: seq<Hand>, plugs: seq<Bulb>, s: Debounce)
    returns (r: Debounce, effects: seq<Effect>)
    ensures r == FrameStep(buttonList, hands, s)
    ensures effects == FrameEffects(buttonList, hands, plugs, s)
  {
    r := s;
    effects := [];
    var i := 0;
    while i < |hands|
      invariant 0 <= i <= |hands|
      invariant FrameStep(buttonList, hands[i..], r) == FrameStep(buttonList, hands, s)
      invariant effects + FrameEffects(buttonList, hands[i..], plugs, r) == FrameEffects(buttonList, hands, plugs, s)
    {
      assert hands[i..][1..] == hands[i + 1..];
      var hand := hands[i];
      if hand.index != None && hand.middle != None {
        var e;
        r, e := HitTestAndDispatch(buttonList, hand.index.value, hand.middle.value, plugs, r);
        effects := effects + e;
      }
      i := i + 1;
    }
    assert hands[i..] == [];
  }

  /** A whole run: lay out the keys, start idle with no text, process the frames until the
      quit key, and give back the text typed and every effect, in order. */
  method RunSmartLight(frames: seq<seq<Hand>>, plugs: seq<Bulb>) returns (textString: string, effects: seq<Effect>)
    ensures textString == Session(Grid(Keys), frames, Initial).textString
    ensures effects == SessionEffects(Grid(Keys), frames, plugs, Initial)
  {
    var buttonList := BuildButtonList();
    var state := Initial;
    effects := [];
    var f := 0;
    while f < |frames|
      invariant 0 <= f <= |frames|
      invariant Session(buttonList, frames[f..], state) == Session(buttonList, frames, Initial)
      invariant effects + SessionEffects(buttonList, frames[f..], plugs, state) == SessionEffects(buttonList, frames, plugs, Initial)
    {
      assert frames[f..][1..] == frames[f + 1..];
      var e;
      state, e := HitTestFrameAndDispatch(buttonList, frames[f], plugs, state);
      effects := effects + e;
      f := f + 1;
    }
    assert frames[f..] == [];
    textString := state.textString;
  }

  /** Only the labels "R", "G" and "B" ask for a colour, each a different pure primary. */
  lemma ColourForPrimaries(key: string, other: string)
    ensures ColourFor(key).Some? <==> key == "R" || key == "G" || key == "B"
    ensures ColourFor(key).Some? && ColourFor(key) == ColourFor(other) ==> key == other
    ensures ColourFor(key).Some? ==> ColourFor(key).value in {(255, 0, 0), (0, 255, 0), (0, 0, 255)}
    ensures key == "R" ==> ColourFor(key) == Some((255, 0, 0))
    ensures key == "G" ==> ColourFor(key) == Some((0, 255, 0))
    ensures key == "B" ==> ColourFor(key) == Some((0, 0, 255))
  {
  }

  /** On the keyboard exactly three buttons ask for a colour: "R" (row 0, column 3),
      "G" (row 1, column 4) and "B" (row 2, column 4). */
  lemma ColourKeysOnKeyboard(i: int, j: int)
    requires 0 <= i < 3 && 0 <= j < 10
    ensures |Grid(Keys)| == 30
    ensures ColourFor(Grid(Keys)[10 * i + j].text).Some? <==> (i, j) == (0, 3) || (i, j) == (1, 4) || (i, j) == (2, 4)
  {
    KeyboardLayout(i, j);
  }

  /** A press ends with its key appended; a colour request, if any, comes first, it is the
      only one, and it carries the key's own colour whenever the first bulb supports RGB. */
  lemma DispatchOrder(key: string, plugs: seq<Bulb>)
    ensures |Dispatch(key, plugs)| >= 1 && Dispatch(key, plugs)[|Dispatch(key, plugs)| - 1] == Appended(key)
    ensures AppendedText(Dispatch(key, plugs)) == key
    ensures CommandCount(Dispatch(key, plugs)) == if ColourFor(key).Some? then 1 else 0
    ensures ColourFor(key).Some? ==>
              Dispatch(key, plugs)[0] == ColourCommand(MainCall(ColourFor(key).value, plugs))
    ensures ColourFor(key).Some? && |plugs| >= 1 && plugs[0].supportsRgb ==>
              Dispatch(key, plugs)[0] == ColourCommand(ColourSet(ColourFor(key).value))
  {
    var es := Dispatch(key, plugs);
    var last := [Appended(key)];
    assert last[1..] == [];
    assert AppendedText(last) == key + "" == key;
    assert CommandCount(last) == 0;
    if ColourFor(key).Some? {
      assert es[1..] == last;
      assert AppendedText(es) == "" + key == key;
    } else {
      assert es == last;
    }
  }

  lemma {:induction false} AppendedTextConcat(xs: seq<Effect>, ys: seq<Effect>)
    ensures AppendedText(xs + ys) == AppendedText(xs) + AppendedText(ys)
  {
    if xs != [] {
      assert (xs + ys)[1..] == xs[1..] + ys;
      AppendedTextConcat(xs[1..], ys);
    } else {
      assert xs + ys == ys;
    }
  }

  lemma {:induction false} CommandCountConcat(xs: seq<Effect>, ys: seq<Effect>)
    ensures CommandCount(xs + ys) == CommandCount(xs) + CommandCount(ys)
  {
    if xs != [] {
      assert (xs + ys)[1..] == xs[1..] + ys;
      CommandCountConcat(xs[1..], ys);
    } else {
      assert xs + ys == ys;
    }
  }

  /** Per hand, the text grows by exactly what the effects append, and at most one colour
      request is made, only on a press. */
  lemma HandEffectsAgree(bs: seq<Button>, hand: Hand, plugs: seq<Bulb>, s: Debounce)
    ensures HandStep(bs, hand, s).textString == s.textString + AppendedText(HandEffects(bs, hand, plugs, s))
    ensures CommandCount(HandEffects(bs, hand, plugs, s)) <= 1
    ensures CommandCount(HandEffects(bs, hand, plugs, s)) == 1 ==> !s.pressed && HandStep(bs, hand, s).pressed
  {
    if hand.index.Some? && hand.middle.Some? && !s.pressed {
      var r := FirstFiring(bs, hand.index.value, hand.middle.value);
      if r.Some? {
        DispatchOrder(bs[r.value].text, plugs);
      }
    }
  }

  /** Over a frame, the text grows by exactly what the effects append, in order, and there
      are at most as many colour requests as hands. */
  lemma {:induction false} FrameEffectsAgree(bs: seq<Button>, hands: seq<Hand>, plugs: seq<Bulb>, s: Debounce)
    ensures FrameStep(bs, hands, s).textString == s.textString + AppendedText(FrameEffects(bs, hands, plugs, s))
    ensures CommandCount(FrameEffects(bs, hands, plugs, s)) <= |hands|
  {
    if hands != [] {
      var s1 := HandStep(bs, hands[0], s);
      var e1 := HandEffects(bs, hands[0], plugs, s);
      var rest := FrameEffects(bs, hands[1..], plugs, s1);
      assert FrameStep(bs, hands, s) == FrameStep(bs, hands[1..], s1);
      assert FrameEffects(bs, hands, plugs, s) == e1 + rest;
      HandEffectsAgree(bs, hands[0], plugs, s);
      FrameEffectsAgree(bs, hands[1..], plugs, s1);
      AppendedTextConcat(e1, rest);
      CommandCountConcat(e1, rest);
      assert s1.textString == s.textString + AppendedText(e1);
      assert FrameStep(bs, hands, s).textString == s1.textString + AppendedText(rest);
    }
  }

  /** On the keyboard, a pinch on the "R" key from idle asks the bulb for pure red and then
      appends "R"; with one RGB bulb online, the request sets it to (255, 0, 0). */
  lemma PinchOnRedKey(plugs: seq<Bulb>)
    ensures Scan(Grid(Keys), (400, 100), (410, 110), Initial) == Debounce(true, "R")
    ensures ScanEffects(Grid(Keys), (400, 100), (410, 110), plugs, Initial)
            == [ColourCommand(MainCall((255, 0, 0), plugs)), Appended("R")]
    ensures plugs == [Bulb(true)] ==>
              ScanEffects(Grid(Keys), (400, 100), (410, 110), plugs, Initial)[0] == ColourCommand(ColourSet((255, 0, 0)))
  {
    KeyboardLayout(0, 3);
    KeyboardFitsFrame();
    FiresOnlyButtonHit(Grid(Keys), (400, 100), (410, 110), 3);
  }
}
