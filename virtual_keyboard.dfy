/** The stand-alone virtual keyboard: a keyboard object that owns its button list, and the
    per-frame hit-test loop that types a key for each pinch over a button. */
module VirtualKeyboard {
  import opened Wrappers
  import opened Layout
  import opened Gesture

  class Keyboard {
    var buttonList: seq<Button>

    /** A keyboard starts with an empty list and lays out the keys once. */
    constructor ()
      ensures buttonList == Grid(Keys)
    {
      buttonList := [];
      new;
      CreateLayout();
    }

    /** Appends one button per key, row by row, to whatever the list already holds. */
    method CreateLayout()
      modifies this
      ensures buttonList == old(buttonList) + Grid(Keys)
    {
      var keys := Keys;
      var i := 0;
      while i < |keys|
        invariant 0 <= i <= |keys|
        invariant buttonList == old(buttonList) + Grid(keys[..i])
      {
        var j := 0;
        while j < |keys[i]|
          invariant 0 <= j <= |keys[i]|
          invariant buttonList == old(buttonList) + Grid(keys[..i]) + Row(i, keys[i][..j])
        {
          buttonList := buttonList + [Button((100 * j + 50, 100 * i + 50), keys[i][j])];
          assert keys[i][..j + 1][..j] == keys[i][..j];
          j := j + 1;
        }
        assert keys[i][..j] == keys[i];
        assert keys[..i + 1][..i] == keys[..i];
        i := i + 1;
      }
      assert keys[..i] == keys;
    }
  }

  /** One scan of the button list for one hand: while idle, a button fires when the index
      tip is on it and the fingertips are pinched; while held, the first button looked at
      releases the press when the fingertips are spread, and the scan stops there. */
  method HitTest(buttonList: seq<Button>, index: Point, middle: Point, s: Debounce) returns (r: Debounce)
    ensures r == Scan(buttonList, index, middle, s)
  {
    var pressed, textString := s.pressed, s.textString;
    var n := 0;
    while n < |buttonList|
      invariant 0 <= n <= |buttonList|
      invariant !s.pressed ==>
                  match FirstFiring(buttonList[..n], index, middle)
                  case None => !pressed && textString == s.textString
                  case Some(k) => pressed && textString == s.textString + buttonList[k].text
      invariant s.pressed ==> pressed && textString == s.textString
      invariant s.pressed && n > 0 ==> !Spread(index, middle)
    {
      assert buttonList[..n + 1][..n] == buttonList[..n];
      var button := buttonList[n];
      var (x, y) := button.pos;
      var (w, h) := button.size;
      if !pressed {
        if x <= index.0 <= x + w && y <= index.1 <= y + h {
          if Abs(middle.0 - index.0) <= 30 && Abs(middle.1 - index.1) <= 30 {
            pressed := true;
            textString := textString + button.text;
          }
        }
      } else {
        if Abs(middle.0 - index.0) > 40 {
          pressed := false;
          break;
        }
      }
      n := n + 1;
    }
    assert n == |buttonList| ==> buttonList[..n] == buttonList;
    r := Debounce(pressed, textString);
  }

  /** One frame: every detected hand whose two fingertips map to pixels is hit-tested in turn. */
  method HitTestFrame(buttonList: seq<Button>, hands: seq<Hand>, s: Debounce) returns (r: Debounce)
    ensures r == FrameStep(buttonList, hands, s)
  {
    r := s;
    var i := 0;
    while i < |hands|
      invariant 0 <= i <= |hands|
      invariant FrameStep(buttonList, hands[i..], r) == FrameStep(buttonList, hands, s)
    {
      assert hands[i..][1..] == hands[i + 1..];
      var hand := hands[i];
      if hand.index != None && hand.middle != None {
        r := HitTest(buttonList, hand.index.value, hand.middle.value, r);
      }
      i := i + 1;
    }
  }

  /** A whole run: build the keyboard, start idle with no text, process the frames until
      the quit key, and give back the text typed. */
  method RunVirtualKeyboard(frames: seq<seq<Hand>>) returns (textString: string)
    ensures textString == Session(Grid(Keys), frames, Initial).textString
  {
    var keyboard := new Keyboard();
    var buttonList := keyboard.buttonList;
    var state := Initial;
    var f := 0;
    while f < |frames|
      invariant 0 <= f <= |frames|
      invariant Session(buttonList, frames[f..], state) == Session(buttonList, frames, Initial)
    {
      assert frames[f..][1..] == frames[f + 1..];
      state := HitTestFrame(buttonList, frames[f], state);
      f := f + 1;
    }
    textString := state.textString;
  }

  /** A pinch at (60, 60)-(70, 70) from idle types "Q", the top-left key; spreading the
      fingertips to (60, 60)-(110, 65) then releases without typing. */
  lemma PinchTypesTopLeftKey()
    ensures Scan(Grid(Keys), (60, 60), (70, 70), Initial) == Debounce(true, "Q")
    ensures Scan(Grid(Keys), (60, 60), (110, 65), Debounce(true, "Q")) == Debounce(false, "Q")
  {
    KeyboardLayout(0, 0);
    KeyboardFitsFrame();
    FiresOnlyButtonHit(Grid(Keys), (60, 60), (70, 70), 0);
  }

  /** The layout and the gesture do not depend on the particular keys: on a one-row grid
      "On", "Off", "Red", a pinch at (60, 60)-(70, 70) from idle types "On" and holds; a
      separation of (50, 5) then releases without typing. */
  lemma OneRowScenario()
    ensures Scan(Grid([["On", "Off", "Red"]]), (60, 60), (70, 70), Initial) == Debounce(true, "On")
    ensures Scan(Grid([["On", "Off", "Red"]]), (60, 60), (110, 65), Debounce(true, "On")) == Debounce(false, "On")
  {
    var keys := [["On", "Off", "Red"]];
    GridAt(keys, 3, 0, 0);
    GridBounds(keys, 3);
    GridDisjoint(keys);
    FiresOnlyButtonHit(Grid(keys), (60, 60), (70, 70), 0);
  }
}
