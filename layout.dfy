/** The on-screen keyboard: a fixed grid of labels laid out as square buttons,
    row by row, on a 1280x720 camera frame. */
module Layout {

  /** A pixel position (x, y), or a size (width, height). */
  type Point = (int, int)

  /** A button: its top-left corner, its label and its size (85x85 unless given). */
  datatype Button = Button(pos: Point, text: string, size: Point := (85, 85))

  /** The key labels, three rows of ten. */
  const Keys: seq<seq<string>> :=
    [["Q", "W", "E", "R", "T", "Y", "U", "I", "O", "P"],
     ["A", "S", "D", "F", "G", "H", "J", "K", "L", ";"],
     ["Z", "X", "C", "V", "B", "N", "M", ",", ".", " "]]

  /** The capture resolution. */
  const FrameWidth: int := 1280
  const FrameHeight: int := 720

  /** The button the layout loop creates for the key in row i, column j. */
  function Cell(i: int, j: int, key: string): (b: Button)
  {
    Button((100 * j + 50, 100 * i + 50), key)
  }

  /** The buttons of row i, in column order. */
  function Row(i: int, row: seq<string>): (bs: seq<Button>)
  {
    if row == [] then [] else Row(i, row[..|row| - 1]) + [Cell(i, |row| - 1, row[|row| - 1])]
  }

  /** The buttons of a whole grid of labels, row after row. */
  function Grid(keys: seq<seq<string>>): (bs: seq<Button>)
  {
    if keys == [] then [] else Grid(keys[..|keys| - 1]) + Row(|keys| - 1, keys[|keys| - 1])
  }

  /** The closed rectangle of b holds p (both bounds inclusive). */
  predicate Contains(b: Button, p: Point)
  {
    b.pos.0 <= p.0 <= b.pos.0 + b.size.0 && b.pos.1 <= p.1 <= b.pos.1 + b.size.1
  }

  /** The closed rectangles of a and b are apart on at least one axis. */
  predicate Disjoint(a: Button, b: Button)
  {
    a.pos.0 + a.size.0 < b.pos.0 || b.pos.0 + b.size.0 < a.pos.0 ||
    a.pos.1 + a.size.1 < b.pos.1 || b.pos.1 + b.size.1 < a.pos.1
  }

  predicate PairwiseDisjoint(bs: seq<Button>)
  {
    forall k, l :: 0 <= k < l < |bs| ==> Disjoint(bs[k], bs[l])
  }

  /** Every pixel of the closed rectangle of b lies on the frame. */
  predicate InFrame(b: Button)
  {
    0 <= b.pos.0 && b.pos.0 + b.size.0 < FrameWidth && 0 <= b.pos.1 && b.pos.1 + b.size.1 < FrameHeight
  }

  /** Disjoint is exactly "no pixel lies in both rectangles", for rectangles of non-negative size. */
  lemma DisjointIffNoCommonPoint(a: Button, b: Button)
    requires a.size.0 >= 0 && a.size.1 >= 0 && b.size.0 >= 0 && b.size.1 >= 0
    ensures Disjoint(a, b) <==> !exists p: Point :: Contains(a, p) && Contains(b, p)
  {
    if !Disjoint(a, b) {
      var x := if a.pos.0 < b.pos.0 then b.pos.0 else a.pos.0;
      var y := if a.pos.1 < b.pos.1 then b.pos.1 else a.pos.1;
      assert Contains(a, (x, y)) && Contains(b, (x, y));
    }
  }

  lemma {:induction false} RowAt(i: int, row: seq<string>, j: int)
    requires 0 <= j < |row|
    ensures |Row(i, row)| == |row| && Row(i, row)[j] == Cell(i, j, row[j])
  {
    var n := |row| - 1;
    if j < n {
      RowAt(i, row[..n], j);
    } else if n > 0 {
      RowAt(i, row[..n], 0);
    }
  }

  lemma {:induction false} RowLength(i: int, row: seq<string>)
    ensures |Row(i, row)| == |row|
  {
    if row != [] {
      RowAt(i, row, 0);
    }
  }

  lemma MulMonotone(a: int, b: int, w: int)
    requires 0 <= a <= b && 0 <= w
    ensures a * w <= b * w
  {
  }

  /** In a grid whose rows all have w labels, there are |keys| * w buttons. */
  lemma {:induction false} GridLength(keys: seq<seq<string>>, w: nat)
    requires forall r :: 0 <= r < |keys| ==> |keys[r]| == w
    ensures |Grid(keys)| == |keys| * w
  {
    if keys != [] {
      var n := |keys| - 1;
      GridLength(keys[..n], w);
      RowLength(n, keys[n]);
      MulSucc(n, w);
    }
  }

  lemma MulSucc(n: int, w: int)
    ensures (n + 1) * w == n * w + w
  {
  }

  /** In a grid whose rows all have w labels, the button at index i * w + j
      is the one for the key in row i, column j (row-major order). */
  lemma {:induction false} GridAt(keys: seq<seq<string>>, w: nat, i: int, j: int)
    requires forall r :: 0 <= r < |keys| ==> |keys[r]| == w
    requires 0 <= i < |keys| && 0 <= j < w
    ensures |Grid(keys)| == |keys| * w
    ensures i * w + j < |Grid(keys)| && Grid(keys)[i * w + j] == Cell(i, j, keys[i][j])
  {
    var n := |keys| - 1;
    GridLength(keys, w);
    GridLength(keys[..n], w);
    RowAt(n, keys[n], j);
    if i < n {
      GridAt(keys[..n], w, i, j);
      MulMonotone(i + 1, n, w);
    }
  }

  /** Every button of row i has the default size, sits at height 100 * i + 50 and,
      when the row has at most w labels, at most at column w - 1. */
  lemma {:induction false} RowBounds(i: int, row: seq<string>, w: int)
    requires |row| <= w
    ensures forall b :: b in Row(i, row) ==>
              b.size == (85, 85) && b.pos.1 == 100 * i + 50 && 50 <= b.pos.0 <= 100 * (w - 1) + 50
  {
    if row != [] {
      RowBounds(i, row[..|row| - 1], w);
    }
  }

  /** Every button of a grid with at most w labels per row has the default size
      and lies in the box spanned by the first and last cells. */
  lemma {:induction false} GridBounds(keys: seq<seq<string>>, w: int)
    requires forall r :: 0 <= r < |keys| ==> |keys[r]| <= w
    ensures forall b :: b in Grid(keys) ==>
              b.size == (85, 85) && 50 <= b.pos.0 <= 100 * (w - 1) + 50 &&
              50 <= b.pos.1 <= 100 * (|keys| - 1) + 50
  {
    if keys != [] {
      var n := |keys| - 1;
      GridBounds(keys[..n], w);
      RowBounds(n, keys[n], w);
    }
  }

  lemma ConcatDisjoint(xs: seq<Button>, ys: seq<Button>)
    requires PairwiseDisjoint(xs) && PairwiseDisjoint(ys)
    requires forall a, b :: a in xs && b in ys ==> Disjoint(a, b)
    ensures PairwiseDisjoint(xs + ys)
  {
    var zs := xs + ys;
    forall k, l | 0 <= k < l < |zs|
      ensures Disjoint(zs[k], zs[l])
    {
      if l < |xs| {
        assert zs[k] == xs[k] && zs[l] == xs[l];
      } else if k >= |xs| {
        assert zs[k] == ys[k - |xs|] && zs[l] == ys[l - |xs|];
      } else {
        assert zs[k] in xs && zs[l] in ys;
      }
    }
  }

  /** The buttons of one row never overlap: their left edges are 100 px apart and they are 85 px wide. */
  lemma {:induction false} RowDisjoint(i: int, row: seq<string>)
    ensures PairwiseDisjoint(Row(i, row))
  {
    if row != [] {
      var n := |row| - 1;
      RowDisjoint(i, row[..n]);
      RowBounds(i, row[..n], n);
      ConcatDisjoint(Row(i, row[..n]), [Cell(i, n, row[n])]);
    }
  }

  /** No two buttons of any grid layout overlap, even counting their borders. */
  lemma {:induction false} GridDisjoint(keys: seq<seq<string>>)
    ensures PairwiseDisjoint(Grid(keys))
  {
    if keys != [] {
      var n := |keys| - 1;
      var w := MaxWidth(keys[..n]);
      GridDisjoint(keys[..n]);
      RowDisjoint(n, keys[n]);
      GridBounds(keys[..n], w);
      RowBounds(n, keys[n], |keys[n]|);
      ConcatDisjoint(Grid(keys[..n]), Row(n, keys[n]));
    }
  }

  /** A bound on the lengths of the rows of a grid. */
  function MaxWidth(keys: seq<seq<string>>): (w: nat)
    ensures forall r :: 0 <= r < |keys| ==> |keys[r]| <= w
  {
    if keys == [] then 0
    else
      var w := MaxWidth(keys[..|keys| - 1]);
      if |keys[|keys| - 1]| <= w then w else |keys[|keys| - 1]|
  }

  /** A grid of at most 6 rows of at most 12 labels fits on the 1280x720 frame. */
  lemma GridInFrame(keys: seq<seq<string>>)
    requires |keys| <= 6
    requires forall r :: 0 <= r < |keys| ==> |keys[r]| <= 12
    ensures forall b :: b in Grid(keys) ==> InFrame(b)
  {
    GridBounds(keys, 12);
  }

  /** The keyboard has 30 buttons, in row-major order: the button for row i, column j
      is the 10 * i + j-th, at (100 * j + 50, 100 * i + 50), 85x85, labelled Keys[i][j]. */
  lemma KeyboardLayout(i: int, j: int)
    requires 0 <= i < 3 && 0 <= j < 10
    ensures |Grid(Keys)| == 30
    ensures Grid(Keys)[10 * i + j] == Button((100 * j + 50, 100 * i + 50), Keys[i][j], (85, 85))
  {
    GridAt(Keys, 10, i, j);
  }

  /** The keyboard's buttons are 85x85, pairwise disjoint and all on the frame. */
  lemma KeyboardFitsFrame()
    ensures PairwiseDisjoint(Grid(Keys))
    ensures forall b :: b in Grid(Keys) ==> b.size == (85, 85) && InFrame(b)
  {
    GridDisjoint(Keys);
    GridBounds(Keys, 10);
    GridInFrame(Keys);
  }
}
