/** Conversion of a pixel-space detection box into the percentage rectangle
    that Label Studio's `rectanglelabels` regions carry. */
module Geometry {

  /** The corners of a box in pixels, in the detector's `xyxy` order. */
  datatype Corners = Corners(x1: real, y1: real, x2: real, y2: real)

  /** A rectangle as percentages of the image width and height. */
  datatype Percent = Percent(x: real, y: real, width: real, height: real)

  /** Top-left corner and extent as percentages of the image size; nothing is
      clamped, so a box reaching outside the image gives values outside
      [0, 100]. The ensures state that scaling back by the image size gives
      exactly the four corners again. */
  function ToPercent(c: Corners, w: nat, h: nat): (p: Percent)
    requires w > 0 && h > 0
    ensures p.x * (w as real) / 100.0 == c.x1
    ensures (p.x + p.width) * (w as real) / 100.0 == c.x2
    ensures p.y * (h as real) / 100.0 == c.y1
    ensures (p.y + p.height) * (h as real) / 100.0 == c.y2
  {
    ScaleBack(c.x1, c.x2, w as real);
    ScaleBack(c.y1, c.y2, h as real);
    Percent(c.x1 / (w as real) * 100.0,
            c.y1 / (h as real) * 100.0,
            (c.x2 - c.x1) / (w as real) * 100.0,
            (c.y2 - c.y1) / (h as real) * 100.0)
  }

  /** Dividing by a positive size and multiplying by 100, then undoing both,
      gives the start and the end of an interval back. */
  lemma ScaleBack(lo: real, hi: real, size: real)
    requires size > 0.0
    ensures (lo / size * 100.0) * size / 100.0 == lo
    ensures (lo / size * 100.0 + (hi - lo) / size * 100.0) * size / 100.0 == hi
  {
    assert lo / size * size == lo;
    assert (hi - lo) / size * size == hi - lo;
    assert lo / size * 100.0 + (hi - lo) / size * 100.0 == (lo + (hi - lo)) / size * 100.0;
  }

  /** The pixel corners a percentage rectangle denotes on a w x h image. */
  function FromPercent(p: Percent, w: nat, h: nat): Corners
  {
    Corners(p.x * (w as real) / 100.0,
            p.y * (h as real) / 100.0,
            (p.x + p.width) * (w as real) / 100.0,
            (p.y + p.height) * (h as real) / 100.0)
  }

  /** Normalising and then denormalising with the same image size gives the
      box back. */
  lemma CornersRoundTrip(c: Corners, w: nat, h: nat)
    requires w > 0 && h > 0
    ensures FromPercent(ToPercent(c, w, h), w, h) == c
  {
    var p := ToPercent(c, w, h);
    assert FromPercent(p, w, h) == Corners(c.x1, c.y1, c.x2, c.y2);
  }

  /** Every percentage rectangle is the normalisation of the corners it
      denotes, so ToPercent is onto and the two functions are inverse. */
  lemma PercentRoundTrip(p: Percent, w: nat, h: nat)
    requires w > 0 && h > 0
    ensures ToPercent(FromPercent(p, w, h), w, h) == p
  {
    var wr, hr := w as real, h as real;
    var c := FromPercent(p, w, h);
    assert c.x1 / wr * 100.0 == p.x;
    assert (c.x2 - c.x1) / wr * 100.0 == p.width;
    assert c.y1 / hr * 100.0 == p.y;
    assert (c.y2 - c.y1) / hr * 100.0 == p.height;
  }

  /** The worked example: box (100,100)-(300,200) on a 1000 x 500 image. */
  lemma ExampleBox()
    ensures ToPercent(Corners(100.0, 100.0, 300.0, 200.0), 1000, 500)
         == Percent(10.0, 20.0, 20.0, 20.0)
  {
  }

  /** No clamping: a box that starts beyond the right edge of the image has an
      x percentage above 100. */
  lemma NoClamping(c: Corners, w: nat, h: nat)
    requires w > 0 && h > 0
    requires c.x1 > w as real
    ensures ToPercent(c, w, h).x > 100.0
  {
    var wr := w as real;
    assert c.x1 / wr > 1.0;
  }
}
