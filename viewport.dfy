/**
 * Viewport arithmetic of the geo choropleth chart: the fit-to-bounds
 * transform `_adaptTo` applies (`getTransformFromBounds`) and the
 * centre-anchored rescale of `addScale`, over exact reals.  The bounding
 * box comes from d3's path generator, which is not part of this model, so
 * it is an input here; so are the chart's width and height.
 */
module Viewport {
  import opened Options
  import TT = TransformText

  /** `{scale: s, translate: [tx, ty]}`: a uniform scale, then a translation. */
  datatype Transform = Transform(scale: real, tx: real, ty: real) {
    /** Where the point `(px, py)` of the map lands on screen. */
    function ScreenX(px: real): real { scale * px + tx }
    function ScreenY(py: real): real { scale * py + ty }
  }

  /** `[[x0, y0], [x1, y1]]`, the box `d3.geo.path().bounds` yields. */
  datatype Bounds = Bounds(x0: real, y0: real, x1: real, y1: real) {
    function Width(): real { x1 - x0 }
    function Height(): real { y1 - y0 }
  }

  /** The share of the canvas the fitted box may fill. */
  const MARGIN: real := 0.95

  /** `Math.max`. */
  function Max(a: real, b: real): (r: real)
    ensures r >= a && r >= b && (r == a || r == b)
  {
    if a >= b then a else b
  }

  /** How many canvases the box spans along its tighter axis. */
  function Ratio(b: Bounds, w: real, h: real): real
    requires w > 0.0 && h > 0.0
  {
    Max(b.Width() / w, b.Height() / h)
  }

  lemma FitAxis(s: real, m: real, d: real, size: real)
    requires size > 0.0 && m > 0.0 && s == MARGIN / m
    requires d / size <= m
    ensures s * d <= MARGIN * size
    ensures d / size == m ==> s * d == MARGIN * size
  {
    assert d <= m * size by {
      assert d == (d / size) * size;
    }
    assert s * d == MARGIN * (d / m);
    assert d / m <= size by {
      assert d / m * m == d;
    }
    if d / size == m {
      assert d == m * size;
      assert d / m == size;
    }
  }

  /**
   * `getTransformFromBounds`: the uniform scale that makes the box fill
   * 95% of the canvas along the axis where it is relatively larger, and
   * the translation that puts the box's centre on the canvas centre.
   * Requires a canvas of positive size and a box that is not degenerate
   * along both axes: otherwise JavaScript divides by zero.
   */
  function FitToBounds(b: Bounds, w: real, h: real): (t: Transform)
    requires w > 0.0 && h > 0.0
    requires Ratio(b, w, h) > 0.0
    ensures t.scale > 0.0
    ensures t.scale * b.Width() <= MARGIN * w
    ensures t.scale * b.Height() <= MARGIN * h
    ensures b.Width() / w >= b.Height() / h ==> t.scale * b.Width() == MARGIN * w
    ensures b.Height() / h >= b.Width() / w ==> t.scale * b.Height() == MARGIN * h
    ensures (t.ScreenX(b.x0) + t.ScreenX(b.x1)) / 2.0 == w / 2.0
    ensures (t.ScreenY(b.y0) + t.ScreenY(b.y1)) / 2.0 == h / 2.0
  {
    var m := Ratio(b, w, h);
    var s := MARGIN / m;
    FitAxis(s, m, b.Width(), w);
    FitAxis(s, m, b.Height(), h);
    Transform(s, (w - s * (b.x1 + b.x0)) / 2.0, (h - s * (b.y1 + b.y0)) / 2.0)
  }

  /** The fitted box lies inside the canvas `[0, w] x [0, h]`. */
  lemma FitInsideCanvas(b: Bounds, w: real, h: real)
    requires w > 0.0 && h > 0.0
    requires Ratio(b, w, h) > 0.0
    requires b.x0 <= b.x1 && b.y0 <= b.y1
    ensures var t := FitToBounds(b, w, h);
      0.0 < t.ScreenX(b.x0) <= t.ScreenX(b.x1) < w &&
      0.0 < t.ScreenY(b.y0) <= t.ScreenY(b.y1) < h
  {
    var t := FitToBounds(b, w, h);
    assert t.ScreenX(b.x1) - t.ScreenX(b.x0) == t.scale * b.Width();
    assert t.ScreenY(b.y1) - t.ScreenY(b.y0) == t.scale * b.Height();
    assert t.scale * b.Width() >= 0.0;
    assert t.scale * b.Height() >= 0.0;
  }

  /**
   * The arithmetic of `addScale`: multiply the scale by `factor` and move
   * the translation so that the canvas centre `(w/2, h/2)` stays put.
   */
  function ScaleAboutCentre(t: Transform, factor: real, w: real, h: real): (r: Transform)
    ensures r.scale == t.scale * factor
  {
    var cx, cy := w / 2.0, h / 2.0;
    Transform(t.scale * factor, cx + (t.tx - cx) * factor, cy + (t.ty - cy) * factor)
  }

  /**
   * After the rescale every map point lands `factor` times as far from
   * the canvas centre, in the same direction, as it did before.
   */
  lemma ScaleAboutCentreStretches(t: Transform, factor: real, w: real, h: real, px: real, py: real)
    ensures var r := ScaleAboutCentre(t, factor, w, h);
      r.ScreenX(px) - w / 2.0 == factor * (t.ScreenX(px) - w / 2.0) &&
      r.ScreenY(py) - h / 2.0 == factor * (t.ScreenY(py) - h / 2.0)
  {
  }

  /** `ScaleAboutCentreStretches` for every map point at once. */
  lemma ScaleAboutCentreStretchesAll(t: Transform, factor: real, w: real, h: real)
    ensures forall px :: ScaleAboutCentre(t, factor, w, h).ScreenX(px) - w / 2.0 == factor * (t.ScreenX(px) - w / 2.0)
    ensures forall py :: ScaleAboutCentre(t, factor, w, h).ScreenY(py) - h / 2.0 == factor * (t.ScreenY(py) - h / 2.0)
  {
    forall px ensures ScaleAboutCentre(t, factor, w, h).ScreenX(px) - w / 2.0 == factor * (t.ScreenX(px) - w / 2.0) {
      ScaleAboutCentreStretches(t, factor, w, h, px, 0.0);
    }
    forall py ensures ScaleAboutCentre(t, factor, w, h).ScreenY(py) - h / 2.0 == factor * (t.ScreenY(py) - h / 2.0) {
      ScaleAboutCentreStretches(t, factor, w, h, 0.0, py);
    }
  }

  /** A map point shown at the canvas centre stays there after the rescale. */
  lemma ScaleAboutCentreKeepsCentre(t: Transform, factor: real, w: real, h: real)
    ensures forall px :: t.ScreenX(px) == w / 2.0 ==> ScaleAboutCentre(t, factor, w, h).ScreenX(px) == w / 2.0
    ensures forall py :: t.ScreenY(py) == h / 2.0 ==> ScaleAboutCentre(t, factor, w, h).ScreenY(py) == h / 2.0
  {
    forall px | t.ScreenX(px) == w / 2.0
      ensures ScaleAboutCentre(t, factor, w, h).ScreenX(px) == w / 2.0
    {
      ScaleAboutCentreStretches(t, factor, w, h, px, 0.0);
    }
    forall py | t.ScreenY(py) == h / 2.0
      ensures ScaleAboutCentre(t, factor, w, h).ScreenY(py) == h / 2.0
    {
      ScaleAboutCentreStretches(t, factor, w, h, 0.0, py);
    }
  }

  /** Two rescales in a row are one rescale by the product of the factors. */
  lemma ScaleAboutCentreComposes(t: Transform, f: real, g: real, w: real, h: real)
    ensures ScaleAboutCentre(ScaleAboutCentre(t, f, w, h), g, w, h) == ScaleAboutCentre(t, f * g, w, h)
  {
    var cx, cy := w / 2.0, h / 2.0;
    var once := ScaleAboutCentre(t, f, w, h);
    var twice := ScaleAboutCentre(once, g, w, h);
    var product := ScaleAboutCentre(t, f * g, w, h);
    assert once.tx - cx == (t.tx - cx) * f;
    assert once.ty - cy == (t.ty - cy) * f;
    assert (t.tx - cx) * f * g == (t.tx - cx) * (f * g);
    assert (t.ty - cy) * f * g == (t.ty - cy) * (f * g);
    assert twice.tx == product.tx;
    assert twice.ty == product.ty;
    assert t.scale * f * g == t.scale * (f * g);
  }

  /**
   * The transform `addScale` starts from: `scale[0]` and `translate[0..2]`
   * of `parseTransform` on the current attribute, converted to numbers;
   * `None` where a component is not a number (NaN in JavaScript).
   */
  function CurrentTransform(attr: Option<string>): (r: Option<Transform>)
    ensures var b := TT.ParsedTransform(attr);
      r.Some? <==> TT.IsNumeral(b[TT.SCALE][0]) && TT.IsNumeral(b[TT.TRANSLATE][0]) && TT.IsNumeral(b[TT.TRANSLATE][1])
  {
    var b := TT.ParsedTransform(attr);
    var s := TT.NumeralValue(b[TT.SCALE][0]);
    var x := TT.NumeralValue(b[TT.TRANSLATE][0]);
    var y := TT.NumeralValue(b[TT.TRANSLATE][1]);
    if s.Some? && x.Some? && y.Some? then Some(Transform(s.value, x.value, y.value)) else None
  }

  /** `addScale(factor)` on the layer group whose attribute is `attr`: the transform it sets. */
  function AddScale(attr: Option<string>, factor: real, w: real, h: real): (r: Option<Transform>)
    ensures r.Some? <==> CurrentTransform(attr).Some?
    ensures r.Some? ==> r.value.scale == CurrentTransform(attr).value.scale * factor
    ensures r.Some? ==> forall px :: CurrentTransform(attr).value.ScreenX(px) == w / 2.0 ==> r.value.ScreenX(px) == w / 2.0
    ensures r.Some? ==> forall py :: CurrentTransform(attr).value.ScreenY(py) == h / 2.0 ==> r.value.ScreenY(py) == h / 2.0
    ensures r.Some? ==> forall px :: r.value.ScreenX(px) - w / 2.0 == factor * (CurrentTransform(attr).value.ScreenX(px) - w / 2.0)
    ensures r.Some? ==> forall py :: r.value.ScreenY(py) - h / 2.0 == factor * (CurrentTransform(attr).value.ScreenY(py) - h / 2.0)
  {
    Rescale(CurrentTransform(attr), factor, w, h)
  }

  /** `ScaleAboutCentre` on a transform that may be missing. */
  function Rescale(c: Option<Transform>, factor: real, w: real, h: real): (r: Option<Transform>)
    ensures r.Some? <==> c.Some?
    ensures r.Some? ==> r.value.scale == c.value.scale * factor
    ensures r.Some? ==> forall px :: c.value.ScreenX(px) == w / 2.0 ==> r.value.ScreenX(px) == w / 2.0
    ensures r.Some? ==> forall py :: c.value.ScreenY(py) == h / 2.0 ==> r.value.ScreenY(py) == h / 2.0
    ensures r.Some? ==> forall px :: r.value.ScreenX(px) - w / 2.0 == factor * (c.value.ScreenX(px) - w / 2.0)
    ensures r.Some? ==> forall py :: r.value.ScreenY(py) - h / 2.0 == factor * (c.value.ScreenY(py) - h / 2.0)
  {
    if c.None? then None
    else
      ScaleAboutCentreKeepsCentre(c.value, factor, w, h);
      ScaleAboutCentreStretchesAll(c.value, factor, w, h);
      Some(ScaleAboutCentre(c.value, factor, w, h))
  }

  /** Before any transform has been written the layer group is at the identity. */
  lemma CurrentTransformOfEmpty()
    ensures CurrentTransform(None) == Some(Transform(1.0, 0.0, 0.0))
    ensures CurrentTransform(Some("")) == Some(Transform(1.0, 0.0, 0.0))
  {
    TT.ParseEmpty();
    assert TT.NumeralValue("1") == Some(1.0);
    assert TT.NumeralValue("0") == Some(0.0);
  }

  /** Reading back what `setTransform` wrote gives the transform it was given. */
  lemma CurrentTransformRoundTrip(tx: string, ty: string, s: string)
    requires TT.IsNumeral(tx) && TT.IsNumeral(ty) && TT.IsNumeral(s)
    ensures CurrentTransform(Some(TT.TransformAttr(tx, ty, s)))
         == Some(Transform(TT.NumeralValue(s).value, TT.NumeralValue(tx).value, TT.NumeralValue(ty).value))
  {
    TT.ParseSetTransformRoundTrip(tx, ty, s);
  }

  /** `addScale` on the identity rescales about the centre from scale 1. */
  lemma AddScaleFromIdentity(factor: real, w: real, h: real)
    ensures AddScale(None, factor, w, h)
         == Some(Transform(factor, w / 2.0 - w / 2.0 * factor, h / 2.0 - h / 2.0 * factor))
  {
    CurrentTransformOfEmpty();
  }
}
