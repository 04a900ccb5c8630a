/** The pure part of drawing detection results: which detections are shown,
    and where each overlay goes.
    Geometry is over exact reals, an idealisation of JavaScript numbers. */
module Render {
  import opened Protocol

  /** An overlay's CSS `left`, `top`, `width` and `height`, in percent of
      the image's own box. */
  datatype Rect = Rect(left: real, top: real, width: real, height: real)

  /** One drawn bounding box with its label. Its colour is random and is not
      part of the model. */
  datatype Overlay = Overlay(rect: Rect, name: string, score: real)

  /** One entry of the result list. */
  datatype ListItem = Scored(name: string, score: real) | NoObjects

  /** At most this many detections are drawn and listed. */
  const MaxShown := 15

  /** A box whose coordinates are ordered fractions of the image. */
  predicate Normalized(b: Box) {
    0.0 <= b.xmin <= b.xmax <= 1.0 && 0.0 <= b.ymin <= b.ymax <= 1.0
  }

  /** The overlay rectangle of a box: it spans the box's horizontal and
      vertical extent scaled to percent, so its size is non-negative exactly
      when the box's corners are ordered, and a normalized box stays within
      the image. */
  function BoxRect(b: Box): (r: Rect)
    ensures r.left == b.xmin * 100.0 && r.left + r.width == b.xmax * 100.0
    ensures r.top == b.ymin * 100.0 && r.top + r.height == b.ymax * 100.0
    ensures r.width >= 0.0 <==> b.xmin <= b.xmax
    ensures r.height >= 0.0 <==> b.ymin <= b.ymax
    ensures Normalized(b) ==>
      0.0 <= r.left && r.left + r.width <= 100.0 && 0.0 <= r.top && r.top + r.height <= 100.0
  {
    Rect(b.xmin * 100.0, b.ymin * 100.0, (b.xmax - b.xmin) * 100.0, (b.ymax - b.ymin) * 100.0)
  }

  /** `output.slice(0, 15)`: the first detections, in order, at most fifteen
      of them; fewer than the input exactly when the input has more than
      fifteen. */
  function Shown(output: seq<Detection>): (r: seq<Detection>)
    ensures |r| == if |output| <= MaxShown then |output| else MaxShown
    ensures r == output[..|r|]
    ensures |r| < |output| <==> |output| > MaxShown
  {
    if |output| <= MaxShown then output else output[..MaxShown]
  }

  /** `drawObjectBox` without its colour. */
  function DrawObjectBox(d: Detection): Overlay {
    Overlay(BoxRect(d.box), d.name, d.score)
  }

  /** The list entry for a detection: its label and score. */
  function ItemFor(d: Detection): ListItem {
    Scored(d.name, d.score)
  }

  /** One overlay per detection, in the detections' order. */
  function OverlaysFor(ds: seq<Detection>): seq<Overlay> {
    if ds == [] then [] else [DrawObjectBox(ds[0])] + OverlaysFor(ds[1..])
  }

  /** One list entry per detection, in the detections' order. */
  function ItemsFor(ds: seq<Detection>): seq<ListItem> {
    if ds == [] then [] else [ItemFor(ds[0])] + ItemsFor(ds[1..])
  }

  /** Overlay `i` is the box of detection `i`. */
  lemma {:induction false} OverlaysForAt(ds: seq<Detection>)
    ensures |OverlaysFor(ds)| == |ds|
    ensures forall i :: 0 <= i < |ds| ==> OverlaysFor(ds)[i] == DrawObjectBox(ds[i])
  {
    if ds != [] {
      OverlaysForAt(ds[1..]);
    }
  }

  /** List entry `i` is the entry of detection `i`. */
  lemma {:induction false} ItemsForAt(ds: seq<Detection>)
    ensures |ItemsFor(ds)| == |ds|
    ensures forall i :: 0 <= i < |ds| ==> ItemsFor(ds)[i] == ItemFor(ds[i])
  {
    if ds != [] {
      ItemsForAt(ds[1..]);
    }
  }

  /** Drawing one more detection appends one overlay. */
  lemma {:induction false} OverlaysForSnoc(ds: seq<Detection>, d: Detection)
    ensures OverlaysFor(ds + [d]) == OverlaysFor(ds) + [DrawObjectBox(d)]
  {
    if ds != [] {
      assert (ds + [d])[1..] == ds[1..] + [d];
      OverlaysForSnoc(ds[1..], d);
    }
  }

  /** Listing one more detection appends one entry. */
  lemma {:induction false} ItemsForSnoc(ds: seq<Detection>, d: Detection)
    ensures ItemsFor(ds + [d]) == ItemsFor(ds) + [ItemFor(d)]
  {
    if ds != [] {
      assert (ds + [d])[1..] == ds[1..] + [d];
      ItemsForSnoc(ds[1..], d);
    }
  }

  /** The overlay of the box `xmin=0.1, ymin=0.2, xmax=0.5, ymax=0.6` is
      `left=10%, top=20%, width=40%, height=40%`. */
  lemma BoxRectExample()
    ensures BoxRect(Box(0.1, 0.2, 0.5, 0.6)) == Rect(10.0, 20.0, 40.0, 40.0)
  {
  }
}
