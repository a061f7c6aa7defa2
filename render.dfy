/**
 * The paint pass the board runs whenever its element list changes: every
 * element is painted in list order according to its type, and the first
 * element of an unknown type throws, which ends the pass.
 */
module Render {
  import opened Elements

  /** One abstract call on the drawing surface. */
  datatype PaintOp =
    | DrawRough(drawable: nat)                                           // roughCanvas.draw(roughEle)
    | FillPath(fill: string, samples: seq<Point>)                        // fill of the stroke outline of `points`
    | FillText(text: string, x: int, y: int, fontSize: int, fill: string) // fillText at (x1, y1), top baseline

  /** What one pass leaves behind: the calls made, and whether it threw. */
  datatype Frame = Frame(ops: seq<PaintOp>, aborted: bool)

  /** The paint call for one element, or None for a type the switch does not list. */
  function PaintFor(e: Element): Option<PaintOp> {
    match e.kind
    case Line | Rectangle | Circle | Arrow => Some(DrawRough(e.roughEle))
    case Brush => Some(FillPath(e.stroke, e.points))
    case Text => Some(FillText(e.text, e.x1, e.y1, e.size, e.stroke))
    case Unrecognized(_) => None
  }

  /** The whole pass over `elements`, as a specification. */
  function Render(elements: seq<Element>): Frame
    decreases |elements|
  {
    if elements == [] then Frame([], false)
    else
      match PaintFor(elements[0])
      case None => Frame([], true)
      case Some(op) =>
        var rest := Render(elements[1..]);
        Frame([op] + rest.ops, rest.aborted)
  }

  /** The pass paints, in order, exactly the elements before the first
      unknown one, and stops there: it paints every element when all are known. */
  lemma {:induction false} RenderPaintsKnownPrefix(elements: seq<Element>)
    ensures var f := Render(elements);
      && |f.ops| <= |elements|
      && (forall i :: 0 <= i < |f.ops| ==> IsKnown(elements[i].kind) && PaintFor(elements[i]) == Some(f.ops[i]))
      && (f.aborted ==> |f.ops| < |elements| && !IsKnown(elements[|f.ops|].kind))
      && (!f.aborted ==> |f.ops| == |elements|)
    decreases |elements|
  {
    if elements != [] {
      match PaintFor(elements[0])
      case None =>
      case Some(op) =>
        RenderPaintsKnownPrefix(elements[1..]);
        var rest := Render(elements[1..]);
        forall i | 0 <= i < |rest.ops| + 1
          ensures IsKnown(elements[i].kind) && PaintFor(elements[i]) == Some(([op] + rest.ops)[i])
        {
          if i > 0 { assert elements[i] == elements[1..][i - 1]; }
        }
    }
  }

  /** The pass throws exactly when some element has an unknown type. */
  lemma {:induction false} RenderAbortsIffUnknown(elements: seq<Element>)
    ensures Render(elements).aborted <==> exists i :: 0 <= i < |elements| && !IsKnown(elements[i].kind)
  {
    RenderPaintsKnownPrefix(elements);
    var f := Render(elements);
    if exists i :: 0 <= i < |elements| && !IsKnown(elements[i].kind) {
      var i :| 0 <= i < |elements| && !IsKnown(elements[i].kind);
      assert !(i < |f.ops|);
    }
  }

  /** The `elements.forEach` loop of the board: paints element after element
      and leaves the loop at the first element whose type it does not list. */
  method RenderPass(elements: seq<Element>) returns (ops: seq<PaintOp>, aborted: bool)
    ensures Frame(ops, aborted) == Render(elements)
  {
    ops, aborted := [], false;
    var i := 0;
    while i < |elements|
      invariant 0 <= i <= |elements|
      invariant Render(elements) == Frame(ops + Render(elements[i..]).ops, Render(elements[i..]).aborted)
    {
      assert elements[i..][1..] == elements[i + 1..];
      match PaintFor(elements[i]) {
        case None =>
          aborted := true;
          return;
        case Some(op) =>
          ops := ops + [op];
      }
      i := i + 1;
    }
    assert elements[i..] == [];
  }
}
