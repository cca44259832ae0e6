/** The render-dispatch step as the sequence of calls it makes on the render
    port.  The port itself is external; a frame is described by its calls. */
module Render {
  import opened Model
  import opened Usecases
  import opened Interaction

  /** `RenderPort` calls: `begin_frame`, `draw_shape`, `draw_scale_handle`, `end_frame`. */
  datatype DrawCall =
    | BeginFrame(w: nat, h: nat)
    | DrawShape(transform: Transform, shape: Shape, style: Style)
    | DrawHandle(handle: ScaleHandle)
    | EndFrame

  /** Stroke colour of selected entities. */
  const HighlightColor: Color := Color(0.0, 0.4, 0.8, 1.0)

  /** Position in physical pixels; the scale factors are left as they are. */
  function RenderTransform(t: Transform, dpr: real): Transform
  {
    t.(x := t.x * dpr, y := t.y * dpr)
  }

  function ScaleDash(dash: seq<real>, dpr: real): seq<real>
  {
    if dash == [] then [] else [dash[0] * dpr] + ScaleDash(dash[1..], dpr)
  }

  /** Stroke width in physical pixels, dashes and their offset too when there
      are any; a selected entity gets at least a 3-CSS-pixel stroke in the
      highlight colour. */
  function RenderStyle(s: Style, dpr: real, isSelected: bool): Style
  {
    var sw := s.strokeWidth * dpr;
    var scaled := if |s.dash| > 0 then s.(strokeWidth := sw, dash := ScaleDash(s.dash, dpr), dashOffset := s.dashOffset * dpr)
                  else s.(strokeWidth := sw);
    if isSelected then scaled.(strokeWidth := Max(sw, 3.0 * dpr), stroke := Some(HighlightColor)) else scaled
  }

  /** Selected entities are highlighted; the others keep their stroke colour;
      fill, opacity, caps and joins are never touched; dash lengths and their
      offset go to physical pixels, and an empty dash pattern keeps its offset. */
  lemma RenderStyleSpec(s: Style, dpr: real, isSelected: bool)
    ensures var r := RenderStyle(s, dpr, isSelected);
      r.fill == s.fill && r.opacity == s.opacity && r.strokeCap == s.strokeCap && r.strokeJoin == s.strokeJoin
      && |r.dash| == |s.dash|
      && (forall i :: 0 <= i < |s.dash| ==> r.dash[i] == s.dash[i] * dpr)
      && (s.dash == [] ==> r.dashOffset == s.dashOffset)
      && (s.dash != [] ==> r.dashOffset == s.dashOffset * dpr)
      && (isSelected ==> r.stroke == Some(HighlightColor)
                         && r.strokeWidth >= 3.0 * dpr && r.strokeWidth >= s.strokeWidth * dpr)
      && (!isSelected ==> r.stroke == s.stroke && r.strokeWidth == s.strokeWidth * dpr)
  {
    ScaleDashSpec(s.dash, dpr);
  }

  /** Every dash length is converted to physical pixels, in order. */
  lemma {:induction false} ScaleDashSpec(dash: seq<real>, dpr: real)
    ensures |ScaleDash(dash, dpr)| == |dash|
    ensures forall i :: 0 <= i < |dash| ==> ScaleDash(dash, dpr)[i] == dash[i] * dpr
  {
    if dash != [] {
      ScaleDashSpec(dash[1..], dpr);
    }
  }

  /** One draw call per entity, in document order. */
  function EntityCalls(es: seq<Entity>, selected: seq<EntityId>, dpr: real): seq<DrawCall>
  {
    if es == [] then []
    else
      var e := es[|es| - 1];
      EntityCalls(es[..|es| - 1], selected, dpr)
        + [DrawShape(RenderTransform(e.transform, dpr), PhysicalShape(e.shape, dpr), RenderStyle(e.style, dpr, e.id in selected))]
  }

  lemma {:induction false} EntityCallsSpec(es: seq<Entity>, selected: seq<EntityId>, dpr: real)
    ensures |EntityCalls(es, selected, dpr)| == |es|
    ensures forall k :: 0 <= k < |es| ==>
      EntityCalls(es, selected, dpr)[k]
        == DrawShape(RenderTransform(es[k].transform, dpr), PhysicalShape(es[k].shape, dpr),
                     RenderStyle(es[k].style, dpr, es[k].id in selected))
  {
    if es != [] {
      EntityCallsSpec(es[..|es| - 1], selected, dpr);
    }
  }

  function HandleDraws(hs: seq<ScaleHandle>): seq<DrawCall>
  {
    if hs == [] then [] else [DrawHandle(hs[0])] + HandleDraws(hs[1..])
  }

  lemma {:induction false} HandleDrawsSpec(hs: seq<ScaleHandle>)
    ensures |HandleDraws(hs)| == |hs|
    ensures forall i :: 0 <= i < |hs| ==> HandleDraws(hs)[i] == DrawHandle(hs[i])
  {
    if hs != [] {
      HandleDrawsSpec(hs[1..]);
    }
  }

  /** The handles of the combined selection box, unless a move is in progress. */
  function HandleCalls(es: seq<Entity>, selected: seq<EntityId>, isMoving: bool, dpr: real): seq<DrawCall>
  {
    if isMoving || selected == [] then []
    else match CombinedExtent(selected, es)
      case None => []
      case Some(e) => HandleDraws(GenerateHandles(PhysicalBox(e, dpr), HandleSize(dpr)))
  }

  /** Handles are drawn, all eight in the fixed order, exactly when no move is
      in progress and some selected id is in the document. */
  lemma HandleCallsSpec(es: seq<Entity>, selected: seq<EntityId>, isMoving: bool, dpr: real)
    ensures var calls := HandleCalls(es, selected, isMoving, dpr);
      (|calls| == 8 <==> !isMoving && exists i :: 0 <= i < |selected| && FindEntity(es, selected[i]).Some?)
      && (|calls| == 0 <==> isMoving || forall i :: 0 <= i < |selected| ==> FindEntity(es, selected[i]).None?)
      && forall i :: 0 <= i < |calls| ==>
           calls[i].DrawHandle? && calls[i].handle.handleType == HandleOrder[i] && calls[i].handle.size == HandleSize(dpr)
  {
    CombinedExtentIsUnion(selected, es);
    match CombinedExtent(selected, es)
    case None =>
    case Some(e) => HandleDrawsSpec(GenerateHandles(PhysicalBox(e, dpr), HandleSize(dpr)));
  }

  /** One frame: begin, the entities, the handles, end. */
  function FrameCalls(es: seq<Entity>, selected: seq<EntityId>, isMoving: bool, dpr: real, w: nat, h: nat): seq<DrawCall>
  {
    [BeginFrame(w, h)] + EntityCalls(es, selected, dpr) + HandleCalls(es, selected, isMoving, dpr) + [EndFrame]
  }

  /** A frame opens at the canvas size, draws every entity in document order
      before any handle, and closes; handles come last and are the only
      handle calls. */
  lemma FrameCallsSpec(es: seq<Entity>, selected: seq<EntityId>, isMoving: bool, dpr: real, w: nat, h: nat)
    ensures var calls := FrameCalls(es, selected, isMoving, dpr, w, h);
      var n := |HandleCalls(es, selected, isMoving, dpr)|;
      |calls| == |es| + n + 2
      && calls[0] == BeginFrame(w, h) && calls[|calls| - 1] == EndFrame
      && (forall k :: 0 <= k < |es| ==> calls[k + 1].DrawShape? && calls[k + 1].style == RenderStyle(es[k].style, dpr, es[k].id in selected))
      && (forall k :: |es| < k < |calls| - 1 ==> calls[k].DrawHandle?)
  {
    var ents := EntityCalls(es, selected, dpr);
    var hcs := HandleCalls(es, selected, isMoving, dpr);
    EntityCallsSpec(es, selected, dpr);
    HandleCallsAreHandles(es, selected, isMoving, dpr);
    FrameLayout(BeginFrame(w, h), ents, hcs, EndFrame);
  }

  /** Where the parts of `[first] + xs + ys + [last]` sit. */
  lemma FrameLayout(first: DrawCall, xs: seq<DrawCall>, ys: seq<DrawCall>, last: DrawCall)
    ensures var c := [first] + xs + ys + [last];
      |c| == |xs| + |ys| + 2 && c[0] == first && c[|c| - 1] == last
      && (forall k :: 0 <= k < |xs| ==> c[k + 1] == xs[k])
      && (forall k :: |xs| < k < |c| - 1 ==> c[k] == ys[k - 1 - |xs|])
  {
  }

  /** Every handle call is a handle draw. */
  lemma HandleCallsAreHandles(es: seq<Entity>, selected: seq<EntityId>, isMoving: bool, dpr: real)
    ensures forall i :: 0 <= i < |HandleCalls(es, selected, isMoving, dpr)| ==> HandleCalls(es, selected, isMoving, dpr)[i].DrawHandle?
  {
    match CombinedExtent(selected, es)
    case None =>
    case Some(e) => HandleDrawsSpec(GenerateHandles(PhysicalBox(e, dpr), HandleSize(dpr)));
  }
}
