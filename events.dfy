/** Input events the UI layer produces and the queue that holds them until
    the next frame.  Coordinates and deltas arrive in CSS pixels. */
module Events {
  import opened Model

  datatype PointerDown = PointerDown(x: real, y: real, ctrlKey: bool, shiftKey: bool)
  datatype MoveStart = MoveStart(x: real, y: real)
  /** Deltas from the start of the gesture, not from the previous update. */
  datatype MoveUpdate = MoveUpdate(dx: real, dy: real)
  datatype MoveEnd = MoveEnd
  datatype ScaleStart = ScaleStart(handleType: HandleType, x: real, y: real)
  datatype ScaleUpdate = ScaleUpdate(dx: real, dy: real)
  datatype ScaleEnd = ScaleEnd
  datatype CreateRect = CreateRect(x: real, y: real, w: real, h: real)
  datatype CreateEllipse = CreateEllipse(x: real, y: real, rx: real, ry: real)
  datatype CreateLine = CreateLine(x1: real, y1: real, x2: real, y2: real)

  /** `InputQueue`: one FIFO per event kind, appended to by the `send_*`
      calls and drained by the systems. */
  class InputQueue {
    var pointerDown: seq<PointerDown>
    var createRect: seq<CreateRect>
    var createEllipse: seq<CreateEllipse>
    var createLine: seq<CreateLine>
    var moveStart: seq<MoveStart>
    var moveUpdate: seq<MoveUpdate>
    var moveEnd: seq<MoveEnd>
    var scaleStart: seq<ScaleStart>
    var scaleUpdate: seq<ScaleUpdate>
    var scaleEnd: seq<ScaleEnd>

    /** `InputQueue::default`: every queue empty. */
    constructor ()
      ensures pointerDown == [] && createRect == [] && createEllipse == [] && createLine == []
      ensures moveStart == [] && moveUpdate == [] && moveEnd == []
      ensures scaleStart == [] && scaleUpdate == [] && scaleEnd == []
    {
      pointerDown := [];
      createRect := [];
      createEllipse := [];
      createLine := [];
      moveStart := [];
      moveUpdate := [];
      moveEnd := [];
      scaleStart := [];
      scaleUpdate := [];
      scaleEnd := [];
    }
  }
}
