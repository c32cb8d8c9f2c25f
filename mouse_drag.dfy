/** The mouse-drag rotation of src/render_model.cpp and src/cube.cpp: the
    cursor callback latches the first position it sees and then adds 0.3 of each
    later movement to the rotation angles, x movement to rotY and y movement to
    rotX. Both files declare the same five globals and the same callback, so
    both are modelled by one state machine and one class. */
module MouseDrag {

  /** The factor 0.3f applied to every cursor delta. */
  const Sensitivity: real := 0.3

  /** The globals lastX, lastY, rotX, rotY and firstMouse. */
  datatype Drag = Drag(lastX: real, lastY: real, rotX: real, rotY: real, firstMouse: bool)

  /** Their initial values: everything zero, firstMouse set. */
  const Start := Drag(0.0, 0.0, 0.0, 0.0, true)

  /** One call of cursor_pos(window, x, y). */
  function Step(d: Drag, x: real, y: real): (r: Drag)
    ensures r.lastX == x && r.lastY == y && !r.firstMouse
    ensures d.firstMouse ==> r.rotX == d.rotX && r.rotY == d.rotY
    ensures !d.firstMouse ==>
              r.rotY - d.rotY == Sensitivity * (x - d.lastX) && r.rotX - d.rotX == Sensitivity * (y - d.lastY)
  {
    if d.firstMouse then
      d.(lastX := x, lastY := y, firstMouse := false)
    else
      d.(rotY := d.rotY + (x - d.lastX) * Sensitivity,
         rotX := d.rotX + (y - d.lastY) * Sensitivity,
         lastX := x, lastY := y)
  }

  /** The state after the calls in positions, in order, from d. */
  function Replay(d: Drag, positions: seq<(real, real)>): Drag
  {
    if |positions| == 0 then d
    else
      var p := positions[|positions| - 1];
      Step(Replay(d, positions[..|positions| - 1]), p.0, p.1)
  }

  /** The deltas telescope: after any non-empty sequence of calls from the start,
      the rotation is 0.3 times the distance from the first position to the last,
      and the last position is latched. */
  lemma {:induction false} Telescopes(positions: seq<(real, real)>)
    requires |positions| > 0
    ensures var d, first, last := Replay(Start, positions), positions[0], positions[|positions| - 1];
            d == Drag(last.0, last.1, Sensitivity * (last.1 - first.1), Sensitivity * (last.0 - first.0), false)
  {
    var n := |positions|;
    var earlier := positions[..n - 1];
    if n > 1 {
      Telescopes(earlier);
      assert earlier[0] == positions[0];
    }
  }

  /** Once cleared, firstMouse stays cleared whatever calls follow. */
  lemma {:induction false} LatchIsPermanent(d: Drag, positions: seq<(real, real)>)
    requires !d.firstMouse || |positions| > 0
    ensures !Replay(d, positions).firstMouse
  {
    if |positions| > 0 {
      var p := positions[|positions| - 1];
      assert !Step(Replay(d, positions[..|positions| - 1]), p.0, p.1).firstMouse;
    }
  }

  /** The five globals, updated in place by the callback. The ghost field
      positions records the calls made so far. */
  class Cursor {
    var lastX: real
    var lastY: real
    var rotX: real
    var rotY: real
    var firstMouse: bool
    ghost var positions: seq<(real, real)>

    function State(): Drag
      reads this
    {
      Drag(lastX, lastY, rotX, rotY, firstMouse)
    }

    ghost predicate Valid()
      reads this
    {
      State() == Replay(Start, positions)
    }

    constructor()
      ensures Valid() && State() == Start && positions == []
    {
      lastX, lastY := 0.0, 0.0;
      rotX, rotY := 0.0, 0.0;
      firstMouse := true;
      positions := [];
    }

    /** cursor_pos: the first call only latches the position; every later call
        accumulates the scaled delta and then latches. */
    method CursorPos(x: real, y: real)
      requires Valid()
      modifies this
      ensures Valid() && positions == old(positions) + [(x, y)]
      ensures State() == Step(old(State()), x, y)
      ensures rotY == Sensitivity * (x - positions[0].0) && rotX == Sensitivity * (y - positions[0].1)
    {
      if firstMouse {
        lastX := x;
        lastY := y;
        firstMouse := false;
      } else {
        rotY := rotY + (x - lastX) * Sensitivity;
        rotX := rotX + (y - lastY) * Sensitivity;
        lastX := x;
        lastY := y;
      }
      positions := positions + [(x, y)];
      assert positions[..|positions| - 1] == old(positions);
      Telescopes(positions);
    }
  }
}
