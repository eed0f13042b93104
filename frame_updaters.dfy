/** The per-frame rotation updaters registered with the render loop. On every
    frame the loop calls each registered callback with the frame state and
    the elapsed time `delta`; both callbacks ignore them and add a fixed
    increment to their node's y-rotation, so the rotation speed follows the
    frame rate. Rotations are exact reals and are not wrapped to a full turn. */
module FrameUpdaters {

  /** Increment per frame of the `Name` group holding the loaded model. */
  const NameStep: real := 0.02
  /** Increment per frame of the `Box` mesh: an inert update. */
  const BoxStep: real := 0.0

  /** The y-rotation after `frames` frames that each add `step`, frame by
      frame. */
  function RotationAfter(initial: real, step: real, frames: nat): real
  {
    if frames == 0 then initial else RotationAfter(initial, step, frames - 1) + step
  }

  /** Frame-by-frame accumulation agrees with the closed form
      initial + step * frames. */
  lemma {:induction false} RotationAfterClosedForm(initial: real, step: real, frames: nat)
    ensures RotationAfter(initial, step, frames) == initial + step * frames as real
  {
    if frames > 0 {
      RotationAfterClosedForm(initial, step, frames - 1);
      assert step * (frames - 1) as real + step == step * frames as real;
    }
  }

  /** The `Box` update adds nothing: its rotation never changes. */
  lemma BoxRotationFixed(initial: real, frames: nat)
    ensures RotationAfter(initial, BoxStep, frames) == initial
  {
    RotationAfterClosedForm(initial, BoxStep, frames);
  }

  /** The group that holds the loaded model (`nameRef` in `Name`). */
  class NameGroup {
    var rotationY: real

    constructor ()
      ensures rotationY == 0.0
    {
      rotationY := 0.0;
    }

    /** One frame: `rotation.y += 0.02`, whatever `delta` is. */
    method Tick(delta: real)
      modifies this
      ensures rotationY == old(rotationY) + NameStep
    {
      rotationY := rotationY + NameStep;
    }

    /** One frame per entry of `deltas`, each with that frame time. */
    method RunFrames(deltas: seq<real>)
      modifies this
      ensures rotationY == RotationAfter(old(rotationY), NameStep, |deltas|)
      ensures rotationY == old(rotationY) + NameStep * |deltas| as real
    {
      var i := 0;
      while i < |deltas|
        invariant 0 <= i <= |deltas|
        invariant rotationY == RotationAfter(old(rotationY), NameStep, i)
      {
        Tick(deltas[i]);
        i := i + 1;
      }
      RotationAfterClosedForm(old(rotationY), NameStep, |deltas|);
    }
  }

  /** The small mesh of the `Box` component (`mesh` ref). */
  class BoxMesh {
    var rotationY: real

    constructor ()
      ensures rotationY == 0.0
    {
      rotationY := 0.0;
    }

    /** One frame: `rotation.y += 0.0`, which leaves the rotation as it was. */
    method Tick(delta: real)
      modifies this
      ensures rotationY == old(rotationY) + BoxStep
      ensures rotationY == old(rotationY)
    {
      rotationY := rotationY + BoxStep;
    }

    /** One frame per entry of `deltas`: the rotation does not move. */
    method RunFrames(deltas: seq<real>)
      modifies this
      ensures rotationY == RotationAfter(old(rotationY), BoxStep, |deltas|)
      ensures rotationY == old(rotationY)
    {
      var i := 0;
      while i < |deltas|
        invariant 0 <= i <= |deltas|
        invariant rotationY == RotationAfter(old(rotationY), BoxStep, i)
      {
        Tick(deltas[i]);
        i := i + 1;
      }
      BoxRotationFixed(old(rotationY), |deltas|);
    }
  }

  /** A freshly mounted model group has turned by exactly 0.02 * N after N
      frames, whatever the frame times were. */
  method SpinFromMount(deltas: seq<real>) returns (rotationY: real)
    ensures rotationY == NameStep * |deltas| as real
  {
    var g := new NameGroup();
    g.RunFrames(deltas);
    rotationY := g.rotationY;
  }
}
