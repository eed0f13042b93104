/** The camera group of the `View` component. Its transform is derived from
    the mapped scroll sections each time the view is rendered: it is pushed
    back along z during the dolly-in phase and turned about y during the pan
    phase. It is not smoothed: it snaps to the derived value. */
module CameraRig {
  import opened ScrollSections

  /** The z-position of the camera at scroll offset 0. */
  const BaseZ: real := 5.0
  /** Scroll pixels per unit of camera z-position. */
  const ZDivisor: real := 100.0
  /** Scroll pixels per unit of camera y-rotation. */
  const RotationDivisor: real := 10000.0

  datatype Vector3 = Vector3(x: real, y: real, z: real)
  datatype CameraTransform = CameraTransform(position: Vector3, rotation: Vector3)

  /** The furthest the camera moves back: 5 + 450 / 100. */
  const MaxZ: real := 9.5

  /** `5 + mapScrollValue(scroll).section1 / 100`: the camera is at 5 only at
      offset 0, moves back while the offset grows to 450, and is at 9.5
      exactly from 450 on. */
  function CameraPositionZ(scroll: real): (z: real)
    ensures z <= MaxZ
    ensures z == MaxZ <==> scroll >= DollyEnd
    ensures scroll >= 0.0 ==> z >= BaseZ
    ensures z == BaseZ <==> scroll == 0.0
  {
    BaseZ + MapScrollValue(scroll).section1 / ZDivisor
  }

  /** `mapScrollValue(scroll).section3 / 10000`: the camera does not turn
      before the pan phase and turns by one unit per 10000 pixels after it. */
  function CameraRotationY(scroll: real): (ry: real)
    ensures ry >= 0.0
    ensures ry == 0.0 <==> scroll <= PanStart
  {
    MapScrollValue(scroll).section3 / RotationDivisor
  }

  /** The whole transform of the camera group: position (0, 0, z) and
      rotation (0, ry, 0). Only z and the y-rotation depend on the offset. */
  function CameraTransformAt(scroll: real): (c: CameraTransform)
    ensures c.position.x == 0.0 && c.position.y == 0.0
    ensures c.rotation.x == 0.0 && c.rotation.z == 0.0
    ensures c.position.z == CameraPositionZ(scroll)
    ensures c.rotation.y == CameraRotationY(scroll)
  {
    CameraTransform(Vector3(0.0, 0.0, CameraPositionZ(scroll)),
                    Vector3(0.0, CameraRotationY(scroll), 0.0))
  }

  /** Both derived values only grow with the scroll offset. */
  lemma CameraMonotone(a: real, b: real)
    requires a <= b
    ensures CameraPositionZ(a) <= CameraPositionZ(b)
    ensures CameraRotationY(a) <= CameraRotationY(b)
  {
    MapScrollValueMonotone(a, b);
  }

  /** During the dolly-in phase the offset can be read back from the
      camera's z-position. */
  lemma ScrollFromPositionZ(scroll: real)
    requires scroll < DollyEnd
    ensures (CameraPositionZ(scroll) - BaseZ) * ZDivisor == scroll
  {
  }

  /** During the pan phase the offset can be read back from the camera's
      y-rotation. */
  lemma ScrollFromRotationY(scroll: real)
    requires scroll >= PanStart
    ensures PanStart + CameraRotationY(scroll) * RotationDivisor == scroll
  {
  }

  /** Sample offsets at and around each breakpoint. */
  lemma CameraScenarios()
    ensures CameraTransformAt(0.0) == CameraTransform(Vector3(0.0, 0.0, 5.0), Vector3(0.0, 0.0, 0.0))
    ensures CameraTransformAt(450.0) == CameraTransform(Vector3(0.0, 0.0, 9.5), Vector3(0.0, 0.0, 0.0))
    ensures CameraTransformAt(500.0) == CameraTransform(Vector3(0.0, 0.0, 9.5), Vector3(0.0, 0.0, 0.0))
    ensures CameraTransformAt(600.0) == CameraTransform(Vector3(0.0, 0.0, 9.5), Vector3(0.0, 0.0, 0.0))
    ensures CameraTransformAt(2000.0).position.z == 9.5
    ensures CameraTransformAt(2600.0) == CameraTransform(Vector3(0.0, 0.0, 9.5), Vector3(0.0, 0.2, 0.0))
  {
  }
}
