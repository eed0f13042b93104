# Scroll-driven scene kernel

A model of the logic inside a single Next.js page that renders a
React-Three-Fiber scene, `pages/index.tsx`. Most of the page is rendering
glue. The model covers the four parts that compute or update values:

- `ScrollSections` (`scroll_sections.dfy`): `mapScrollValue` splits the
  window's scroll offset into three phase values, `section1` (dolly-in,
  up to 450), `section2` (hold) and `section3` (pan, from 600 on). The
  third branch returns the constant 600 for `section2`. The second branch
  only reaches values below 150, so `section2` jumps at offset 600. The
  model keeps this exactly as written. It also proves that the sections add
  up to the offset before 600 and overshoot it by 450 from 600 on.
- `CameraRig` (`camera_rig.dfy`): the camera group's position is
  `(0, 0, 5 + section1 / 100)` and its rotation is `(0, section3 / 10000, 0)`.
- `FrameUpdaters` (`frame_updaters.dfy`): the two `useFrame` callbacks.
  Each one adds a fixed increment to a node's `rotation.y` on every frame:
  0.02 for the model group in `Name`, 0.0 for the `Box` mesh. They ignore
  the frame time `delta`. Each node is a class with a `rotationY` field and
  a `Tick` method. `RunFrames` loops over a sequence of frame times.
- `MaterialOverride` (`material_override.dfy`): the `fbx.traverse` pass
  gives every `Mesh` node the one shared material. The in-place traversal
  is modelled as a pure rewrite `Override` of an object tree. The
  traversal's visiting order (a node first, then its children in order) is
  modelled as the sequence `Nodes`. The two views are proved to agree.

Arithmetic is exact `real` arithmetic, not IEEE-754 doubles. The scroll
offset is a `real`, as `window.scrollY` is a number. The mapper does not
validate its input, so negative offsets go to its first branch.

Three facts about the code shape the model:

- The offset is any number. Negative and fractional offsets are accepted,
  and negative ones fall into the first branch.
- The camera transform is a prop of the `View` element. It is recomputed
  when `scroll` changes and React renders again.
- The page has only a `Suspense` boundary with a `null` fallback and no
  error boundary.

## Model

| member | source | states |
|---|---|---|
| ScrollSections.MapScrollValue | pages/index.tsx:70-78 | section1 = min(value, 450) and section3 = max(value − 600, 0). Below 450, section2 = 0. In [450, 600), section2 lies in [0, 150) and section1 + section2 = value. From 600 on, section2 = 600. All sections except section1 are never negative, and section1 ≤ 450. |
| ScrollSections.MapScrollValueMonotone | pages/index.tsx:70-78 | each of the three sections is non-decreasing as the offset grows, including section2's jump at 600 |
| ScrollSections.MapScrollValueBounds | pages/index.tsx:70-78 | for an offset ≥ 0: section1 is in [0, 450], and section2 and section3 are ≥ 0 |
| ScrollSections.Section2JumpsAtPanStart | pages/index.tsx:73-76 | below 600, section2 stays under 150. At 600 it is 600, more than 450 above any earlier value. |
| ScrollSections.TotalRecoversScrollBeforePan | pages/index.tsx:70-78 | section1 + section2 + section3 equals the offset if and only if the offset is below 600. From 600 on the sum is offset + 450. |
| ScrollSections.MapScrollValueScenarios | pages/index.tsx:70-78 | offsets 0, 450, 500, 600 and 2600 map to (0,0,0), (450,0,0), (450,50,0), (450,600,0) and (450,600,2000) |
| CameraRig.CameraPositionZ | pages/index.tsx:95 | camera z ≤ 9.5. It equals 9.5 exactly when the offset is ≥ 450. It is ≥ 5 for offsets ≥ 0. It equals 5 exactly at offset 0. |
| CameraRig.CameraRotationY | pages/index.tsx:96 | the y-rotation is ≥ 0, and it is 0 exactly when the offset is ≤ 600 |
| CameraRig.CameraTransformAt | pages/index.tsx:92-97 | the position's x and y and the rotation's x and z are always 0. Only z and the y-rotation depend on the offset. |
| CameraRig.CameraMonotone | pages/index.tsx:95-96 | camera z and the y-rotation both grow (weakly) with the offset |
| CameraRig.ScrollFromPositionZ | pages/index.tsx:95 | below 450, the offset is recovered from z as (z − 5) · 100 |
| CameraRig.ScrollFromRotationY | pages/index.tsx:96 | from 600 on, the offset is recovered from the y-rotation as 600 + ry · 10000 |
| CameraRig.CameraScenarios | pages/index.tsx:95-96 | z is 5 at offset 0 and 9.5 at 450, 500, 600, 2000 and 2600. The y-rotation is 0 up to 600 and 0.2 at 2600. |
| FrameUpdaters.RotationAfterClosedForm | pages/index.tsx:34 | adding the increment frame by frame for N frames gives initial + step · N |
| FrameUpdaters.BoxRotationFixed | pages/index.tsx:21 | any number of `Box` frames (increment 0.0) leave the rotation where it was |
| FrameUpdaters.NameGroup.constructor | pages/index.tsx:58 | the model group starts with y-rotation 0 |
| FrameUpdaters.NameGroup.Tick | pages/index.tsx:34 | one frame adds exactly 0.02 to the group's y-rotation, whatever the frame time |
| FrameUpdaters.NameGroup.RunFrames | pages/index.tsx:34 | after N frames the rotation is the old rotation + 0.02 · N, whatever the frame times |
| FrameUpdaters.BoxMesh.constructor | pages/index.tsx:24 | the box mesh starts with y-rotation 0 |
| FrameUpdaters.BoxMesh.Tick | pages/index.tsx:21 | one frame adds 0.0, so the rotation is unchanged |
| FrameUpdaters.BoxMesh.RunFrames | pages/index.tsx:21 | after any number of frames the rotation is unchanged |
| FrameUpdaters.SpinFromMount | pages/index.tsx:33-34 | a freshly mounted model group has turned by exactly 0.02 · N after N frames |
| MaterialOverride.Nodes | pages/index.tsx:51 | the traversal visits the root first, before any of its descendants |
| MaterialOverride.OverrideVisit | pages/index.tsx:52-54 | at one visited node, a mesh gets the shared material and anything else keeps its material. The kind is unchanged. |
| MaterialOverride.OverrideVisits | pages/index.tsx:51-55 | applying the callback along a traversal keeps its length, and the callback is applied at every position |
| MaterialOverride.Override | pages/index.tsx:51-55 | the root keeps its kind and child count. A mesh root gets the shared material. A non-mesh root keeps its material. |
| MaterialOverride.NodesOfOverride | pages/index.tsx:51-55 | the rewritten tree's traversal equals the original traversal with the callback applied at every node |
| MaterialOverride.OverridePass | pages/index.tsx:51-55 | afterwards every mesh has the shared material. The node count is unchanged. Every node, in traversal order, keeps its kind. Every non-mesh node keeps its material. |
| MaterialOverride.OverrideKeepsShape | pages/index.tsx:51-55 | the rewritten tree has the same shape as the loaded tree: the same kinds at the same places |
| MaterialOverride.OverrideFixesExactly | pages/index.tsx:51-55 | the pass leaves a tree unchanged if and only if every mesh in it already has the shared material |
| MaterialOverride.OverrideIdempotent | pages/index.tsx:51-55 | running the pass twice gives the same tree as running it once |

## Left out

- JSX rendering, `Canvas`, `PerspectiveCamera`, the lights and the
  placement of the `primitive` (pages/index.tsx:56-67, 90-105, 125-145).
  These are declarative calls into the rendering engine, whose code is not
  part of this model.
- The `Box` component is commented out in `View` (pages/index.tsx:103), so
  it is never mounted. Its updater is still modelled as the inert update
  it is.
- Loading the FBX model and the cube texture, constructing the material,
  and the `Suspense` fallback (pages/index.tsx:35-50, 136-138). These are
  asynchronous foreign loaders. The loaded tree is an input to `Override`.
  The material is a value (colour "#001536", roughness 0.6, metalness 1)
  without its environment map.
- The scroll listener, `setScroll`, subscribing and unsubscribing in
  `useEffect`, and `console.log` (pages/index.tsx:109-123). These are DOM
  event I/O. The latest offset is simply the argument of the mapper.
- IEEE-754 rounding of the `+=` accumulation and of the divisions. The
  model uses exact reals and claims no bit-exact agreement with JavaScript
  numbers.
- Angle wrap-around and frame timing. `delta` is passed to `Tick` and
  ignored, as it is in the code.
- Commented-out code (pages/index.tsx:86-88, 103), styling and the 1000vh
  spacer (pages/index.tsx:127-143).
- MaterialOverride.Override: a node is modelled only by its kind, its
  material and its children. Other object properties are not represented.
  So "nothing else changes" is stated for kinds, materials, shape and node
  count. A material is one value: a mesh whose `material` is an array of
  materials is not represented, although the assignment at
  pages/index.tsx:53 replaces such an array with the one shared material.
- Non-finite offsets. `NaN` and ±Infinity are not representable as reals.
  In the code `NaN` fails both comparisons and falls into the third branch
  with `section3 = NaN`. `window.scrollY` is always finite.
