# anim_tools relative motion, in Dafny

This project models the transform algebra of the `anim_tools` Blender add-on:
the function `calcRelativeMotion` of `anim_tools/transform_utils.py`, and the
vector and quaternion operations it relies on.

A *motion* is a sequence of `(loc, rot)` frames, one per sampled keyframe.
`calcRelativeMotion(rootMotion, childMotion)` re-expresses the child motion in
the frame that moves with the root motion. It works frame by frame:

- `invRootRot` is the conjugate of the root rotation;
- the translation is `childLoc - rootLoc` rotated by `invRootRot`;
- the rotation is the Hamilton product `childRot * invRootRot`.

When the two motions differ in length, the result is an empty motion.

The model has two modules:

- `Quaternions` (`quaternion.dfy`) defines `Vec3` and `Quat` over `real`. It
  gives vector difference, conjugate, Hamilton product, squared norm, and
  rotation as the vector part of q·(0, v)·q̄. It proves the algebra that the
  relative motion needs: associativity, q·q̄ = |q|², a multiplicative norm, and
  that rotating by q̄ undoes a rotation by a unit q.
- `TransformUtils` (`transform_utils.dfy`) defines `Transform`, `Motion`, the
  per-frame `RelativeFrame`, and the reference function `RelativeMotion`.
  `CalcRelativeMotion` has the same length check and append loop as the source, proved equal
  to `RelativeMotion`. The partner of the relative motion is `ComposeMotion`,
  its exact inverse for unit root rotations. Both round trips are proved. They
  show that no information is lost. They do not show that the world pose is
  preserved under the usual parent·child composition (see below).

Three facts about the code shape the model:

- The conjugate at line 28 is the inverse rotation only for a unit quaternion,
  and the code does not normalise. The rotation product at line 35 is therefore
  exactly child·conj(root), with squared norm |child|²·|root|². mathutils'
  `Vector.rotate` normalises the quaternion it is given, while the model's
  `Rotate` does not, so translations agree only for unit root rotations (see
  "Left out").
- Under parent·child composition the world rotation of a relative frame is
  rootRot·relRot, and the relative rotation that keeps the world pose is
  conj(rootRot)·childRot. Line 35 computes childRot·conj(rootRot) instead.
  `ParentChildRotation` proves that, for a unit root, the two agree exactly when
  the root and child rotations commute. `RotationOrderMatters` gives a pair
  where they do not. The translation of lines 31-32 does follow parent·child
  composition. The inverse `ComposeFrame` therefore puts the root location and
  rotation back as parent·child does, but multiplies the root rotation on the
  RIGHT.
- On a length mismatch the code calls `op.report` (`transform_utils.py:21`), but
  no `op` exists in that module, so the call would raise before the documented
  empty return. The model returns the empty motion that lines 10–13 promise.

## Model

| member | source | states |
|---|---|---|
| `TransformUtils.RelativeMotion` | anim_tools/transform_utils.py:15-40 | Motions of different lengths give the empty motion. Equal lengths give exactly one frame per input frame, in order. Frame i is the relative frame of root frame i and child frame i only. The result is empty exactly when the lengths differ or both inputs are empty. |
| `TransformUtils.RelativeFrame` | anim_tools/transform_utils.py:26-37 | One loop iteration, with translations exact for a unit root rotation. The relative rotation's squared norm is the product of the child's and the root's, so unit inputs give a unit result. Its inverse is `ComposeFrame`: see `ComposeRelativeFrame` and `RelativeComposeFrame`. |
| `TransformUtils.CalcRelativeMotion` | anim_tools/transform_utils.py:15-40 | The length check followed by the append loop returns the same motion as the reference function, and the empty motion on a length mismatch. |
| `TransformUtils.SelfRelativeMotion` | anim_tools/transform_utils.py:28-35 | A motion taken relative to itself has zero translation in every frame. Its rotation is q·q̄ = (\|q\|², 0, 0, 0), which is the identity for every unit-quaternion frame. |
| `TransformUtils.RelativeTranslationZero` | anim_tools/transform_utils.py:28-32 | A child at the root's location always has zero relative translation. For a unit root rotation, that is the only way to get zero translation. |
| `TransformUtils.ComposeRelativeFrame` | anim_tools/transform_utils.py:26-37 | With a unit root rotation, one frame of the relative motion composed back onto its root frame is the original child frame. |
| `TransformUtils.RelativeComposeFrame` | anim_tools/transform_utils.py:26-37 | With a unit root rotation, composing any relative frame onto a root and then taking the result relative to that root gives back the relative frame. |
| `TransformUtils.ComposeRelativeMotion` | anim_tools/transform_utils.py:24-37 | With unit root rotations, composing the relative motion back onto the root motion with `ComposeFrame` reproduces the child motion frame for frame. No information is lost. |
| `TransformUtils.RelativeComposeMotion` | anim_tools/transform_utils.py:24-37 | With unit root rotations, every motion of the root's length is the relative motion of its composition with the root. |
| `TransformUtils.RelativeMotionAppend` | anim_tools/transform_utils.py:24-37 | Frames are processed independently. The relative motion of two concatenated motions is the concatenation of the parts' relative motions. |
| `TransformUtils.ParentChildRotation` | anim_tools/transform_utils.py:28-35 | For a unit root rotation, rootRot times the relative rotation is the child rotation if and only if rootRot and childRot commute. |
| `TransformUtils.RotationOrderMatters` | anim_tools/transform_utils.py:28-35 | For a root turned 120° about (1,1,1) and a child turned 180° about x, the relative rotation is (0.5, 0.5, 0.5, -0.5). Multiplying it by the root on the right gives the child back. Multiplying on the left gives a 180° turn about y, not the child. |
| `Quaternions.Sub` | anim_tools/transform_utils.py:31 | `childLoc - rootLoc` added back to `rootLoc` gives `childLoc`. The difference is zero exactly when the two locations are equal. |
| `Quaternions.Conj` | anim_tools/transform_utils.py:28 | `conjugated()` keeps the scalar part and the norm, and negates the vector part. |
| `Quaternions.ConjConj` | anim_tools/transform_utils.py:28 | Conjugating twice gives back the original quaternion. |
| `Quaternions.Rotate` | anim_tools/transform_utils.py:32 | Rotating the zero vector gives the zero vector. |
| `Quaternions.SandwichIsPure` | anim_tools/transform_utils.py:32 | The sandwich q·(0, v)·q̄ has no scalar part, so keeping only its vector part loses nothing. |
| `Quaternions.RotateLength` | anim_tools/transform_utils.py:32 | Rotation scales the squared length by \|q\|⁴. A unit quaternion preserves length. |
| `Quaternions.RotateConj` | anim_tools/transform_utils.py:28-32 | Rotating by q and then by q̄ scales the vector by \|q\|⁴. For a unit q this is the identity. |
| `Quaternions.ConjRotate` | anim_tools/transform_utils.py:28-32 | Rotating by q̄ and then by a unit q gives back the vector. |
| `Quaternions.RotateSub` | anim_tools/transform_utils.py:31-32 | Rotating a difference equals the difference of the rotated vectors. |
| `Quaternions.Mul` | anim_tools/transform_utils.py:35 | The Hamilton product `*`. (1, 0, 0, 0) is a unit on both sides. Its associativity, its multiplicative norm and its product with the conjugate are stated in `MulAssoc`, `NormSqMul` and `MulConj`. |
| `Quaternions.MulScalar` | anim_tools/transform_utils.py:35 | A real factor commutes with every quaternion and scales each of its components. |
| `Quaternions.MulConj` | anim_tools/transform_utils.py:28-35 | q·q̄ = q̄·q = (\|q\|², 0, 0, 0). |
| `Quaternions.MulAssoc` | anim_tools/transform_utils.py:35 | The Hamilton product is associative. |
| `Quaternions.NormSqMul` | anim_tools/transform_utils.py:35 | The squared norm of a product is the product of the squared norms. |

## Left out

- Floating point: the model uses exact `real` arithmetic. Identity results such as the self-relative rotation hold exactly, for unit quaternions, instead of within a tolerance.
- Quaternions.Rotate: the model rotates with the plain sandwich q·(0, v)·q̄. mathutils' `Vector.rotate` normalises the quaternion first, so for a non-unit q the model's result is \|q\|² times the library's. Every identity that needs rotation semantics is therefore stated for unit quaternions. `RotateLength`, `RotateConj` and `RotateSub` hold for every q, with the \|q\|⁴ factor written out. The library's own code is not part of this model.
- TransformUtils.RelativeFrame: for a root rotation q with \|q\|² ≠ 1, the translation is \|q\|² times what line 32's normalising `rotate` gives, because `Quaternions.Rotate` does not normalise. The rotation matches for every input.
- TransformUtils.RelativeMotion: its translations match the source only for unit root rotations. For a root rotation q with \|q\|² ≠ 1, each translation is \|q\|² times the source's. Rotations match for every input, because line 35 does not normalise.
- The error report on a length mismatch (`transform_utils.py:21`): `op` is undefined in the module, so the call would raise. Only the documented empty return is modelled.
- Input immutability (`transform_utils.py:28-32`): motions, transforms, vectors and quaternions are immutable Dafny values, so no operation can change its inputs. This needs no separate member.
- An empty result: it means either a length mismatch or two empty inputs. `RelativeMotion` states both cases, but like the source it returns no separate error value.
- `printMotion` (`transform_utils.py:49-58`): console output only.
- `anim_tools/motion_operator.py`: every sampling and writing method body is `pass`, so there is no behaviour to model. Keyframe I/O belongs to the host application.
- `anim_tools/extract_motion.py`: `MotionExtractionFilter.execute` only prints and returns `True`. The rest is operator properties, UI enumeration and scene lookups.
- `anim_tools/__init__.py`: add-on metadata, panel UI and registration.
- Yaw extraction, axis filtering and motion sampling are not part of this model. `transform_utils.py`, `motion_operator.py` and `extract_motion.py` do not implement them: the sampling methods are `pass`, and `MotionExtractionFilter.execute` only prints.
