/** The transform algebra of anim_tools/transform_utils.py: a motion is one
    (location, rotation) sample per frame, and `calcRelativeMotion` re-expresses
    a child motion in the frame that moves with a root motion. */
module TransformUtils {
  import opened Quaternions

  /** One sampled frame, the source's `(loc: Vector, rot: Quaternion)` tuple. */
  datatype Transform = Transform(loc: Vec3, rot: Quat)

  /** One transform per frame, in frame order. */
  type Motion = seq<Transform>

  /** Every frame of `m` carries a unit rotation. */
  predicate UnitRotations(m: Motion)
  {
    forall i :: 0 <= i < |m| ==> IsUnit(m[i].rot)
  }

  // ---------------------------------------------------------------------------
  // calcRelativeMotion
  // ---------------------------------------------------------------------------

  /** The loop body of `calcRelativeMotion` for one frame: the root rotation is
      only conjugated (never normalised), the location difference is rotated by
      that conjugate, and the child rotation is the LEFT factor of the product.
      The relative rotation's squared norm is the product of the two input
      norms, so unit inputs give a unit relative rotation. */
  function RelativeFrame(root: Transform, child: Transform): (r: Transform)
    ensures NormSq(r.rot) == NormSq(child.rot) * NormSq(root.rot)
  {
    var invRootRot := Conj(root.rot);
    NormSqMul(child.rot, invRootRot);
    Transform(Rotate(Sub(child.loc, root.loc), invRootRot), Mul(child.rot, invRootRot))
  }

  /** `calcRelativeMotion(rootMotion, childMotion)`: empty when the two motions
      differ in length, otherwise one relative frame per input frame, in order. */
  function RelativeMotion(root: Motion, child: Motion): (r: Motion)
    ensures |root| != |child| ==> r == []
    ensures |root| == |child| ==> |r| == |root|
    ensures |root| == |child| ==>
              forall i :: 0 <= i < |r| ==> r[i] == RelativeFrame(root[i], child[i])
    ensures r == [] <==> |root| != |child| || |root| == 0
    decreases |root|
  {
    if |root| != |child| || |root| == 0 then []
    else [RelativeFrame(root[0], child[0])] + RelativeMotion(root[1..], child[1..])
  }

  /** `calcRelativeMotion` as the source writes it: a length check, then a loop
      that appends one relative frame per frame index. */
  method CalcRelativeMotion(rootMotion: Motion, childMotion: Motion) returns (result: Motion)
    ensures |rootMotion| != |childMotion| ==> result == []
    ensures result == RelativeMotion(rootMotion, childMotion)
  {
    result := [];
    var framesCount := |rootMotion|;
    if framesCount != |childMotion| {
      // The source reports this through an `op` that its module never defines,
      // so at run time the report itself would fail; the documented outcome,
      // an empty motion, is what is modelled.
      return;
    }
    var frame := 0;
    while frame < framesCount
      invariant 0 <= frame <= framesCount
      invariant |result| == frame
      invariant forall i :: 0 <= i < frame ==>
                  result[i] == RelativeFrame(rootMotion[i], childMotion[i])
    {
      result := result + [RelativeFrame(rootMotion[frame], childMotion[frame])];
      frame := frame + 1;
    }
  }

  // ---------------------------------------------------------------------------
  // Composition: the inverse of taking a motion relative to a root
  // ---------------------------------------------------------------------------

  /** Puts a relative frame back on top of its root: the location is rotated
      by the root rotation and offset by the root location, and the rotation
      is multiplied by the root rotation on the right, mirroring the order of
      the relative product. */
  function ComposeFrame(root: Transform, rel: Transform): Transform
  {
    Transform(Add(root.loc, Rotate(rel.loc, root.rot)), Mul(rel.rot, root.rot))
  }

  /** Composes a relative motion frame by frame onto a root motion of the same length. */
  function ComposeMotion(root: Motion, rel: Motion): (r: Motion)
    requires |root| == |rel|
    ensures |r| == |root|
    ensures forall i :: 0 <= i < |r| ==> r[i] == ComposeFrame(root[i], rel[i])
  {
    seq(|root|, i requires 0 <= i < |root| => ComposeFrame(root[i], rel[i]))
  }

  /** Composing the relative frame back onto a unit-rotation root recovers the child. */
  lemma ComposeRelativeFrame(root: Transform, child: Transform)
    requires IsUnit(root.rot)
    ensures ComposeFrame(root, RelativeFrame(root, child)) == child
  {
    var inv := Conj(root.rot);
    var d := Sub(child.loc, root.loc);
    ConjRotate(d, root.rot);
    MulAssoc(child.rot, inv, root.rot);
    MulConj(root.rot);
    assert Scalar(NormSq(root.rot)) == Identity;
  }

  /** Taking a composed frame relative to its unit-rotation root recovers the relative frame. */
  lemma RelativeComposeFrame(root: Transform, rel: Transform)
    requires IsUnit(root.rot)
    ensures RelativeFrame(root, ComposeFrame(root, rel)) == rel
  {
    var u := Rotate(rel.loc, root.rot);
    assert Sub(Add(root.loc, u), root.loc) == u;
    RotateConj(rel.loc, root.rot);
    MulAssoc(rel.rot, root.rot, Conj(root.rot));
    MulConj(root.rot);
    assert Scalar(NormSq(root.rot)) == Identity;
  }

  /** Round trip: composing `RelativeMotion(root, child)` back onto `root`
      gives `child` again, frame by frame, so no information is lost. */
  lemma ComposeRelativeMotion(root: Motion, child: Motion)
    requires |root| == |child|
    requires UnitRotations(root)
    ensures ComposeMotion(root, RelativeMotion(root, child)) == child
  {
    var r := ComposeMotion(root, RelativeMotion(root, child));
    forall i | 0 <= i < |child|
      ensures r[i] == child[i]
    {
      ComposeRelativeFrame(root[i], child[i]);
    }
  }

  /** The other direction: every relative motion is what `RelativeMotion`
      returns for the motion it composes to. */
  lemma RelativeComposeMotion(root: Motion, rel: Motion)
    requires |root| == |rel|
    requires UnitRotations(root)
    ensures RelativeMotion(root, ComposeMotion(root, rel)) == rel
  {
    var r := RelativeMotion(root, ComposeMotion(root, rel));
    forall i | 0 <= i < |rel|
      ensures r[i] == rel[i]
    {
      RelativeComposeFrame(root[i], rel[i]);
    }
  }

  // ---------------------------------------------------------------------------
  // Properties of the relative motion
  // ---------------------------------------------------------------------------

  /** A motion taken relative to itself has zero translation in every frame and
      rotation q·q̄ = |q|², which is the identity whenever q is a unit quaternion. */
  lemma SelfRelativeMotion(m: Motion)
    ensures |RelativeMotion(m, m)| == |m|
    ensures forall i :: 0 <= i < |m| ==> RelativeMotion(m, m)[i].loc == Zero
    ensures forall i :: 0 <= i < |m| ==>
              RelativeMotion(m, m)[i].rot == Scalar(NormSq(m[i].rot))
    ensures forall i :: 0 <= i < |m| && IsUnit(m[i].rot) ==>
              RelativeMotion(m, m)[i].rot == Identity
  {
    forall i | 0 <= i < |m|
      ensures RelativeMotion(m, m)[i].rot == Scalar(NormSq(m[i].rot))
    {
      MulConj(m[i].rot);
    }
  }

  /** A child at the root's location always has zero relative translation;
      for a unit root rotation that is also the only way to get it. */
  lemma RelativeTranslationZero(root: Transform, child: Transform)
    ensures child.loc == root.loc ==> RelativeFrame(root, child).loc == Zero
    ensures IsUnit(root.rot) && RelativeFrame(root, child).loc == Zero ==> child.loc == root.loc
  {
    if IsUnit(root.rot) && RelativeFrame(root, child).loc == Zero {
      ComposeRelativeFrame(root, child);
      assert Rotate(Zero, root.rot) == Zero;
    }
  }

  /** Frames are independent: the relative motion of two concatenations is the
      concatenation of the relative motions of the parts. */
  lemma RelativeMotionAppend(root1: Motion, child1: Motion, root2: Motion, child2: Motion)
    requires |root1| == |child1| && |root2| == |child2|
    ensures RelativeMotion(root1 + root2, child1 + child2)
         == RelativeMotion(root1, child1) + RelativeMotion(root2, child2)
  {
    var whole := RelativeMotion(root1 + root2, child1 + child2);
    var parts := RelativeMotion(root1, child1) + RelativeMotion(root2, child2);
    forall i | 0 <= i < |whole|
      ensures whole[i] == parts[i]
    {
      if i < |root1| {
        assert (root1 + root2)[i] == root1[i] && (child1 + child2)[i] == child1[i];
      } else {
        assert (root1 + root2)[i] == root2[i - |root1|];
        assert (child1 + child2)[i] == child2[i - |root1|];
      }
    }
  }

  /** The child is the left factor of the relative rotation. Under the
      parent·child convention the world rotation of a relative frame is
      rootRot·relRot; for a unit root this gives the child rotation back
      exactly when the root and child rotations commute. */
  lemma ParentChildRotation(root: Transform, child: Transform)
    requires IsUnit(root.rot)
    ensures Mul(root.rot, RelativeFrame(root, child).rot) == child.rot
        <==> Mul(root.rot, child.rot) == Mul(child.rot, root.rot)
  {
    var q := root.rot;
    var c := child.rot;
    var qi := Conj(q);
    MulConj(q);
    assert Scalar(NormSq(q)) == Identity;
    // q·(c·q̄) == (q·c)·q̄, and multiplying it by q on the right gives q·c.
    MulAssoc(q, c, qi);
    MulAssoc(Mul(q, c), qi, q);
    if Mul(q, Mul(c, qi)) == c {
      assert Mul(c, q) == Mul(q, c);
    }
    if Mul(q, c) == Mul(c, q) {
      MulAssoc(c, q, qi);
      assert Mul(q, Mul(c, qi)) == c;
    }
  }

  /** A pair that does not commute: with the root rotated 120° about (1, 1, 1)
      and the child 180° about x, composing the root on the right gives the
      child back, but composing it on the left gives a 180° turn about y. */
  lemma RotationOrderMatters(root: Transform, child: Transform)
    requires root.rot == Quat(0.5, 0.5, 0.5, 0.5) && child.rot == Quat(0.0, 1.0, 0.0, 0.0)
    ensures RelativeFrame(root, child).rot == Quat(0.5, 0.5, 0.5, -0.5)
    ensures Mul(RelativeFrame(root, child).rot, root.rot) == child.rot
    ensures Mul(root.rot, RelativeFrame(root, child).rot) == Quat(0.0, 0.0, 1.0, 0.0)
    ensures Mul(root.rot, RelativeFrame(root, child).rot) != child.rot
  {
    ExampleRelativeFrame(root, child);
    ExampleProducts(root.rot, child.rot, RelativeFrame(root, child).rot);
  }

  // The example is split into the four small lemmas below only to keep the
  // solver's work down: stated in one lemma, the literal products unfold
  // `RelativeFrame` and `Rotate` and exhaust the resource limit.

  /** The relative rotation of the example, child·root̄, as `RelativeFrame` computes it. */
  lemma ExampleRelativeFrame(root: Transform, child: Transform)
    requires root.rot == Quat(0.5, 0.5, 0.5, 0.5) && child.rot == Quat(0.0, 1.0, 0.0, 0.0)
    ensures RelativeFrame(root, child).rot == Quat(0.5, 0.5, 0.5, -0.5)
  {
    ExampleRelativeRotation();
  }

  /** The example's relative rotation composed with the root on either side. */
  lemma ExampleProducts(r: Quat, c: Quat, rel: Quat)
    requires r == Quat(0.5, 0.5, 0.5, 0.5) && c == Quat(0.0, 1.0, 0.0, 0.0)
    requires rel == Quat(0.5, 0.5, 0.5, -0.5)
    ensures Mul(rel, r) == c
    ensures Mul(r, rel) == Quat(0.0, 0.0, 1.0, 0.0)
  {
    ExampleCompositions();
  }

  /** The example's relative rotation on the bare quaternions. */
  lemma ExampleRelativeRotation()
    ensures Mul(Quat(0.0, 1.0, 0.0, 0.0), Conj(Quat(0.5, 0.5, 0.5, 0.5))) == Quat(0.5, 0.5, 0.5, -0.5)
  {
  }

  /** The example's compositions on the bare quaternions. */
  lemma ExampleCompositions()
    ensures Mul(Quat(0.5, 0.5, 0.5, -0.5), Quat(0.5, 0.5, 0.5, 0.5)) == Quat(0.0, 1.0, 0.0, 0.0)
    ensures Mul(Quat(0.5, 0.5, 0.5, 0.5), Quat(0.5, 0.5, 0.5, -0.5)) == Quat(0.0, 0.0, 1.0, 0.0)
  {
  }
}
