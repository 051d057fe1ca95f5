# dyn2b spatial-algebra kernels in Dafny

dyn2b is a C library of kernels for articulated-body dynamics. Every kernel fills
a caller-owned flat buffer of doubles at fixed offsets, strides and column-major
indices. This project models those kernels and proves what each one writes and
that it writes nothing else. It also proves the algebra the kernels implement.

The layouts modelled:

- A 3-vector is three consecutive slots. A 3x3 matrix is nine slots in
  column-major order. A batch of vectors or screws places element `i` at
  `o + i * ld`, and a stride of 0 repeats one element across the batch.
- A screw is six slots, `Screw(dir, mom)`, with the direction part at offset 0
  and the moment part at offset 3. A twist is angular-first: `dir` is the
  angular velocity and `mom` the linear velocity. A wrench is linear-first:
  `dir` is the force and `mom` the moment.
- A pose is a rotation block (nine slots) followed by a position (three slots).
- A rigid-body inertia is `I`, `h`, `m` in 13 slots. An articulated-body inertia
  (ABI) tuple is `I`, `H`, `M` in 27 slots. Its dense form is the 6x6
  column-major matrix `[I H; H^T M]`.

The Dafny modules follow the library's files:

- `Buffers` holds strided slots and the "nothing else changes" frame predicates.
- `Arrays` models array.c.
- `Matrices` models matrix.c.
- `Vector3` models vector3.c.
- `Blas` gives the meaning of the BLAS calls the kernels make.
- `Spatial` holds 3-vectors, 3x3 matrices, screws and poses.
- `Screws` models screw.c.
- `Mechanics` models mechanics.c.
- `Joints`, `Articulated`, `ArticulatedTransform` and `Projections` model
  joint.c.

Inputs are `seq<real>` values. That is exact where the C inputs are
`restrict`, which is every kernel except `dyn2b_dot_screw3`. Outputs are
`array<real>`, and every method states its whole new state.

## Model

| member | source | states |
|---|---|---|
| Arrays.CpyArr | src/array.c:5-13 | the first n slots of out equal the input; slots from n on are unchanged (n = 0 writes nothing) |
| Arrays.AddArr | src/array.c:16-26 | out[offset .. offset+n) is the slot-wise sum of in1 and in2; slots before offset and after the run are unchanged |
| Arrays.AddArrI | src/array.c:29-38 | in-place accumulate: out[offset+i] becomes its old value plus in[i]; every other slot is unchanged |
| Arrays.SubArr | src/array.c:41-50 | the first n slots are in1[i] - in2[i]; the rest is unchanged |
| Arrays.SclArr | src/array.c:53-62 | the first n slots are a * in[i]; the rest is unchanged |
| Arrays.InvArr | src/array.c:65-73 | the first n slots are -in[i]; the rest is unchanged |
| Arrays.SubUndoesAdd | src/array.c:16-50 | subtracting b undoes adding b |
| Arrays.NegateInvolutive | src/array.c:65-73 | negating twice gives the input back; scaling by -1 is negation |
| Arrays.SubIsAddNegate | src/array.c:41-50 | a - b is a + (-b), and a - a is all zeros |
| Arrays.ScaleLinear | src/array.c:53-62 | scaling distributes over the sum, and scaling by 1 is a copy |
| Matrices.CpyMat | src/matrix.c:5-18 | dst[od + i*ldd + j] = src[i*lds + j] for i < m, j < n; every slot outside those m rows is unchanged |
| Matrices.MadMat | src/matrix.c:21-41 | out[oo + i*ldo + j] = alpha*in1[i*ld1 + j] + in2[i*ld2 + j] for i < m, j < n; every slot outside those rows is unchanged |
| Matrices.MadRow | src/matrix.c:32-39 | one pass of the outer loop keeps the rows already written and writes row i |
| Matrices.MadZeroIsCopy | src/matrix.c:38 | with alpha = 0 each entry is the in2 entry that a copy writes |
| Matrices.Footprint | src/matrix.c:13-17 | the slots written are exactly the m rows of width n: a slot in such a row is written, and one past the last row, (m-1)*ldd + n onwards, is not |
| Vector3.CrsVec3 | src/vector3.c:6-24 | vector i of out is in1_i x in2_i for i < n, each operand read at its own stride; slots between and after the output vectors are unchanged |
| Vector3.CadVec3 | src/vector3.c:27-48 | vector i of out is in1_i + in2_i x in3_i; slots outside the output vectors are unchanged |
| Vector3.CrsEntries | src/vector3.c:20-22 | the three slot formulas are the cross product |
| Vector3.CadEntries | src/vector3.c:44-46 | the three slot formulas are in1 + in2 x in3 |
| Vector3.Broadcast | src/vector3.c:16-17 | with stride 0 every batch element is the vector at the offset |
| Vector3.SkwVec3 | src/vector3.c:51-59 | the nine slots, read column-major, are the skew matrix of the input; nothing else changes |
| Spatial.SkewApply | src/vector3.c:56-58 | the skew matrix of a applied to b is a x b |
| Spatial.SkewAntisymmetric | src/vector3.c:56-58 | the skew matrix has a zero diagonal, S(r,c) = -S(c,r), and its transpose is its negation |
| Spatial.CrossSelf | src/vector3.c:20-22 | a x a is zero |
| Spatial.CrossAntiCommutes | src/vector3.c:20-22 | a x b = -(b x a) |
| Spatial.ApplyMul | src/screw.c:22-33 | applying a product of matrices is applying each in turn |
| Spatial.DotPreserved | src/screw.c:140-156 | a rotation with R R^T = I preserves inner products |
| Blas.Gemm | src/joint.c:419-436 | the column-major multiply-add C = alpha op(A) op(B) + beta C, for every entry of the m x n block; nothing else in C changes |
| Blas.Axpy | src/mechanics.c:57-59 | y[oy+p] becomes alpha*x[ox+p] + y[oy+p] for p < n; nothing else changes |
| Blas.Copy | src/screw.c:28-29 | the n slots from oy are the n slots of x from ox; nothing else changes |
| Blas.Gemm33 | src/joint.c:342-349 | a 3x3 multiply-add stores alpha A B + beta C0 in the block |
| Blas.Product3Apply | src/screw.c:140-156 | a column of a 3x3 product is the block applied to the column |
| Blas.SymUpperBlock | src/joint.c:1061-1065 | a block read through its upper triangle is symmetric, and equals the block when that is symmetric |
| Blas.Combine33 | src/joint.c:394-403 | alpha/beta = 1/0 stores the product, 1/1 adds it, -1/1 subtracts it |
| Screws.CmpPose3 | src/screw.c:12-34 | the output pose is (Rp Rd, rp + Rp rd); nothing past the pose changes |
| Screws.DotScrew3 | src/screw.c:37-63 | out[i + j*m] pairs dual screw i with screw j: dual.dir . s.mom + dual.mom . s.dir, for m, n >= 1 and inputs holding m and n screws; nothing else changes |
| Screws.CrsScrew3 | src/screw.c:66-92 | the output is the screw cross product: dir = d1 x d2, mom = d1 x m2 + m1 x d2 |
| Screws.CadScrew3 | src/screw.c:95-125 | the output is s1 plus the screw cross product of s2 and s3 |
| Screws.TfDistScrew3 | src/screw.c:128-157 | each of the n screws becomes (R^T dir, R^T (mom + dir x r)); nothing past them changes |
| Screws.TfProxScrew3 | src/screw.c:160-187 | each of the n screws becomes (R dir, r x (R dir) + R mom); nothing past them changes |
| Screws.TfDistColumn | src/screw.c:140-156 | the two staged multiplies of tf_dist leave screw i transformed |
| Screws.TfProxColumn | src/screw.c:172-186 | the multiply, cross product and accumulating multiply of tf_prox leave screw i transformed |
| Screws.TfProxUndoesTfDist | src/screw.c:128-187 | for an orthonormal rotation the proximal transform undoes the distal one |
| Screws.TfDistUndoesTfProx | src/screw.c:128-187 | for an orthonormal rotation the distal transform undoes the proximal one |
| Screws.TfIdentity | test/screw_test.c:169-171 | both transforms by the identity pose leave a screw unchanged |
| Screws.TfDistPureTranslation | src/screw.c:140-156 | with R = Id the direction is unchanged and the moment gains dir x r |
| Screws.PairingFrameInvariant | src/screw.c:37-63 | transforming a wrench and a twist distally keeps their pairing (power) |
| Screws.PairingFrameInvariantProx | src/screw.c:37-63 | the same for the proximal transform |
| Screws.ScrewCrossProperties | test/screw_test.c:98-104 | s x s is the zero screw, and the screw cross product is anti-commutative |
| Screws.CrossAddIsPlusCross | src/screw.c:107-124 | cross-add equals s1 plus the cross product of s2 and s3 |
| Screws.ComposeIdentity | test/screw_test.c:43-55 | composing with the identity pose on either side returns the other pose |
| Screws.ComposeAssoc | src/screw.c:12-34 | pose composition is associative |
| Screws.ComposeOrthonormal | src/screw.c:22-25 | the composition of two orthonormal rotations is orthonormal |
| Mechanics.TfDistAcc3 | src/mechanics.c:12-29 | the output is the distally transformed acceleration plus xd_abs x xd_rel; nothing past it changes |
| Mechanics.TfDistAccRest | src/mechanics.c:25-28 | with zero relative velocity the acceleration is only transformed; with the identity pose it is unchanged |
| Mechanics.AccTestVector | test/mechanics_test.c:11-38 | the acceleration test case yields the expected screw |
| Mechanics.RbiToWrench3 | src/mechanics.c:32-60 | the wrench is (m v + w x h, I w + h x v); prior contents of w do not matter; nothing past it changes |
| Mechanics.MomentPart | src/mechanics.c:41-49 | the moment half becomes I w + h x v, written by the cross product and then accumulated |
| Mechanics.AddInertiaTimesAngular | src/mechanics.c:46-49 | the accumulating matrix-vector product adds I w to the moment half |
| Mechanics.ForcePart | src/mechanics.c:51-59 | the force half becomes m v + w x h; the moment half is untouched |
| Mechanics.ForceOfWrench | src/mechanics.c:57-59 | the accumulated force slots are the force of the rigid-body wrench |
| Mechanics.NrtWrench3 | src/mechanics.c:63-75 | the output is xd crossed with the wrench of the inertia at xd |
| Mechanics.RbiWrenchAdditive | src/mechanics.c:42-59 | the wrench of a sum of twists is the sum of the wrenches |
| Mechanics.RbiWrenchHomogeneous | src/mechanics.c:42-59 | scaling the twist scales the wrench, and a zero twist gives a zero wrench |
| Mechanics.NrtWrenchQuadratic | src/mechanics.c:72-74 | scaling the velocity by k scales the bias wrench by k squared |
| Mechanics.WrenchTestVectors | test/mechanics_test.c:61-64 | the test inertia and twist give [4,12,8,24,41,41] and [-20,4,4,-69,27,13] |
| Joints.RevToPose3 | src/joint.c:21-72 | the pose is a rotation by (c, s) about axis k with zero translation; nothing past it changes |
| Joints.TransToPose3 | src/joint.c:75-117 | the pose is the identity rotation with jnt at slot 9 + k and zeros elsewhere in the translation |
| Joints.RevRotationOrthonormal | src/joint.c:28-69 | the rotation block is orthonormal whenever c^2 + s^2 = 1 |
| Joints.RevRotationAxis | src/joint.c:28-69 | the rotation fixes its axis, angle 0 (c = 1, s = 0) is the identity, and its transpose is the rotation by -s |
| Joints.RevRotationCompose | src/joint.c:28-69 | two rotations about one axis compose by the angle-sum formulas |
| Joints.TransPoseCompose | src/joint.c:75-117 | two translations along one axis compose to the translation by the sum |
| Joints.ToTwist3 | src/joint.c:120-195 | jnt lands in exactly one slot (revolute k, prismatic 3 + k) and every other twist slot is 0 |
| Joints.FromWrench3 | src/joint.c:198-303 | jnt[i] is the pairing of wrench i with the joint's unit twist, for i < n; nothing past n changes |
| Joints.JointForceSlot | src/joint.c:207-302 | that pairing reads slot 3 + k (the moment) for revolute and slot k (the force) for prismatic |
| Joints.JointPower | src/joint.c:120-303 | the power of a wrench on a joint twist of speed qd is qd times the joint force |
| Joints.AxisInvariant | src/joint.c:21-195 | a joint's own pose leaves its unit twist unchanged under the proximal transform |
| Joints.RevAxisFixed | src/joint.c:21-72 | a rotation fixing the twist's axis with zero translation leaves a pure rotation twist unchanged |
| Joints.TransAxisFixed | src/joint.c:75-117 | a pure translation leaves a pure translation twist unchanged |
| Articulated.ToAbi3 | src/joint.c:306-323 | the tuple is I copied, H = skew(h) and M = m Id; nothing past it changes |
| Articulated.AbiOfBlocks | src/joint.c:313-322 | the three written blocks form the tuple of the rigid body |
| Articulated.AbiOfRbiWrench | src/joint.c:306-323 | the tuple of a rigid body exerts the same wrench as the rigid body |
| Articulated.AbiOfRbiSymmetric | src/joint.c:306-323 | the mass block is symmetric; the tuple is symmetric exactly when I is |
| Articulated.AbiToWrench3 | src/joint.c:407-437 | wrench j is (M v + H^T w, I w + H v) for twist j = (w, v), j < n; nothing past the n wrenches changes |
| Articulated.AbiWrenchColumn | src/joint.c:418-436 | the four staged multiplies leave wrench j as the tuple's wrench |
| Articulated.AbiMomentColumn | src/joint.c:418-426 | the first two multiplies leave the moment I w + H v |
| Articulated.AbiForceColumn | src/joint.c:428-436 | the last two multiplies leave the force M v + H^T w |
| Articulated.AbiWrenchIsDense | src/joint.c:407-437 | the wrench is the dense 6x6 matrix of the tuple applied to the twist; row r < 3 gives moment component r and row r + 3 force component r |
| Articulated.AbiWrenchLinear | src/joint.c:418-436 | the wrench is additive and homogeneous in the twist |
| Articulated.AbiWrenchReciprocal | src/joint.c:418-436 | for a symmetric tuple the pairing of one twist's wrench with another twist is symmetric |
| Articulated.ToMatAbi3 | src/joint.c:1000-1019 | the 36 slots are [I H; H^T M] column-major; nothing past them changes |
| Articulated.ToTupAbi3 | src/joint.c:1022-1039 | the tuple is I from the upper-left block, H from the upper-right, M from the lower-right; nothing past it changes |
| Articulated.TupOfMatOf | test/joint_test.c:798-843 | converting to the matrix and back gives the tuple exactly |
| Articulated.MatOfSymmetric | src/joint.c:1007-1018 | the dense matrix is symmetric exactly when I and M are |
| Articulated.MatOfTupOf | src/joint.c:1000-1039 | converting a matrix to the tuple and back gives it exactly when its lower-left block mirrors its upper-right |
| Articulated.SymmetricRoundTrip | test/joint_test.c:798-843 | a symmetric 6x6 matrix survives the round trip through the tuple |
| Articulated.TupOfEntries | src/joint.c:1022-1039 | every entry of the tuple read back as a 6x6 is the matrix entry, the lower-left mirrored from the upper-right |
| Articulated.MatOfEntry | src/joint.c:1007-1018 | entry (r, c) of the dense matrix is the block entry of [I H; H^T M] |
| ArticulatedTransform.TfProxAbi3 | src/joint.c:326-404 | the blocks are M' = R M R^T, H' = R H R^T + r x M', I' = R I R^T + [r](R H R^T)^T - H'[r]; nothing past the tuple changes |
| ArticulatedTransform.RotateBlock | src/joint.c:342-349 | two multiplies leave R X R^T in the block |
| ArticulatedTransform.Product | src/joint.c:359-366 | one multiply leaves the product of two blocks |
| ArticulatedTransform.InertiaBlock | src/joint.c:383-403 | the three staged multiplies leave I' in the first block |
| ArticulatedTransform.CrossAddBlock | src/joint.c:369-373 | the batched cross-add with a broadcast position leaves R H R^T + [r] M' in the H block |
| ArticulatedTransform.TfProxAbiCovariant | src/joint.c:326-404 | the transformed inertia applied to the transformed twist is the transformed wrench (orthonormal R, symmetric M) |
| ArticulatedTransform.TfProxAbiForce | src/joint.c:338-373 | the force part of that covariance |
| ArticulatedTransform.TfProxAbiMoment | src/joint.c:376-403 | the moment part of that covariance |
| ArticulatedTransform.TfProxAbiSymmetric | src/joint.c:376-403 | the transform keeps I and M symmetric |
| ArticulatedTransform.TfProxAbiIdentity | src/joint.c:326-404 | the identity pose leaves the tuple unchanged |
| ArticulatedTransform.RotatedApply | src/joint.c:338-349 | the rotated block acts on rotated vectors as the block acts on the originals |
| ArticulatedTransform.RotatedTranspose | src/joint.c:392-397 | the transpose of R X R^T is R X^T R^T |
| ArticulatedTransform.CrossAddColumns | src/joint.c:369-373 | adding r x each column of M' is adding [r] M' |
| Projections.RevProjAbi3 | src/joint.c:440-566 | the tuple is the rank-one update across revolute joint k, D = d + I(k,k) != 0; for a symmetric input it is the generic M - M S D^-1 S^T M with S = e_k; nothing past the tuple changes |
| Projections.TransProjAbi3 | src/joint.c:569-695 | the same for prismatic joint k with D = d + M(k,k) |
| Projections.RevCell | src/joint.c:452-479 | each of the three slots the loop writes at (r, c) is X(r,c) - a(r) b(c) / D, read from the revolute pivot row and column |
| Projections.TransCell | src/joint.c:581-608 | the same with the prismatic pivot row and column |
| Projections.ProjWrench3 | src/joint.c:698-997 | each of the n wrenches is f - M S D^-1 S^T f, each column on its own; nothing past the n wrenches changes (n = 0 writes nothing) |
| Projections.WrenchCellValue | src/joint.c:723-743 | slot i of the projected wrench j is f_in - f_k col(i) / D, with f_k the wrench's axis component |
| Projections.JointPivotIsPivot | src/joint.c:1056-1073 | the specialised pivot d + I(k,k) or d + M(k,k) is the generic D = d + S^T M S with S = e_k |
| Projections.JointProjAbiIsGeneric | test/joint_test.c:945-962 | the specialised ABI projection equals the generic DOF = 1 formula for a symmetric inertia |
| Projections.JointProjWrenchIsGeneric | test/joint_test.c:998-1001 | the specialised wrench projection equals the generic DOF = 1 formula |
| Projections.JointProjAbiSymmetric | src/joint.c:452-479 | the specialised projection keeps I and M symmetric |
| Projections.ProjectAbiSymmetric | src/joint.c:1151-1180 | the generic projection is symmetric |
| Projections.ProjectAbiAlongJoint | src/joint.c:1098-1148 | the projected inertia maps the joint twist to d / D times what the input inertia does |
| Projections.ProjectionsAgree | src/joint.c:1151-1254 | the projected inertia applied to a twist is the projected wrench of the input inertia's wrench |
| Projections.ProjectWrenchJointForce | src/joint.c:1183-1254 | the projected wrench's joint force is d / D times the input's |
| Projections.ProjectWrenchAdditive | src/joint.c:1183-1254 | the projected wrench is additive in f |
| Projections.ProjectWrenchHomogeneous | src/joint.c:1183-1254 | the projected wrench is homogeneous in f |
| Projections.ProjectWrenchIdempotent | src/joint.c:1183-1254 | with d = 0 projecting twice is projecting once |
| Projections.RankOneWrench | src/joint.c:452-479 | the rank-one updated inertia applied to a twist is the wrench minus the rank-one correction |
| Projections.PartInv | src/joint.c:1075-1076 | a share p q / D equals p q times the scalar reciprocal 1 / D |
| Projections.UpperSymOfSymmetric | src/joint.c:1061-1065 | reading a symmetric block through its upper triangle changes nothing |

## Left out

- The LAPACK factorise-and-invert of `dyn2b_jnt_inv_abi3` (src/joint.c:1085-1093)
  is foreign numerical code, so the DOF > 1 path of the generic `jnt_*` kernels
  is not modelled.
- The generic `dyn2b_jnt_inv_abi3`, `dyn2b_jnt_to_proj3`,
  `dyn2b_jnt_proj_abi3` and `dyn2b_jnt_proj_wrench3` appear only as
  specification functions for DOF = 1: `Pivot`, `ProjectAbi` and
  `ProjectWrench`. The specialised kernels are proved equal to them.
  Their BLAS call sequence on stack buffers is not modelled step by step.
- `dyn2b_jnt_proj_wrench3` passes `n` as the leading dimension of `d_inv`
  (src/joint.c:1228). For DOF = 1 only entry 0 is read, so the reference
  function does not depend on it.
- `dyn2b_jnt_proj_wrench3` asserts `dof >= 0` where its siblings assert `dof >= 1`
  (src/joint.c:1193). The reference function is for DOF = 1 only.
- BLAS (`cblas_dgemm`, `dgemv`, `dsymm`, `daxpy`) and `memcpy` are foreign
  code. They are modelled by their meaning, `C = alpha op(A) op(B) + beta C`,
  in `Blas.Gemm`, `Blas.Axpy` and `Blas.Copy`, not by their internals.
- `cos` and `sin` in the revolute `*_to_pose3` kernels are parameters `c` and
  `s`. Orthonormality is proved under `c^2 + s^2 = 1`.
- Arithmetic is over `real`. IEEE-754 rounding and the 1e-4 tolerance of the
  tests are not modelled, and no bit-exact agreement with `double` is claimed.
- `Projections.Part` computes `p * q / D` as the kernels do, multiplying
  before dividing. The generic code's multiplication by `1 / D` agrees with it
  only over the reals (`Projections.PartInv`).
- Screws.DotScrew3: the model assumes that `out` does not overlap `s_dual`
  or `s`. In C the three pointers are not `restrict` (src/screw.c:37-42). An
  overlapping `out` would be overwritten by the first multiply (beta = 0)
  while the second multiply (beta = 1) still reads it. Inputs are values
  here, so that aliasing is not modelled.
- Null-pointer `assert`s become length preconditions on the buffers.
  `n >= 0` is the type `nat`.
- The six revolute and six prismatic variants of each joint kernel differ only
  in the axis constant. Each family is one member taking the axis `k` (0, 1, 2).
- Kernels that call a batched helper for a single element (`n = 1`) may use
  any stride for it. The model passes the screw size where the source passes 1.
- `tf_prox_abi3`, `crs_screw3` and `cad_screw3` stage their results through
  stack temporaries. The model allocates fresh arrays for them and states only
  the final contents of the caller's buffer.
- The test harness, documentation configuration and declaration-only headers
  are not part of this model. Their offset constants are used as plain numbers.
