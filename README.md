# blur-js core, modelled in Dafny

blur-js is a small WebGL engine written in JavaScript. This project models its
core: the vector and matrix library, the game-object tree with its cached
world and view matrices, the meshes and the code that builds them (the OBJ
reader, the shared-mesh merge and the vertex-normal computation), the scene
and the perspective camera. Each part is stated in Dafny and properties of it
are proved.

The model follows the structure of the code:

- `Numbers` models JavaScript numbers as `Real(val) | NaN`. Only the two
  cases the code tests for are kept. It also models the operators the code
  relies on: `%` on degrees (truncating), the `Uint16Array` store (truncate,
  then reduce modulo 2^16), and degrees to radians. `Math.sqrt`, `sin`,
  `cos` and `tan` are a `HostMath` parameter.
- `Vectors` holds `Vector3`. The pure operations (`sum`, `diff`, `scaled`,
  `cross`, `dot`, `magnitude`, `normalized`, `equals`) are functions on a
  value type `Vec`. The in-place ones (`add`, `sub`, `scale`, `normalize`)
  are methods of a `Vector3` class.
- `Matrices` holds `Matrix`. The functions say what each operation leaves in
  a 16-slot row-major matrix. The methods overwrite an `array<real>` in
  place, as the source overwrites a `Float32Array`.
- `Transforms` holds the compositions the game objects use: the world matrix
  (scale, then rotation, then translation), the view matrix (`lookAt` from
  the position towards the forward direction), the forward direction, and
  the degree wrap applied to rotations.
- `LegacyScene` covers `src/gameObject.js`. It has `Transform` with its
  dirty flags, the `GameObject` that owns a transform, the first-generation
  `Mesh` with `createSharedMesh`, and `Uint16Buffer`.
- `ObjLoader` covers `MeshLoader.obj`. It reads lines, splits fields and
  fans faces into triangles, then builds the mesh and its normals.
- `MeshGeometry` holds the normal computation that the OBJ reader and
  `Mesh.recalculateNormals` share. It also holds the index renumbering of
  `createSharedMesh`.
- `Text` models the JavaScript string operations the reader uses.
  `Arguments` models the `instanceof` filter of `add(...children)`.
- `Game` covers `src/game/gameObject.js`: the second-generation
  `GameObject`, `Mesh` and `Material`. `Scenes` is `Scene`, and `Cameras` is
  `Camera`.

## Model

| member | source | states |
|---|---|---|
| Numbers.Trunc | src/gameObject.js:122-124 | the integer part towards zero that JavaScript's `%` uses: between 0 and q for q >= 0, between q and 0 for q < 0, less than one away |
| Numbers.WrapDegreesRange | src/gameObject.js:122-124 | `a % 360` lies strictly between -360 and 360, keeps the sign of `a`, and differs from `a` by a whole number of turns |
| Numbers.WrapDegreesIdempotent | src/gameObject.js:146-150 | an angle already within one turn is unchanged by `% 360`, and wrapping twice is wrapping once |
| Numbers.ToUint16 | src/gameObject.js:180 | a value stored into a `Uint16Array` lands in 0..65535 |
| Numbers.ToUint16Exact | src/gameObject.js:180 | an integer already in 0..65535 is stored unchanged |
| Vectors.RealVec | src/utils/math.js:18-25 | a vector built from three reals has no NaN component (the static constants) |
| Vectors.Sum | src/utils/math.js:133-135 | `sum` has a NaN component exactly when an operand does |
| Vectors.Diff | src/utils/math.js:122-124 | `diff` has a NaN component exactly when an operand does |
| Vectors.Scaled | src/utils/math.js:144-146 | `scaled` has a NaN component exactly when the vector does or the factor is NaN |
| Vectors.Cross | src/utils/math.js:64-70 | `cross` has a NaN component exactly when an operand does |
| Vectors.Dot | src/utils/math.js:80-82 | `dot` is NaN exactly when an operand has a NaN component |
| Vectors.Magnitude | src/utils/math.js:28 | `magnitude` is NaN exactly when the vector has a NaN component |
| Vectors.Normalized | src/utils/math.js:154-159 | `normalized` has a NaN component exactly when the vector does |
| Vectors.Equals | src/utils/math.js:103-107 | `equals` (three `===` tests) holds exactly for equal vectors without NaN, so a NaN vector equals nothing, not even itself |
| Vectors.DiffUndoesSum | src/utils/math.js:122-135 | `diff` undoes `sum` and `sum` undoes `diff` for NaN-free vectors |
| Vectors.CrossIsOrthogonal | src/utils/math.js:64-82 | the cross product is orthogonal to both operands |
| Vectors.DotOfReals | src/utils/math.js:80-82 | on NaN-free vectors `dot` is the real sum of the products of the components |
| Vectors.DotSymmetric | src/utils/math.js:80-82 | `dot(a, b) == dot(b, a)`, NaN included |
| Vectors.LengthSqNonNegative | src/utils/math.js:28 | the squared length under the square root of `magnitude` is a non-negative real |
| Vectors.NormalizedOfZeroLength | src/utils/math.js:154-156 | a vector whose magnitude is zero is returned as it is (as a copy) |
| Vectors.NormalizedOfZero | src/utils/math.js:154-156 | the zero vector normalizes to itself |
| Vectors.NormalizedHasUnitLength | src/utils/math.js:154-159 | with a correct square root, a vector of non-zero magnitude normalizes to squared length 1 |
| Vectors.Vector3.constructor | src/utils/math.js:10-14 | the new vector holds exactly the three given numbers |
| Vectors.Vector3.Add | src/utils/math.js:184-189 | this vector becomes the sum of its old value and the argument's old value, and `this` is returned |
| Vectors.Vector3.Sub | src/utils/math.js:198-203 | this vector becomes its old value minus the argument's old value, and `this` is returned |
| Vectors.Vector3.Scale | src/utils/math.js:212-217 | this vector becomes its old value scaled by `n`, and `this` is returned |
| Vectors.Vector3.Normalize | src/utils/math.js:167-175 | this vector becomes `normalized` of its old value, and is left untouched when its magnitude is zero |
| Vectors.Copy | src/utils/math.js:37-39 | a fresh vector with the same components |
| Vectors.IsNaN | src/utils/math.js:91-94 | a vector passes exactly when it exists and its three components are reals; a missing vector or one with a NaN component is rejected |
| Matrices.Identity | src/utils/math.js:230-237 | the identity is a 16-slot matrix |
| Matrices.MatMul | src/utils/math.js:429-467 | the product of two 4x4 matrices is a 4x4 matrix |
| Matrices.TransformVec | src/utils/math.js:48-54 | `Vector3.transform` of a NaN-free point with a non-zero `w` has no NaN component |
| Matrices.LookAtBasis | src/utils/math.js:294-300 | the three axes `lookAt` derives from NaN-free inputs are NaN-free |
| Matrices.RowTimesIdentity | src/utils/math.js:429-467 | a row times the identity is itself |
| Matrices.MatMulIdentityRight | src/utils/math.js:429-467 | `multiply(a, identity)` leaves `a` as it was |
| Matrices.MatMulIdentityLeft | src/utils/math.js:429-467 | `multiply(identity, a)` gives `a` |
| Matrices.ScaleOfOneIsIdentity | src/utils/math.js:273-282 | `setScaled` by `(1, 1, 1)` gives the identity |
| Matrices.TranslationsCompose | src/utils/math.js:413-419 | the product of two translations is the translation by the sum of the vectors |
| Matrices.TranslationMovesPoints | src/utils/math.js:48-54 | `transform(p, translation(v))` is `p + v` with `w = 1` |
| Matrices.RotatedByZero | src/utils/math.js:341-406 | rotating by `(0, 0, 0)` leaves the matrix unchanged when `sin 0 = 0` and `cos 0 = 1` |
| Matrices.MatMulKeepsLinear | src/utils/math.js:429-467 | the product of two linear matrices (no translation, last column `(0, 0, 0, 1)`) is linear |
| Matrices.RotatedKeepsLinear | src/utils/math.js:341-346 | `rotate` keeps a linear matrix linear |
| Matrices.LinearThenTranslation | src/utils/math.js:413-467 | a linear matrix times `translation(v)` keeps its 3x3 part and takes `v` in slots 12 to 14 |
| Matrices.LinearKeepsW | src/utils/math.js:48-54 | a linear matrix sends a point to `w = 1`, so `transform` divides by one |
| Matrices.LookAtCoordinates | src/utils/math.js:294-306 | the `lookAt` matrix gives each point its coordinates along the three derived axes, measured from the eye |
| Matrices.ViewCoordinates | src/utils/math.js:301-304 | a matrix laid out as `lookAt` lays it out maps `p` to `(x·(p−eye), y·(p−eye), z·(p−eye), 1)` |
| Matrices.AxisCoordinate | src/utils/math.js:301-304 | one column of that layout gives one axis coordinate of `p − eye` |
| Matrices.LookAtSendsEyeToOrigin | src/utils/math.js:294-306 | the `lookAt` matrix maps the eye to the origin |
| Matrices.PerspectiveDepth | src/utils/math.js:327-329 | the depth row computes `far·(near − z)/(near − far)`, which is 0 at `near` and `z` at `far` |
| Matrices.PerspectiveDepthRange | src/utils/math.js:319-331 | the perspective matrix keeps the view depth in `w`, maps the near plane to depth 0 and the far plane to depth `w`, and scales x by `1/(tan(fov/2)·aspect)` and y by `1/tan(fov/2)` |
| Matrices.PerspectiveLayout | src/utils/math.js:319-331 | the slot layout of `perspectiveFovLH`: `m[11] = 1`, `m[15] = 0`, the eleven zero slots, `m[5]·tan(fov/2) = 1` and `m[0]·aspect = m[5]` |
| Matrices.NewIdentity | src/utils/math.js:230-237 | the `identity` getter returns a fresh array holding the identity |
| Matrices.SetIdentity | src/utils/math.js:258-264 | `setIdentity` overwrites all 16 slots with the identity and returns `m` |
| Matrices.SetScaled | src/utils/math.js:273-282 | `setScaled` overwrites `m` with the scale matrix of `v`, whatever it held, and returns `m` |
| Matrices.MultiplyRow | src/utils/math.js:429-467 | one block of `multiply` replaces row `r` of `a` by that row times `b` and leaves the other rows |
| Matrices.RowEntries | src/utils/math.js:430-433 | the four sums of one block of `multiply` are that row of `a` times `b` |
| Matrices.WriteRow | src/utils/math.js:434-437 | the four stores of one block replace row `r` of `a` and leave the other twelve slots |
| Matrices.Multiply | src/utils/math.js:429-467 | `multiply(a, b)` overwrites `a` with the product of its old value and `b`, and returns `a` |
| Matrices.RotateX | src/utils/math.js:356-366 | `rotateX` multiplies `m` on the right by the X rotation of the angle in degrees |
| Matrices.RotateY | src/utils/math.js:376-386 | `rotateY` multiplies `m` on the right by the Y rotation |
| Matrices.RotateZ | src/utils/math.js:396-406 | `rotateZ` multiplies `m` on the right by the Z rotation |
| Matrices.Rotate | src/utils/math.js:341-346 | `rotate` applies X, then Y, then Z rotation in place |
| Matrices.NewTranslation | src/utils/math.js:413-419 | `translation(v)` is a fresh identity with `v` in slots 12 to 14 |
| Matrices.LookAt | src/utils/math.js:294-306 | `lookAt` overwrites `m` with the view matrix of eye, target and up, and returns `m` |
| Matrices.PerspectiveFovLH | src/utils/math.js:319-331 | `perspectiveFovLH` overwrites `m` with the left-handed perspective matrix, and returns `m` |
| Transforms.RotationMatrix | src/gameObject.js:67 | `rotate(identity, r)` is a linear 4x4 matrix |
| Transforms.EulerRotate | src/gameObject.js:110 | turning a NaN-free vector by NaN-free Euler angles gives a NaN-free vector |
| Transforms.ForwardOf | src/gameObject.js:66-68 | the forward direction of NaN-free angles is NaN-free |
| Transforms.WorldMatrixIsAffine | src/gameObject.js:72-80 | the world matrix has last column `(0, 0, 0, 1)` and the position in slots 12 to 14 |
| Transforms.WorldMatrixPlacesOrigin | src/gameObject.js:72-80 | the world matrix sends the local origin to the object's position |
| Transforms.DefaultWorldMatrixIsIdentity | src/gameObject.js:56-62 | with the default scale, rotation and position the world matrix is the identity |
| Transforms.UnrotatedKeepsDirections | src/gameObject.js:66-68 | with rotation zero, directions are unchanged and forward is `(0, 0, 1)` |
| Transforms.ViewMatrixCentersPosition | src/gameObject.js:84-90 | the view matrix sends the object's own position to the origin |
| Transforms.ApplyEulerRotation | src/gameObject.js:110 | `transform(v, rotate(identity, r))` computed step by step equals `EulerRotate` |
| Transforms.WriteWorldMatrix | src/gameObject.js:73-76 | `setScaled`, `rotate` then `multiply` by `translation` leave exactly the world matrix |
| Transforms.WriteViewMatrix | src/gameObject.js:86 | `lookAt` from the position towards position + forward leaves exactly the view matrix |
| Transforms.Wrapped | src/gameObject.js:122-124 | `% 360` on each component keeps NaN components and otherwise lands within one turn |
| Transforms.WrappedKeepsTurn | src/gameObject.js:146-150 | wrapping is the identity on rotations within one turn, and is idempotent |
| LegacyScene.Transform.constructor | src/gameObject.js:56-62 | a transform starts at position zero, rotation zero and scale one, with both matrices computed and both flags cleared |
| LegacyScene.Transform.RefreshBoth | src/gameObject.js:60-61 | the two getter calls at the end of the constructor leave both cached matrices up to date and both flags cleared, with the vectors untouched |
| LegacyScene.Transform.Forward | src/gameObject.js:66-68 | `forward` is `(0, 0, 1)` turned by the rotation |
| LegacyScene.Transform.GetWorldMatrix | src/gameObject.js:72-80 | the returned matrix is the world matrix of the current scale, rotation and position; it is rewritten only when the flag was set |
| LegacyScene.Transform.RefreshWorld | src/gameObject.js:73-78 | the flagged branch rewrites the world matrix, clears its flag and keeps the view flag and the vectors |
| LegacyScene.Transform.GetViewMatrix | src/gameObject.js:84-90 | the returned matrix is the view matrix of the current position and rotation; it is rewritten only when the flag was set |
| LegacyScene.Transform.RefreshView | src/gameObject.js:85-88 | the flagged branch rewrites the view matrix, clears its flag and keeps the world flag and the vectors |
| LegacyScene.Transform.Translate | src/gameObject.js:95-103 | a NaN or missing vector returns `undefined` and changes nothing; otherwise the position becomes old position + vector, both flags are set and `this` is returned |
| LegacyScene.Transform.TranslateLocal | src/gameObject.js:108-115 | as `translate`, with the vector first turned by the rotation |
| LegacyScene.Transform.Rotate | src/gameObject.js:120-128 | on a NaN-free vector the rotation becomes `(old + vector) % 360` per component and both flags are set; NaN changes nothing |
| LegacyScene.Transform.SetPosition | src/gameObject.js:133-141 | on a NaN-free vector the position takes its components and both flags are set; NaN changes nothing |
| LegacyScene.Transform.SetRotation | src/gameObject.js:146-154 | on a NaN-free vector the rotation becomes `vector % 360` per component and both flags are set; NaN changes nothing |
| LegacyScene.Transform.SetScale | src/gameObject.js:159-167 | on a NaN-free vector the scale takes its components and both flags are set; NaN changes nothing |
| LegacyScene.GameObject.constructor | src/gameObject.js:7-17 | a named object with no mesh, no parent, no children and a default transform |
| LegacyScene.GameObject.Forward | src/gameObject.js:22 | the object's forward is its transform's forward |
| LegacyScene.GameObject.SetMesh | src/gameObject.js:25-28 | the mesh is replaced, nothing else changes, and `this` is returned |
| LegacyScene.GameObject.Add | src/gameObject.js:33-38 | the children grow by the arguments that are game objects, in order; nothing else (not even the children's `parent`) changes |
| LegacyScene.Uint16Buffer | src/gameObject.js:180 | `new Uint16Array(xs)` has one entry per element, each the 16-bit conversion of that element |
| LegacyScene.Mesh.constructor | src/gameObject.js:178-183 | the four buffers are fresh copies of the arguments, triangles converted to 16 bits, and the mesh is not bound |
| LegacyScene.Mesh.CreateSharedMesh | src/gameObject.js:195-236 | the shared vertices and normals are all meshes' buffers end to end, and the triangles are mesh 0's followed by each later mesh's renumbered by the running vertex offset |
| LegacyScene.SharedBuffers | src/gameObject.js:200-232 | the three merged buffers, computed in two passes, equal their specifications |
| LegacyScene.BufferLengths | src/gameObject.js:200-205 | the first pass sums the buffer lengths |
| LegacyScene.AppendPart | src/gameObject.js:210-229 | copying one more buffer at the running offset extends the merged prefix by it |
| LegacyScene.FirstMesh | src/gameObject.js:206-216 | the three fresh buffers hold mesh 0's buffers at their start |
| LegacyScene.AppendMesh | src/gameObject.js:218-231 | one pass of the second loop extends the filled prefixes by mesh `i`'s coordinates, normals and renumbered triangles |
| LegacyScene.SetPrefix | src/gameObject.js:220-221 | `set(src, offset)` right after a filled prefix makes the prefix grow by `src` |
| LegacyScene.FirstTriangles | src/gameObject.js:212 | mesh 0's triangles are copied without renumbering |
| LegacyScene.AppendTriangles | src/gameObject.js:223-226 | one later mesh's triangles are written at `tOffset` with the vertex offset added |
| LegacyScene.SetAt | src/gameObject.js:210-221 | `TypedArray.set(src, offset)` writes `src` at `offset` and leaves the rest |
| LegacyScene.RenumberInto | src/gameObject.js:223-226 | the inner loop writes each index plus the offset, stored as 16 bits, after `tOffset` |
| MeshGeometry.Point | src/gameObject.js:286-288 | vertex `i` of a flat buffer is the NaN-free triple at `3i` |
| MeshGeometry.FaceNormalIsCross | src/gameObject.js:292-294 | the face normal is the cross product of edge p2−p1 with edge p3−p1 |
| MeshGeometry.ScatterIsGathered | src/gameObject.js:284-299 | after the scatter loop, a vertex holds the sum over the triangles processed so far of the face normal counted once per corner at that vertex |
| MeshGeometry.ScatterPointStep | src/gameObject.js:296-298 | scattering one more triangle adds its face normal to a vertex once per corner of the triangle at that vertex |
| MeshGeometry.AddAtCorners | src/gameObject.js:296-298 | the three additions at corners `a`, `b`, `c` add the normal to vertex `v` as many times as it is one of them |
| MeshGeometry.UntouchedVertexStaysZero | src/gameObject.js:278 | a vertex no triangle names keeps the zero it was filled with |
| MeshGeometry.RescaleIsNormalized | src/gameObject.js:302-309 | the normalizing loop body computes `Vector3.normalized` of the triple, zero length included |
| MeshGeometry.VertexNormalsSpec | src/gameObject.js:277-309 | each vertex normal is the normalized sum of its adjacent face normals; it is zero when that sum is; it has unit length otherwise |
| MeshGeometry.UntouchedVertexHasZeroNormal | src/gameObject.js:277-309 | a vertex used by no triangle gets the zero normal |
| MeshGeometry.AddToVertex | src/gameObject.js:296-298 | adding a face normal to one vertex changes only its three slots |
| MeshGeometry.ScatterTriangle | src/gameObject.js:285-298 | one iteration of the scatter loop advances the buffer by one triangle |
| MeshGeometry.NormalizeVertex | src/gameObject.js:303-308 | one iteration of the normalizing loop rescales one triple and leaves the rest |
| MeshGeometry.ComputeNormals | src/game/gameObject.js:242-268 | the normals computed into a fresh buffer equal the specification `VertexNormals` |
| MeshGeometry.ScatterFaces | src/game/gameObject.js:244-257 | the scatter loop leaves the accumulated face normals |
| MeshGeometry.ScatterAll | src/game/gameObject.js:246-257 | the scatter loop, run from the zero buffer, leaves the buffer with every triangle scattered |
| MeshGeometry.NormalizeAll | src/game/gameObject.js:259-267 | the normalizing loop normalizes every triple |
| MeshGeometry.NormalizeNext | src/game/gameObject.js:260-266 | one pass at a triple-aligned offset moves the normalised prefix forward by one triple |
| MeshGeometry.NormalizeStep | src/game/gameObject.js:260-266 | the loop invariant advances by one triple |
| MeshGeometry.FlattenLength | src/gameObject.js:200-208 | the merged buffer is as long as the sum of the buffer lengths |
| MeshGeometry.FlattenPlacement | src/gameObject.js:210-221 | element `j` of buffer `i` lands at the sum of the earlier lengths plus `j` |
| MeshGeometry.TotalLengthPrefix | src/gameObject.js:228-230 | the running offsets grow by one buffer length per mesh and never pass the total |
| MeshGeometry.SharedTrianglesLength | src/gameObject.js:204-208 | the merged triangle buffer is as long as the sum of the triangle buffer lengths |
| MeshGeometry.SharedTrianglesPlacement | src/gameObject.js:218-231 | index `j` of mesh `i` lands at its running offset, renumbered by that mesh's vertex offset |
| MeshGeometry.VertexOffsetPrefix | src/gameObject.js:231 | the vertex offset of mesh `i` depends only on the meshes before it |
| MeshGeometry.WholeVertexOffset | src/gameObject.js:217-231 | when every vertex buffer holds whole triples, the offset is the number of vertices before mesh `i` |
| MeshGeometry.ExactRenumbering | src/gameObject.js:195-236 | for whole-triple meshes whose renumbered indices fit in 16 bits, a later mesh's index becomes exactly index + the vertices before it |
| Arguments.Instances | src/gameObject.js:34-35 | the filter keeps at most as many values as it was given |
| Arguments.InstancesMembers | src/gameObject.js:34-35 | an object survives the `instanceof` filter exactly when it was passed as a game object |
| Arguments.InstancesAppend | src/gameObject.js:33-38 | filtering two argument lists one after the other is filtering their concatenation |
| Text.SplitOn | src/gameObject.js:243 | `split` always gives at least one piece |
| Text.JoinSplitOn | src/gameObject.js:243 | joining the pieces of `split` with the separator gives the text back |
| Text.SplitOnPieces | src/gameObject.js:243 | no piece holds the separator, and there is one piece more than there are separators |
| Text.Words | src/gameObject.js:252 | a string that starts with a non-space character starts its first word with it |
| Text.Fields | src/gameObject.js:252 | `trim().split(/\s+/)` always gives at least one field |
| Text.WordsCoverText | src/gameObject.js:252 | the words laid end to end are the string without its white space |
| Text.WordsHaveNoSpace | src/gameObject.js:252 | every word is non-empty and holds no white space |
| Text.FieldsOfBlank | src/gameObject.js:252 | a blank remainder gives the single field `""` |
| ObjLoader.Corners | src/gameObject.js:262-264 | one parsed index per corner |
| ObjLoader.CornerUvs | src/gameObject.js:267-271 | one uv value per corner |
| ObjLoader.FanLayout | src/gameObject.js:269-272 | the fan of `n` steps has `3n` entries, step `i` being corner 0, corner `i+1` and corner `i+2` |
| ObjLoader.FanOfCount | src/gameObject.js:265-272 | a face of `k` corners gives `k − 2` triangles, none below three corners |
| ObjLoader.FanOfTriangle | src/gameObject.js:265-267 | the three-corner branch pushes the same triangle as the fan would |
| ObjLoader.SplitCorners | src/gameObject.js:261 | one slot list per field |
| ObjLoader.FaceIsFan | src/gameObject.js:260-273 | both branches of the face case push the fan of the corner indices and of the corner uvs |
| ObjLoader.FaceLineTriangles | src/gameObject.js:260-273 | a face line appends `k − 2` triangles of corner 0 and two consecutive corners, each index one less than written, with one uv per corner from slot 2, and leaves the coordinates alone |
| ObjLoader.AppendedFan | src/gameObject.js:269-272 | appending a fan keeps the earlier entries in front and puts triangle `i` of the fan (corner 0 and corners `i+1`, `i+2`) right after them |
| ObjLoader.FaceStepAppends | src/gameObject.js:260-273 | a face line leaves coordinates and uv coordinates alone and grows `tris` and `uvs` by the same whole number of triangles |
| ObjLoader.LineStepKeepsShape | src/gameObject.js:247-275 | one line keeps `tris` in whole triangles and `uvs` as long as `tris` |
| ObjLoader.LineStepAppends | src/gameObject.js:247-275 | every line only appends; `tris` and `uvs` grow together by whole triangles; short lines and other kinds change nothing |
| ObjLoader.LineStepGrowth | src/gameObject.js:247-275 | a line adds the same whole number of triangles to `tris` and to `uvs` |
| ObjLoader.ParseShape | src/gameObject.js:247-275 | after all lines, `tris` holds whole triangles and `uvs` is as long as `tris` |
| ObjLoader.PushFace | src/gameObject.js:260-273 | the face case of the loop, run on arrays, gives the specified step |
| ObjLoader.PushFan | src/gameObject.js:269-272 | the fan loop appends exactly the fan of the corner indices and of the corner uvs |
| ObjLoader.ReadLines | src/gameObject.js:243-275 | the line loop, with its `continue` on short lines, leaves exactly the result of folding the lines |
| ObjLoader.Coordinates | src/gameObject.js:179 | NaN-free numbers converted to the reals they hold |
| ObjLoader.Indices | src/gameObject.js:180 | whole-number values converted to the integers they hold |
| ObjLoader.Obj | src/gameObject.js:242-312 | the mesh holds the parsed coordinates, the triangle indices as 16-bit values, the normalized sum of adjacent face normals per vertex, and the per-corner uvs |
| Game.NewMaterial | src/game/gameObject.js:273-287 | a material with the given name whose parameters lie in the MTL ranges (RGB colours in [0, 1], `Ns` in [0, 1000], `d` in [0, 1]), fully opaque, with emissive, optical density and illumination mode unset |
| Game.DefaultMaterialIsDefault | src/game/gameObject.js:289 | `Material.default` is the fresh material named "default", so it is well formed |
| Game.Mesh.constructor | src/game/gameObject.js:227-240 | a named, unbound mesh with no material and all four buffers null |
| Game.Mesh.RecalculateNormals | src/game/gameObject.js:242-268 | the normals become a fresh buffer of the normalized sum of adjacent face normals per vertex; nothing else changes |
| Game.GameObject.constructor | src/game/gameObject.js:6-24 | position zero, rotation zero, scale one, identity matrices with both flags set, no parent or children, and a fresh mesh named `"name"` |
| Game.GameObject.Forward | src/game/gameObject.js:26-28 | `forward` is `(0, 0, 1)` turned by the rotation |
| Game.GameObject.SetMesh | src/game/gameObject.js:41-44 | the mesh is replaced, the tree and flags are untouched, and `this` is returned |
| Game.GameObject.SetMaterial | src/game/gameObject.js:47-50 | the mesh's material is replaced and its buffers are untouched |
| Game.GameObject.Add | src/game/gameObject.js:53-60 | the children grow by the arguments that are game objects, each of them gets this object as parent and is otherwise unchanged (mesh and both flags kept), and `this` is returned |
| Game.GameObject.GetWorldMatrix | src/game/gameObject.js:62-70 | the returned matrix is the world matrix of the current scale, rotation and position; it is rewritten only when the flag was set |
| Game.GameObject.RefreshWorld | src/game/gameObject.js:63-68 | the flagged branch rewrites the world matrix, clears its flag and keeps the view flag, the vectors and the tree |
| Game.GameObject.GetViewMatrix | src/game/gameObject.js:72-78 | the returned matrix is the view matrix of the current position and rotation; it is rewritten only when the flag was set |
| Game.GameObject.RefreshView | src/game/gameObject.js:73-76 | the flagged branch rewrites the view matrix, clears its flag and keeps the world flag, the vectors and the tree |
| Game.GameObject.Translate | src/game/gameObject.js:81-90 | on a NaN-free vector the position becomes old + vector and both flags are set; otherwise nothing changes; `this` is returned either way |
| Game.GameObject.TranslateLocal | src/game/gameObject.js:93-101 | as `translate`, with the vector first turned by the rotation |
| Game.GameObject.Rotate | src/game/gameObject.js:104-113 | on a NaN-free vector the rotation becomes `(old + vector) % 360` per component and both flags are set |
| Game.GameObject.SetPosition | src/game/gameObject.js:116-125 | on a NaN-free vector the position takes its components and both flags are set |
| Game.GameObject.SetPositionComponent | src/game/gameObject.js:133-149 | with both arguments numbers, component 0, 1 or 2 of the position takes the value and both flags are set; any other component or a NaN changes nothing |
| Game.GameObject.SetRotation | src/game/gameObject.js:152-161 | on a NaN-free vector the rotation becomes `vector % 360` per component and both flags are set |
| Game.GameObject.SetRotationComponent | src/game/gameObject.js:169-185 | component 0, 1 or 2 of the rotation takes the value as given, without wrapping; anything else changes nothing |
| Game.GameObject.SetScale | src/game/gameObject.js:188-197 | on a NaN-free vector the scale takes its components and both flags are set |
| Game.GameObject.SetScaleComponent | src/game/gameObject.js:205-221 | component 0, 1 or 2 of the scale takes the value; anything else changes nothing |
| Scenes.NewScene | src/game/scene.js:5-8 | a new unnamed root whose children are the game-object arguments, each with the scene as its parent and its mesh, flags and own children kept; no other field of an argument changes |
| Cameras.Camera.constructor | src/camera.js:6-15 | a camera starts with an identity projection flagged for update, field of view 0.9, near 0.1 and far 20000 |
| Cameras.Camera.GetProjectionMatrix | src/camera.js:20-26 | the first call writes the perspective of the current fields and clears the flag; every later call returns the matrix untouched |
| Cameras.DefaultDepthRange | src/camera.js:12-14 | with the default planes, depth 0.1 maps to 0 and depth 20000 to `w` |

## Left out

- JavaScript numbers are modelled as exact reals or NaN. Floating-point rounding, `Float32Array` rounding, infinities and signed zeros are not modelled, so a division by zero is excluded by a precondition instead of producing `Infinity`.
- `Math.sqrt`, `Math.sin`, `Math.cos` and `Math.tan` are a parameter. Only the facts the proofs need (`sqrt` of a non-negative real squares back to it; `sin 0 = 0`, `cos 0 = 1`) are assumed of them, as preconditions.
- Matrices.TransformVec, Matrices.LookAt, Matrices.PerspectiveFovLH, Matrices.SetScaled, Matrices.Rotate, Matrices.NewTranslation, Matrices.ScaleMatrix, Matrices.Rotated, Matrices.Translation, Matrices.Homogeneous: these take NaN-free vectors, and the first three also need their divisions defined. A `Float32Array` would store the NaN or `Infinity` entries that JavaScript computes otherwise, and an `array<real>` cannot hold them. The restriction costs nothing at the call sites modelled here: the game objects and transforms pass only their own position, rotation and scale, which their `Valid()` keeps NaN-free, and the setters refuse NaN vectors before storing them.
- Aliasing of the vectors and matrices the getters expose is not modelled. Callers that keep and mutate a returned matrix or vector are out of scope. The position, rotation and scale vectors are fixed references, as in the source.
- LegacyScene.Transform.constructor: only the default call `new Transform()` is modelled. Passing shared vectors as arguments is not.
- `Camera extends GameObject` is modelled by composition: the camera holds its game object in `node`. `Scene extends GameObject` is modelled as a function that builds a game object.
- The camera's aspect ratio is read from the window size in the source; here it is a parameter of `GetProjectionMatrix`.
- Cameras.Camera.GetProjectionMatrix: requires the perspective to be defined (non-zero `tan(fov/2)` and aspect, `near != far`) when the flag is set.
- ObjLoader.Obj: requires the parsed file to be loadable (NaN-free coordinates, whole in-range indices). Malformed files, where JavaScript would carry NaN or `undefined` into the buffers, are not modelled.
- The `console.error` for `vt` lines with more than two components, and all other console output, are left out.
- The OBJ reader takes uvs from the third slot of each corner (the normal index in `v/vt/vn`) and pushes one number per corner. The model follows the code as written.
- LegacyScene.Mesh.CreateSharedMesh: requires at least one mesh, because the source reads `meshes[0]` and fails on an empty list.
- Game.GameObject.SetMaterial: requires a mesh. After `setMesh(null)` the source throws a `TypeError` on `this.mesh.material`; that throw is not modelled.
- Game.Mesh.RecalculateNormals: requires non-null buffers, a vertex buffer of whole coordinate triples and indices that name existing vertices; otherwise the source fails, or its normalizing loop reads past the end of the buffer and writes NaN.
- `Mesh.fromFile` (a `fetch` followed by `MeshLoader.obj`), the vertex-array object and GPU binding are left out; they are I/O.
- `Matrix.invert`, `Matrix.zero`, `Matrix.copy`, `toDegrees`, `Vector3.toString` and the other formatting helpers are left out. The objects modelled here do not use them.
- The `set position` accessor of `src/game/gameObject.js` is left out. The class field `position` shadows it, so the code never runs it.
- The getters `position`, `rotation` and `scale` of the first-generation game object are field reads through its transform.
- `Material` is a value. The identity of the shared `Material.default` instance is not modelled.
- `setPositionComponent` and its siblings take JavaScript numbers. Non-number arguments, which `isNaN` would coerce, are not modelled.
- Text.IsSpace lists the white-space characters of JavaScript's `\s`. Unicode normalization is not modelled.
- Matrices.LookAt, Matrices.PerspectiveFovLH: the sixteen stores are made as one simultaneous fill of the array. Their order cannot be observed, since no slot is read after it is written.
- MeshGeometry.ScatterAll: the loop counts triangles, `k < |tris| / 3`, instead of stepping an offset by 3 up to `tris.length`. The two agree because the index buffer holds whole triangles, which the model requires.
- Matrices.LookAtBasis: the model proves where `lookAt` sends points. It does not prove that the three axes are orthonormal, which needs properties of `sqrt` beyond those assumed.
