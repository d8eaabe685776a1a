# Astroidal torus meshes and their matrix and WebGL helpers

This project models the mesh generators of a small WebGL viewer of the astroidal torus. It also models the matrix and integer helpers around them, and proves properties of the model.

The generators come in three variants:

- **Clamped grid** (`ClampedTorus`, CGW/src/astroidal_torus.js):
  - clamps the resolution to at least 24 x 24;
  - lays out (Nu+1) x (Nv+1) vertices row by row, duplicating the seam;
  - takes each normal from central differences at periodically wrapped neighbour parameters;
  - emits two triangles per quad;
  - derives tangents in two passes: it accumulates per-triangle tangents into `tanAcc`, then orthogonalises each against its normal (or falls back to a fixed axis) and overwrites the placeholder tangents.
- **Wrapped grid** (`WrappedTorus`, PA2/src/astroidal_torus.js):
  - lays out Nu x Nv vertices into a preallocated Float32Array;
  - indexes quads modulo the grid through `vid`, storing them into a Uint16Array;
  - accumulates face normals in place, then normalises each slot in place, dividing by `hypot || 1`.
- **Iso-curves** (`IsoCurves`, PA1/src/astroidal_torus.js): Nu u-curves and Nv v-curves, sampled with both endpoints included.

The other modules:

- `Mat4` covers the column-major helpers of CGW/src/mat4.js and PA1/src/mat4.js. PA1's file has the same identity, multiply, rotations and perspective as CGW's, plus `scale`, so one module models both.
- `GlUtil` covers `isPowerOf2`, the texture decision of `loadTexture2D` and `resizeToDisplaySize` from PA3/src/gl.js.
- `Surface`, `VecMath`, `JsNumber`, `Packed` and `Layout` hold what the generators share:
  - the parameter record and its defaults;
  - the vector helpers;
  - JavaScript's number conversions (`x | 0`, `x % 1`, the Uint16Array store);
  - flat vertex buffers;
  - sequences built push by push.

Modelling choices:

- Numbers are exact reals. There is no float32 or float64 rounding.
- The surface evaluator `XYZ(u, v)` is a parameter (an `Evaluator`) applied to the shape and the two angles.
- `Math.hypot` and `isFinite` are the two fields of a `Metric` parameter. Only the branches on them are modelled. Unit-length results are proved under the hypothesis `Euclidean(m)`, that is, hypot is the exact Euclidean length.
- `Math.cos`, `Math.sin`, `Math.tan` and the reciprocals the matrix helpers compute are parameters.
- Methods that fill buffers are proved against functions that say what the buffer holds. Lemmas about those functions state the layout, bounds and counts.

Where the system's documented design and its code disagree, the model follows the code:

- Only the clamped variant clamps the resolution. The wrapped variant and the iso-curves take Nu and Nv as given, and the model proves the consequence for the wrapped variant: degenerate quads for Nu = 1 or Nv = 1. The iso-curves require Nu ≠ 1 and Nv ≠ 1, where the source divides by N-1 = 0 (see Left out).
- The wrapped variant leaves a zero normal for a vertex with a zero accumulated sum. The model proves that such a normal stays zero; it is not replaced by a default direction.
- `mat3InverseTranspose` returns the inverse rather than the inverse transpose (see Findings). For every rotation about x or y it therefore returns the transposed rotation (Mat4.RotationXInverse, Mat4.RotationYInverse), so normals are turned the opposite way.

## Model

| member | source | states |
|---|---|---|
| Surface.ResolveArg | PA2/src/astroidal_torus.js:1 | every property present in the argument object is kept, and each absent property gets its own default (a=1, r=2, theta=0, Nu=64, Nv=128), whatever the others are |
| Surface.Lerp | PA2/src/astroidal_torus.js:21 | the fraction 0 gives the lower end of the parameter range and 1 gives the upper end |
| Surface.LerpWithin | PA1/src/astroidal_torus.js:16 | a fraction in [0, 1] gives a parameter inside [lo, hi] |
| VecMath.Sub | CGW/src/astroidal_torus.js:7 | adding b back to a - b gives a |
| VecMath.Scale | CGW/src/astroidal_torus.js:9 | scaling by 1 keeps the vector and scaling by 0 gives the zero vector |
| VecMath.CrossOrthogonal | CGW/src/astroidal_torus.js:11-17 | cross3(a, b) is orthogonal to both a and b |
| VecMath.DotScale | CGW/src/astroidal_torus.js:9-10 | a dot product is linear in a scaled argument |
| VecMath.DotSub | CGW/src/astroidal_torus.js:7-10 | a dot product distributes over a difference |
| VecMath.GramSchmidtOrthogonal | CGW/src/astroidal_torus.js:144 | t - n*dot(n, t) is orthogonal to n whenever dot(n, n) = 1 |
| VecMath.DivideBy | CGW/src/astroidal_torus.js:4 | dividing each component by a non-zero d is undone by scaling by d |
| VecMath.Normalize | CGW/src/astroidal_torus.js:1-5 | a non-finite or below-1e-12 length gives the zero vector; otherwise the length is positive and the result times the length is the input |
| VecMath.DivideKeepsOrthogonal | CGW/src/astroidal_torus.js:154 | dividing a vector orthogonal to n by a non-zero length keeps it orthogonal to n |
| VecMath.UnitAfterDivide | CGW/src/astroidal_torus.js:154 | dividing by the exact Euclidean length gives a unit vector |
| JsNumber.Trunc | CGW/src/astroidal_torus.js:34-35 | rounding toward zero: the result is within one of x on the side of zero, and integral inputs are kept |
| JsNumber.ToInt32 | CGW/src/astroidal_torus.js:38-39 | `x \| 0` lies in [-2^31, 2^31) and agrees with the truncation of x modulo 2^32 |
| JsNumber.ToInt32Keeps | CGW/src/astroidal_torus.js:38-39 | an integral value already in the signed 32-bit range is kept |
| JsNumber.ToUint16 | PA2/src/astroidal_torus.js:45-46 | a Uint16Array store lies in [0, 2^16), keeps values below 2^16 and never increases a non-negative value |
| JsNumber.Rem1 | CGW/src/astroidal_torus.js:20 | `x % 1` lies strictly between -1 and 1, has the sign of x, and differs from x by an integer |
| Packed.Hits | PA2/src/astroidal_torus.js:65-67 | a triangle names a vertex at most three times, and zero times exactly when no corner is that vertex |
| ClampedTorus.Resolution | CGW/src/astroidal_torus.js:38-39 | the clamped resolution lies in [24, 2^31); an integral value in that range is kept, and a smaller integral value gives 24 |
| ClampedTorus.ResolveArgs | CGW/src/astroidal_torus.js:25-39 | both resolutions end up at least 24 for any argument, Nu=1 included; no arguments give 128 x 128, an empty object gives 64 x 128 with a=1, r=2, theta=0, and a non-object argument keeps the default shape; a number U gives Nu = max(24, U\|0), null gives 24, and Nv = max(24, V\|0) for the second argument V (128 when absent); an object's given a, r, theta are used, and its Nu, Nv (64, 128 when absent) are clamped the same way |
| ClampedTorus.ToInt32Twice | CGW/src/astroidal_torus.js:34-39 | clamping `x \| 0` again after the first conversion gives the same resolution as clamping x |
| ClampedTorus.Wrap01 | CGW/src/astroidal_torus.js:19-23 | the wrapped value lies in [0, 1) and differs from its input by an integer |
| ClampedTorus.JsWrap01 | CGW/src/astroidal_torus.js:19-23 | wrap01 as written (a truncating `% 1`, plus one when negative) equals x minus its floor |
| ClampedTorus.NormalOf | CGW/src/astroidal_torus.js:83-84 | the vertex normal is either the default (0, 0, 1) or points along the cross product, which it gives back when scaled by its length |
| ClampedTorus.TableTabulates | CGW/src/astroidal_torus.js:65-85 | proof step between loop body and specification: the vertex table gives, for every grid point, the vertex the loop body computes there |
| ClampedTorus.LayVertices | CGW/src/astroidal_torus.js:62-89 | the vertex loops produce exactly the position, uv, normal and placeholder-tangent buffers of the (Nu+1) x (Nv+1) grid, row j after row j-1 |
| ClampedTorus.LayRows | CGW/src/astroidal_torus.js:64-89 | the outer loop lays Nv+1 rows of Nu+1 vertices |
| ClampedTorus.LayRow | CGW/src/astroidal_torus.js:66-88 | the inner loop lays vertices 0..Nu of row j in order |
| ClampedTorus.ComputeVertex | CGW/src/astroidal_torus.js:65-85 | the loop body computes the vertex of grid point (i, j) |
| ClampedTorus.LayIndices | CGW/src/astroidal_torus.js:91-102 | the index loops produce the index buffer: Nv rows of Nu quads in row order |
| ClampedTorus.AddAt | CGW/src/astroidal_torus.js:135 | adding to tanAcc[k] changes entry k alone, by the added tangent |
| ClampedTorus.SumTangents | CGW/src/astroidal_torus.js:104-138 | the accumulator holds one vector per vertex |
| ClampedTorus.AccumulateTangents | CGW/src/astroidal_torus.js:104-138 | the accumulation pass leaves tanAcc at the sum of the per-triangle tangents over the whole index buffer |
| ClampedTorus.Accumulate | CGW/src/astroidal_torus.js:115-138 | the loop over the triangles adds each unskipped tangent to its three corners, in triangle order |
| ClampedTorus.TangentOfCorners | CGW/src/astroidal_torus.js:121-133 | the edges and uv deltas give the triangle's tangent, or none when the triangle is skipped |
| ClampedTorus.AddToCorners | CGW/src/astroidal_torus.js:135-137 | the three additions of one triangle, in corner order, and nothing else changes |
| ClampedTorus.ComputeTangent | CGW/src/astroidal_torus.js:116-133 | the loop body up to the `continue` finds the tangent of triangle t/3 |
| ClampedTorus.OrthonormalizeTangents | CGW/src/astroidal_torus.js:140-159 | the final loop overwrites every vertex's tangent with its final tangent, computed from the vertex's normal and its accumulated sum |
| ClampedTorus.Overwrite | CGW/src/astroidal_torus.js:140-159 | the loop writes the final tangent of vertex i over slots 3i..3i+2 for every vertex |
| ClampedTorus.ComputeFinal | CGW/src/astroidal_torus.js:141-154 | the loop body computes the final tangent of vertex i |
| ClampedTorus.BuildAstroidalTorus | CGW/src/astroidal_torus.js:25-169 | the generator returns the mesh of the resolved parameters |
| ClampedTorus.Tessellate | CGW/src/astroidal_torus.js:56-168 | the buffers, the two tangent passes and the returned record, once the parameters are resolved |
| ClampedTorus.AssembleMesh | CGW/src/astroidal_torus.js:104-168 | the tangent passes and the returned record, given the vertex and index buffers |
| ClampedTorus.RowPrefixLength | CGW/src/astroidal_torus.js:66-88 | i vertices of a row give 3i positions, 3i normals, 2i uvs and 3i tangents |
| ClampedTorus.LaidRowsLength | CGW/src/astroidal_torus.js:62-89 | j rows of `row` vertices give 3, 3, 2 and 3 numbers per vertex |
| ClampedTorus.MeshReadable | CGW/src/astroidal_torus.js:106-119 | every index of the accumulation loop reads a position and a uv that exist |
| ClampedTorus.VertexBuffersLength | CGW/src/astroidal_torus.js:62-89 | the vertex buffers have lengths 3V, 3V, 2V and 3V for V = (Nu+1)(Nv+1) |
| ClampedTorus.IndicesInRange | CGW/src/astroidal_torus.js:91-102 | the index buffer has 6 Nu Nv entries (2 Nu Nv whole triangles), each naming one of the V vertices |
| ClampedTorus.QuadBounds | CGW/src/astroidal_torus.js:94-97 | the corners a0 and d0 of every quad lie between 0 and V-1 |
| ClampedTorusProps.PushAt | CGW/src/astroidal_torus.js:70-87 | one iteration's pushes put the vertex at the next slot of all four buffers |
| ClampedTorusProps.RowPrefixAt | CGW/src/astroidal_torus.js:66-88 | vertex (i, j) is slot i of row j |
| ClampedTorusProps.LaidRowsAt | CGW/src/astroidal_torus.js:64-89 | vertex (i, j) of rows of width `row` is slot j*row + i |
| ClampedTorusProps.VertexIndexInRange | CGW/src/astroidal_torus.js:94-97 | the number j(Nu+1) + i of every grid point lies in [0, V) |
| ClampedTorusProps.VertexLayout | CGW/src/astroidal_torus.js:64-89 | grid point (i, j) sits at vertex j(Nu+1) + i of the returned mesh, with the surface point, the normal and the uv (i/Nu, j/Nv) computed there |
| ClampedTorusProps.BuffersAt | CGW/src/astroidal_torus.js:64-89 | the same slot in the buffers of the vertex loop, with the placeholder tangent (1, 0, 0) |
| ClampedTorusProps.FractionWithin | CGW/src/astroidal_torus.js:65-67 | i/Nu lies in [0, 1] for 0 <= i <= Nu |
| ClampedTorusProps.MeshFields | CGW/src/astroidal_torus.js:161-168 | the returned record holds the loops' positions, normals, uvs and indices, the final tangents of the accumulated sums, and the resolved params |
| ClampedTorusProps.UvsInUnitSquare | CGW/src/astroidal_torus.js:67-71 | every uv coordinate of the mesh lies in [0, 1] |
| ClampedTorusProps.VertexTableUnit | CGW/src/astroidal_torus.js:65-71 | every grid point's uv lies in the unit square |
| ClampedTorusProps.QuadCorners | CGW/src/astroidal_torus.js:94-100 | quad (i, j) is record j*Nu + i of the index buffer: (a0, c0, b0) and (b0, c0, d0) with b0 = a0+1, c0 = a0+row, d0 = c0+1 |
| ClampedTorusProps.QuadTriangles | CGW/src/astroidal_torus.js:99-100 | the three indices of each triangle are pairwise distinct, and the two triangles share the diagonal b0-c0 in opposite directions |
| ClampedTorusProps.IndicesFitUint16 | PA3/src/Model.js:10 | every index fits 16 bits exactly when there are at most 65536 vertices |
| ClampedTorusProps.WrapFraction | CGW/src/astroidal_torus.js:19-23 | the wrapped value of a/n is (a mod n)/n |
| ClampedTorusProps.WrappedNeighboursU | CGW/src/astroidal_torus.js:72-73 | the wrapped neighbours of i/Nu are ((i+1) mod Nu)/Nu and ((i-1) mod Nu)/Nu |
| ClampedTorusProps.WrappedNeighboursV | CGW/src/astroidal_torus.js:74-75 | the wrapped neighbours of j/Nv are ((j+1) mod Nv)/Nv and ((j-1) mod Nv)/Nv |
| ClampedTorusProps.SeamNormalsU | CGW/src/astroidal_torus.js:72-84 | the duplicated seam column Nu gets the normal of column 0 whenever the surface closes up in u |
| ClampedTorusProps.SeamUSpan | CGW/src/astroidal_torus.js:72-80 | the u central difference at column Nu is the one at column 0 |
| ClampedTorusProps.SeamVSpanAtU | CGW/src/astroidal_torus.js:74-81 | the v central difference at column Nu is the one at column 0 when the surface closes up in u |
| ClampedTorusProps.SeamNormalsV | CGW/src/astroidal_torus.js:72-84 | the duplicated seam row Nv gets the normal of row 0 whenever the surface closes up in v |
| ClampedTorusProps.SeamVSpan | CGW/src/astroidal_torus.js:74-81 | the v central difference at row Nv is the one at row 0 |
| ClampedTorusProps.SeamUSpanAtV | CGW/src/astroidal_torus.js:72-80 | the u central difference at row Nv is the one at row 0 when the surface closes up in v |
| ClampedTorusProps.UnnamedStaysZero | CGW/src/astroidal_torus.js:104-138 | a vertex that no triangle names keeps a zero tangent sum |
| ClampedTorusProps.TriangleAdded | CGW/src/astroidal_torus.js:115-138 | a triangle adds its tangent to the entries of its three corners (once per corner), leaves every other entry unchanged, and changes nothing when skipped |
| ClampedTorusProps.TangentSkipped | CGW/src/astroidal_torus.js:129-130 | a triangle is skipped exactly when its uv determinant is below 1e-10 in magnitude |
| ClampedTorusProps.Cramer | CGW/src/astroidal_torus.js:129-133 | with s = 1/det, the computed tangent and the corresponding bitangent solve the two edge equations |
| ClampedTorusProps.TangentSolves | CGW/src/astroidal_torus.js:129-133 | the tangent of an unskipped triangle, with its bitangent b, satisfies e1 = du1 t + dv1 b and e2 = du2 t + dv2 b |
| ClampedTorusProps.UnitNormal | CGW/src/astroidal_torus.js:80-84 | under a Euclidean metric every vertex normal has unit length, on both branches |
| ClampedTorusProps.FallbackLength | CGW/src/astroidal_torus.js:148-151 | for a unit normal, cross(up, n) with the chosen up axis is not the zero vector |
| ClampedTorusProps.FinalTangentFrame | CGW/src/astroidal_torus.js:140-159 | the final tangent is orthogonal to a unit normal on both branches, and a unit vector under a Euclidean metric |
| ClampedTorusProps.FallbackFrame | CGW/src/astroidal_torus.js:148-154 | the fallback tangent is orthogonal to n, and a unit vector under a Euclidean metric |
| ClampedTorusProps.MeshShape | CGW/src/astroidal_torus.js:161-168 | the mesh has 3V positions, 3V normals, 2V uvs, 3V tangents and 6 Nu Nv indices naming vertices, and returns the resolved params |
| ClampedTorusProps.MeshFrames | CGW/src/astroidal_torus.js:140-159 | under a Euclidean metric the normal and the tangent of every vertex of the mesh are orthonormal |
| ClampedTorusProps.NormalSlotUnit | CGW/src/astroidal_torus.js:83-85 | under a Euclidean metric the normal buffer holds a unit vector at every grid point |
| ClampedTorusProps.FlattenFrame | CGW/src/astroidal_torus.js:140-159 | the final loop turns every unit normal and its summed tangent into an orthonormal pair |
| ClampedTorusProps.VertexNormalUnit | CGW/src/astroidal_torus.js:72-84 | under a Euclidean metric the normal computed for any grid point has unit length |
| WrappedTorus.FillPositions | PA2/src/astroidal_torus.js:17-29 | the position loops fill the whole buffer with the grid points, i outer and j inner; the buffer keeps its zeros when no loop runs |
| WrappedTorus.FillRow | PA2/src/astroidal_torus.js:22-28 | the inner loop writes the points of row i after the rows before it and leaves the rest zero |
| WrappedTorus.StorePoint | PA2/src/astroidal_torus.js:23-27 | one iteration appends the point (u_i, v_j) at the counter idx |
| WrappedTorus.PointAt | PA2/src/astroidal_torus.js:21-24 | proof step between loop body and specification: the u and v the loops compute give grid point (i, j) |
| WrappedTorus.WriteTriple | PA2/src/astroidal_torus.js:25-27 | three stores at idx, idx+1, idx+2 change those entries alone |
| WrappedTorus.FillIndices | PA2/src/astroidal_torus.js:31-48 | the index loops fill the whole Uint16Array with the quads' corners, each stored modulo 2^16 |
| WrappedTorus.FillQuadRow | PA2/src/astroidal_torus.js:36-47 | the inner loop writes the quads of row i after the rows before it |
| WrappedTorus.PushQuad | PA2/src/astroidal_torus.js:37-46 | one iteration appends quad (i, j) at the counter k |
| WrappedTorus.StoredAt | PA2/src/astroidal_torus.js:45-46 | proof step between loop body and specification: the stored record of quad (i, j) is its corners reduced modulo 2^16 |
| WrappedTorus.ComputeQuad | PA2/src/astroidal_torus.js:37-43 | the loop body computes the six corners (v00, v10, v11, v00, v11, v01) of quad (i, j) |
| WrappedTorus.StoreQuad | PA2/src/astroidal_torus.js:45-46 | six stores at k..k+5 of the values modulo 2^16, and nothing else changes |
| WrappedTorus.AddSlot | PA2/src/astroidal_torus.js:65 | adding c to slot v changes the slot by c and leaves every other entry unchanged |
| WrappedTorus.AccumulateNormals | PA2/src/astroidal_torus.js:50-68 | the normal loop leaves the buffer at the face-normal sums over all triangles |
| WrappedTorus.AccumulateFace | PA2/src/astroidal_torus.js:52-67 | one iteration advances the sums by the triangle at offset t |
| WrappedTorus.FaceSumsNext | PA2/src/astroidal_torus.js:52-67 | the triangle at offset t adds its face normal to its three corners, in corner order |
| WrappedTorus.AddFace | PA2/src/astroidal_torus.js:52-67 | one triangle's face normal added to its three corners |
| WrappedTorus.ComputeFaceNormal | PA2/src/astroidal_torus.js:52-63 | the loop body computes the cross product of the two edges from corner i0 |
| WrappedTorus.AddToSlot | PA2/src/astroidal_torus.js:65 | one line of three `+=` adds c to slot v |
| WrappedTorus.LengthOr1 | PA2/src/astroidal_torus.js:71 | `hypot \|\| 1` is never zero, and is the hypot whenever that is non-zero |
| WrappedTorus.NormalizeNormals | PA2/src/astroidal_torus.js:69-75 | the normalisation loop replaces every slot by its accumulated value divided by `hypot \|\| 1` |
| WrappedTorus.UnitAt | PA2/src/astroidal_torus.js:70-74 | proof step between loop body and specification: slot v of the normalised buffer is the accumulator there, normalised |
| WrappedTorus.ComputeUnit | PA2/src/astroidal_torus.js:70-74 | the loop body divides the slot by its length, or by 1 when that is 0 |
| WrappedTorus.BuildAstroidalTorus | PA2/src/astroidal_torus.js:1-78 | the generator returns fresh position, index and normal buffers holding the grid, the stored quads and the smooth normals, and the params as received |
| WrappedTorus.LayBuffers | PA2/src/astroidal_torus.js:17-48 | the position and index buffers of the grid, fresh, and readable by the normal pass |
| WrappedTorus.ComputeNormals | PA2/src/astroidal_torus.js:50-75 | a fresh normal buffer holding the accumulated face normals, normalised |
| WrappedTorus.StoredShape | PA2/src/astroidal_torus.js:31-48 | the stored index buffer has 6 Nu Nv entries, whole triangles, each naming one of the Nu Nv vertices |
| WrappedTorus.StoredBounded | PA2/src/astroidal_torus.js:31-48 | every stored index lies in [0, Nu Nv) |
| WrappedTorus.QuadBounded | PA2/src/astroidal_torus.js:37-46 | the six stored corners of quad (i, j) lie in [0, Nu Nv) |
| WrappedTorus.VidInRange | PA2/src/astroidal_torus.js:33 | vid(i, j) lies in [0, Nu Nv) for 0 <= i <= Nu and 0 <= j <= Nv |
| WrappedTorus.NextTriangle | PA2/src/astroidal_torus.js:51 | the triangle at offset t of a buffer of whole triangles ends inside it |
| WrappedProps.PositionsLength | PA2/src/astroidal_torus.js:17-18 | the position buffer holds 3 Nu Nv numbers |
| WrappedProps.PositionLayout | PA2/src/astroidal_torus.js:17-29 | vertex (i, j) is written at offset 3(i Nv + j), i being the outer loop, and holds XYZ(u_i, v_j) |
| WrappedProps.SampleEnds | PA2/src/astroidal_torus.js:21-23 | u_0 is uMin and v_0 is vMin, and the last samples stop short of uMax and vMax |
| WrappedProps.VidInside | PA2/src/astroidal_torus.js:33 | inside the grid vid(i, j) is the row-major number i Nv + j |
| WrappedProps.GridNumberInjective | PA2/src/astroidal_torus.js:33 | distinct grid points get distinct row-major numbers |
| WrappedProps.QuadLayout | PA2/src/astroidal_torus.js:35-48 | quad (i, j) fills entries 6(i Nv + j) to 6(i Nv + j) + 5 with (v00, v10, v11) and (v00, v11, v01), where i1 = (i+1) mod Nu and j1 = (j+1) mod Nv; there are 6 Nu Nv entries |
| WrappedProps.DegenerateQuads | PA2/src/astroidal_torus.js:37-43 | v10 is v00 exactly when Nu = 1, and v01 is v00 exactly when Nv = 1 |
| WrappedProps.WrapNext | PA2/src/astroidal_torus.js:37-38 | (i+1) mod n is the next index or 0 after the last, and equals i only when n = 1 |
| WrappedProps.DistinctCorners | PA2/src/astroidal_torus.js:40-46 | for Nu, Nv >= 2 neither triangle of a quad repeats an index |
| WrappedProps.IndicesFitUint16 | PA2/src/astroidal_torus.js:31-46 | the stored indices are the computed ones exactly when Nu Nv <= 65536 |
| WrappedProps.IndicesKept | PA2/src/astroidal_torus.js:31-46 | up to 65536 vertices every index is stored as computed |
| WrappedProps.QuadKept | PA2/src/astroidal_torus.js:45-46 | up to 65536 vertices every quad is stored as computed |
| WrappedProps.IndexWrapped | PA2/src/astroidal_torus.js:31-46 | beyond 65536 vertices, vertex 65536 is stored as 0 |
| WrappedProps.GridPoint | PA2/src/astroidal_torus.js:17-20 | every vertex number below Nu Nv is grid point (k / Nv, k mod Nv) |
| WrappedProps.StoredEntry | PA2/src/astroidal_torus.js:45-46 | each stored entry is the computed one modulo 2^16 |
| WrappedProps.VidBelow | PA2/src/astroidal_torus.js:40-43 | every corner of a quad is a vertex number below Nu Nv |
| WrappedProps.AddSlotAt | PA2/src/astroidal_torus.js:65-67 | adding to slot v changes slot v alone |
| WrappedProps.FaceAdded | PA2/src/astroidal_torus.js:51-68 | a triangle adds its edge cross product to slot w once per corner that is w, and leaves every other slot unchanged |
| WrappedProps.UnitizeFacts | PA2/src/astroidal_torus.js:71-74 | dividing by `hypot \|\| 1` never divides by zero, keeps a zero accumulator zero, and is undone by multiplying back by the hypot when that is non-zero |
| WrappedProps.SmoothNormalAt | PA2/src/astroidal_torus.js:69-75 | the returned normal of vertex k, times its hypot (when non-zero), is its accumulated sum, and a zero sum gives a zero normal |
| WrappedProps.GenOccurrences | PA2/src/astroidal_torus.js:45-46 | a vertex occurs in the concatenated records as often as in all of them together |
| WrappedProps.QuadOccurrences | PA2/src/astroidal_torus.js:45-46 | a quad's two triangles name v00 and v11 twice and v10 and v01 once |
| WrappedProps.CornerOccurrences | PA2/src/astroidal_torus.js:40-46 | grid point (a, b) occurs in quad (o, i) twice as v00 or v11 and once as v10 or v01, depending on which corner it is |
| WrappedProps.RowOccurrences | PA2/src/astroidal_torus.js:35-48 | the quads of row o name (a, b) three times when o is a, and three times when o is the row before a |
| WrappedProps.SixSlots | PA2/src/astroidal_torus.js:35-48 | every vertex of the wrapped grid occurs exactly six times in the computed index buffer |
| WrappedProps.SixStoredSlots | PA2/src/astroidal_torus.js:31-48 | every vertex occurs exactly six times in the stored index buffer while Nu Nv <= 65536 |
| IsoCurves.BuildAstroidalTorus | PA1/src/astroidal_torus.js:1-37 | the sampler returns the u-curves and v-curves of the grid, and the params exactly as received |
| IsoCurves.SampleUCurves | PA1/src/astroidal_torus.js:14-23 | for each i, a curve of the points (u_i, v_j) in j order |
| IsoCurves.SampleVCurves | PA1/src/astroidal_torus.js:25-34 | for each j, a curve of the points (u_i, v_j) in i order |
| IsoCurves.CurveShape | PA1/src/astroidal_torus.js:14-34 | there are Nu u-curves of 3 Nv numbers and Nv v-curves of 3 Nu numbers |
| IsoCurves.EndpointsIncluded | PA1/src/astroidal_torus.js:16-19 | index 0 samples uMin (vMin) and index N-1 samples uMax (vMax) |
| IsoCurves.Transposed | PA1/src/astroidal_torus.js:15-33 | point j of u-curve i is point i of v-curve j: the two families sample one grid, transposed |
| Mat4.Multiply | CGW/src/mat4.js:10-22 | the double loop fills a fresh 16-entry array with the column-major product a*b |
| Mat4.ProductAt | CGW/src/mat4.js:14-18 | out[c*4 + r] is the sum over k of a[k*4 + r] * b[c*4 + k] |
| Mat4.IdentityNeutral | CGW/src/mat4.js:1-22 | identity() is neutral on both sides of multiply |
| Mat4.IdentityLeft | PA1/src/mat4.js:1-22 | identity() times m is m |
| Mat4.IdentityRight | PA1/src/mat4.js:1-22 | m times identity() is m |
| Mat4.ProductTransform | CGW/src/mat4.js:10-22 | applying a*b to a vector is applying b, then a |
| Mat4.RotationYEntries | CGW/src/mat4.js:56 | the rotation matrix of rotateY has c, s, -s, c at entries 0, 2, 8, 10 and the identity elsewhere |
| Mat4.RotationXEntries | CGW/src/mat4.js:62 | the rotation matrix of rotateX has c, s, -s, c at entries 5, 6, 9, 10 and the identity elsewhere |
| Mat4.ScalingEntries | PA1/src/mat4.js:82-83 | the matrix of scale has sx, sy, sz on the diagonal and the identity elsewhere |
| Mat4.RotateYColumns | CGW/src/mat4.js:54-58 | for any c and s, rotateY keeps columns 1 and 3 of m and turns columns 0 and 2 into c*m0 + s*m2 and c*m2 - s*m0 |
| Mat4.RotateYRow | PA1/src/mat4.js:65-71 | the same for PA1's rotateY, one row at a time |
| Mat4.RotateXColumns | CGW/src/mat4.js:60-64 | for any c and s, rotateX keeps columns 0 and 3 of m and turns columns 1 and 2 into c*m1 + s*m2 and c*m2 - s*m1 |
| Mat4.RotateXRow | PA1/src/mat4.js:73-79 | the same for PA1's rotateX, one row at a time |
| Mat4.ScaleColumns | PA1/src/mat4.js:81-85 | scale multiplies columns 0, 1 and 2 by sx, sy and sz and keeps column 3 |
| Mat4.ScaleOne | PA1/src/mat4.js:81-85 | scale(m, 1, 1, 1) is m |
| Mat4.PerspectivePattern | CGW/src/mat4.js:24-34 | only entries 0, 5, 10, 11 and 14 can be non-zero, entry 11 is -1, so the w coordinate of the image is -z |
| Mat4.PerspectiveDepth | PA1/src/mat4.js:24-34 | when nf is the exact reciprocal of near - far, a point on the near plane gets clip z = -w and one on the far plane z = w: normalised depths -1 and 1 |
| Mat4.UpperLeft | CGW/src/mat4.js:66-72 | mat3FromMat4 keeps entries 0, 1, 2, 4, 5, 6, 8, 9, 10: the upper-left 3x3, column-major |
| Mat4.UpperLeftProduct | CGW/src/mat4.js:66-72 | the upper-left block of a*b is the product of the blocks when b's bottom row starts 0, 0, 0 |
| Mat4.Divisor | CGW/src/mat4.js:87-88 | the divisor is never zero; it is the determinant when that is at least 1e-8 in magnitude, and 1e-8 otherwise |
| Mat4.ExpandedIsDet | CGW/src/mat4.js:78-87 | a*A + b*B + c*C is the 3x3 determinant |
| Mat4.WrittenLayout | CGW/src/mat4.js:89 | entry (k, c) of the returned matrix is cofactor (c, k) over the divisor |
| Mat4.InverseRight | CGW/src/mat4.js:74-90 | when the determinant is at least 1e-8 in magnitude, the input times the result is the identity |
| Mat4.InverseLeft | CGW/src/mat4.js:74-90 | the result times the input is the identity too |
| Mat4.InverseAsWritten | CGW/src/mat4.js:74-90 | mat3InverseTranspose as written returns the inverse of its input |
| Mat4.NormalIsTransposed | CGW/src/mat4.js:89 | the corrected normal matrix is the transpose of what is returned |
| Mat4.NormalMatrixInverts | CGW/src/mat4.js:89 | the corrected normal matrix is the inverse of the transposed input |
| Mat4.NormalKeepsPerpendicular | CGW/src/shaders.js:22-23 | the corrected normal matrix maps a normal to a vector perpendicular to the mapped tangent |
| Mat4.TiltedRotation | CGW/src/mat4.js:60-72 | the upper-left block of rotateX with c = 0.6, s = 0.8 |
| Mat4.TiltedInverse | CGW/src/mat4.js:74-90 | for that rotation the result is its transpose |
| Mat4.OrthogonalInverse | CGW/src/mat4.js:74-90 | for every m whose transpose is its inverse (every rotation), the result is the transpose of m, not m itself |
| Mat4.SameColumn | CGW/src/mat4.js:74-90 | a right inverse and a left inverse of the same matrix map every vector alike |
| Mat4.RotationXInverse | CGW/src/mat4.js:60-64 | for every rotation about x (c² + s² = 1), the result on its upper-left block is the transposed rotation |
| Mat4.RotationYInverse | CGW/src/mat4.js:54-58 | for every rotation about y (c² + s² = 1), the result on its upper-left block is the transposed rotation |
| Mat4.WrittenTiltsNormals | CGW/src/main.js:157-158 | for that rotation, a perpendicular normal and tangent: the normal mapped by the returned matrix and the tangent mapped by the model-view block r (as the positions are) have dot product -0.96, because the whole frame is turned by rᵀ instead of r |
| GlUtil.Bits32 | PA3/src/gl.js:50 | the 32-bit pattern lies in [0, 2^32) and keeps values already in range |
| GlUtil.IsPowerOf2Correct | PA3/src/gl.js:49-51 | for 1 <= v < 2^32, isPowerOf2(v) is true exactly for the powers of two |
| GlUtil.IsPowerOf2Zero | PA3/src/gl.js:49-51 | isPowerOf2(0) is true, though 0 is not a power of two |
| GlUtil.TextureForImage | PA3/src/gl.js:71-82 | both dimensions powers of two give a mipmap, LINEAR_MIPMAP_LINEAR and REPEAT on S and T; otherwise no mipmap, LINEAR and CLAMP_TO_EDGE; magnification is LINEAR either way |
| GlUtil.PixelRatio | PA3/src/gl.js:9 | the ratio is at least 1, is the device ratio when that is at least 1, and is 1 otherwise |
| GlUtil.ResizeSets | PA3/src/gl.js:8-14 | the new width and height are floor(client size * dpr): at least the client size and less than one pixel below the exact product; the client size is untouched |
| GlUtil.ResizeReportsChange | PA3/src/gl.js:12-17 | the result is true exactly when a dimension differed beforehand, and false leaves the canvas as it was |
| GlUtil.ResizeIdempotent | PA3/src/gl.js:12-17 | a second call with the same client size and ratio returns false and changes nothing |
| GlUtil.Canvas.ResizeToDisplaySize | PA3/src/gl.js:8-18 | the method updates the canvas fields and returns the change flag as the value-level resize says |
| GlUtil.Canvas.constructor | PA3/src/gl.js:8 | a canvas with the given attribute and layout sizes |

## Left out

- Floating-point rounding: float32 stores, float64 arithmetic, NaN and the infinities are not modelled. `x | 0` of NaN or an infinity, and `isFinite`, are not computed; isFinite is an abstract field of the metric.
- `Math.cos`, `Math.sin`, `Math.tan`, `Math.hypot` and the surface `XYZ` itself are parameters, so no fact about the actual torus (its periodicity, positions or self-intersections) is proved.
- The seam lemmas (ClampedTorusProps.SeamNormalsU, SeamNormalsV) take the surface's periodicity as a hypothesis.
- Unit-length claims hold only under `Euclidean(m)`, exactly, and not within a tolerance as a float computation would give.
- `lookAt` is not modelled: it consists of hypot-based normalisation only.
- The WebGL plumbing is not modelled: `createGL`, `createProgram`, `compileShader`, buffer uploads, the asynchronous image loading and its callbacks, the shaders beyond the one normal-matrix use, the UI and main.js.
- Winding against the geometric normal (the hemisphere check) is not modelled, because it needs the actual surface.
- GlUtil.PixelRatio: a device ratio of 0 stands for all the falsy values that `|| 1` replaces (undefined, NaN).
- ClampedTorus.ResolveArgs: object properties are numbers or absent; non-numeric or null properties, and their coercions, are not modelled.
- ClampedTorus.ResolveArgs: a string or boolean first argument is not representable, and the second argument is a number or absent, so `arg2 = null` (which the source turns into `null | 0 = 0`, giving Nv = 24) is not modelled; absent stands for undefined, which defaults to 128.
- IsoCurves.BuildAstroidalTorus: Nu and Nv are integers, as in Surface.ParamsArg; a non-integral Nu, for which the source's loop runs ⌈Nu⌉ times with spacing i/(Nu-1), is not modelled.
- WrappedTorus.BuildAstroidalTorus: requires Nu Nv >= 0, where the source throws a RangeError for a negative buffer length; it also assumes integral Nu and Nv.
- IsoCurves.BuildAstroidalTorus: requires Nu != 1 and Nv != 1, where the source divides by zero and produces NaN coordinates.
- ClampedTorus.FinalTangent: the `|| 1` guard of the fallback length is modelled only for a length of 0, not NaN.
- GlUtil.IsPowerOf2Correct: stated for 1 <= v < 2^32, the range in which `v | 0` keeps v's bit pattern; larger and non-integral widths are not covered.

## Findings

| source | as written | input that shows it | evidently intended | confidence | as-written member | corrected member |
|---|---|---|---|---|---|---|
| CGW/src/mat4.js:89 | mat3InverseTranspose returns [A, D, G, B, E, H, C, F, I]/det, which is the inverse of its input (cofactors transposed over the determinant). main.js uploads it as u_normalMat (CGW/src/main.js:157-158), and the vertex shader applies it to normals and tangents (CGW/src/shaders.js:22-23) | the upper-left block r of rotateX with c = 0.6, s = 0.8, normal n = (0, 1, 0), tangent t = (0, 0, 1): the normal mapped by the returned matrix and the tangent mapped by r (as u_mv maps the positions) have dot product -0.96 instead of 0; the whole normal-tangent frame is turned by rᵀ instead of r | the inverse transpose [A, B, C, D, E, F, G, H, I]/det, which keeps normals perpendicular to tangents mapped by the model-view block | not executed | Mat4.WrittenTiltsNormals | Mat4.NormalKeepsPerpendicular |
