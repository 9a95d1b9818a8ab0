# Shadow-volume builder and engine platform cores

A model of two parts of the engine and its map compiler, with proofs about them.

**Shadow volumes** (`neo/tools/compilers/dmap/shadowopt3.cpp` and the light and brush code of `map.cpp`):

- **Cull codes.** Every vertex gets a 12-bit cull code against the six planes of a light frustum. The macros TRIANGLE_CULLED, TRIANGLE_CLIPPED, POINT_CULLED, EDGE_CULLED and EDGE_CLIPPED are read off these codes.
- **Clipping.** A triangle that crosses the frustum is clipped by ChopWinding through a pair of ping-pong buffers.
- **Writing out.** The clipped polygon goes to the file-static vertex, index and clip-edge buffers. Front points sit in even slots and their far-plane twins in the odd slot after them.
- **Per frustum.** CreateShadowVolumeInFrustum writes front caps, rear caps and silhouette quads for one frustum: the clip-made edges, the clipped segment edges and the true silhouette edges.
- **Per surface.** CreateShadowVolume runs every frustum and reorders the index ranges into one shadow surface.
- **Offline optimizer.** Unmatched-edge extraction with packed edge keys, epsilon vertex welding, index assembly, removal of degenerate triangles, and CleanupOptimizedShadowTris, which removes the quads that meet along frustum seams.
- **Map compiler.** RemoveDuplicateBrushPlanes and SetBrushContents clean up brushes. MakeShadowFrustums lays out the frusta of a projected or point light.

**Platform layer:**

- **POSIX console** (`posix_console.cpp`): a 64-entry history ring, the hide/show nesting of the edited line, and the decoder of keys and escape sequences.
- **SDL event layer** (`events.cpp`): the key map, the system event queue read through a head cursor, and the keyboard and mouse poll lists.
- **OpenGL set-up** (`OpenGL.cpp`): the pixel-format fallback schedule of GLimp_Init, the swap interval and shutdown.
- **SDL sound** (`SDLSoundVoice.cpp`, `SDLSoundHardware.cpp`): the voices and the free and used voice lists of the sound hardware.
- **Windows processor counts** (`win_cpu.cpp`): the bit count of a processor mask and the tally of processor records.
- **Processor id and MXCSR** (`cpu.cpp`): the CPUID reads of GetCPUInfo, the processor-id composition and the MXCSR updates.

**How the model is built.** Each component has a specification on values: a function over a snapshot of the state, or a fold over the input. Its properties are proved as lemmas about that function. Code that changes state in place keeps that form:

- classes hold arrays and counters;
- methods carry loop invariants;
- each method is proved to leave exactly the snapshot the specification function computes.

Coordinates are reals. Integer widths are written out where they matter: the 12-bit cull codes, 32-bit edge keys, 64-bit masks and the 32-bit MXCSR.

| file | modules |
|---|---|
| shadow_geometry.dfy | ShadowGeometry: vectors, planes, PointsOrdered, TriOutsideTri, TriBehindTri |
| shadow_cull.dfy | CullBits, ShadowCull: cull codes and the macros |
| shadow_clip.dfy | ShadowClip: ChopWinding |
| shadow_builder.dfy | ShadowBuilder: the buffers, ClipTriangleToLight |
| shadow_sil.dfy | ShadowSil: AddClipSilEdges, ClipLineToLight, AddSilEdges |
| shadow_volume.dfy, shadow_pass.dfy | ShadowVolume (specification), ShadowPass (methods): CreateShadowVolumeInFrustum, CreateShadowVolume |
| shadow_edges.dfy | ShadowEdges: EdgeSort, GenerateSilEdges |
| shadow_weld.dfy | ShadowWeld: FindUniqueVert, UniqueVerts |
| shadow_optimize.dfy | ShadowOptimize: EmitUnoptimizedSilEdges, SuperOptimizeOccluders' index assembly |
| shadow_degenerate.dfy | ShadowDegenerate: RemoveDegenerateTriangles |
| shadow_cleanup.dfy | ShadowCleanup: CleanupOptimizedShadowTris |
| map_brush.dfy, map_light.dfy | MapBrush, MapLight |
| console.dfy | PosixConsole |
| events.dfy | InputEvents |
| opengl.dfy | OpenGLImp |
| sound.dfy | SoundSDL |
| wincpu.dfy | WinCpu |
| cpu.dfy | CpuFeatures |
| wrappers.dfy | Wrappers (Option), CChar (signed char) |

## Model

| member | source | states |
|---|---|---|
| CullBits.TriangleCulledIff | neo/tools/compilers/dmap/shadowopt3.cpp:33 | TRIANGLE_CULLED is nonzero exactly when one of bits 0-5 is set in all three vertex codes |
| CullBits.TriangleClippedIff | neo/tools/compilers/dmap/shadowopt3.cpp:34 | TRIANGLE_CLIPPED holds exactly when some bit 6-11 is missing from the AND of the three codes |
| CullBits.PointCulledIff | neo/tools/compilers/dmap/shadowopt3.cpp:35 | POINT_CULLED holds exactly when some bit 6-11 is clear, so a point on a plane is kept |
| CullBits.EdgeCulledIff | neo/tools/compilers/dmap/shadowopt3.cpp:36 | EDGE_CULLED is nonzero exactly when some bit 6-11 is missing from both endpoints |
| CullBits.EdgeClippedIff | neo/tools/compilers/dmap/shadowopt3.cpp:37 | EDGE_CLIPPED holds exactly when one endpoint lacks some bit 6-11 |
| CullBits.UnclippedCornersKept | neo/tools/compilers/dmap/shadowopt3.cpp:34-35 | a triangle that needs no clipping has no culled corner |
| CullBits.EdgeCulledImpliesClipped | neo/tools/compilers/dmap/shadowopt3.cpp:35-37 | a culled edge has both endpoints culled and is clipped; an edge with a culled endpoint is clipped |
| ShadowCull.FrontBitsUpToBits | neo/tools/compilers/dmap/shadowopt3.cpp:1344-1349 | the surface front bits hold bit p+6 exactly for the planes the bounds are at least LIGHT_CLIP_EPSILON in front of, and no low bit |
| ShadowCull.CmpBitsUpToBits | neo/tools/compilers/dmap/shadowopt3.cpp:1366-1373 | the CmpLT/CmpGT byte holds bit p exactly for a plane the surface is not wholly in front of whose comparison passes |
| ShadowCull.VertexCullCodeHigh | neo/tools/compilers/dmap/shadowopt3.cpp:1344-1378 | bit p+6 of a vertex code is set iff the surface is in front of plane p or the vertex is not clearly behind it |
| ShadowCull.VertexCullCodeLow | neo/tools/compilers/dmap/shadowopt3.cpp:1344-1378 | bit p of a vertex code is set iff neither the surface nor the vertex is clearly in front of plane p |
| ShadowCull.VertexCullCodeClear | neo/tools/compilers/dmap/shadowopt3.cpp:1344-1378 | a cull code uses only the twelve plane bits |
| ShadowCull.PlaneSide | neo/tools/compilers/dmap/shadowopt3.cpp:1370 | one distance per vertex, its signed distance to the plane |
| ShadowCull.CmpLT | neo/tools/compilers/dmap/shadowopt3.cpp:1371 | ORs (distance < LIGHT_CLIP_EPSILON) into bit i of every vertex's byte and changes no other bit |
| ShadowCull.CmpGT | neo/tools/compilers/dmap/shadowopt3.cpp:1372 | ORs (distance > -LIGHT_CLIP_EPSILON) into bit i of every vertex's byte and changes no other bit |
| ShadowCull.SurfaceFrontBits | neo/tools/compilers/dmap/shadowopt3.cpp:1344-1349 | the loop computes the surface front bits |
| ShadowCull.MarkPlane | neo/tools/compilers/dmap/shadowopt3.cpp:1370-1372 | one plane step moves both byte columns from planes 0..k-1 to planes 0..k |
| ShadowCull.SideBits | neo/tools/compilers/dmap/shadowopt3.cpp:1357-1373 | side1 and side2 hold every vertex's CmpLT and CmpGT bytes over the planes the surface is not wholly in front of |
| ShadowCull.CalcPointCull | neo/tools/compilers/dmap/shadowopt3.cpp:1332-1379 | every vertex gets frontBits OR side1 OR (side2 << 6), including the early return when the surface is wholly inside |
| ShadowClip.EmitStep | neo/tools/compilers/dmap/shadowopt3.cpp:1439-1474 | one pass of the output loop keeps corner i unless it is behind (flag 1 when an on-plane corner precedes a back corner, else the inherited flag) and adds one split point exactly when the edge crosses strictly, flagged 1 unless the next corner is in front |
| ShadowClip.EmissionsOfBuffer | neo/tools/compilers/dmap/shadowopt3.cpp:1433-1437 | duplicating the first corner, distance and side at the end lets every pass read its successor without wrapping |
| ShadowClip.ConcatPrefix | neo/tools/compilers/dmap/shadowopt3.cpp:1439-1474 | later passes only append to the output polygon |
| ShadowClip.ChopPolyInFront | neo/tools/compilers/dmap/shadowopt3.cpp:1393-1477 | no corner of the clipped polygon lies more than LIGHT_CLIP_EPSILON behind the plane |
| ShadowClip.SplitPointKeepsHalfspace | neo/tools/compilers/dmap/shadowopt3.cpp:1454-1459 | an interpolated point between two corners inside a half-space is inside it |
| ShadowClip.ChopPolyKeepsHalfspace | neo/tools/compilers/dmap/shadowopt3.cpp:1393-1477 | clipping keeps the polygon inside every half-space it was already inside, so chained clips compose |
| ShadowClip.ChopPolyFlags | neo/tools/compilers/dmap/shadowopt3.cpp:1443-1472 | every output edge flag is inherited from the input or is a 1 on a corner lying on the plane's band |
| ShadowClip.ChopKeepsCorners | neo/tools/compilers/dmap/shadowopt3.cpp:1439-1450 | every corner on or in front of the plane survives, in the original cyclic order |
| ShadowClip.ChopSplitsCrossings | neo/tools/compilers/dmap/shadowopt3.cpp:1452-1473 | a strict front-to-back or back-to-front edge gets exactly one inserted point, which lies on the plane |
| ShadowClip.ClipTri.Push | neo/tools/compilers/dmap/shadowopt3.cpp:1441-1449 | writes one corner and flag at the end and counts it |
| ShadowClip.ClassifyCorners | neo/tools/compilers/dmap/shadowopt3.cpp:1408-1421 | records each corner's distance and side and counts front and back corners |
| ShadowClip.EmitCorner | neo/tools/compilers/dmap/shadowopt3.cpp:1439-1474 | one pass appends exactly KeptFrom and SplitFrom of corner i |
| ShadowClip.EmitCorners | neo/tools/compilers/dmap/shadowopt3.cpp:1438-1475 | the output loop leaves the concatenation of all passes in the other buffer |
| ShadowClip.SplitInto | neo/tools/compilers/dmap/shadowopt3.cpp:1433-1476 | the cutting half writes Chop of the input to the other buffer and leaves the input's corners as they were |
| ShadowClip.ChopInto | neo/tools/compilers/dmap/shadowopt3.cpp:1404-1476 | the result goes to the other buffer exactly when the polygon has both front and back corners; otherwise the input is emptied (nothing in front) or left untouched (nothing behind) |
| ShadowClip.ChopWinding | neo/tools/compilers/dmap/shadowopt3.cpp:1393-1477 | returns inNum in both early exits and inNum^1 after a cut, and that buffer holds ChopPoly of the input |
| ShadowSil.SilQuadDiagonal | neo/tools/compilers/dmap/shadowopt3.cpp:1784-1822 | a sil quad covers the two near slots and their far twins, and its shared diagonal is named by the points' order keys, not by the edge's direction, so two faces of one edge split it alike |
| ShadowSil.SilQuadWindings | neo/tools/compilers/dmap/shadowopt3.cpp:1784-1822 | the two facing cases write the same two triangles with opposite orientation |
| ShadowSil.SilQuadBelow | neo/tools/compilers/dmap/shadowopt3.cpp:1784-1822 | a quad over two allocated slot pairs uses only allocated slots |
| ShadowSil.PushQuad | neo/tools/compilers/dmap/shadowopt3.cpp:1620-1638 | appends the six quad indexes to the index buffer |
| ShadowSil.ClipSilQuadsAt | neo/tools/compilers/dmap/shadowopt3.cpp:1615-1639 | the quad of clip edge j sits at indexes 6j..6j+5, with the PointsOrdered triangulation of AddClipSilEdges |
| ShadowSil.ClipSilQuadsBelow | neo/tools/compilers/dmap/shadowopt3.cpp:1615-1639 | quads over clip edges use only allocated slots |
| ShadowSil.AddClipSilWellformed | neo/tools/compilers/dmap/shadowopt3.cpp:1603-1641 | AddClipSilEdges keeps the builder's buffer invariant |
| ShadowSil.AddClipSilEdges | neo/tools/compilers/dmap/shadowopt3.cpp:1603-1641 | sets overflowed and writes nothing when the quads do not fit; otherwise appends one quad per clip-made edge |
| ShadowSil.EmitClipSilQuads | neo/tools/compilers/dmap/shadowopt3.cpp:1615-1639 | the loop appends the quads of all clip edges in edge order |
| ShadowSil.ClipLinePlaneInside | neo/tools/compilers/dmap/shadowopt3.cpp:1662-1694 | a retained segment ends strictly inside the plane's tolerance and stays inside every open half-space it was in |
| ShadowSil.ClipLineInside | neo/tools/compilers/dmap/shadowopt3.cpp:1660-1697 | a retained fragment lies strictly inside the first j planes |
| ShadowSil.ClipLineUnclipped | neo/tools/compilers/dmap/shadowopt3.cpp:1666-1667 | a segment with both ends on or inside every plane passes unchanged |
| ShadowSil.ClipLineStaysDropped | neo/tools/compilers/dmap/shadowopt3.cpp:1670-1674 | once a plane drops the segment the result is final |
| ShadowSil.ClipLineStep | neo/tools/compilers/dmap/shadowopt3.cpp:1662-1694 | one plane step rewrites only the two end slots, by the per-plane rule |
| ShadowSil.ClipLineToLight | neo/tools/compilers/dmap/shadowopt3.cpp:1651-1697 | returns whether a fragment is kept and leaves the clipped ends in the two slots, touching no other slot |
| ShadowSil.SilStepWellformed | neo/tools/compilers/dmap/shadowopt3.cpp:1735-1822 | one sil edge keeps the builder's buffer invariant |
| ShadowSil.SilEdgesWellformed | neo/tools/compilers/dmap/shadowopt3.cpp:1710-1824 | AddSilEdges keeps the builder's buffer invariant |
| ShadowSil.SilStepAdds | neo/tools/compilers/dmap/shadowopt3.cpp:1735-1822 | an edge adds one quad exactly when its faces disagree on casting, it is not culled and its clipped segment survives; it takes four fresh slots exactly when it was clipped |
| ShadowSil.EmitSilQuad | neo/tools/compilers/dmap/shadowopt3.cpp:1777-1822 | appends the quad unless the index buffer is full, in which case it sets overflowed and stops |
| ShadowSil.ClipSilSegment | neo/tools/compilers/dmap/shadowopt3.cpp:1760-1772 | the clipped branch takes two fresh slot pairs, writes the clipped ends, skips a dropped segment and otherwise adds the quad; overflow stops the loop |
| ShadowSil.AddSilEdge | neo/tools/compilers/dmap/shadowopt3.cpp:1735-1822 | one loop pass moves the state by one SilStep |
| ShadowSil.AddSilEdges | neo/tools/compilers/dmap/shadowopt3.cpp:1710-1824 | the loop adds the quads of all sil edges in order and stops at the first overflow |
| ShadowBuilder.IndexBuffer.Push | neo/tools/compilers/dmap/shadowopt3.cpp:1531-1535 | shadowIndexes[numShadowIndexes++] = x appends the vertex number x unchanged |
| ShadowBuilder.IndexBuffer.Push3 | neo/tools/compilers/dmap/shadowopt3.cpp:1531-1535 | three pushes append one triangle |
| ShadowBuilder.EdgeBuffer.Push | neo/tools/compilers/dmap/shadowopt3.cpp:1545-1551 | records one clip-made edge at the end of clipSilEdges |
| ShadowBuilder.PlaceCornersSlots | neo/tools/compilers/dmap/shadowopt3.cpp:1520-1524 | corner i lands in slot base+2i and no odd or outside slot changes |
| ShadowBuilder.FanTriangles | neo/tools/compilers/dmap/shadowopt3.cpp:1531-1535 | fan triangle t is (corner t+2, corner t+1, corner 0) |
| ShadowBuilder.FanSlots | neo/tools/compilers/dmap/shadowopt3.cpp:1531-1535 | every fan index is the even slot of one of the polygon's corners |
| ShadowBuilder.CopyCorners | neo/tools/compilers/dmap/shadowopt3.cpp:1520-1523 | the copy loop writes the polygon into the even slots from base on |
| ShadowBuilder.EmitFan | neo/tools/compilers/dmap/shadowopt3.cpp:1531-1535 | the fan loop appends exactly the fan triangles |
| ShadowBuilder.RecordClipEdges | neo/tools/compilers/dmap/shadowopt3.cpp:1540-1553 | every flagged corner records the edge to the next corner (wrapping to base), until the edge table is full |
| ShadowBuilder.ClampFull | neo/tools/compilers/dmap/shadowopt3.cpp:1542-1543 | an edge table filled to its capacity keeps exactly the edges recorded before it filled |
| ShadowBuilder.EmitClipped | neo/tools/compilers/dmap/shadowopt3.cpp:1514-1555 | writing the polygon out moves the state by EmitPolygon |
| ShadowBuilder.PlaceClipped | neo/tools/compilers/dmap/shadowopt3.cpp:1514-1524 | places the corners in fresh even slots and counts 2n slots |
| ShadowBuilder.AppendClipped | neo/tools/compilers/dmap/shadowopt3.cpp:1526-1553 | appends the fan and the clip-made edges |
| ShadowBuilder.EmitPolygonWellformed | neo/tools/compilers/dmap/shadowopt3.cpp:1514-1555 | after writing a polygon every index names an allocated slot and every clip edge joins two allocated even slots |
| ShadowBuilder.EmitPolygonOverflow | neo/tools/compilers/dmap/shadowopt3.cpp:1514-1529 | writing fails exactly when the vertices or the fan do not fit, and only a failure sets overflowed |
| ShadowBuilder.EmitPolygonFan | neo/tools/compilers/dmap/shadowopt3.cpp:1520-1535 | fan triangle t draws the slots that now hold corners t+2, t+1 and 0 |
| ShadowBuilder.ClipChainInFrustum | neo/tools/compilers/dmap/shadowopt3.cpp:1502-1511 | a polygon that survives the chain lies on or in front of every selected plane |
| ShadowBuilder.ClipChainNonEmpty | neo/tools/compilers/dmap/shadowopt3.cpp:1506-1509 | a polygon that survives a chain with a selected plane has a corner |
| ShadowBuilder.ClipChainStaysNone | neo/tools/compilers/dmap/shadowopt3.cpp:1508-1509 | once a clip leaves nothing the chain stays empty |
| ShadowBuilder.ClipStep | neo/tools/compilers/dmap/shadowopt3.cpp:1504-1510 | one pass clips by plane i exactly when planeBits selects it and fails when nothing is left |
| ShadowBuilder.ClipPolygon | neo/tools/compilers/dmap/shadowopt3.cpp:1502-1512 | the loop leaves the chain's polygon in buffer p, or reports that a clip left nothing |
| ShadowBuilder.ClipTriangle | neo/tools/compilers/dmap/shadowopt3.cpp:1492-1512 | starts both buffers from the triangle with zero edge flags and returns the chained clip |
| ShadowBuilder.ClipTriangleToLight | neo/tools/compilers/dmap/shadowopt3.cpp:1486-1556 | clips the triangle to the selected planes and writes what is left to the vertex, index and clip-edge buffers |
| ShadowBuilder.StoredAsUint16 | neo/tools/compilers/dmap/shadowopt3.cpp:77 | a value stored in the uint16_t index array is in [0, 2^16) and congruent to it |
| ShadowBuilder.StoredIndexWraps | neo/tools/compilers/dmap/shadowopt3.cpp:77 | a vertex number from 0x10000 to MAX_SHADOW_VERTS - 1 is stored as the number of a different slot, 0x10000 lower |
| ShadowVolume.Adopt | neo/tools/compilers/dmap/shadowopt3.cpp:1954-1973 | adopting a vertex takes at most one fresh slot pair and adds no index |
| ShadowVolume.AdoptCorners | neo/tools/compilers/dmap/shadowopt3.cpp:1954-1973 | the three corners take at most three fresh slot pairs and add no index |
| ShadowVolume.AdoptOk | neo/tools/compilers/dmap/shadowopt3.cpp:1954-1973 | adopting keeps remap pointing at front slots that hold the vertex, never changes a set entry, and sets the entry of every unculled vertex |
| ShadowVolume.AdoptCornersOk | neo/tools/compilers/dmap/shadowopt3.cpp:1954-1973 | after adoption every unculled corner of the triangle has a slot |
| ShadowVolume.EmitPolygonFront | neo/tools/compilers/dmap/shadowopt3.cpp:1981-1984 | a clipped polygon only adds slots above those in use and whole fan triangles over front slots |
| ShadowVolume.ClipToLightOk | neo/tools/compilers/dmap/shadowopt3.cpp:1976-1985 | a clipped triangle keeps the pass invariant and only appends indexes |
| ShadowVolume.UnclippedCapOk | neo/tools/compilers/dmap/shadowopt3.cpp:1995-2002 | an unclipped triangle's corners all have slots, so the "bad remap[]" error cannot happen, and the reversed cap (remap[i3], remap[i2], remap[i1]) keeps the pass invariant |
| ShadowVolume.CapTriOk | neo/tools/compilers/dmap/shadowopt3.cpp:1975-2003 | the clip-or-cap stage keeps the pass invariant and changes only faceCastsShadow[i] and the buffers |
| ShadowVolume.TriStepOk | neo/tools/compilers/dmap/shadowopt3.cpp:1923-2004 | one triangle keeps the pass invariant, only sets remap entries and only appends indexes |
| ShadowVolume.TrisFromOk | neo/tools/compilers/dmap/shadowopt3.cpp:1923-2004 | the triangle loop keeps the pass invariant and, run to the end, has copied the corners of every casting triangle; stopping early means overflow |
| ShadowVolume.SilEdgesReady | neo/tools/compilers/dmap/shadowopt3.cpp:1796-1803 | after the triangle loop every whole sil edge has remapped ends, so AddSilEdges' "bad remap[]" error cannot happen |
| ShadowVolume.RearCapsTwins | neo/tools/compilers/dmap/shadowopt3.cpp:2088-2093 | rear cap triangle t is front cap (a, b, c) written (c+1, b+1, a+1), and names only slots in use |
| ShadowVolume.PassStartOk | neo/tools/compilers/dmap/shadowopt3.cpp:1914-1921 | a pass starts with every remap entry -1 and no clip edge, satisfying the pass invariant |
| ShadowVolume.CapsDoneOk | neo/tools/compilers/dmap/shadowopt3.cpp:2078-2095 | after the rear caps the dangling face does not cast and every sil edge is ready for AddSilEdges |
| ShadowVolume.FinishPassWellformed | neo/tools/compilers/dmap/shadowopt3.cpp:2078-2121 | the end of a pass keeps every index on an allocated slot |
| ShadowVolume.FinishPassRanges | neo/tools/compilers/dmap/shadowopt3.cpp:2078-2121 | the noted ranges run front caps, rear caps, sil quads to the end, the rear caps are the front caps reversed over the twins, and nothing is noted only on overflow |
| ShadowVolume.InFrustumOk | neo/tools/compilers/dmap/shadowopt3.cpp:1894-2122 | a pass only appends indexes; with no caps it notes nothing (line 2012) and otherwise notes the three ranges in order from where it started |
| ShadowVolume.InFrustumGrows | neo/tools/compilers/dmap/shadowopt3.cpp:2008-2014 | a pass that notes ranges has emitted indexes |
| ShadowVolume.FrustumBit | neo/tools/compilers/dmap/shadowopt3.cpp:2294-2295 | the cap-plane bit of frustum k is nonzero and within the six frustum bits |
| ShadowVolume.FrustumStepTiles | neo/tools/compilers/dmap/shadowopt3.cpp:2256-2297 | the noted ranges keep tiling the index buffer back to back |
| ShadowVolume.FrustumStepSkips | neo/tools/compilers/dmap/shadowopt3.cpp:2268-2279 | a skipped or empty frustum leaves the indexes and capPlaneBits alone |
| ShadowVolume.FrustumStepNotes | neo/tools/compilers/dmap/shadowopt3.cpp:2282-2295 | a frustum that notes ranges appends one indexRef and sets bit k of capPlaneBits |
| ShadowVolume.ChainRefs | neo/tools/compilers/dmap/shadowopt3.cpp:2117-2120 | every noted pass lies within the index buffer |
| ShadowVolume.ChainAppend | neo/tools/compilers/dmap/shadowopt3.cpp:2117-2121 | a new pass starting where the last ended extends the tiling |
| ShadowVolume.PartsPermute | neo/tools/compilers/dmap/shadowopt3.cpp:2333-2358 | the sil, rear and front parts of all passes together hold exactly the indexes, as a multiset |
| ShadowVolume.PermuteStep | neo/tools/compilers/dmap/shadowopt3.cpp:2333-2358 | one pass's three ranges in front of the later passes' parts keep the multiset |
| ShadowVolume.FrustaTile | neo/tools/compilers/dmap/shadowopt3.cpp:2256-2297 | the frustum loop keeps the ranges tiling the index buffer and the buffers well formed |
| ShadowVolume.AssembleOk | neo/tools/compilers/dmap/shadowopt3.cpp:2329-2358 | assembly only reorders the indexes; numShadowIndexesNoCaps <= numShadowIndexesNoFrontCaps <= numIndexes; every index names a vertex in use |
| ShadowVolume.CreateVolumeOk | neo/tools/compilers/dmap/shadowopt3.cpp:2189-2371 | a built shadow surface holds exactly the passes' indexes reordered, is non-empty, names only vertexes in use and has ordered prefix counts |
| ShadowPass.InitRemap | neo/tools/compilers/dmap/shadowopt3.cpp:1342 | every remap entry becomes -1 |
| ShadowPass.AdoptVertex | neo/tools/compilers/dmap/shadowopt3.cpp:1954-1973 | an unculled, unmapped corner gets the next even slot holding its position, and numShadowVerts grows by 2 |
| ShadowPass.CapTriangle | neo/tools/compilers/dmap/shadowopt3.cpp:1975-2003 | a clipped triangle goes through ClipTriangleToLight; an unclipped one is capped reversed over its remapped corners or overflows |
| ShadowPass.ClipCap | neo/tools/compilers/dmap/shadowopt3.cpp:1976-1985 | faceCastsShadow[i] is set exactly when ClipTriangleToLight keeps something |
| ShadowPass.TriangleStep | neo/tools/compilers/dmap/shadowopt3.cpp:1925-2004 | one loop turn: clear faceCastsShadow[i], skip lit-facing or culled triangles, check room for six slots, adopt the corners, then clip or cap |
| ShadowPass.CapTriangles | neo/tools/compilers/dmap/shadowopt3.cpp:1921-2004 | the triangle loop runs TrisFrom and reports an overflow |
| ShadowPass.RearCapsAt | neo/tools/compilers/dmap/shadowopt3.cpp:2088-2093 | rear cap triangle t is (c+1, b+1, a+1) of front cap t |
| ShadowPass.EmitRearCaps | neo/tools/compilers/dmap/shadowopt3.cpp:2088-2095 | appends the rear caps of the caps from first on |
| ShadowPass.WriteRearCaps | neo/tools/compilers/dmap/shadowopt3.cpp:2088-2093 | the loop writes the rear caps after the front caps and changes nothing before them |
| ShadowPass.WriteRearCap | neo/tools/compilers/dmap/shadowopt3.cpp:2090-2092 | one rear cap is the source triangle reversed, one slot up, and no other entry changes |
| ShadowPass.FinishFrustum | neo/tools/compilers/dmap/shadowopt3.cpp:2078-2121 | the tail of the pass moves the state by FinishPass |
| ShadowPass.CreateShadowVolumeInFrustum | neo/tools/compilers/dmap/shadowopt3.cpp:1894-2122 | the real-time pass moves the state by InFrustum over the frustum's cull codes |
| ShadowPass.CullSurface | neo/tools/compilers/dmap/shadowopt3.cpp:2268-2279 | the frustum is skipped exactly when the surface bounds lie more than LIGHT_CLIP_EPSILON behind one of its planes |
| ShadowPass.RunFrustum | neo/tools/compilers/dmap/shadowopt3.cpp:2258-2295 | one frustum turn moves the volume by FrustumStep; failure means the volume is abandoned |
| ShadowPass.AllFacing | neo/tools/compilers/dmap/shadowopt3.cpp:2227-2232 | allFront is true exactly when every face faces the light |
| ShadowPass.CopyRanges | neo/tools/compilers/dmap/shadowopt3.cpp:2335-2340 | one copy loop lays out range w of every noted pass in pass order |
| ShadowPass.RunFrusta | neo/tools/compilers/dmap/shadowopt3.cpp:2256-2297 | the frustum loop computes FrustaFrom and gives up on the first overflow |
| ShadowPass.AssembleSurface | neo/tools/compilers/dmap/shadowopt3.cpp:2329-2359 | every sil range, then every rear cap range, then every front cap range, with the counts between them |
| ShadowPass.CreateVolumeFrom | neo/tools/compilers/dmap/shadowopt3.cpp:2237-2302 | after the early outs the result is None on overflow or no indexes, else the assembled volume |
| ShadowPass.CreateShadowVolume | neo/tools/compilers/dmap/shadowopt3.cpp:2189-2371 | returns None where the source returns null (no sil edges, indexes or vertexes, all faces lit, an overflow, no indexes) and otherwise the assembled shadow surface |
| ShadowWeld.CloseSymmetric | neo/tools/compilers/dmap/shadowopt3.cpp:979-981 | the per-axis UNIQUE_EPSILON test does not depend on which vertex is stored |
| ShadowWeld.FirstClose | neo/tools/compilers/dmap/shadowopt3.cpp:977-984 | the lookup's index names the first stored vertex within UNIQUE_EPSILON on all axes, or the table's end when none is |
| ShadowWeld.WeldAgain | neo/tools/compilers/dmap/shadowopt3.cpp:974-994 | a lookup grows the table by at most one, returns a vertex close to v, and looking v up again returns the same index and changes nothing |
| ShadowWeld.WeldSeparated | neo/tools/compilers/dmap/shadowopt3.cpp:985-991 | appending only on a miss keeps every stored vertex apart from the earlier ones |
| ShadowWeld.Welder.FindUniqueVert | neo/tools/compilers/dmap/shadowopt3.cpp:974-994 | returns the first close vertex's index or appends v and returns the old count; the table becomes Weld of the old one |
| ShadowWeld.TableGrows | neo/tools/compilers/dmap/shadowopt3.cpp:1011-1015 | welding more corners only appends to the table |
| ShadowWeld.WeldAllOk | neo/tools/compilers/dmap/shadowopt3.cpp:1003-1016 | after UniqueVerts each corner's index names a table vertex within UNIQUE_EPSILON of it, and no two table vertices are close |
| ShadowWeld.WeldStep | neo/tools/compilers/dmap/shadowopt3.cpp:1012-1014 | one corner of the loop welds it and records its FirstClose index |
| ShadowWeld.TableBound | neo/tools/compilers/dmap/shadowopt3.cpp:1011-1015 | welding n corners adds at most n table entries |
| ShadowWeld.WeldNext | neo/tools/compilers/dmap/shadowopt3.cpp:1013 | one turn welds corner i and writes its index |
| ShadowWeld.WeldAll | neo/tools/compilers/dmap/shadowopt3.cpp:1011-1015 | the loop leaves Table([], corners) in the welder and Indexes([], corners) in index |
| ShadowWeld.UniqueVerts | neo/tools/compilers/dmap/shadowopt3.cpp:1003-1016 | allocates MAX_UNIQUED = 100000 entries and welds every corner in order |
| ShadowEdges.KeyIsOr | neo/tools/compilers/dmap/shadowopt3.cpp:539-543 | the shift-or key is the sum of its two fields, because they do not overlap |
| ShadowEdges.DecodeEdgeKey | neo/tools/compilers/dmap/shadowopt3.cpp:539-566 | decoding a key gives back the edge with its direction, and keys stay below 2^31 |
| ShadowEdges.ReverseKey | neo/tools/compilers/dmap/shadowopt3.cpp:539-543 | an edge and its reverse get keys that differ only in the low bit, the even one for the larger first vertex |
| ShadowEdges.KeyPair | neo/tools/compilers/dmap/shadowopt3.cpp:539-543 | the two directions of the edge between h > l are keys 2m and 2m + 1 |
| ShadowEdges.XorOneBits | neo/tools/compilers/dmap/shadowopt3.cpp:552 | two keys xor to 1 exactly when one is even and the other is it with the low bit set |
| ShadowEdges.EdgeSort | neo/tools/compilers/dmap/shadowopt3.cpp:495-504 | the comparator is negative exactly below and zero exactly on equal keys |
| ShadowEdges.EdgeSortOrder | neo/tools/compilers/dmap/shadowopt3.cpp:495-504 | the comparator is antisymmetric and transitive |
| ShadowEdges.EdgeKeysCount | neo/tools/compilers/dmap/shadowopt3.cpp:523-546 | a key occurs as often as its directed edge occurs in the non-degenerate triangles |
| ShadowEdges.KeyInjective | neo/tools/compilers/dmap/shadowopt3.cpp:539-543 | two edges have the same key exactly when they are the same directed edge |
| ShadowEdges.EdgeKeysOk | neo/tools/compilers/dmap/shadowopt3.cpp:518-546 | at most three keys per triangle, each a valid key |
| ShadowEdges.UnmatchedCount | neo/tools/compilers/dmap/shadowopt3.cpp:551-574 | a sorted run keeps every copy of a key but one for each key whose partner is present |
| ShadowEdges.XorPartner | neo/tools/compilers/dmap/shadowopt3.cpp:552 | ordered keys that xor to 1 are partners |
| ShadowEdges.PartnerNear | neo/tools/compilers/dmap/shadowopt3.cpp:552 | a key is its partner's partner and is next to it |
| ShadowEdges.UnmatchedFrom | neo/tools/compilers/dmap/shadowopt3.cpp:551-574 | the kept keys are a sub-multiset of the sorted keys |
| ShadowEdges.DecodeAllCount | neo/tools/compilers/dmap/shadowopt3.cpp:559-566 | decoding keeps how often each edge occurs |
| ShadowEdges.KeyMatches | neo/tools/compilers/dmap/shadowopt3.cpp:559-566 | a valid key decodes to an edge exactly when it is that edge's key |
| ShadowEdges.SilEdgeCount | neo/tools/compilers/dmap/shadowopt3.cpp:515-575 | edge v1 -> v2 is a silhouette edge as often as it occurs, less one when its reverse occurs too, whatever order qsort leaves equal keys in |
| ShadowEdges.MatchedPairCancels | neo/tools/compilers/dmap/shadowopt3.cpp:551-556 | an edge met once each way is no silhouette edge |
| ShadowEdges.LoneEdgeKept | neo/tools/compilers/dmap/shadowopt3.cpp:558-574 | an edge met once without its reverse is one silhouette edge in its own direction |
| ShadowEdges.DegenerateAddsNothing | neo/tools/compilers/dmap/shadowopt3.cpp:527-528 | a triangle with two equal indexes adds no key |
| ShadowEdges.CollectEdgeKeys | neo/tools/compilers/dmap/shadowopt3.cpp:518-546 | the array has room for 3n + 1 keys and holds the keys of every non-degenerate triangle in order |
| ShadowEdges.EdgeKeysAppend | neo/tools/compilers/dmap/shadowopt3.cpp:523-546 | the keys of two runs of triangles are the first run's then the second's |
| ShadowEdges.AddTri | neo/tools/compilers/dmap/shadowopt3.cpp:524-545 | one triangle adds its three keys, or none when degenerate |
| ShadowEdges.AddTriKeys | neo/tools/compilers/dmap/shadowopt3.cpp:531-545 | the inner loop adds the three edge keys in order |
| ShadowEdges.MatchSortedEdges | neo/tools/compilers/dmap/shadowopt3.cpp:549-574 | writes the -1 sentinel and produces the decoded unmatched keys of the sorted run |
| ShadowEdges.MatchTurn | neo/tools/compilers/dmap/shadowopt3.cpp:552-573 | a key next to its partner drops both, any other key is decoded and kept |
| ShadowEdges.KeysBelow | neo/tools/compilers/dmap/shadowopt3.cpp:549 | valid keys are below 2^31, so none pairs with the sentinel |
| ShadowOptimize.CapsMirror | neo/tools/compilers/dmap/shadowopt3.cpp:1148-1157 | rear cap index 3i + j is front cap index 3i + 2 - j plus numUniquedBeforeProjection: the front caps are flipped, the rear caps are not |
| ShadowOptimize.CapsBelow | neo/tools/compilers/dmap/shadowopt3.cpp:1148-1157 | front caps name uniqued vertices and rear caps their projections |
| ShadowOptimize.QuadsBelow | neo/tools/compilers/dmap/shadowopt3.cpp:953-964 | silhouette quads name only uniqued vertices and their projections |
| ShadowOptimize.OccluderIndexesBelow | neo/tools/compilers/dmap/shadowopt3.cpp:1148-1167 | every assembled index is below 2n, so with at most 0x8000 uniqued vertices it fits the 16-bit index list |
| ShadowOptimize.QuadsMatchReverse | neo/tools/compilers/dmap/shadowopt3.cpp:1282-1287 | the cleanup's reversed-quad test holds between two quads of this shape exactly when the second edge is the first reversed |
| ShadowOptimize.WriteQuad | neo/tools/compilers/dmap/shadowopt3.cpp:957-962 | one quad's six indexes are written after what is already there |
| ShadowOptimize.EmitUnoptimizedSilEdges | neo/tools/compilers/dmap/shadowopt3.cpp:950-965 | appends quad (v1, v2, v2+n, v1+n, v1, v2+n) for each silhouette edge and changes no count but totalIndexes |
| ShadowOptimize.WriteCaps | neo/tools/compilers/dmap/shadowopt3.cpp:1149-1156 | triangle i's front cap is its corners flipped, its rear cap its corners shifted by n, and no earlier cap changes |
| ShadowOptimize.WriteAllCaps | neo/tools/compilers/dmap/shadowopt3.cpp:1148-1157 | the cap loop leaves all front caps, then all rear caps |
| ShadowOptimize.CapsStep | neo/tools/compilers/dmap/shadowopt3.cpp:1148-1157 | one more triangle extends both cap regions |
| ShadowOptimize.AssembleOccluderIndexes | neo/tools/compilers/dmap/shadowopt3.cpp:1135-1179 | the index list is front caps, rear caps, then silhouette quads, with 3 and 3 indexes per triangle, 6 per edge, numVerts = 2n and totalIndexes the sum |
| ShadowCleanup.RangeCheckAsWritten | neo/tools/compilers/dmap/shadowopt3.cpp:1245-1249 | the range check as written accepts every list of in-range indexes, and what it accepts may hold an index equal to numVerts but none above it or negative |
| ShadowCleanup.RangeCheckLetsEndThrough | neo/tools/compilers/dmap/shadowopt3.cpp:1245-1269 | the check as written lets index numVerts through, and remap[numVerts] is one past the end |
| ShadowCleanup.CheckRangeAsWritten | neo/tools/compilers/dmap/shadowopt3.cpp:1245-1249 | the loop as written fails exactly when some index is above numVerts or negative |
| ShadowCleanup.CheckRange | neo/tools/compilers/dmap/shadowopt3.cpp:1245-1249 | the corrected loop fails exactly when some index does not name one of the numVerts vertices |
| ShadowCleanup.RemapNamesCloseVertex | neo/tools/compilers/dmap/shadowopt3.cpp:1251-1270 | after welding and remapping every index names a welded vertex within UNIQUE_EPSILON of the vertex it named before |
| ShadowCleanup.FindMatch | neo/tools/compilers/dmap/shadowopt3.cpp:1277-1291 | the inner search finds the first later quad that runs the other way along quad p's edge, or the end |
| ShadowCleanup.Step | neo/tools/compilers/dmap/shadowopt3.cpp:1274-1312 | one outer turn either moves past quad p or takes two quads out and looks at p again; the loop measure drops |
| ShadowCleanup.Sweep | neo/tools/compilers/dmap/shadowopt3.cpp:1274-1312 | the sweep ends with every quad passed and twelve indexes gone per removed pair |
| ShadowCleanup.QuadAtRemovePair | neo/tools/compilers/dmap/shadowopt3.cpp:1298-1308 | after taking quads p and q out every other quad moves down in order |
| ShadowCleanup.RemovePairKeepsNoMatch | neo/tools/compilers/dmap/shadowopt3.cpp:1298-1311 | taking out a pair keeps the quads before p without a match |
| ShadowCleanup.StepSkipInv | neo/tools/compilers/dmap/shadowopt3.cpp:1293-1294 | a quad with no match can be passed over |
| ShadowCleanup.RemovePairTail | neo/tools/compilers/dmap/shadowopt3.cpp:1305-1308 | the indexes after the silhouette region move down by twelve |
| ShadowCleanup.StepKeepsInv | neo/tools/compilers/dmap/shadowopt3.cpp:1274-1312 | one outer turn keeps the sweep invariant |
| ShadowCleanup.SweepKeepsInv | neo/tools/compilers/dmap/shadowopt3.cpp:1274-1312 | the whole sweep keeps the sweep invariant |
| ShadowCleanup.SweepMeaning | neo/tools/compilers/dmap/shadowopt3.cpp:1272-1312 | after the sweep no quad left matches a later one and the indexes after the silhouette region are untouched |
| ShadowCleanup.CleanupSweep | neo/tools/compilers/dmap/shadowopt3.cpp:1267-1312 | the sweep over the remapped indexes keeps whole quads and takes out only silhouette indexes |
| ShadowCleanup.OnTriangles | neo/tools/compilers/dmap/shadowopt3.cpp:1314-1318 | removing matched quads leaves a whole number of triangles |
| ShadowCleanup.CountsOnTriangles | neo/tools/compilers/dmap/shadowopt3.cpp:1314-1318 | the lowered counts still end on triangle boundaries and stay ordered |
| ShadowCleanup.CleanupSweepMeaning | neo/tools/compilers/dmap/shadowopt3.cpp:1267-1312 | the kept quads have no reversed partner left and the indexes after them are the remapped originals |
| ShadowCleanup.CleanupKeeps | neo/tools/compilers/dmap/shadowopt3.cpp:1234-1323 | the triangles left are the non-degenerate ones of the swept list, in order, and each count ends on its region's kept triangles |
| ShadowCleanup.SweepDropKeeps | neo/tools/compilers/dmap/shadowopt3.cpp:1272-1322 | the sweep then the degenerate removal keep exactly the non-degenerate swept triangles |
| ShadowCleanup.CleanupNotDegenerate | neo/tools/compilers/dmap/shadowopt3.cpp:1234-1323 | every triangle the cleanup leaves has three distinct corners |
| ShadowCleanup.FindReversedQuad | neo/tools/compilers/dmap/shadowopt3.cpp:1276-1291 | the inner loop returns 6 times FindMatch |
| ShadowCleanup.ShiftOut | neo/tools/compilers/dmap/shadowopt3.cpp:1296-1308 | the two copy loops leave the indexes with quads i and j cut out |
| ShadowCleanup.MoveDownBy | neo/tools/compilers/dmap/shadowopt3.cpp:1299-1308 | one copy loop moves entries lo..hi down by d and leaves the rest |
| ShadowCleanup.RemoveMatchedQuads | neo/tools/compilers/dmap/shadowopt3.cpp:1273-1312 | the loop computes Sweep and returns its numSilIndexes |
| ShadowCleanup.SweepTurn | neo/tools/compilers/dmap/shadowopt3.cpp:1275-1311 | one loop turn computes Step |
| ShadowCleanup.CopyVerts | neo/tools/compilers/dmap/shadowopt3.cpp:1258-1265 | the welded table is copied back over the vertices |
| ShadowCleanup.RemapIndexes | neo/tools/compilers/dmap/shadowopt3.cpp:1267-1270 | every index becomes remap of itself |
| ShadowCleanup.CleanupOptimizedShadowTris | neo/tools/compilers/dmap/shadowopt3.cpp:1234-1323 | the vertices become the welded table and the indexes and both counts become Cleanup of the old ones |
| ShadowCleanup.SweepAndDrop | neo/tools/compilers/dmap/shadowopt3.cpp:1272-1322 | the matched-quad sweep then the degenerate removal compute SweepDrop |
| ShadowCleanup.SweepSilhouette | neo/tools/compilers/dmap/shadowopt3.cpp:1272-1318 | the sweep leaves the swept list and lowers all three counts by the indexes removed |
| ShadowCleanup.WeldSurface | neo/tools/compilers/dmap/shadowopt3.cpp:1238-1265 | the vertices become Table of the old ones and remap holds each vertex's welded index |
| ShadowDegenerate.KeptOf | neo/tools/compilers/dmap/shadowopt3.cpp:1200-1216 | the kept triangles are no more than the input |
| ShadowDegenerate.DropCutStep | neo/tools/compilers/dmap/shadowopt3.cpp:1204-1214 | cutting a degenerate triangle leaves the kept triangles and the lowered counts unchanged |
| ShadowDegenerate.DropFromCut | neo/tools/compilers/dmap/shadowopt3.cpp:1204-1214 | removing a degenerate triangle and looking at the same position again gives the same result |
| ShadowDegenerate.DropFromSkip | neo/tools/compilers/dmap/shadowopt3.cpp:1200-1216 | a kept triangle is passed over |
| ShadowDegenerate.DropFromKeeps | neo/tools/compilers/dmap/shadowopt3.cpp:1200-1216 | from every triangle on the loop keeps exactly the non-degenerate ones with the counts lowered for each removed one below them |
| ShadowDegenerate.KeptOfAppend | neo/tools/compilers/dmap/shadowopt3.cpp:1200-1216 | keeping distributes over a split on a triangle boundary |
| ShadowDegenerate.KeptOfNotDegenerate | neo/tools/compilers/dmap/shadowopt3.cpp:1204 | no kept triangle has a repeated index |
| ShadowDegenerate.KeptOfClean | neo/tools/compilers/dmap/shadowopt3.cpp:1204 | every kept triangle has three distinct corners |
| ShadowDegenerate.RemoveDegenerateKeeps | neo/tools/compilers/dmap/shadowopt3.cpp:1198-1216 | the removal keeps exactly the non-degenerate triangles, in order, and each count becomes the length of its region's kept triangles |
| ShadowDegenerate.DropOnTriangles | neo/tools/compilers/dmap/shadowopt3.cpp:1198-1216 | the same with the counts given in indexes |
| ShadowDegenerate.MoveDown | neo/tools/compilers/dmap/shadowopt3.cpp:1206 | the memmove cuts out the triangle at i |
| ShadowDegenerate.RemoveDegenerateTriangles | neo/tools/compilers/dmap/shadowopt3.cpp:1192-1223 | the indexes and counts become DropFrom of the old ones, which RemoveDegenerateKeeps characterises |
| ShadowDegenerate.CutTriangle | neo/tools/compilers/dmap/shadowopt3.cpp:1205-1213 | one removal cuts the triangle at i, lowers numIndexes by 3 and each count by 3 when i was below it |
| ShadowGeometry.SplitPointOnPlane | neo/tools/compilers/dmap/shadowopt3.cpp:1454-1466 | a split point interpolated from its endpoints' distances lies on the plane |
| ShadowGeometry.PointsOrderedAntisymmetric | neo/tools/compilers/dmap/shadowopt3.cpp:1574-1591 | for points with different keys exactly one order holds, and never both |
| ShadowGeometry.PointsOrderedTransitive | neo/tools/compilers/dmap/shadowopt3.cpp:1574-1591 | the order is transitive |
| ShadowGeometry.PointsOrderedCollision | neo/tools/compilers/dmap/shadowopt3.cpp:1578-1586 | distinct points whose keys x + 127y + 1023z collide are ordered neither way |
| ShadowGeometry.TriOutsideTri | neo/tools/compilers/dmap/shadowopt3.cpp:227-259 | true exactly when for some edge i of b every vertex of a has dot product at most EDGE_EPSILON with edge i, the loop stopping at the first vertex above it |
| ShadowGeometry.TriBehindTri | neo/tools/compilers/dmap/shadowopt3.cpp:261-278 | true exactly when some vertex of a lies strictly in front of b's plane |
| MapBrush.Mirror | neo/tools/compilers/dmap/map.cpp:242 | planenum ^ 1 is a different plane number one away from it |
| MapBrush.MirrorTwice | neo/tools/compilers/dmap/map.cpp:242 | mirroring twice gives the plane number back, so the mirror relation is symmetric |
| MapBrush.ClashFrom | neo/tools/compilers/dmap/map.cpp:229-248 | the inner scan finds the first earlier side whose plane is equal or mirrored, or i when none is |
| MapBrush.ClashMeaning | neo/tools/compilers/dmap/map.cpp:229-248 | the scan reaches i exactly when no earlier side's plane equals or mirrors side i's, and otherwise stops on one that does |
| MapBrush.ShiftOut | neo/tools/compilers/dmap/map.cpp:220-237 | removing a side keeps the array length |
| MapBrush.ShiftOutSlices | neo/tools/compilers/dmap/map.cpp:220-237 | sides before i stay, sides after i move down one slot in order, side 0 stays |
| MapBrush.MirrorFreeAdd | neo/tools/compilers/dmap/map.cpp:242-247 | keeping a plane that neither is nor mirrors a kept one keeps the kept planes mirror-free |
| MapBrush.TurnMeaning | neo/tools/compilers/dmap/map.cpp:213-248 | one turn stops on a mirrored plane, removes a -1 or duplicate plane, and keeps a new plane |
| MapBrush.DropStep | neo/tools/compilers/dmap/map.cpp:216-239 | removing side i leaves the kept prefix and takes side i off the rest |
| MapBrush.KeepStep | neo/tools/compilers/dmap/map.cpp:229-248 | keeping side i moves it onto the kept prefix |
| MapBrush.StopStep | neo/tools/compilers/dmap/map.cpp:242-247 | meeting a mirrored plane returns false |
| MapBrush.RunMeaning | neo/tools/compilers/dmap/map.cpp:213-250 | from a mirror-free prefix the loop fails exactly when the filter meets a mirrored plane and otherwise leaves the filtered sides |
| MapBrush.RunShrinks | neo/tools/compilers/dmap/map.cpp:213-249 | numsides only decreases, side 0 is never removed and the array length is kept |
| MapBrush.FilterFacts | neo/tools/compilers/dmap/map.cpp:213-249 | the filter keeps the kept sides, stays free of -1 and repeats, and takes in every valid plane number |
| MapBrush.KeptFacts | neo/tools/compilers/dmap/map.cpp:213-249 | the kept sides are side 0, then no -1 and no repeated plane number, with every valid plane number present |
| MapBrush.FailsMeaning | neo/tools/compilers/dmap/map.cpp:242-247 | the filter fails exactly when a mirrored pair lies ahead |
| MapBrush.AheadSkip | neo/tools/compilers/dmap/map.cpp:216-226 | a -1 side plays no part in mirroring |
| MapBrush.AheadDrop | neo/tools/compilers/dmap/map.cpp:230-240 | a duplicate plane adds no mirrored pair |
| MapBrush.AheadKeep | neo/tools/compilers/dmap/map.cpp:229-248 | a new plane joins the kept ones |
| MapBrush.MirroredFromStart | neo/tools/compilers/dmap/map.cpp:213-249 | a mirrored pair ahead of side 0 is a mirrored pair in the whole array |
| MapBrush.RemovePlanesMeaning | neo/tools/compilers/dmap/map.cpp:206-251 | the brush is rejected exactly when it holds a mirrored pair; otherwise the sides left are side 0 then every new valid plane in order |
| MapBrush.ShiftSidesDown | neo/tools/compilers/dmap/map.cpp:220-236 | the "for k" loop moves sides i+1 .. n-1 down one slot |
| MapBrush.FindClash | neo/tools/compilers/dmap/map.cpp:229-248 | the "for j" loop returns ClashFrom |
| MapBrush.RemoveDuplicateBrushPlanes | neo/tools/compilers/dmap/map.cpp:206-251 | the result, the sides and numsides are those of the loop machine Run, which RemovePlanesMeaning characterises; nothing else changes |
| MapBrush.ContentsHas | neo/tools/compilers/dmap/map.cpp:96-127 | a flag is in the contents exactly when side 0's material or a later side's material has it |
| MapBrush.ContentsStep | neo/tools/compilers/dmap/map.cpp:108-116 | a side without a material adds nothing and "if (c2 != contents) contents \|= c2" is the OR either way |
| MapBrush.SetBrushContents | neo/tools/compilers/dmap/map.cpp:90-128 | contents is the OR of the materials' flags, contentShader side 0's material, opaque whether every later side with a material is opaque, and c_areaportals grows by one exactly when the contents hold CONTENTS_AREAPORTAL |
| MapLight.FromPointsHolds | neo/tools/compilers/dmap/map.cpp:635-661 | the plane through three points holds all three |
| MapLight.NextCorner | neo/tools/compilers/dmap/map.cpp:651 | (edge + 1) & 3 stays a corner position |
| MapLight.FaceCorner | neo/tools/compilers/dmap/map.cpp:581-588 | faceCorners names one of the eight box corners |
| MapLight.AdjacentCorner | neo/tools/compilers/dmap/map.cpp:589-596 | faceEdgeAdjacent names one of the eight box corners |
| MapLight.FaceTable | neo/tools/compilers/dmap/map.cpp:581-619 | each face's corners lie on its side of the box, are distinct and go round the face one box edge at a time; each adjacent corner lies off the face one box edge from the edge |
| MapLight.FacePlanesThrough | neo/tools/compilers/dmap/map.cpp:629-670 | planes 4 and 5 are the back plane through three face corners; each edge plane holds both edge corners and the light origin, or the adjacent corner with the origin strictly behind it |
| MapLight.FacingBefore | neo/tools/compilers/dmap/map.cpp:637-641 | the faces that get a frustum are those whose back plane does not have the origin behind it |
| MapLight.LayoutMeaning | neo/tools/compilers/dmap/map.cpp:625-672 | frustum k is the k-th facing face's, numShadowFrustums counts the facing faces, later slots keep what they held |
| MapLight.ProjectedFrustumInward | neo/tools/compilers/dmap/map.cpp:689-695 | a point is strictly inside a shadow frustum plane exactly when it is strictly behind the light's plane |
| MapLight.MakeCorners | neo/tools/compilers/dmap/map.cpp:611-623 | corner i takes +radius on axis j when bit j of i is set and -radius otherwise, rotated and moved to the origin |
| MapLight.EdgePlanes | neo/tools/compilers/dmap/map.cpp:648-670 | the four edge planes of one face |
| MapLight.BuildFace | neo/tools/compilers/dmap/map.cpp:629-670 | the back-plane test and, for a facing face, its six planes |
| MapLight.LayoutFaces | neo/tools/compilers/dmap/map.cpp:625-672 | the face loop computes Layout and changes nothing else |
| MapLight.MakeShadowFrustums | neo/tools/compilers/dmap/map.cpp:540-702 | a point light gets the Layout of its box faces; a projected light gets one frustum of its six planes flipped, with makeClippedPlanes set; nothing else changes |
| MapLight.MakePointFrustums | neo/tools/compilers/dmap/map.cpp:598-675 | the point-light branch: the corners, then the face loop's Layout |
| MapLight.MakeProjectedFrustum | neo/tools/compilers/dmap/map.cpp:678-701 | numShadowFrustums is 1 and slot 0 holds the flipped light frustum; the other slots are untouched |
| PosixConsole.Recent | neo/sys/posix/posix_console.cpp:19-21 | there are as many held lines as min(64, history_count) |
| PosixConsole.HideShowNesting | neo/sys/posix/posix_console.cpp:150-209 | tty_Hide adds one to input_hide and tty_Show takes it back; the terminal is written only on the 0 -> 1 and 1 -> 0 steps, and both do nothing without tty support |
| PosixConsole.PlayMoves | neo/sys/posix/posix_console.cpp:135-146 | n cursor moves move the terminal cursor n columns |
| PosixConsole.PlayDels | neo/sys/posix/posix_console.cpp:124-133 | n tty_Del calls from column n blank the first n characters and end at column 0 |
| PosixConsole.HideBlanks | neo/sys/posix/posix_console.cpp:162-175 | the outermost tty_Hide leaves the terminal line blank with the cursor at column 0 |
| PosixConsole.ShowRedraws | neo/sys/posix/posix_console.cpp:186-207 | the matching tty_Show draws the edited text back with the cursor where the field's cursor is |
| PosixConsole.HideShowRedraw | neo/sys/posix/posix_console.cpp:150-209 | hide then show round-trips the terminal line |
| PosixConsole.CommitRecent | neo/sys/posix/posix_console.cpp:259-271 | committing keeps the ring invariant, appends the line to the held lines dropping the oldest once 64 are held, and resets history_current to 0 |
| PosixConsole.CommitAppends | neo/sys/posix/posix_console.cpp:260-264 | below 64 lines the line goes to history[history_count] and is appended |
| PosixConsole.CommitOverwrites | neo/sys/posix/posix_console.cpp:265-270 | at 64 lines the line overwrites history[history_start], which advances mod 64 |
| PosixConsole.NavigateMeaning | neo/sys/posix/posix_console.cpp:398-433 | an arrow moves history_current by one and wraps it into [0, min(64, history_count)], the slot read lies in [0, 64), leaving 0 saves the edit line and coming back to 0 restores it |
| PosixConsole.NavigateOk | neo/sys/posix/posix_console.cpp:398-433 | navigation keeps the ring invariant |
| PosixConsole.NavigateShows | neo/sys/posix/posix_console.cpp:427-433 | position k > 0 shows the k-th most recent held line |
| PosixConsole.NavigateInverse | neo/sys/posix/posix_console.cpp:398-433 | up then down, or down then up, returns to the same position and field |
| PosixConsole.Decode | neo/sys/posix/posix_console.cpp:235-472 | one key consumes at least one byte of stdin and leaves the rest unread |
| PosixConsole.DecodeKnown | neo/sys/posix/posix_console.cpp:276-449 | ESC [ A/B/C/D, ESC [ 1~ 2~ 3~ 4~, ESC O H and ESC O F decode to their keys whatever follows |
| PosixConsole.DecodeOnlyKnown | neo/sys/posix/posix_console.cpp:242-472 | any key other than a dropped sequence consumed exactly one recognised sequence or is one of the bytes 1, 5, 8, 9, 10, 127 or 32-126 (a char is signed, so bytes above 127 are dropped) |
| PosixConsole.FlushReports | neo/sys/posix/posix_console.cpp:211-219 | tty_FlushIn reports every byte it reads, in order |
| PosixConsole.ShowFrame | neo/sys/posix/posix_console.cpp:179-209 | tty_Show changes nothing but input_hide and the output |
| PosixConsole.InputLoopMeaning | neo/sys/posix/posix_console.cpp:228-479 | Posix_ConsoleInput leaves input_hide as it found it, keeps the ring invariant, and returns a line exactly when it read '\n'; the line is the edit text cut to 255 characters and becomes the newest history entry, and the field is cleared |
| PosixConsole.OnKeyMeaning | neo/sys/posix/posix_console.cpp:242-472 | every key keeps what InputLoopMeaning states |
| PosixConsole.EnterMeaning | neo/sys/posix/posix_console.cpp:254-272 | '\n' returns the text, commits it and clears the field |
| PosixConsole.ArrowMeaning | neo/sys/posix/posix_console.cpp:398-436 | the arrows navigate, show the line and return null |
| PosixConsole.Console.constructor | neo/sys/posix/posix_console.cpp:16-26 | the console starts with nothing held and nothing hidden |
| PosixConsole.TtyHide | neo/sys/posix/posix_console.cpp:150-176 | the console moves by Hide |
| PosixConsole.TtyShow | neo/sys/posix/posix_console.cpp:179-209 | the console moves by Show; input_hide > 0 is required, as the source asserts |
| PosixConsole.FlushIn | neo/sys/posix/posix_console.cpp:211-219 | reads stdin dry, reporting each byte |
| PosixConsole.ReadByte | neo/sys/posix/posix_console.cpp:235-279 | a read takes one byte, or fails with key unchanged when stdin is dry |
| PosixConsole.ReadKey | neo/sys/posix/posix_console.cpp:242-472 | the reads of one key compute Decode |
| PosixConsole.CommitHistory | neo/sys/posix/posix_console.cpp:259-271 | the console moves by Commit |
| PosixConsole.NavigateHistory | neo/sys/posix/posix_console.cpp:398-433 | the console moves by Navigate |
| PosixConsole.NextKey | neo/sys/posix/posix_console.cpp:235-241 | the first key of a call hides the line once, then a key is decoded |
| PosixConsole.EnterLine | neo/sys/posix/posix_console.cpp:254-272 | the '\n' case moves the console as OnKey says |
| PosixConsole.HistoryKey | neo/sys/posix/posix_console.cpp:398-436 | the arrow case moves the console as OnKey says and returns null |
| PosixConsole.DropKey | neo/sys/posix/posix_console.cpp:444-472 | a dropped sequence is reported, stdin flushed, the line shown and null returned |
| PosixConsole.EditKey | neo/sys/posix/posix_console.cpp:244-466 | cursor moves and edits go on reading |
| PosixConsole.FinishKey | neo/sys/posix/posix_console.cpp:254-472 | the cases that return move the console as OnKey says |
| PosixConsole.ConsoleInput | neo/sys/posix/posix_console.cpp:228-479 | the console and the result are those of Input, which InputLoopMeaning characterises |
| PosixConsole.ConsoleExit | neo/sys/posix/posix_console.cpp:518-533 | every history slot is cleared and nothing else changes |
| InputEvents.KeyToDoom3 | neo/sys/common/events.cpp:112-528 | isChar holds exactly when SDLK_SPACE <= key < SDLK_DELETE, and a key outside the ASCII and scancode ranges maps to 0 |
| InputEvents.KeyMapFromTable | neo/sys/common/events.cpp:122-528 | every engine key of the inverse table comes back from its SDL key |
| InputEvents.KeyMapToTable | neo/sys/common/events.cpp:122-528 | every mapped SDL key is the table's key for its engine key, except SDLK_MODE, which shares K_RALT with SDLK_RALT |
| InputEvents.MapCharForKey | neo/sys/common/events.cpp:662-665 | key & 0xff is in [0, 256) and congruent to key mod 256 |
| InputEvents.MapCharKeepsAscii | neo/sys/common/events.cpp:662-665 | a key below 256 maps to itself |
| InputEvents.Pending | neo/sys/common/events.cpp:694-712 | the events not yet handed out are those after eventHead |
| InputEvents.Que | neo/sys/common/events.cpp:714-724 | Sys_QueEvent appends exactly the one event to the pending events |
| InputEvents.GetIsFifo | neo/sys/common/events.cpp:694-712 | Sys_GetEvent hands out the oldest pending event and advances eventHead by one; with none pending it returns SE_NONE and changes nothing |
| InputEvents.DrainIsPending | neo/sys/common/events.cpp:694-712 | reading everything out returns the pending events, oldest first |
| InputEvents.QueThenDrain | neo/sys/common/events.cpp:694-724 | queueing events then draining gives what was pending followed by them |
| InputEvents.Clear | neo/sys/common/events.cpp:998-1009 | Sys_ClearEvents empties the keyboard, mouse and event lists and resets eventHead to 0 |
| InputEvents.ReturnKeyboardInputEvent | neo/sys/common/events.cpp:1045-1053 | returns 0 and no entry past the end, otherwise 1 and entry n |
| InputEvents.TextChars | neo/sys/common/events.cpp:851-870 | one SE_CHAR per byte of the text, in order, as a signed char |
| InputEvents.WheelPairs | neo/sys/common/events.cpp:896-911 | a wheel step appends one M_DELTAZ of +1 or -1 and queues the wheel key pressed then released, back to back |
| InputEvents.HandleAppends | neo/sys/common/events.cpp:726-936 | every handled event only appends to the queue and the poll lists and leaves eventHead alone |
| InputEvents.KeyFilterAppends | neo/sys/common/events.cpp:775-847 | a key event only appends to the queue and the keyboard polls |
| InputEvents.QueAllAppends | neo/sys/common/events.cpp:714-724 | queueing several events appends them in order |
| InputEvents.TextQueuesEachByte | neo/sys/common/events.cpp:849-876 | text input queues one SE_CHAR per byte in order, and SDL keeps the event only for an empty or one-character text |
| InputEvents.KeyEventQueues | neo/sys/common/events.cpp:775-847 | a key event that is neither Alt+Enter nor Ctrl+G pressed: a mapped key queues one SE_KEY with its state and records one keyboard poll, a backspace press also queues SE_CHAR backspace, and an unmapped key changes nothing |
| InputEvents.KeyShortcuts | neo/sys/common/events.cpp:775-801 | a press of Enter with Alt pushes "vid_restart" and a press of G with Ctrl flips in_nograb; either is consumed and queues and polls nothing, and otherwise neither the pushed commands nor in_nograb change |
| InputEvents.EventSystem.constructor | neo/sys/common/events.cpp:102-109 | the queues start empty with eventHead 0 |
| InputEvents.EventSystem.QueEvent | neo/sys/common/events.cpp:714-724 | the state moves by Que |
| InputEvents.EventSystem.GetEvent | neo/sys/common/events.cpp:694-712 | the result and the state are those of Get |
| InputEvents.EventSystem.ClearEvents | neo/sys/common/events.cpp:998-1009 | the state becomes Clear of the old one |
| InputEvents.EventSystem.PollKeyboardInputEvents | neo/sys/common/events.cpp:1035-1038 | returns the number of keyboard polls |
| InputEvents.EventSystem.ReturnKeyboardEvent | neo/sys/common/events.cpp:1045-1053 | returns what ReturnKeyboardInputEvent says and leaves key and state as they were past the end |
| InputEvents.EventSystem.EndKeyboardInputEvents | neo/sys/common/events.cpp:1060-1063 | empties the keyboard polls and nothing else |
| InputEvents.EventSystem.PollMouseInputEvents | neo/sys/common/events.cpp:1070-1090 | copies the first min(count, MAX_MOUSE_EVENTS) polls in order, returns that number and empties the mouse list |
| InputEvents.EventSystem.HandleSdlEvent | neo/sys/common/events.cpp:726-936 | the state and the result are those of Handle |
| InputEvents.EventSystem.HandleMotion | neo/sys/common/events.cpp:877-895 | absolute coordinates while the shell is active, relative otherwise, plus the M_DELTAX and M_DELTAY polls |
| InputEvents.EventSystem.HandleWheel | neo/sys/common/events.cpp:896-911 | the state moves by Handle of the wheel event |
| InputEvents.EventSystem.HandleButton | neo/sys/common/events.cpp:913-935 | left, middle and right buttons queue K_MOUSE1, K_MOUSE3, K_MOUSE2 and a poll; other buttons change nothing |
| InputEvents.EventSystem.HandleKey | neo/sys/common/events.cpp:775-847 | the state and the result are those of KeyFilter |
| InputEvents.EventSystem.LookupKey | neo/sys/common/events.cpp:808-835 | the console key by scancode, else the map, else the layout's console keys |
| InputEvents.EventSystem.PressKey | neo/sys/common/events.cpp:837-844 | a known key's SE_KEY, poll and backspace SE_CHAR |
| InputEvents.EventSystem.HandleText | neo/sys/common/events.cpp:849-876 | the state and the result are those of TextFilter |
| OpenGLImp.BaseStencilIsEight | neo/renderer/OpenGL/OpenGL.cpp:269-288 | the base stencil stays 8: the stencil case reached by the missing break at i = 4, and at i = 12, finds neither 24 nor 16 |
| OpenGLImp.BaseByGroup | neo/renderer/OpenGL/OpenGL.cpp:259-288 | the base is 24/24/8 for attempts 0-3, depth 16 from 4, colour 16 from 8, and unchanged at 12 |
| OpenGLImp.ScheduleIsTable | neo/renderer/OpenGL/OpenGL.cpp:263-320 | the sixteen attempts try the formats of an independently written table, in order |
| OpenGLImp.LastGroupRepeatsThird | neo/renderer/OpenGL/OpenGL.cpp:283-288 | attempts 12-15 repeat attempts 8-11 |
| OpenGLImp.FallbacksNeverGrow | neo/renderer/OpenGL/OpenGL.cpp:291-320 | every attempt asks for 16 or 24 colour bits, 8 to 24 depth bits and 0 or 8 stencil bits |
| OpenGLImp.EightBitChannels | neo/renderer/OpenGL/OpenGL.cpp:322-324 | the per-channel size is 8 exactly at attempts 0-2 and 4-6, where the colour bits are 24 |
| OpenGLImp.Request | neo/renderer/OpenGL/OpenGL.cpp:322-341 | red, green and blue get the channel size, depth and stencil the attempt's bits, alpha 0 under r_waylandcompat and the channel size otherwise |
| OpenGLImp.Requests | neo/renderer/OpenGL/OpenGL.cpp:263-363 | the attribute requests of attempts 0 .. n-1, in order |
| OpenGLImp.FirstCreated | neo/renderer/OpenGL/OpenGL.cpp:357-390 | the first attempt at which SDL creates a context, if any |
| OpenGLImp.GLImp.constructor | neo/renderer/OpenGL/OpenGL.cpp:259-261 | no context, nothing requested yet |
| OpenGLImp.GLImp.Init | neo/renderer/OpenGL/OpenGL.cpp:249-397 | at most 16 attempts, stopping at the first that creates a context; glConfig records exactly that attempt's colour, depth and stencil bits, stereo and multisamples; with no context it returns false and glConfig keeps its values |
| OpenGLImp.GLImp.TryFormats | neo/renderer/OpenGL/OpenGL.cpp:263-391 | the loop finds the first created context, its format and the requests made |
| OpenGLImp.GLImp.AttemptRequest | neo/renderer/OpenGL/OpenGL.cpp:322-341 | the SDL_GL_SetAttribute calls of attempt i |
| OpenGLImp.GLImp.ReduceBase | neo/renderer/OpenGL/OpenGL.cpp:269-289 | the switch with its missing break computes Reduce |
| OpenGLImp.GLImp.VaryBase | neo/renderer/OpenGL/OpenGL.cpp:291-320 | the attempt's variation computes Vary |
| OpenGLImp.GLImp.SwapBuffers | neo/renderer/OpenGL/OpenGL.cpp:458-474 | a modified r_swapInterval is taken once and mapped by SwapIntervalFor, and the frame is shown |
| OpenGLImp.GLImp.Shutdown | neo/renderer/OpenGL/OpenGL.cpp:425-433 | destroys and nulls the context if there is one, otherwise does nothing, so a second call is a no-op |
| OpenGLImp.SwapIntervalFor | neo/renderer/OpenGL/OpenGL.cpp:464-468 | 1 maps to -1 with tear control and to 1 without, 2 maps to 1, anything else to 0 |
| SoundSDL.IsPlaying | neo/sound/SDL/SDLSoundVoice.cpp:112-115 | a voice is reported playing only when its playing flag is set, and a voice playing without looping is not reported as playing |
| SoundSDL.CompatibleFormat | neo/sound/SDL/SDLSoundVoice.cpp:104-110 | a voice is compatible with any sample exactly when it holds no buffer |
| SoundSDL.FramesToCheckAsWritten | neo/sound/SDL/SDLSoundVoice.cpp:89 | between 0 and 128 frames; never more than remain when the cursor is inside the buffer; 128 when the cursor is past the end, because the size_t difference wraps |
| SoundSDL.PauseRoundTrip | neo/sound/SDL/SDLSoundVoice.cpp:68-76 | Pause and UnPause only set the paused flag: UnPause undoes Pause and Pause after UnPause is Pause again |
| SoundSDL.StopAfterStart | neo/sound/SDL/SDLSoundVoice.cpp:52-66 | Stop erases a Start, stopping twice is stopping once, and a stopped voice is neither playing nor paused |
| SoundSDL.DestroyResets | neo/sound/SDL/SDLSoundVoice.cpp:104-137 | DestroyInternal leaves a voice that is not playing and is compatible with every sample, and a second call changes nothing |
| SoundSDL.CreateWhilePlaying | neo/sound/SDL/SDLSoundVoice.cpp:32-43 | Create on a playing voice records the lead-in's channels and rate, stops it and creates no stream |
| SoundSDL.NeverLoopsNorBuffers | neo/sound/SDL/SDLSoundVoice.cpp:14-137 | from a voice that neither loops nor holds a buffer, no sequence of Create/Start/Stop/Pause/UnPause/DestroyInternal/bind makes it loop or hold a buffer, so it is never playing and always compatible |
| SoundSDL.SizeT | neo/sound/SDL/SDLSoundVoice.cpp:89 | size_t arithmetic: the result is in [0, 2^64) and congruent to the value |
| SoundSDL.AmplitudeDividesByZero | neo/sound/SDL/SDLSoundVoice.cpp:83-89 | a fresh voice that is created and started passes GetAmplitude's guard with m_channels still 0 and no buffer |
| SoundSDL.AmplitudeFrames | neo/sound/SDL/SDLSoundVoice.cpp:83-100 | between 0 and 128 frames; frames only for a playing, unpaused voice with channels and a buffer, and then the count GetAmplitude computes |
| SoundSDL.NoAmplitudeFrames | neo/sound/SDL/SDLSoundVoice.cpp:83-115 | for every voice these files can produce, GetAmplitude checks no frames |
| SoundSDL.Voice.constructor | neo/sound/SDL/SDLSoundVoice.cpp:14-25 | the fresh voice state |
| SoundSDL.Voice.Create | neo/sound/SDL/SDLSoundVoice.cpp:32-50 | the voice's new state is CreatedWith of its old state |
| SoundSDL.Voice.Start | neo/sound/SDL/SDLSoundVoice.cpp:52-57 | the voice's new state is Started of its old state |
| SoundSDL.Voice.Stop | neo/sound/SDL/SDLSoundVoice.cpp:59-66 | the voice's new state is Stopped of its old state |
| SoundSDL.Voice.Pause | neo/sound/SDL/SDLSoundVoice.cpp:68-71 | only the paused flag is set |
| SoundSDL.Voice.UnPause | neo/sound/SDL/SDLSoundVoice.cpp:73-76 | only the paused flag is cleared |
| SoundSDL.Voice.DestroyInternal | neo/sound/SDL/SDLSoundVoice.cpp:117-137 | the voice's new state is Destroyed of its old state |
| SoundSDL.Voice.BindStream | neo/sound/SDL/SDLSoundHardware.cpp:160 | only the stream's bound flag is set |
| SoundSDL.Voice.AmplitudeFrameCount | neo/sound/SDL/SDLSoundVoice.cpp:83-100 | the frame count of AmplitudeFrames for the voice's state |
| SoundSDL.RemoveFirst | neo/sound/SDL/SDLSoundHardware.cpp:156-176 | idList::Remove takes one occurrence of x out (as a multiset), shortens the list by one when x is present and changes nothing otherwise |
| SoundSDL.PickMeaning | neo/sound/SDL/SDLSoundHardware.cpp:138-149 | AllocateVoice's search returns a free voice that is not playing; a compatible one only with no usable voice before it; an incompatible one only when no voice is usable and every later one is playing; none only when every voice is playing |
| SoundSDL.PickFrom | neo/sound/SDL/SDLSoundHardware.cpp:141-149 | the loop invariant of that search from position i with the candidate so far |
| SoundSDL.PickTakesHead | neo/sound/SDL/SDLSoundHardware.cpp:138-149 | with voices that never loop nor hold a buffer, the search takes the head of a non-empty free list |
| SoundSDL.MoveKeepsPartition | neo/sound/SDL/SDLSoundHardware.cpp:155-177 | moving a voice from one list to the end of the other keeps every voice on exactly one of the two lists |
| SoundSDL.UsedAfterInit | neo/sound/SDL/SDLSoundHardware.cpp:70-72 | the used list after Init: 96 null entries as written, empty as intended |
| SoundSDL.UsedListAsWritten | neo/sound/SDL/SDLSoundHardware.cpp:72 | the null entries leave the partition intact, but the k-th voice appended after Init lands at index 96 + k as written, behind 96 entries that are null and no voice, and at index k as intended |
| SoundSDL.SoundHardware.constructor | neo/sound/SDL/SDLSoundHardware.cpp:70-77 | no voices, empty lists, device closed |
| SoundSDL.SoundHardware.Init | neo/sound/SDL/SDLSoundHardware.cpp:70-79 | 96 distinct fresh voices, all on the free list in order; the used list pre-sized with 96 null entries as written and empty as intended; every voice on exactly one list |
| SoundSDL.SoundHardware.AllocateVoice | neo/sound/SDL/SDLSoundHardware.cpp:124-165 | null for a null lead-in or when the search finds nothing; otherwise the voice the search picks is created, taken off the free list, appended to the used list and bound, no other voice changes, and the partition is kept |
| SoundSDL.SoundHardware.TakeVoice | neo/sound/SDL/SDLSoundHardware.cpp:151-161 | the chosen voice is created, moved from the free list to the end of the used list and bound |
| SoundSDL.SoundHardware.FreeVoice | neo/sound/SDL/SDLSoundHardware.cpp:173-181 | the voice leaves the used list, goes to the end of the free list and is stopped; the partition is kept |
| SoundSDL.SoundHardware.Shutdown | neo/sound/SDL/SDLSoundHardware.cpp:82-96 | every voice on the used list is stopped, its null entries skipped, then every voice is destroyed, all lists are empty and the device is closed |
| SoundSDL.ChooseFreeVoice | neo/sound/SDL/SDLSoundHardware.cpp:140-149 | the search loop returns exactly the voice Pick names, and null when Pick finds none |
| SoundSDL.InitThenAllocate | neo/sound/SDL/SDLSoundHardware.cpp:70-161 | after Init the first allocation takes the first voice of the pool and it lands at index 96 of the used list as written, behind 96 null entries, and at index 0 as intended; the partition holds |
| SoundSDL.StopAll | neo/sound/SDL/SDLSoundHardware.cpp:84-88 | every voice the list names is stopped; null entries are skipped |
| SoundSDL.DestroyAll | neo/sound/SDL/SDLSoundHardware.cpp:92 | every voice on the list is destroyed |
| WinCpu.HalveTestBit | neo/sys/win32/win_cpu.cpp:55-59 | halving a one-bit test mask moves its bit one position down |
| WinCpu.CountSetBits | neo/sys/win32/win_cpu.cpp:52-63 | the count is the number of 1 bits of the 64-bit mask |
| WinCpu.CountStep | neo/sys/win32/win_cpu.cpp:57-60 | one turn tests bit p and adds it to the count of the bits above |
| WinCpu.BitSetIsShiftedBit | neo/sys/win32/win_cpu.cpp:58 | the masked test agrees with reading the bit through a shift down |
| WinCpu.OnesBounds | neo/sys/win32/win_cpu.cpp:52-63 | an empty mask has no set bits, a full mask 64, and no mask more than 64 |
| WinCpu.EmptyFrom | neo/sys/win32/win_cpu.cpp:52-63 | induction for OnesBounds: no bits of the empty mask from position p up |
| WinCpu.FullFrom | neo/sys/win32/win_cpu.cpp:52-63 | induction for OnesBounds: every bit of the full mask from position p up |
| WinCpu.AtMostFrom | neo/sys/win32/win_cpu.cpp:52-63 | induction for OnesBounds: at most 64 - p bits from position p up |
| WinCpu.BitOfUnion | neo/sys/win32/win_cpu.cpp:58 | a bit of a \| b is set exactly when it is set in a or b, and not in both when a & b is 0 |
| WinCpu.OnesOfDisjointUnion | neo/sys/win32/win_cpu.cpp:52-63 | for masks with no common bit the count of the union is the sum of the counts |
| WinCpu.UnionFrom | neo/sys/win32/win_cpu.cpp:52-63 | induction for OnesOfDisjointUnion from position p up |
| WinCpu.CacheUpdate | neo/sys/win32/win_cpu.cpp:144-157 | the corrected cache branch: every descriptor adds one to the count, the first descriptor of the level sets the details and later ones keep them |
| WinCpu.TallyRecordWith | neo/sys/win32/win_cpu.cpp:131-168 | one pass of the switch keeps three cache entries |
| WinCpu.Tally | neo/sys/win32/win_cpu.cpp:130-170 | the walk over the records keeps three cache entries |
| WinCpu.TallyAsWritten | neo/sys/win32/win_cpu.cpp:130-170 | the walk with the cache branch as written keeps three cache entries |
| WinCpu.CountOf | neo/sys/win32/win_cpu.cpp:130-170 | the number of records of a kind is at most the number of records |
| WinCpu.FirstCache | neo/sys/win32/win_cpu.cpp:144-157 | a found first descriptor is one of the records at that level |
| WinCpu.LastCache | neo/sys/win32/win_cpu.cpp:144-157 | a found last descriptor is one of the records at that level |
| WinCpu.TallyCountsRecords | neo/sys/win32/win_cpu.cpp:101-170 | from a zeroed cpuInfo: one core per core record, the set bits of the masks as logical processors, one NUMA node and one package per record of those kinds, and for each cache level the number of its descriptors with the details of its first |
| WinCpu.CacheStep | neo/sys/win32/win_cpu.cpp:144-157 | one more record changes a level's entry exactly by CacheUpdate when it is a cache record of that level |
| WinCpu.FirstCacheIffCounted | neo/sys/win32/win_cpu.cpp:144-157 | a level has a first descriptor exactly when its count is positive |
| WinCpu.CacheCountStaysZero | neo/sys/win32/win_cpu.cpp:101-157 | as written, no cache count ever leaves 0, and each level keeps the details of its last descriptor |
| WinCpu.OneCacheShowsIt | neo/sys/win32/win_cpu.cpp:144-157 | one level-1 descriptor gives count 0 as written and 1 as intended |
| WinCpu.CacheUpdateAsWritten | neo/sys/win32/win_cpu.cpp:147-156 | the cache branch as written: a count is positive afterwards exactly when it was before; a count of 0 or less stays as it is and takes the descriptor's details |
| WinCpu.TallyAsWrittenRecords | neo/sys/win32/win_cpu.cpp:101-170 | from a zeroed cpuInfo, as written: the core, NUMA, package and logical counts of the corrected walk, and every cache level at count 0 with its last descriptor's details, or zeroed when it has none |
| WinCpu.CacheStepAsWritten | neo/sys/win32/win_cpu.cpp:144-157 | one more record changes a level's entry as written exactly by CacheUpdateAsWritten when it is a cache record of that level |
| WinCpu.CpuInfoOf | neo/sys/win32/win_cpu.cpp:92-175 | what GetCPUInfo leaves keeps three cache entries |
| WinCpu.CpuInfo.constructor | neo/sys/win32/win_cpu.cpp:184 | the uninitialised stack cpuInfo holds whatever it held |
| WinCpu.CpuInfo.GetCPUInfo | neo/sys/win32/win_cpu.cpp:92-175 | zeroed and false when the entry point is missing or the query fails; otherwise true and the walk over the complete records of returnLength bytes, with the cache branch as written (TallyAsWritten) or, when intended, as corrected (Tally) |
| WinCpu.CpuInfo.Clear | neo/sys/win32/win_cpu.cpp:101 | every count and cache entry is 0 |
| WinCpu.CpuInfo.TallyOne | neo/sys/win32/win_cpu.cpp:131-167 | one pass of the switch changes cpuInfo as TallyRecordWith does, with the cache branch as written unless intended |
| WinCpu.CPUCount | neo/sys/win32/win_cpu.cpp:202-209 | with the source's cache branch: the core count, the set bits of the core masks and the package count of the records, 0 each when the query fails |
| WinCpu.GetCPUCacheSize | neo/sys/win32/win_cpu.cpp:182-191 | 0 each when the query fails; otherwise as written count 0 with the level's last descriptor's size and line size, and when intended the level's number of descriptors with its first one's details |
| CpuFeatures.CString | neo/sys/common/cpu.cpp:180-186 | the text strcmp compares: the longest NUL-free prefix of the buffer, ending at its first NUL |
| CpuFeatures.Padded | neo/sys/common/cpu.cpp:63-84 | the twelve vendor chars followed by NULs up to the buffer's 32 chars |
| CpuFeatures.VendorFlag | neo/sys/common/cpu.cpp:179-186 | CPUID_AMD exactly for "AuthenticAMD", CPUID_INTEL exactly for "GenuineIntel", CPUID_GENERIC otherwise |
| CpuFeatures.ProcessorIdFlags | neo/sys/common/cpu.cpp:103-215 | each flag of the composed id is set exactly when its test holds: one vendor flag, MMX, 3DNow!, SSE together with FTZ, SSE2, SSE3, CMOV from bit 15 of EDX, DAZ from bit 6; no other flag, and never CPUID_NONE |
| CpuFeatures.FeaturesOnlyAdd | neo/sys/common/cpu.cpp:188-213 | flags are only OR-ed in: more features never clear a flag |
| CpuFeatures.ProcessorIdIgnoresCpu | neo/sys/common/cpu.cpp:172-215 | as written GetCPUInfo is never called, so every processor is reported generic, without AMD, Intel, 3DNow! or CMOV |
| CpuFeatures.GenericPrefix | neo/sys/common/cpu.cpp:63 | the initial vendor buffer reads as "Generic" |
| CpuFeatures.CStringOfTerminated | neo/sys/common/cpu.cpp:180-183 | a buffer whose first NUL is at n reads as its first n chars |
| CpuFeatures.PaddedReadsBack | neo/sys/common/cpu.cpp:180-186 | twelve NUL-free vendor chars copied into the zeroed buffer read back as themselves |
| CpuFeatures.CpuState.constructor | neo/sys/common/cpu.cpp:60-64 | the statics as initialised: vendor and brand "Generic", nIds and nExIds 0, cpui zero, no cached id |
| CpuFeatures.CpuState.Has3DNow | neo/sys/common/cpu.cpp:108-121 | with leaf 0x80000001 available cpui becomes that leaf's registers and the result is EDX bit 31; otherwise false and cpui unchanged |
| CpuFeatures.CpuState.GetProcessorId | neo/sys/common/cpu.cpp:172-216 | a cached id is returned unchanged; otherwise the id is composed from the vendor and the tests, with CMOV read from the EDX the 3DNow! query left, then cached; the result is never CPUID_NONE |
| CpuFeatures.CpuState.ComposeId | neo/sys/common/cpu.cpp:179-213 | the sequence of vendor check and OR-ed tests computes ProcessorIdOf |
| CpuFeatures.CpuState.CpuidInto | neo/sys/common/cpu.cpp:73 | cpui becomes the four registers of the leaf when the query is answered, and stays as it was when cpuid.h refuses a leaf beyond the reported range |
| CpuFeatures.CpuState.GetCPUInfo | neo/sys/common/cpu.cpp:66-101 | vendor, brand, nIds, nExIds and cpui become InfoOf: nIds from leaf 0, nExIds from leaf 0x80000000, the vendor from the EBX, EDX, ECX of leaf 0x80000000 as written (leaf 0 when intended), the brand walked over the extended leaves when nExIds >= 0x80000004, and cpui those of the last leaf queried; the cached id and MXCSR are untouched |
| CpuFeatures.CpuState.ReadRanges | neo/sys/common/cpu.cpp:68-84 | nIds is leaf 0's EAX, nExIds leaf 0x80000000's EAX, cpui that leaf's registers, and the vendor the twelve chars of the chosen leaf's EBX, EDX, ECX padded with NULs |
| CpuFeatures.CpuState.BrandLoop | neo/sys/common/cpu.cpp:89-99 | cpui and brand are those of BrandWalk from 0x80000000 to nExIds inclusive; no other field changes |
| CpuFeatures.CpuState.CopyBrandLeaf | neo/sys/common/cpu.cpp:93-98 | leaf 0x80000002, 3 or 4 writes cpui's sixteen chars at brand + 0, 16 or 32; any other leaf leaves brand as it was |
| CpuFeatures.BrandWalkPastBrand | neo/sys/common/cpu.cpp:89-99 | leaves past 0x80000004 are queried but leave the brand as it was |
| CpuFeatures.BrandLeavesFill | neo/sys/common/cpu.cpp:91-98 | with leaves 0x80000002 to 0x80000004 answered, the walk from 0x80000002 leaves their registers at brand + 0, 16 and 32 and the last sixteen chars unchanged |
| CpuFeatures.BrandWalkBrand | neo/sys/common/cpu.cpp:87-100 | when the extended range reaches 0x80000004 the brand holds the registers of leaves 0x80000002, 0x80000003 and 0x80000004 in that order, followed by the untouched last sixteen chars |
| CpuFeatures.InfoWithExtendedLeaves | neo/sys/common/cpu.cpp:73-84 | with leaf 0 reporting a nonzero range and leaf 0x80000000 a range of at least 0x80000001, nExIds is leaf 0x80000000's EAX and the vendor reads as the chosen leaf's EBX, EDX, ECX text |
| CpuFeatures.ExtendedIdFlags | neo/sys/common/cpu.cpp:66-216 | after GetCPUInfo the id carries CPUID_AMD or CPUID_INTEL exactly when the vendor text is AuthenticAMD or GenuineIntel, and CPUID_3DNOW and CPUID_CMOV exactly when bits 31 and 15 of leaf 0x80000001's EDX are set |
| CpuFeatures.IntelVendorLost | neo/sys/common/cpu.cpp:78-84 | an Intel processor, whose leaf 0 spells GenuineIntel and whose leaf 0x80000000 has zero EBX, ECX and EDX, is reported generic and not Intel when the vendor is copied after the 0x80000000 query; copied after leaf 0 it is reported Intel |
| CpuFeatures.CpuState.GetProcessorIdAfterInfo | neo/sys/common/cpu.cpp:66-216 | with no cached id, GetCPUInfo followed by Sys_GetProcessorId returns IdAfterInfo for the processor; a cached id is returned as it is; the result is never CPUID_NONE and is cached |
| CpuFeatures.ProcessorIdAsWritten | neo/sys/common/cpu.cpp:172-215 | with GetCPUInfo never called, the id is the one composed for vendor "Generic" with neither 3DNow! nor CMOV |
| CpuFeatures.CpuState.SetRounding | neo/sys/common/cpu.cpp:323-346 | MXCSR bits 13-14 become rounding & 3 and every other bit is kept; the x87 mode is roundingModes[rounding & 3], in bounds for every argument |
| CpuFeatures.CpuState.SetDAZ | neo/sys/common/cpu.cpp:353-360 | afterwards the denormals-zero mode is on exactly when enabled, and MXCSR is written only when the mode differed |
| CpuFeatures.CpuState.SetDenormalsZeroMode | neo/sys/common/cpu.cpp:357-359 | bit 6 of MXCSR replaced by the mode |
| CpuFeatures.CpuState.SetFTZ | neo/sys/common/cpu.cpp:367-374 | afterwards the flush-to-zero mode is on exactly when enabled, and MXCSR is written only when the mode differed |
| CpuFeatures.CpuState.SetFlushZeroMode | neo/sys/common/cpu.cpp:371-373 | bit 15 of MXCSR replaced by the mode |
| CpuFeatures.DazKeepsFtz | neo/sys/common/cpu.cpp:353-360 | SetDAZ leaves the flush-to-zero mode |
| CpuFeatures.FtzKeepsDaz | neo/sys/common/cpu.cpp:367-374 | SetFTZ leaves the denormals-zero mode |
| CpuFeatures.RequestedKeepsRounding | neo/sys/common/cpu.cpp:353-374 | neither SetDAZ nor SetFTZ changes the rounding field |
| CpuFeatures.RequestedBit | neo/sys/common/cpu.cpp:353-374 | the mode bit is on afterwards exactly when enable is true |
| CpuFeatures.RequestedKeepsRest | neo/sys/common/cpu.cpp:353-374 | every other MXCSR bit is kept |
| CpuFeatures.KeptBitsKeepFtz | neo/sys/common/cpu.cpp:369 | values agreeing outside bit 6 agree on flush-to-zero |
| CpuFeatures.KeptBitsKeepDaz | neo/sys/common/cpu.cpp:123-131 | values agreeing outside bit 15 agree on denormals-zero |
| CpuFeatures.KeptBitsKeepRounding | neo/sys/common/cpu.cpp:342-344 | values agreeing outside a mode bit have the same rounding field |
| CpuFeatures.RoundingUnitsAgree | neo/sys/common/cpu.cpp:326-345 | after SetRounding the SSE rounding field is rounding & 3 and names the same mode as the x87 table entry |

## Left out

Shadow-volume builder (`shadowopt3.cpp`):
- ClipTriangle_r and ClipOccluders are left out: they rest on idWinding::Split, FindFloatPlane and _alloca.
- OptimizeOutputTris, OptimizeGroupList and FreeTriList are left out: they are the triangle optimizer, not index bookkeeping.
- LightProjectionMatrix, ProjectUniqued and ProjectPointsToFarPlane are left out. The far-plane copies of the vertices are not computed. Vertex v + 1 (or v + n in the optimizer) simply stands for the projection of vertex v.
- FragmentSilQuad's fractional splitting is left out, as are GenerateSilPlanes' normalised cross products and EDGE_PLANE_EPSILON. They are floating-point geometry. SuperOptimizeOccluders is modelled only for its index assembly, without SO_CLIP_SILS fragmenting and without vertex placement.
- CreateLightShadow, the Printf statistics and the c_caps / c_sils counters are left out.
- The SIMDProcessor calls of CalcPointCull are replaced by direct per-vertex comparisons.
- The surface bounds' plane distances come from idBounds and are an input. R_GlobalPlaneToLocal and the light's frustum planes are inputs too.
- CalcInteractionFacing's facing bits are an input: ShadowCull takes them as a sequence.
- The callOptimizer branch of CreateShadowVolumeInFrustum (shadowopt3.cpp:2020-2070) is left out. That branch replaces the pass's output with SuperOptimizeOccluders' vertices and indexes. The model follows the real-time path, as when callOptimizer is false; the optimizer's parts are modelled separately.
- LIGHT_CLIP_EPSILON is used by the file but is defined in a header that is not part of this model. It is a named constant of 0.1 here.
- Coordinates are reals. Single-precision rounding, including the division that places a split point, is not modelled. Properties about a split point's distance are stated for exact arithmetic.
- The qsort of GenerateSilEdges is a C library call, so GenerateSilEdges is split in two. CollectEdgeKeys packs the keys. MatchSortedEdges matches them and requires its input to be sorted; EdgeSort states the order qsort is given.
- The "Shadow volume exceeded allocation" FatalError and the two "bad remap[]" errors cannot be reached by the model's states, so they are not modelled.
- ShadowPass.AssembleSurface builds the output index list as a sequence instead of memcpy-ing ranges into an array.
- ShadowClip.ChopWinding requires, when the polygon is split, numVerts below MAX_CLIPPED_POINTS and an output of at most MAX_CLIPPED_POINTS corners. The source writes in->verts[numVerts] and the output corners without a check.
- ShadowEdges.CollectEdgeKeys requires vertex indexes below 2^15, as the 32-bit key packing needs. The source does not check this.
- ShadowWeld.Welder.FindUniqueVert requires room in the table when the vertex is new, and ShadowWeld.UniqueVerts requires at most MAX_UNIQUED distinct vertices. The source raises common->Error in both cases.
- ShadowCleanup.CleanupOptimizedShadowTris requires every index to be below numVerts. The source stops with common->Error on an index above numVerts; see Findings for an index equal to numVerts.

Map compiler (`map.cpp`):
- Map loading, parsing and allocation are left out: LoadDMapFile, ParseBrush, ParsePatch, ParseSurface, FinishBrush, CreateMapLight(s), the material lookup of DeriveLightData, and FreeDMapFile.
- SetLightProject, SetLightFrustum and PolytopeSurface are left out: they do floating-point plane normalisation and idFixedWinding clipping.
- A material is reduced to its content flags and whether its coverage is MC_OPAQUE.
- MapBrush.SetBrushContents requires the first side to carry a material. The source dereferences sides[0].material without a check.
- Planes from idPlane::FromPoints are not normalised, because only the signs of distances are read.

Platform layer:
- OpenGL: QGL_Init function-pointer loading, DebugOutputCall and the declarations in OpenGL.h are left out. Whether SDL_GL_CreateContext succeeds is an input, one outcome per attempt.
- OpenGLImp.GLImp.Init requires multiSamples below 256, because the source passes it as a uint8_t.
- posix_console.cpp: termios and fcntl set-up, raw read and write calls, the non-tty select/read path and the Sys_Printf family are left out. stdin is a byte sequence and the terminal is an output log. The edit field's own key handling is a function parameter, because idEditField is not part of this model.
- events.cpp: event-filter registration, the window focus, resize and move handlers that only set cvars, PushConsoleEvent's heap copies, Sys_GenerateEvents and SDL_PollEvent draining are left out. The keyNum_t, mouse-action and sysEventType_t values are symbolic. Mouse motion deltas are integers, not floats.
- InputEvents.KeyShortcuts: Alt+Enter also sets the r_fullscreen cvar before pushing vid_restart; that cvar write is left out with the other cvars.
- InputEvents.ReturnKeyboardInputEvent: returns 0 for a negative n, where the source indexes kbd_polls out of bounds.
- InputEvents.EventSystem.HandleText and InputEvents.TextQueuesEachByte: the text of a text-input event holds no NUL, because the source reads it as a C string.
- Sound: SDL streams and devices are reduced to flags. Sample data, mixing, gain and SDLSoundSample.h are left out. The RMS sum of GetAmplitude is left out because it uses float sqrt; only its guard and frame count are modelled.
- A voice's m_volume and m_pitch are not modelled, because they are floats that no modelled branch reads.
- SoundSDL.SoundHardware.Init: the device is taken to open. The source stops with FatalError when neither device opens.
- SoundSDL.SoundHardware.Init takes an intended flag: false pre-sizes the used list with SetNum( 96 ) as the source does, true leaves it empty. idList::SetNum is not part of this model, and the 96 entries it adds are taken to be null pointers, so Shutdown's null check skips them.
- SoundSDL.Voice.Create: stream creation is taken to succeed. The source calls common->Error when it fails.
- WinCpu.CpuInfo.GetCPUInfo, WinCpu.CpuInfo.TallyOne and WinCpu.GetCPUCacheSize take an intended flag: false runs the cache branch as written, true the corrected one. WinCpu.CPUCount runs it as written; it reads no cache entry.
- win_cpu.cpp: the GetLogicalProcessorInformation call and its buffer-growing retry loop are left out. Whether the entry point exists, whether the query fails, the records and returnLength are inputs.
- CpuFeatures.CpuState.GetCPUInfo: the loop counter is an int. With nExIds = 0xFFFFFFFF the source's uint32_t counter wraps to 0 and the loop never ends; the model stops after that leaf.
- CpuFeatures.CpuState.GetCPUInfo and CpuFeatures.CpuState.GetProcessorIdAfterInfo take an intended flag: false copies the vendor after the leaf 0x80000000 query as the source does, true after the leaf 0 query.
- cpu.cpp: the CPUID instruction (answers per leaf are a Processor input; the cpuid.h range check is a flag), the intrinsics, fenv access, feenableexcept and the SDL feature probes are left out; their results are inputs or fields. Sys_GetSystemRam, Sys_CPUCount (an SDL wrapper in this file) and the FPU stubs (PrintStateFlags, StackIsEmpty, ClearStack, GetState, EnableExceptions, SetPrecision) are left out, because they carry no logic of their own.
- Other process and OS glue is left out: the main loop, paths, WMI queries, allocation hooks, windowing, joystick stubs and the header files.

## Findings

| source | as written | input that shows it | evidently intended | confidence | as-written member | corrected member |
|---|---|---|---|---|---|---|
| neo/sys/win32/win_cpu.cpp:149-155 | a cache level's count is incremented only when it is already positive, and the memset starts it at 0, so it never leaves 0; each level keeps the details of its last descriptor | one level-1 cache descriptor: the level-1 count stays 0 | every descriptor counts one, and the first descriptor's details are kept | not executed; high | WinCpu.CacheUpdateAsWritten (WinCpu.CacheCountStaysZero, WinCpu.TallyAsWrittenRecords, WinCpu.OneCacheShowsIt) | WinCpu.CacheUpdate (WinCpu.TallyCountsRecords) |
| neo/tools/compilers/dmap/shadowopt3.cpp:1246-1269 | the range check rejects only indexes above numVerts, then remap[index] is read from an array of numVerts entries | an index equal to numVerts passes the check and is read one past the end of remap | reject any index of numVerts or more | not executed; high | ShadowCleanup.CheckRangeAsWritten (ShadowCleanup.RangeCheckLetsEndThrough) | ShadowCleanup.CheckRange |
| neo/tools/compilers/dmap/shadowopt3.cpp:77 | shadowIndexes is uint16_t while vertex slots run up to MAX_SHADOW_VERTS - 1 = 0x17FFF | an index naming slot 0x10000 is stored as 0, the first vertex | indexes hold the full vertex number | not executed; medium | ShadowBuilder.StoredAsUint16 (ShadowBuilder.StoredIndexWraps) | ShadowBuilder.IndexBuffer.Push |
| neo/sound/SDL/SDLSoundHardware.cpp:72 | SetNum( 96 ) pre-sizes the used list, so after Init it holds 96 entries that are not voices | the first allocated voice is appended at index 96, behind 96 non-voice entries | the used list starts empty | not executed; medium | SoundSDL.SoundHardware.Init (SoundSDL.InitThenAllocate, SoundSDL.UsedListAsWritten) | SoundSDL.SoundHardware.Init (SoundSDL.InitThenAllocate) |
| neo/sound/SDL/SDLSoundVoice.cpp:85-89 | GetAmplitude's guard checks only playing and paused, then divides m_size by m_channels, which nothing in these files sets | a fresh voice that is created and started: the guard passes with m_channels 0 and no buffer | no frames unless the voice has channels and a buffer | not executed; high | SoundSDL.FramesToCheckAsWritten (SoundSDL.AmplitudeDividesByZero) | SoundSDL.AmplitudeFrames (SoundSDL.NoAmplitudeFrames) |
| neo/sys/common/cpu.cpp:172-215 | GetCPUInfo is never called, so vendor stays "Generic" and cpui and nExIds stay 0 | any AMD or Intel processor is reported as CPUID_GENERIC without 3DNow! or CMOV | the processor's identity is loaded before the id is first composed | not executed; high | CpuFeatures.ProcessorIdAsWritten (CpuFeatures.ProcessorIdIgnoresCpu) | CpuFeatures.CpuState.GetProcessorIdAfterInfo (CpuFeatures.ExtendedIdFlags) |
| neo/sys/common/cpu.cpp:78-84 | the vendor is copied from EBX, EDX and ECX after the leaf 0x80000000 query, which overwrote those of leaf 0 | an Intel processor, whose leaf 0x80000000 returns zero EBX, ECX and EDX: the vendor reads empty and the id is CPUID_GENERIC | copy the vendor right after the leaf 0 query | not executed; high | CpuFeatures.CpuState.GetCPUInfo (CpuFeatures.IntelVendorLost) | CpuFeatures.CpuState.GetCPUInfo (CpuFeatures.ExtendedIdFlags) |
