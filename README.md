# Ember core in Dafny

A Dafny model of four pieces of the Ember client, with proofs of what each
piece promises.

- **Queued progressive-mesh LOD generation**
  (`src/components/ogre/lod/QueuedProgressiveMeshGenerator.cpp`). It has four parts:
  - `QueuedProgressiveMeshGenerator::build` checks a LOD configuration. It then
    snapshots the mesh's index and vertex buffers into a request. A shared
    vertex buffer is copied once.
  - The background `PMWorker` sizes its containers and ingests the vertex
    buffers into a position-deduplicated vertex list, flagging repeated
    positions as seams. It records each submesh's index width and count.
    Finally it bakes the triangles that survived simplification into one new
    index buffer per submesh, using a dummy triangle when a LOD would be empty.
  - `PMInjector` collects finished requests.
  - Each frame, `PMInjector` replaces the mesh's LOD face lists with one entry
    per generated buffer.
- **Foliage detail management**
  (`src/components/ogre/environment/FoliageDetailManager.cpp`). A clamped
  step-up/step-down controller over foliage density, in [0, 1], and far
  distance. It is driven by "change required" levels and by configuration.
- **Three pieces of the application** (`src/main/Application.cpp`):
  - the desired-fps listener, which turns a frame rate into a frame period in
    microseconds;
  - the selection of user Lua scripts, which filters on a case-insensitive
    `.lua` suffix and sorts;
  - the `quit` and `toggle_erispolling` console commands.
- **The stream log observer** (`src/framework/StreamLogObserver.cpp`). It
  formats one log line per message: a zero-padded clock, an optional detail
  part, the importance label and the message.

Modules:

| file | module | what it holds |
|---|---|---|
| `common.dfy` | `Common` | `Option`, `Outcome`, the numeric/non-numeric configuration `Variable`, truncation of a real to an integer |
| `lod_types.dfy` | `LodTypes` | requests, submesh snapshots, index and vertex buffers, the live mesh (`Mesh`) and the request object (`PMGenRequest`) |
| `lod_encoding.dfy` | `LodEncoding` | how 16- and 32-bit index values sit in a byte buffer |
| `lod_dedup.dfy` | `VertexDedup` | deduplication by position, specified on sequences |
| `lod_bake.dfy` | `LodBake` | the index buffer `bakeLods` produces for one submesh |
| `lod_snapshot.dfy` | `LodSnapshot` | `QueuedProgressiveMeshGenerator`: configuration check and buffer snapshot |
| `lod_worker.dfy` | `LodWorker` | `PMWorker`: container tuning, ingestion, baking |
| `lod_injector.dfy` | `LodInjector` | `PMInjector`: response queue and injection into the mesh |
| `foliage.dfy` | `FoliageDetail` | the step functions and `FoliageDetailManager` |
| `string_order.dfy` | `StringOrder` | lexicographic order and a sort proved sorted and a permutation |
| `application.dfy` | `Application` | the fps listener, script selection, console commands |
| `stream_log.dfy` | `StreamLog` | the log-line format and `StreamLogObserver` |

Each function of the C++ that changes state step by step is a method of a
`class` with the same fields. Its postcondition ties the new state to a
specification function, and lemmas prove what the source promises about that
function. Pure computations are functions with lemmas.

Modelling choices:

- Index values are stored least significant byte first, as on the x86 targets
  the engine is built for.
- A 16-bit index keeps the low 16 bits of a vertex id, as
  `static_cast<unsigned short>` does.
- Positions are compared only for equality.
- Directory entry names are byte strings, one `char` per byte: a UTF-8 name
  is given as its bytes. This matches `std::string::length`, the per-byte
  `::tolower` of the C locale and the byte-wise order of `std::list::sort`.
- The position-keyed `mUniqueVertexSet` is a `map` from position to
  vertex-list index.
- The lookup tables are sequences of vertex-list indices. This replaces the
  C++ pointers.
- The pointers stay valid only because `tuneContainerSize` reserves room for
  every vertex ingestion pushes. The model proves this: the largest size the
  vertex list reaches never exceeds the reserved capacity.

## Model

| member | source | states |
|---|---|---|
| Common.TruncateToInt | src/main/Application.cpp:123 | the integer a numeric setting converts to is its value truncated toward zero: within 1 of the value, on the side of zero (the conversion itself belongs to varconf; see Left out) |
| LodTypes.Mesh.RemoveLodLevels | src/components/ogre/lod/QueuedProgressiveMeshGenerator.cpp:321 | removing the LOD levels leaves every submesh with an empty LOD face list and keeps the submesh count |
| LodTypes.PMGenRequest.constructor | src/components/ogre/lod/QueuedProgressiveMeshGenerator.cpp:368-370 | a new request carries the mesh and configuration it was built for, with no submesh snapshots yet |
| LodTypes.Resize | src/components/ogre/lod/QueuedProgressiveMeshGenerator.cpp:132 | `resize` keeps the first entries, cuts or pads with the default value, and has exactly the requested length |
| LodEncoding.Narrow | src/components/ogre/lod/QueuedProgressiveMeshGenerator.cpp:262-263 | a 16-bit cast keeps values below 2^16 and always yields one below 2^16; a 32-bit cast keeps the value |
| LodEncoding.EncodeIndex | src/components/ogre/lod/QueuedProgressiveMeshGenerator.cpp:260-270 | one index occupies exactly `indexSize` bytes |
| LodEncoding.DecodeEncodeIndex | src/components/ogre/lod/QueuedProgressiveMeshGenerator.cpp:260-270 | reading back a stored index gives the vertex id narrowed to the index width |
| LodEncoding.EncodeIndices | src/components/ogre/lod/QueuedProgressiveMeshGenerator.cpp:234 | a run of n indices takes n × `indexSize` bytes |
| LodEncoding.DecodeIndices | src/components/ogre/lod/QueuedProgressiveMeshGenerator.cpp:234 | a byte buffer of the index width holds `length / indexSize` indices |
| LodEncoding.EncodeIndicesAppend | src/components/ogre/lod/QueuedProgressiveMeshGenerator.cpp:258-272 | writing two runs one after the other gives the concatenated bytes |
| LodEncoding.EncodedLength | src/components/ogre/lod/QueuedProgressiveMeshGenerator.cpp:234 | the bytes of n indices divide evenly into n indices |
| LodEncoding.DecodeEncodeIndices | src/components/ogre/lod/QueuedProgressiveMeshGenerator.cpp:258-272 | decoding an encoded run gives back every index, in order, narrowed to the width |
| VertexDedup.OccurrencesStep | src/components/ogre/lod/QueuedProgressiveMeshGenerator.cpp:164-182 | ingesting one more position adds one occurrence of it and of nothing else |
| VertexDedup.OccurrencesPositive | src/components/ogre/lod/QueuedProgressiveMeshGenerator.cpp:164-182 | a position was ingested if and only if its occurrence count is positive |
| VertexDedup.OccurrencesMultiset | src/components/ogre/lod/QueuedProgressiveMeshGenerator.cpp:164-182 | the occurrence count is the multiplicity in the multiset of ingested positions |
| VertexDedup.DedupStep | src/components/ogre/lod/QueuedProgressiveMeshGenerator.cpp:168-175 | a known position leaves the distinct list unchanged; a new one is appended |
| VertexDedup.DedupElems | src/components/ogre/lod/QueuedProgressiveMeshGenerator.cpp:164-182 | the distinct list holds exactly the ingested positions |
| VertexDedup.DedupDistinct | src/components/ogre/lod/QueuedProgressiveMeshGenerator.cpp:168-175 | no position appears twice in the distinct list |
| VertexDedup.DedupCardinality | src/components/ogre/lod/QueuedProgressiveMeshGenerator.cpp:164-182 | the distinct list has one entry per distinct position |
| VertexDedup.DedupGrowth | src/components/ogre/lod/QueuedProgressiveMeshGenerator.cpp:164-182 | ingesting a buffer grows the list by exactly the number of previously unseen positions |
| VertexDedup.DedupLength | src/components/ogre/lod/QueuedProgressiveMeshGenerator.cpp:164-182 | the distinct list is never longer than the ingested positions |
| VertexDedup.DedupSameElement | src/components/ogre/lod/QueuedProgressiveMeshGenerator.cpp:168-175 | many vertices at one position collapse to a single vertex |
| VertexDedup.FindVertex | src/components/ogre/lod/QueuedProgressiveMeshGenerator.cpp:169-173 | the set lookup finds the first vertex holding the position, or reports that there is none |
| VertexDedup.DedupVerticesSpec | src/components/ogre/lod/QueuedProgressiveMeshGenerator.cpp:165-180 | the vertex list holds each distinct position once, in order of first occurrence, and a vertex is a seam exactly when its position was seen at least twice |
| VertexDedup.DedupVerticesLength | src/components/ogre/lod/QueuedProgressiveMeshGenerator.cpp:164-182 | the vertex list never holds more vertices than were ingested |
| LodBake.TriangleIds | src/components/ogre/lod/QueuedProgressiveMeshGenerator.cpp:259-270 | a triangle contributes either nothing or exactly its three stored vertex ids |
| LodBake.LiveIdsAppend | src/components/ogre/lod/QueuedProgressiveMeshGenerator.cpp:257-272 | baking keeps triangle-list order: the ids of a concatenation are the concatenated ids |
| LodBake.LiveIdsLength | src/components/ogre/lod/QueuedProgressiveMeshGenerator.cpp:257-272 | each live triangle of the submesh contributes exactly three ids |
| LodBake.LiveIdsAt | src/components/ogre/lod/QueuedProgressiveMeshGenerator.cpp:258-272 | a live triangle's ids land between those of the triangles before and after it; a removed one, or one of another submesh, adds nothing |
| LodBake.LiveIdsSnoc | src/components/ogre/lod/QueuedProgressiveMeshGenerator.cpp:258-272 | one more triangle adds its three ids if it is live and owned by the submesh, and nothing otherwise |
| LodBake.LiveIdsPrefixBound | src/components/ogre/lod/QueuedProgressiveMeshGenerator.cpp:258-272 | the ids written so far never outnumber the final ids, so writes stay inside the buffer |
| LodBake.LodIndexCount | src/components/ogre/lod/QueuedProgressiveMeshGenerator.cpp:213-231 | a non-zero count is kept; a zero count becomes 3 exactly when the submesh has vertices and stays 0 exactly when it has none |
| LodBake.BakedLodWellFormed | src/components/ogre/lod/QueuedProgressiveMeshGenerator.cpp:216-234 | the new LOD keeps the submesh's original index width, holds exactly `indexCount` indices of that width, and keeps a non-zero count |
| LodBake.BakedLodContents | src/components/ogre/lod/QueuedProgressiveMeshGenerator.cpp:217-272 | read back, the new LOD holds the live triangles' ids in order and narrowed; with none left it holds three zeros if the submesh has vertices, and nothing otherwise |
| LodBake.CreatePassAsWritten | src/components/ogre/lod/QueuedProgressiveMeshGenerator.cpp:241-253 | as written, a zero index count always writes three dummy indices |
| LodBake.CreatePassOverflowsAsWritten | src/components/ogre/lod/QueuedProgressiveMeshGenerator.cpp:222-253 | as written, a submesh with no indices and no vertices allocates 0 bytes and writes 6 (or 12) |
| LodBake.CreatePass | src/components/ogre/lod/QueuedProgressiveMeshGenerator.cpp:216-253 | corrected first pass: it allocates room for the recorded `LodIndexCount` indices, never writes past the allocation, and writes the dummy exactly for an empty LOD of a submesh with vertices, filling the allocation |
| LodWorker.IngestedCount | src/components/ogre/lod/QueuedProgressiveMeshGenerator.cpp:104-120 | the shared buffer is ingested at most once: it adds its vertex count once to the private vertex counts |
| LodWorker.MaxPrivateCount | src/components/ogre/lod/QueuedProgressiveMeshGenerator.cpp:111-114 | the private lookup reservation is at least every private buffer's vertex count |
| LodWorker.DummyIds | src/components/ogre/lod/QueuedProgressiveMeshGenerator.cpp:241-253 | the dummy triangle is three indices exactly when nothing survived and the submesh has vertices |
| LodWorker.EncodeNarrowed | src/components/ogre/lod/QueuedProgressiveMeshGenerator.cpp:260-270 | storing already narrowed values gives the same bytes as storing the raw ids |
| LodWorker.WriteIds | src/components/ogre/lod/QueuedProgressiveMeshGenerator.cpp:261-269 | writes through the advancing pointer append the narrowed ids after those already written |
| LodWorker.CreateBuffers | src/components/ogre/lod/QueuedProgressiveMeshGenerator.cpp:207-254 | the first pass allocates one fresh, distinct buffer per submesh, sized for the LOD, holding the dummy triangle where it is counted |
| LodWorker.FillBuffers | src/components/ogre/lod/QueuedProgressiveMeshGenerator.cpp:257-272 | after the fill pass each submesh's buffer holds its dummy (if any) and then its live triangles' ids, in list order |
| LodWorker.HandOver | src/components/ogre/lod/QueuedProgressiveMeshGenerator.cpp:212-216 | every submesh gets exactly its baked buffer appended to its earlier LODs, which stay untouched |
| LodWorker.PMWorker.constructor | src/components/ogre/lod/QueuedProgressiveMeshGenerator.cpp:55-61 | a new worker has no request and empty containers |
| LodWorker.PMWorker.BuildRequest | src/components/ogre/lod/QueuedProgressiveMeshGenerator.cpp:86-92 | after clearing, tuning and initialising, the vertex list is the deduplication of the request's positions in ingestion order, it never outgrew its reservation, and every submesh's index width and count are recorded |
| LodWorker.PMWorker.CleanupMemory | src/components/ogre/lod/QueuedProgressiveMeshGenerator.cpp:90 | the containers are emptied and the reservations are kept |
| LodWorker.PMWorker.TuneContainerSize | src/components/ogre/lod/QueuedProgressiveMeshGenerator.cpp:101-133 | it reserves room for every ingested vertex (the shared buffer counted once), the largest private lookup and the shared lookup, and resizes the index records to the submesh count |
| LodWorker.PMWorker.Initialize | src/components/ogre/lod/QueuedProgressiveMeshGenerator.cpp:135-150 | every submesh's vertices are ingested (the shared buffer once) and its index buffer recorded; the set and lookups are then cleared |
| LodWorker.PMWorker.IngestSubmeshes | src/components/ogre/lod/QueuedProgressiveMeshGenerator.cpp:137-144 | the loop ingests the submeshes' contributions in order and records every submesh's index width and count |
| LodWorker.PMWorker.IngestSubmesh | src/components/ogre/lod/QueuedProgressiveMeshGenerator.cpp:139-143 | one iteration adds the submesh's own vertices, or the shared vertices if no earlier submesh used them, or nothing |
| LodWorker.PMWorker.AddVertexBuffer | src/components/ogre/lod/QueuedProgressiveMeshGenerator.cpp:152-183 | a repeated shared buffer changes nothing; otherwise the lookup used gets one entry per input vertex, in input order, naming that position's canonical vertex |
| LodWorker.PMWorker.IngestPositions | src/components/ogre/lod/QueuedProgressiveMeshGenerator.cpp:162-182 | the loop resolves every input position to its canonical vertex and keeps the vertex list deduplicated |
| LodWorker.PMWorker.AddVertex | src/components/ogre/lod/QueuedProgressiveMeshGenerator.cpp:165-181 | a new position appends a non-seam vertex; a known one pops the vertex again and resolves to the existing vertex, which becomes a seam |
| LodWorker.PMWorker.AddIndexBuffer | src/components/ogre/lod/QueuedProgressiveMeshGenerator.cpp:185-202 | the submesh's record gets the buffer's index width and count, and no other record changes |
| LodWorker.PMWorker.BakeLods | src/components/ogre/lod/QueuedProgressiveMeshGenerator.cpp:204-273 | every submesh gets exactly one new LOD buffer, the baked LOD of its live triangles, after its earlier LODs; the shared buffer is untouched |
| LodSnapshot.CopyIndexBuffer | src/components/ogre/lod/QueuedProgressiveMeshGenerator.cpp:411-423 | the copy has the source's index width and count, exactly `indexCount × indexSize` bytes, and nothing when the count is 0 |
| LodSnapshot.CopyIndexBufferWindow | src/components/ogre/lod/QueuedProgressiveMeshGenerator.cpp:416-420 | index k of the copy is the source's index `indexStart + k`, so the copy starts at byte offset `indexStart × indexSize` |
| LodSnapshot.VertexPositions | src/components/ogre/lod/QueuedProgressiveMeshGenerator.cpp:387-388 | the copied vertex buffer has the source's vertex count |
| LodSnapshot.CopiedSubmeshes | src/components/ogre/lod/QueuedProgressiveMeshGenerator.cpp:429-443 | one snapshot per submesh, each with a well-formed copy of its index buffer that keeps the live index count |
| LodSnapshot.NonDecreasingSorted | src/components/ogre/lod/QueuedProgressiveMeshGenerator.cpp:360-365 | adjacent order of the distances holds if and only if every earlier distance is at most every later one |
| LodSnapshot.Distances | src/components/ogre/lod/QueuedProgressiveMeshGenerator.cpp:361-364 | one distance per LOD level |
| LodSnapshot.DistancesSorted | src/components/ogre/lod/QueuedProgressiveMeshGenerator.cpp:360-365 | the distance list is sorted if and only if the levels' distances are pairwise ordered |
| LodSnapshot.CheckLodConfig | src/components/ogre/lod/QueuedProgressiveMeshGenerator.cpp:353-366 | it rejects an empty level list, more than 0xffff levels and unsorted distances, each exactly when it occurs, and passes exactly when none does |
| LodSnapshot.QueuedProgressiveMeshGenerator.Build | src/components/ogre/lod/QueuedProgressiveMeshGenerator.cpp:351-375 | with checks on, a bad configuration queues nothing; otherwise exactly one fresh request holding the mesh, the configuration and its buffer snapshot is queued after the earlier ones |
| LodSnapshot.QueuedProgressiveMeshGenerator.CopyVertexBuffer | src/components/ogre/lod/QueuedProgressiveMeshGenerator.cpp:377-409 | the copy has the source's vertex count and, vertex by vertex, its positions |
| LodSnapshot.QueuedProgressiveMeshGenerator.CopyBuffers | src/components/ogre/lod/QueuedProgressiveMeshGenerator.cpp:425-444 | the request gets one snapshot per submesh; the shared vertex buffer is copied exactly when some submesh uses it |
| LodInjector.Entry | src/components/ogre/lod/QueuedProgressiveMeshGenerator.cpp:330-344 | the face-list entry starts at 0 with the buffer's index count; it gets a hardware buffer exactly when the count is non-zero, of the buffer's width and holding its indices |
| LodInjector.FaceList | src/components/ogre/lod/QueuedProgressiveMeshGenerator.cpp:325-345 | one face-list entry per generated buffer |
| LodInjector.InjectedBakedLod | src/components/ogre/lod/QueuedProgressiveMeshGenerator.cpp:217-231 | a baked LOD is injected with its index count and gets a hardware buffer exactly when it has indices or the submesh has vertices, holding the baked indices |
| LodInjector.PMInjector.constructor | src/components/ogre/lod/QueuedProgressiveMeshGenerator.cpp:276-282 | a new injector has nothing ready |
| LodInjector.PMInjector.HandleResponse | src/components/ogre/lod/QueuedProgressiveMeshGenerator.cpp:297-302 | a finished request is pushed on the ready stack |
| LodInjector.PMInjector.FrameStarted | src/components/ogre/lod/QueuedProgressiveMeshGenerator.cpp:304-314 | the ready stack is drained to empty from the top down and rendering continues; every request that was queued first for its mesh ends up installed in that mesh, one face-list entry per generated buffer, since, under the stack order assumed in Left out, it is injected last and overwrites the later results for the same mesh |
| LodInjector.PMInjector.Inject | src/components/ogre/lod/QueuedProgressiveMeshGenerator.cpp:316-346 | after removing the old LODs, each submesh's LOD face list is exactly one entry per generated buffer, and the request stays injectable |
| LodInjector.Reversed | src/components/ogre/lod/QueuedProgressiveMeshGenerator.cpp:307-311 | popping from the top visits the stack in reverse push order |
| LodInjector.ReversedSnoc | src/components/ogre/lod/QueuedProgressiveMeshGenerator.cpp:307-311 | injecting the top and then the rest is the reversed order |
| LodInjector.ReversedMultiset | src/components/ogre/lod/QueuedProgressiveMeshGenerator.cpp:307-311 | draining in reverse order injects each ready request exactly once |
| FoliageDetail.DensityDownBounds | src/components/ogre/environment/FoliageDetailManager.cpp:72-85 | stepping density down never makes it negative and lowers it; it changes nothing exactly when density is ≤ 0 or equal to the step |
| FoliageDetail.DensityUpBounds | src/components/ogre/environment/FoliageDetailManager.cpp:87-100 | stepping density up never exceeds 1 and raises it; it changes nothing exactly when density is already ≥ 1 |
| FoliageDetail.DistanceUpBounds | src/components/ogre/environment/FoliageDetailManager.cpp:117-130 | stepping distance up never exceeds the maximum and raises it; it changes nothing exactly when the distance is at the maximum or above |
| FoliageDetail.DistanceDownBounds | src/components/ogre/environment/FoliageDetailManager.cpp:102-115 | corrected step down: never below the minimum; it changes nothing exactly when the distance is at the minimum or below, or equals the step (the code's case of neither branch) |
| FoliageDetail.DistanceDownAgrees | src/components/ogre/environment/FoliageDetailManager.cpp:104-111 | the corrected step down differs from the code exactly for a distance above the step by less than the minimum, the inputs where the code's first branch crosses the minimum |
| FoliageDetail.DistanceDownSnaps | src/components/ogre/environment/FoliageDetailManager.cpp:108-111 | a distance above the minimum but below the step is set to the minimum, by the code and by the corrected rule |
| FoliageDetail.DistanceDownBelowMinimumAsWritten | src/components/ogre/environment/FoliageDetailManager.cpp:104-107 | as written, three steps of 0.3 from 1.0 reach 0.1, below the 0.3 minimum |
| FoliageDetail.ClampDensityBounds | src/components/ogre/environment/FoliageDetailManager.cpp:151-157 | the density set is in [0, 1] and equals the requested one exactly when that is in range |
| FoliageDetail.ClampDistanceBounds | src/components/ogre/environment/FoliageDetailManager.cpp:136-140 | the distance set is never negative, has no upper clamp, and equals the requested one exactly when that is not negative |
| FoliageDetail.Foliage.SetDensity | src/components/ogre/environment/FoliageDetailManager.cpp:76 | the foliage records each density pushed to it |
| FoliageDetail.Foliage.SetFarDistance | src/components/ogre/environment/FoliageDetailManager.cpp:106 | the foliage records each far distance pushed to it |
| FoliageDetail.FoliageDetailManager.constructor | src/components/ogre/environment/FoliageDetailManager.cpp:36-39 | threshold 2.0, steps 0.3, distance range [0.3, 2.0], density 1.0 and distance 1.0 |
| FoliageDetail.FoliageDetailManager.ChangeLevel | src/components/ogre/environment/FoliageDetailManager.cpp:54-70 | below the threshold nothing changes and it returns false; a positive level steps density down and tries distance only if that fails, with the corrected distance rule of Findings; a negative level does the same upward; exactly the value that changed is pushed to the foliage |
| FoliageDetail.FoliageDetailManager.StepDownFoliageDensity | src/components/ogre/environment/FoliageDetailManager.cpp:72-85 | the density follows the step-down rule, and it returns true exactly when the new value was pushed to the foliage |
| FoliageDetail.FoliageDetailManager.StepUpFoliageDensity | src/components/ogre/environment/FoliageDetailManager.cpp:87-100 | the density follows the step-up rule, and it returns true exactly when the new value was pushed to the foliage |
| FoliageDetail.FoliageDetailManager.StepDownFoliageDistance | src/components/ogre/environment/FoliageDetailManager.cpp:102-115 | the distance follows the corrected step-down rule, which never crosses the minimum (`DistanceDownBounds`), and it returns true exactly when the new value was pushed |
| FoliageDetail.FoliageDetailManager.StepUpFoliageDistance | src/components/ogre/environment/FoliageDetailManager.cpp:117-130 | the distance follows the step-up rule, and it returns true exactly when the new value was pushed to the foliage |
| FoliageDetail.FoliageDetailManager.SetFoliageDistance | src/components/ogre/environment/FoliageDetailManager.cpp:132-145 | the distance is the request clamped at 0, it is pushed, and the call returns true |
| FoliageDetail.FoliageDetailManager.SetFoliageDensity | src/components/ogre/environment/FoliageDetailManager.cpp:147-163 | the density is the request clamped to [0, 1], it is pushed, and the call returns true |
| FoliageDetail.FoliageDetailManager.ConfigFoliageDensity | src/components/ogre/environment/FoliageDetailManager.cpp:165-171 | a numeric setting sets the density to the percentage divided by 100; a non-numeric one changes nothing |
| FoliageDetail.FoliageDetailManager.ConfigFoliageFarDistance | src/components/ogre/environment/FoliageDetailManager.cpp:173-179 | a numeric setting sets the distance to the factor divided by 100; a non-numeric one changes nothing |
| StringOrder.LessEqReflexive | src/main/Application.cpp:466 | the string order used by `sort` is reflexive |
| StringOrder.LessEqTotal | src/main/Application.cpp:466 | the string order is total |
| StringOrder.LessEqAntisymmetric | src/main/Application.cpp:466 | the string order is antisymmetric |
| StringOrder.LessEqTransitive | src/main/Application.cpp:466 | the string order is transitive |
| StringOrder.SortedFirst | src/main/Application.cpp:466 | the first entry of a sorted list is at most every entry |
| StringOrder.Insert | src/main/Application.cpp:466 | inserting adds one entry and the new head is either the inserted name or the old head |
| StringOrder.InsertPermutes | src/main/Application.cpp:466 | inserting adds exactly the inserted name |
| StringOrder.InsertSorted | src/main/Application.cpp:466 | inserting into a sorted list keeps it sorted |
| StringOrder.Sort | src/main/Application.cpp:466 | the sorted list is ordered and a permutation of the input |
| StringOrder.SortedTail | src/main/Application.cpp:466 | the tail of a sorted list is sorted |
| StringOrder.SameFirst | src/main/Application.cpp:466 | two sorted permutations of each other start with the same name |
| StringOrder.SortedUnique | src/main/Application.cpp:466 | two sorted permutations of each other are equal |
| StringOrder.SortDeterministic | src/main/Application.cpp:465-466 | lists with the same names sort to the same list, whatever the directory order |
| Application.FramePeriod | src/main/Application.cpp:124-128 | fps 0 gives period 0; otherwise the period is one million divided by fps, truncated toward zero, with the sign of fps |
| Application.QuotientBounds | src/main/Application.cpp:125 | the integer quotient is the largest whole number of divisors in the dividend |
| Application.DesiredFpsListener.constructor | src/main/Application.cpp:138-142 | the listener starts with fps 0 and period 0 |
| Application.DesiredFpsListener.ConfigDesiredFps | src/main/Application.cpp:119-130 | a numeric value sets fps to its truncation and the period to the frame period of that fps; a non-numeric value changes nothing |
| Application.Application.constructor | src/main/Application.cpp:165-170 | the application starts not quitting and polling the server |
| Application.Application.RunCommand | src/main/Application.cpp:521-528 | "quit" sets the quit flag, "toggle_erispolling" flips polling, any other command changes nothing |
| Application.ToLower | src/main/Application.cpp:455-456 | lower-casing keeps the length |
| Application.ToLowerIdempotent | src/main/Application.cpp:455-456 | lower-casing twice is lower-casing once |
| Application.IsLuaScriptIgnoresCase | src/main/Application.cpp:455-458 | the suffix test gives the same answer for a name and its lower-cased form |
| Application.UserScriptsMembers | src/main/Application.cpp:452-463 | a name is selected if and only if it is a directory entry other than "." and "..", whose lower-cased form ends in ".lua"; "." and ".." are never selected |
| Application.UserScriptsCount | src/main/Application.cpp:452-463 | every selected entry is kept, as often as it was listed, under its original spelling |
| Application.ScriptOrderDeterministic | src/main/Application.cpp:465-466 | directory listings with the same entries give the same script order |
| Application.ShortNameAbortsScanAsWritten | src/main/Application.cpp:458 | as written, a three-letter-or-shorter name aborts the scan, though it is simply not a script |
| Application.ScanAsWrittenAgrees | src/main/Application.cpp:452-463 | as written, the scan aborts exactly when an entry other than "." and ".." is shorter than ".lua"; otherwise it selects the same scripts |
| Application.SelectUserScripts | src/main/Application.cpp:447-466 | the scripts run are the selected names, sorted, and a name is among them exactly when it is a listed, selected entry |
| StreamLog.LabelInjective | src/framework/StreamLogObserver.cpp:81-100 | each importance gets its own label, so the label identifies the importance |
| StreamLog.Digits | src/framework/StreamLogObserver.cpp:69-73 | a number is written with at least one digit; below 10 one digit, below 100 two |
| StreamLog.ValueDigits | src/framework/StreamLogObserver.cpp:69-73 | the written digits read back as the number |
| StreamLog.Zeros | src/framework/StreamLogObserver.cpp:66 | the fill is k '0' characters |
| StreamLog.ValueLeadingZeros | src/framework/StreamLogObserver.cpp:66-73 | zero fill does not change the value read back |
| StreamLog.ValueZeros | src/framework/StreamLogObserver.cpp:66 | a run of zeros reads as 0 |
| StreamLog.PaddedField | src/framework/StreamLogObserver.cpp:66-76 | a padded field has the given width, or the number's own width when it is wider, and reads back as the number |
| StreamLog.PaddedTwo | src/framework/StreamLogObserver.cpp:68-73 | a clock field below 100 is exactly two characters |
| StreamLog.ClockLength | src/framework/StreamLogObserver.cpp:67-73 | the clock text is nine characters for fields below 100 |
| StreamLog.ClockLayout | src/framework/StreamLogObserver.cpp:67-73 | the clock text is "[", two digits, ":", two digits, ":", two digits |
| StreamLog.TailLayout | src/framework/StreamLogObserver.cpp:79-110 | after the prefix come "] ", the label, a space, the message and a newline |
| StreamLog.LineClock | src/framework/StreamLogObserver.cpp:66-73 | the line starts "[HH:MM:SS", each field two digits reading back as the clock |
| StreamLog.LineMarker | src/framework/StreamLogObserver.cpp:74-79 | after the clock comes "(" exactly in detailed mode |
| StreamLog.LineEnd | src/framework/StreamLogObserver.cpp:102-110 | the line ends with a space, the message and a newline |
| StreamLog.LineLayout | src/framework/StreamLogObserver.cpp:66-110 | the whole line: padded clock, "(" exactly in detailed mode, message and newline at the end |
| StreamLog.NormalLayout | src/framework/StreamLogObserver.cpp:79-100 | in normal mode the clock is followed directly by "] " and the label |
| StreamLog.DetailDigits | src/framework/StreamLogObserver.cpp:75-77 | the detail part opens with "(" and eight digits holding the zero-padded microseconds |
| StreamLog.DetailedLayout | src/framework/StreamLogObserver.cpp:74-78 | in detailed mode the line carries the microseconds, eight digits wide, reading back as the count when it fits |
| StreamLog.DigitsBelow | src/framework/StreamLogObserver.cpp:76-77 | a number below 10^k has at most k digits |
| StreamLog.OutputStream.Write | src/framework/StreamLogObserver.cpp:67 | writing appends to the stream |
| StreamLog.StreamLogObserver.constructor | src/framework/StreamLogObserver.cpp:32-35 | a new observer writes to its stream and is not detailed |
| StreamLog.StreamLogObserver.Copy | src/framework/StreamLogObserver.cpp:40-43 | the copy writes to the same stream in the same mode |
| StreamLog.StreamLogObserver.OnNewMessage | src/framework/StreamLogObserver.cpp:61-112 | the stream gains exactly the formatted line of the message |
| StreamLog.StreamLogObserver.WriteClock | src/framework/StreamLogObserver.cpp:66-73 | the stream gains the clock text |
| StreamLog.StreamLogObserver.WriteDetail | src/framework/StreamLogObserver.cpp:75-77 | the stream gains the detail part |
| StreamLog.StreamLogObserver.WriteTail | src/framework/StreamLogObserver.cpp:79-110 | the stream gains "] ", the label, the message and the newline |
| StreamLog.StreamLogObserver.WriteLabel | src/framework/StreamLogObserver.cpp:81-100 | the stream gains the importance's label |
| StreamLog.StreamLogObserver.SetDetailed | src/framework/StreamLogObserver.cpp:114-117 | only the detailed flag changes, to the given value |

## Left out

- Ogre engine calls are not modelled:
  - work-queue channel and handler registration, and frame-listener
    registration (constructors and destructors of `PMWorker` and `PMInjector`);
  - `addRequest`;
  - `_configureMeshLodUsage`.
  These are foreign calls. The request a `build` sends is modelled as appended
  to the generator's queue.
- Hardware index buffers are reduced to their type, index count and contents.
  Their creation, `lock`, `unlock` and `memcpy` are foreign calls.
- `PMWorker::handleRequest` and the mutexes of the worker and the injector are
  left out. They exist for concurrency; the model is sequential.
- `readyLods`' container type is declared in a header that is not part of this
  model. Its `push`/`top`/`pop` use is modelled as a stack, so requests are
  injected last-in first-out.
- The simplifier base class is not part of this model. This covers:
  - `computeCosts`, `computeLods`, `assertValidMesh` and `addIndexDataImpl`.
  - The triangle list, its `isRemoved` flags and the current index counts,
    which are inputs of `BakeLods`.
  - `ReadyToBake`, the precondition that each count is three times the
    submesh's live triangles.
- `PMWorker::cleanupMemory` belongs to the base class. It is modelled only as
  clearing the containers this model has.
- Raw memory management is left out: `new[]`/`delete[]`, `auto_ptr` and the
  `PMGenRequest` destructor.
- `copyVertexBuffer`'s byte-stride extraction of float components is left out.
  Positions are opaque values taken per vertex from the live vertex data.
- The request's mesh name and bounding-sphere radius are left out. Only the
  simplifier uses them.
- The submesh counts are `unsigned short` in the source. The model does not cap
  them at 65535.
- LodSnapshot.CheckLodConfig and LodSnapshot.QueuedProgressiveMeshGenerator.Build assume a distance-based LOD strategy, whose `assertSorted` demands ascending values. The mesh's LOD strategy is a foreign call and is not part of this model.
- The debug-only checks of `build` (`#ifndef NDEBUG`) are a `checked` parameter
  of `Build`. A release build skips them.
- Application service startup, Eris polling, timing and sleeping, Lua bindings,
  signal handlers and configuration files are I/O plumbing.
  - The user-script directory is passed in as its list of entry names.
  - Reading and executing the scripts is left out.
- Application.DesiredFpsListener.DesiredFps and
  Application.DesiredFpsListener.MicrosecondsPerFrame return the two fields
  and state nothing more.
- Application.DesiredFpsListener.ConfigDesiredFps: varconf's conversion of a numeric Variable to int is assumed to truncate its value. varconf is not part of this model.
- Common.TruncateToInt does not model the undefined behaviour of casting a
  double outside the `int` range.
- Application.FramePeriod does not model a `long` narrower than the quotient.
  The quotient always fits.
- The stream log observer's inputs are parameters: the local time of day, the
  microseconds since creation and the thread id. Left out are:
  - negative microsecond counts;
  - the stream flush in the destructor;
  - the `EMBER_LOG_SHOW_ORIGIN` block;
  - the stream's fill state, which persists after the call.
- StreamLog.LineClock, StreamLog.ClockLayout and StreamLog.LineLayout
  state the clock layout only for fields below 100, which any time of day
  satisfies.
- StreamLog.DetailedLayout states that the microseconds read back only when
  they fit in eight digits. A longer count widens the field.
- Foliage values are `float` in the source and are modelled as reals, so IEEE
  rounding is not modelled.
- The foliage manager's signal `pause`/`unpause` and configuration-listener
  registration are signal plumbing.
- FoliageDetail.DensityUpBounds, FoliageDetail.DistanceUpBounds and FoliageDetail.DistanceDownBounds state strict movement and the exactly-when-unchanged condition only for a positive step. The source always passes the positive default steps.
- FoliageDetail.DensityDownBounds states the exactly-when-unchanged condition only for a non-negative step.
- FoliageDetail.FoliageDetailManager.StepDownFoliageDensity, StepUpFoliageDensity and StepUpFoliageDistance state that they keep the range invariant only for a non-negative step.
- FoliageDetail.FoliageDetailManager.StepDownFoliageDistance and FoliageDetail.FoliageDetailManager.ChangeLevel follow the corrected step-down rule `DistanceDown`, not the code's `DistanceDownAsWritten` (see Findings). The two differ only for a far distance above the step by less than the minimum (`DistanceDownAgrees`): the code lowers it below the minimum, and the model snaps it to the minimum. A distance equal to the step is left unchanged by both.

## Findings

| source | as written | input that shows it | evidently intended | confidence | as-written member | corrected member |
|---|---|---|---|---|---|---|
| src/components/ogre/lod/QueuedProgressiveMeshGenerator.cpp:222-253 | for a submesh with index count 0 whose vertex buffer is empty, the buffer is allocated with 0 indices but the dummy triangle's three indices are still written into it | a submesh with no indices and no vertices: 0 bytes allocated, 6 bytes (16-bit) or 12 bytes (32-bit) written | write the dummy triangle only when it was counted, that is when the submesh has vertices | high (not executed) | LodBake.CreatePassAsWritten / LodBake.CreatePassOverflowsAsWritten | LodBake.CreatePass / LodWorker.CreateBuffers |
| src/main/Application.cpp:458 | `compare(length - 4, 4, ".lua")` on a name shorter than 4 characters starts past the end, and `std::string::compare` throws `out_of_range` | a script directory containing an entry named "ab" | names shorter than ".lua" are simply not scripts | high (not executed) | Application.ScanAsWritten / Application.ShortNameAbortsScanAsWritten | Application.UserScripts / Application.SelectUserScripts |
| src/components/ogre/environment/FoliageDetailManager.cpp:104-107 | any far distance above the step is lowered by the step, even below `mMinFarDistance` | distance 1.0, step 0.3, minimum 0.3: 1.0 → 0.7 → 0.4 → 0.1 | never step below the minimum: a step that would cross it snaps to the minimum; every other input, a distance equal to the step included, behaves as written | medium (not executed) | FoliageDetail.DistanceDownAsWritten / FoliageDetail.DistanceDownBelowMinimumAsWritten | FoliageDetail.DistanceDown / FoliageDetail.FoliageDetailManager.StepDownFoliageDistance |
