# Limitless engine: particle distributions, module ordering and buffer bookkeeping

This project models, in Dafny, five core pieces of the Limitless real-time rendering engine:

- **Distributions** (`distribution.dfy`). These are the value generators that randomise particle attributes. `ConstDistribution` always yields its value. `RangeDistribution` keeps `min`/`max`, a uniform integer sampler that should carry the same bounds, and a random engine that each non-const `get()` advances.
- **Particle modules** (`particle_module.dfy`). `ModuleType` is the closed set of module kinds, and its declared order is the order the modules of an emitter run in: the `Initial*` kinds come first and `Lifetime` comes last. `Module` is the base, with a fixed type tag and default operations that do nothing.
- **Indexed vertex streams** (`indexed_stream.dfy`). These cover concatenating two streams with `operator+`, the grow-only upload of the index list (`map`), the usage-to-flags choice made when the element buffer is created, and draws that do nothing on an empty stream.
- **Text models** (`text_model.dfy`). These follow the same grow-only rule for the vertex buffer and skip drawing when there are no vertices.
- **Materials** (`material.dfy`). These cover lookup of named uniforms, which fails with `material_property_not_found(name)`, and which fields may change after a material is built.

GPU buffer objects are modelled as records `(target, flags, size, contents)` in `gpu.dfy`. Driver calls become values: a draw is returned as a description of the call it would submit. The random engine is an oracle, an arbitrary sequence of raw words supplied when a range distribution is built. Integral distribution values are unbounded integers.

## Model

| member | source | states |
|---|---|---|
| `Gpu.GrowAndMap` | include/limitless/core/indexed_stream.hpp:72-79 | After an upload the size is exactly the requested bytes when they exceed the old size, and the old size otherwise. The buffer never shrinks, always fits the request, holds the new data, and keeps its target and flags. |
| `Gpu.UploadAllSizeIsLargestRequest` | src/limitless/models/text_model.cpp:29-36 | After any series of uploads the size is the largest of the initial size and every request. It fits every request, is one of those values, and the buffer holds the last batch. |
| `Gpu.ToSizei` | include/limitless/core/indexed_stream.hpp:51 | The `(GLsizei)` cast yields a signed 32-bit value congruent to the count modulo 2^32. It equals the count whenever the count is below 2^31. |
| `Distributions.ConstDistributionYieldsItsValue` | include/limitless/fx/modules/distribution.h:96-100 | A constant distribution yields its stored value and carries the tag `Const`. |
| `Distributions.ConstDistribution.Clone` | include/limitless/fx/modules/distribution.h:105-107 | A clone yields the same value and carries the tag `Const`. |
| `Distributions.UniformInt.Set` | include/limitless/fx/modules/distribution.h:129 | `set(min, max)` gives a sampler with exactly those bounds. |
| `Distributions.UniformInt.Sample` | include/limitless/fx/modules/distribution.h:126-133 | When `a <= b`, a draw lies in `[a, b]`. A degenerate range `[m, m]` yields `m`. |
| `Distributions.DrawsWithinBounds` | include/limitless/fx/modules/distribution.h:186 | Any number of successive draws each lie in the sampler's bounds. |
| `Distributions.DegenerateRangeIsConstant` | include/limitless/fx/modules/distribution.h:186 | With `min == max`, every draw returns `min`. |
| `Distributions.RangeDistribution.constructor` | include/limitless/fx/modules/distribution.h:162-166 | Stores `min` and `max`, builds the sampler with exactly those bounds, and tags the distribution `Range`. |
| `Distributions.RangeDistribution.Copy` | include/limitless/fx/modules/distribution.h:191 | The copy `clone` makes has the same bounds, sampler and engine state. |
| `Distributions.RangeDistribution.SetMin` | include/limitless/fx/modules/distribution.h:174-178 | Sets `min`, leaves `max` and the engine alone, and re-bounds the sampler to `(m, max)`. |
| `Distributions.RangeDistribution.SetMax` | include/limitless/fx/modules/distribution.h:180-184 | Sets `max`, leaves `min` and the engine alone, and re-bounds the sampler to `(min, m)`. |
| `Distributions.RangeDistribution.AssignMin` | include/limitless/fx/modules/distribution.h:170 | Writing through the `getMin()` reference changes `min` but not the sampler. A synchronised distribution stays synchronised only if the value is unchanged. |
| `Distributions.RangeDistribution.AssignMax` | include/limitless/fx/modules/distribution.h:172 | The same for `getMax()`. |
| `Distributions.RangeDistribution.Get` | include/limitless/fx/modules/distribution.h:186 | The non-const `get()` returns the sampler's draw from the engine's next word and advances the engine. With synchronised bounds the value lies in `[min, max]`. |
| `Distributions.RangeDistribution.GetConst` | include/limitless/fx/modules/distribution.h:187 | `get() const` returns `min` and changes nothing. |
| `Distributions.RangeDistribution.Clone` | include/limitless/fx/modules/distribution.h:189-192 | Returns a new object with the same tag, bounds, sampler and engine state. |
| `Distributions.CloneThenSetMin` | include/limitless/fx/modules/distribution.h:189-192 | Re-bounding a clone leaves the original's bounds, sampler and engine unchanged. |
| `Distributions.CloneRepeatsNextDraw` | include/limitless/fx/modules/distribution.h:186-191 | A clone's next draw equals the original's next draw, because the engine state is copied. |
| `ParticleModules.Ordinal` | include/limitless/fx/modules/module.hpp:14-42 | Every module type has an underlying value below the count of 23. |
| `ParticleModules.FromOrdinal` | include/limitless/fx/modules/module.hpp:14-42 | A value names a module type exactly when it is below 23. |
| `ParticleModules.OrdinalRoundTrip` | include/limitless/fx/modules/module.hpp:14-42 | Each type is recovered from its value. |
| `ParticleModules.FromOrdinalRoundTrip` | include/limitless/fx/modules/module.hpp:14-42 | Each value below 23 is the value of the type it names. |
| `ParticleModules.OrdinalInjective` | include/limitless/fx/modules/module.hpp:14-42 | Distinct types have distinct values. |
| `ParticleModules.RunsBeforeIsStrictTotal` | include/limitless/fx/modules/module.hpp:14-42 | The execution order is irreflexive and orders every two distinct types. |
| `ParticleModules.LifetimeIsLast` | include/limitless/fx/modules/module.hpp:40-41 | A type runs before `Lifetime` exactly when it is not `Lifetime`. |
| `ParticleModules.InitialTypesComeFirst` | include/limitless/fx/modules/module.hpp:15-20 | The six `Initial*` types hold the values 0 to 5 in declared order, and no other type is below 6. |
| `ParticleModules.TypeFixedAtConstruction` | include/limitless/fx/modules/module.hpp:48-58 | A module reports the type it was built with, and so does its clone. |
| `ParticleModules.Module.Clone` | include/limitless/fx/modules/module.hpp:51-56 | A copy keeps the type tag. |
| `ParticleModules.Module.Initialize` | include/limitless/fx/modules/module.hpp:60 | The default `initialize` leaves the particle unchanged for any emitter and index. |
| `ParticleModules.Module.Update` | include/limitless/fx/modules/module.hpp:64-68 | The default `update` leaves the particle list unchanged in length and in every element. |
| `ParticleModules.Module.Deinitialize` | include/limitless/fx/modules/module.hpp:62 | The default `deinitialize` changes nothing for any list of indices. |
| `IndexedStreams.UsageFlags` | include/limitless/core/indexed_stream.hpp:17-31 | Only `Dynamic` gets mutable storage, only `Stream` gets coherent write access, and only `Static` gets static storage. |
| `IndexedStreams.UsageFlagsInjective` | include/limitless/core/indexed_stream.hpp:17-31 | Distinct usages get distinct flags. |
| `IndexedStreams.ShiftCopy` | include/limitless/core/indexed_stream.hpp:85-87 | The copy of the right-hand indices, transformed in place, holds each index plus the offset, truncated to `uint32`. |
| `IndexedStreams.CombinedLayout` | include/limitless/core/indexed_stream.hpp:85-89 | The combined list is as long as both lists together. The shifted right-hand indices come first, and the old indices follow unchanged. |
| `IndexedStreams.AsWrittenOffsetPointsPastEnd` | include/limitless/core/indexed_stream.hpp:83-89 | With the offset taken after the base append, every right-hand index is at least the combined vertex count, so the combined list is out of range. |
| `IndexedStreams.AsWrittenCounterexample` | include/limitless/core/indexed_stream.hpp:83-89 | Two three-vertex triangles combine to `[6, 7, 8, 0, 1, 2]` over six vertices. |
| `IndexedStreams.OldCountOffsetKeepsIndicesInRange` | include/limitless/core/indexed_stream.hpp:83-89 | With the vertex count before the append as the offset, every index stays in range. Each right-hand index then names the same vertex, moved by that count. |
| `IndexedStreams.IndexedVertexStream.constructor` | include/limitless/core/indexed_stream.hpp:38-42 | Keeps the vertex count, indices and usage. The element buffer is exactly `4 * |indices|` bytes, holds the indices and has the usage's flags. |
| `IndexedStreams.IndexedVertexStream.Initialize` | include/limitless/core/indexed_stream.hpp:11-36 | Builds an element buffer of `4 * |indices|` bytes from the indices, with the flags for the stream's usage. |
| `IndexedStreams.IndexedVertexStream.Draw` | include/limitless/core/indexed_stream.hpp:44-55 | Draws nothing exactly when the stream has no vertices. Otherwise it draws all the indices. |
| `IndexedStreams.IndexedVertexStream.DrawInstanced` | include/limitless/core/indexed_stream.hpp:57-70 | Draws nothing exactly when the stream has no vertices. Otherwise it draws all the indices `count` times. |
| `IndexedStreams.IndexedVertexStream.Map` | include/limitless/core/indexed_stream.hpp:72-80 | Grows the buffer to exactly `4 * |indices|` bytes when it is smaller, and never shrinks it. The buffer then holds the indices. |
| `IndexedStreams.IndexedVertexStream.Add` | include/limitless/core/indexed_stream.hpp:82-94 | The vertex count grows by the right-hand count. The shifted right-hand indices are prepended, offset by the new count. The length is the sum of both lengths, the right-hand indices are untouched, and the buffer is re-mapped. |
| `TextModels.InitialBuffer` | src/limitless/models/text_model.cpp:17-24 | `initialize(count)` builds a dynamic-draw array buffer of `count * sizeof(TextVertex)` bytes, initialised from the vertices. |
| `TextModels.TextModel.FromVertices` | src/limitless/models/text_model.cpp:7-10 | Keeps the vertices. The buffer is exactly their size and holds them. |
| `TextModels.TextModel.WithCapacity` | src/limitless/models/text_model.cpp:12-15 | Starts with no vertices and a buffer of `count` vertices' bytes with no data. |
| `TextModels.TextModel.Update` | src/limitless/models/text_model.cpp:29-37 | The vertex list becomes the new one. The buffer grows to exactly the needed bytes when it is smaller and never shrinks, then holds the vertices. |
| `TextModels.TextModel.Draw` | src/limitless/models/text_model.cpp:39-47 | Draws nothing exactly when there are no vertices. Otherwise it draws one triangle list of every vertex. |
| `Materials.Material.constructor` | include/limitless/ms/material.hpp:27-59 | The built material's key sets are fixed at the sets it was given. |
| `Materials.Material.GetProperty` | include/limitless/ms/material.hpp:155-162 | The const lookup succeeds exactly when the name is present, returning the stored uniform. Otherwise it fails with `material_property_not_found(name)`, and it changes nothing. |
| `Materials.Material.GetMutableProperty` | include/limitless/ms/material.hpp:146-153 | The non-const lookup returns a reference to the named uniform, or the same error. It agrees with the const overload on success and on the error for every name. |
| `Materials.Material.WriteProperty` | include/limitless/ms/material.hpp:27-29 | Writing through a returned reference changes that uniform's value only. The set of names stays fixed and later lookups see the new value. |
| `Materials.Material.SetBlending` | include/limitless/ms/material.hpp:140 | Blending is changeable at run time, and the key sets stay fixed. |
| `Materials.Material.SetTwoSided` | include/limitless/ms/material.hpp:141 | Two-sidedness is changeable at run time, and the key sets stay fixed. |

`shading`, `refraction`, `name` and `shader_index` have only read accessors (include/limitless/ms/material.hpp:126-132). They are Dafny `const` fields, so the material's own accessors leave them unchanged. Whole-object assignment still replaces them; see "## Left out".

## Findings

| source | as written | input that shows it | evidently intended | confidence | as-written member | corrected member |
|---|---|---|---|---|---|---|
| include/limitless/core/indexed_stream.hpp:87 | The right-hand indices are shifted by `this->stream.size()` taken after the base `operator+` has appended the right-hand vertices, which is the combined vertex count. | Combine two streams, each one triangle of three vertices with indices `[0, 1, 2]`. The result is `[6, 7, 8, 0, 1, 2]` over six vertices. | Shift by the vertex count before the append, so that right-hand index `i` names the appended vertex `count + i`. | medium, not executed. Line 83 adds the right-hand vertices before line 87 reads the size; the premise outside this model is that the base `operator+` adds the right-hand count. The bug is latent: `std::bind2nd(std::plus(), ...)` at line 87 deduces `std::plus<void>`, which lacks the argument typedefs `bind2nd` needs (and `bind2nd` is gone in C++17), so `operator+` does not compile once instantiated. The offset bug will surface if that compile error is fixed without also fixing the offset. | `IndexedStreams.AsWrittenOffsetPointsPastEnd` | `IndexedStreams.OldCountOffsetKeepsIndicesInRange` |

`IndexedStreams.IndexedVertexStream.Add` keeps the code's offset so that it describes the engine as it is. The corrected layout is `Combined` with the old vertex count, and the range property is proved of it.

## Behaviour worth noting

- `clone` copies the engine state (distribution.h:191). The clone owns its own engine, but that engine repeats the original's upcoming values, so the clone's next draw equals the original's next draw (`Distributions.CloneRepeatsNextDraw`).
- The two `get()` overloads of `RangeDistribution` differ. `get() const` returns `min` and draws nothing, while the non-const `get()` draws from the sampler and advances the engine (`Distributions.RangeDistribution.GetConst`, `Distributions.RangeDistribution.Get`, distribution.h:186-187).

## Left out

- The `glm::vec2/3/4` specialisations of `uniform_real_distribution` and every floating-point range (distribution.h:12-68, 136-151): floating-point arithmetic over a standard-library internal adaptor.
- The primary `uniform_distribution` template and `CurveDistribution`: debugging stubs and an empty TODO with no behaviour.
- `Distributions.UniformInt.Sample`: it maps one engine word into `[a, b]` by remainder. The standard library's algorithm, which may consume several words and avoids bias, is not modelled. The proved properties use two facts about a draw: it lies in the sampler's bounds, and it is a function of the sampler and the engine state. The library's algorithm satisfies both; the model also takes one draw to consume exactly one engine word.
- The engine's seed and algorithm: `std::default_random_engine` is implementation-defined, so its output is an oracle handed to the constructor. The C++ constructor default-constructs the engine (distribution.h:159, 162-166). Every new `RangeDistribution` therefore starts from the same engine state, and two with the same bounds draw the same sequence. The model allows any starting engine, and no proved property depends on which one.
- `Distributions.RangeDistribution.Get`: it requires the sampler's bounds to be ordered, which is the standard library's precondition. What a library does with inverted bounds is not modelled. `setMin`/`setMax` may still store inverted bounds.
- Integer width of the distribution's value type `T`: values are unbounded integers, so wrap-around of narrow integral types is not modelled.
- `ConstDistribution::getValue`: not modelled. Its const overload returns a non-const reference to a member of a const object and would not compile if instantiated.
- `Module::clone` is pure virtual and is implemented by concrete modules, which are not part of this model. It is modelled as the copy constructor it relies on. The emitter, the concrete modules and the particle layout are not part of this model.
- OpenGL calls (`glDrawElements`, `glDrawElementsInstanced`, `glDrawArrays`), `vertex_array.bind`, `setElementBuffer`, the vertex-array attribute setup in `TextModel::initialize`, buffer fences and `BufferBuilder::build`: foreign calls, replaced by buffer records and draw descriptions.
- The base `VertexStream::operator+` and the vertices themselves: only the vertex count is kept, and appending adds the right-hand count.
- What a buffer holds beyond the last mapped data, and its contents after a resize: not tracked.
- Buffers are shared through `shared_ptr` in the engine. Here each buffer is a record owned by its stream or model, so aliasing between owners is not modelled.
- `TextModels.TextVertexSize`: the `TextVertex` layout is not part of this model. Its size is taken as 16 bytes, and the contracts hold for any size. `size_t` overflow of `count * sizeof(TextVertex)` is not modelled.
- Whole-object assignment and moves of a material (material.hpp:90-93): the copy assignment `operator=(Material)`, the defaulted move assignment and the defaulted move constructor. Assignment replaces every field of an existing material, both key sets included. A move leaves the source material's `properties` and `uniforms` valid but unspecified (in practice empty), and every `getProperty` on it then fails. So `Valid()` and the fixed key sets describe a material only between whole-object assignments and moves. Only the accessors modelled here keep the key sets and the read-only fields unchanged.
- Material members declared but not defined in the header: `map`, `update`, `operator==`, `operator<`, `swap`, the copy constructor, `contains`, and the typed getters (`getColor`, `getMetallic`, ...). Their bodies are not part of this model.
- Material snippets, model shaders, the material buffer and the uniform offsets have read accessors only and no behaviour here.
- `Property`, `Blending` and `Shading` are enumerations from headers that are not part of this model. They are represented by their values, and the `Uniform` class is a type parameter.
- The `static_cast` to the requested uniform subtype in `getProperty` is unchecked in the engine. Dynamic types are not modelled.
- The deferred lighting pass, the render pipeline and the emitter update loop: they depend on pipeline, shader, framebuffer and asset code that is not part of this model.
