# GPU object descriptors, resource aggregates and binding names

A Dafny model of `tensorflow/lite/delegates/gpu/cl/gpu_object_desc.h`, the header the
OpenCL backend of the TensorFlow Lite GPU delegate uses to describe the memory objects a
generated kernel binds to.

- `descriptors.dfy` (module `Descriptors`): the resource descriptor records
  (`GPUImage2DDescriptor`, `GPUImage3DDescriptor`, `GPUImage2DArrayDescriptor`,
  `GPUImageBufferDescriptor`, `GPUBufferDescriptor`, `GPUCustomMemoryDescriptor`) and
  `MemoryType`. A buffer's `element_size` is a C++ `int`, modelled as a 32-bit `newtype`.
  `DefaultBuffer` is the aggregate initializer that leaves the memory type at its default,
  `GLOBAL`.
- `resources.dfy` (module `Resources`): `GPUResources`, the per-kind ordered lists of named
  bindings, and `GetNames`, written as the header writes it (copy the ints, append the
  floats, then one push-back loop per resource kind) and proved equal to the
  fixed-precedence concatenation `AllNames`. On top of that the module states the
  binding-slot view downstream code relies on: `Offset(r, g)` is the slot of the first
  name of group `g`, every group member sits at `Offset + position`, and every name of an
  earlier group takes a lower slot than every name of a later group. Callers fill an
  aggregate by pushing bindings into its vectors; `Add` / `Populate` model that, and the
  lemmas show that only the order inside each kind matters, never the interleaving
  across kinds.
- `object_desc.dfy` (module `ObjectDesc`): `GPUObjectDescriptor` as a class with a
  `map<string, string>` of state variables and an access tag, and the base
  behaviour of its virtual members. The frame conditions of the two setters are stated
  through the value functions `WithStateVar` and `WithAccess` on `DescriptorState`, which
  carry the "this key is set, nothing else changes" contracts.

`DataType` and `AccessType` are defined outside the header; the model identifies each only
by an ordinal. `absl::Status` is reduced to `Ok | Error(message)`.

Behaviour of the header that the model keeps as written:
- `SetAccess` may be called any number of times, each call replacing the tag
  (gpu_object_desc.h:131).
- The base `PerformSelector` never fails: it always reports OK with an empty result
  (gpu_object_desc.h:120-126).
- A custom memory's `type_name` is not checked; an empty name is accepted
  (gpu_object_desc.h:54).
- `SetStateVar` is `const` and writes through a `mutable` member (gpu_object_desc.h:112-114,
  139). The model treats the table as ordinary mutable object state, so `SetStateVar` has a
  `modifies` clause.

## Model

| member | source | states |
|---|---|---|
| Descriptors.DefaultBuffer | tensorflow/lite/delegates/gpu/cl/gpu_object_desc.h:59-65 | a buffer initialized without a memory type or attributes lives in GLOBAL memory with an empty attribute list, and keeps the given data type, access and element size |
| Resources.AppendKeys | tensorflow/lite/delegates/gpu/cl/gpu_object_desc.h:81-83 | one push-back loop keeps everything already in the list and adds the name of pair i at position old length + i |
| Resources.GetNames | tensorflow/lite/delegates/gpu/cl/gpu_object_desc.h:78-100 | the result is exactly ints ++ floats ++ names(buffers) ++ names(images2d) ++ names(image2d_arrays) ++ names(images3d) ++ names(image_buffers) ++ names(custom_memories), and its length is the sum of the eight group sizes; the aggregate is an immutable value and the result is a function of it, so repeated calls agree |
| Resources.SlotOfGroupMember | tensorflow/lite/delegates/gpu/cl/gpu_object_desc.h:79-99 | every name of every group appears in the result, at slot Offset(group) + its position inside the group |
| Resources.GroupPrecedence | tensorflow/lite/delegates/gpu/cl/gpu_object_desc.h:84-98 | for any two groups in precedence order, every name of the earlier group gets a lower slot than every name of the later group, whatever the group sizes |
| Resources.NameMembership | tensorflow/lite/delegates/gpu/cl/gpu_object_desc.h:79-99 | a name is in the result if and only if some group holds it |
| Resources.NamesDeterminedByGroups | tensorflow/lite/delegates/gpu/cl/gpu_object_desc.h:78-100 | two aggregates whose groups hold the same names in the same order enumerate identically, whatever their descriptors |
| Resources.AddGrowsGroup | tensorflow/lite/delegates/gpu/cl/gpu_object_desc.h:68-76 | pushing a binding onto an aggregate appends its name to its own kind's group and leaves all seven other groups unchanged |
| Resources.PopulateGroups | tensorflow/lite/delegates/gpu/cl/gpu_object_desc.h:68-76 | after pushing a list of bindings, each group holds its old names followed by the names of that kind's bindings, in list order |
| Resources.AddInsertsAtGroupEnd | tensorflow/lite/delegates/gpu/cl/gpu_object_desc.h:78-100 | pushing a binding inserts its name into the enumeration at the end of its group's slots; earlier slots keep their names and later ones move up by one |
| Resources.AddCommutesAcrossGroups | tensorflow/lite/delegates/gpu/cl/gpu_object_desc.h:68-76 | pushing two bindings of different kinds gives the same aggregate in either order |
| Resources.PopulatedNames | tensorflow/lite/delegates/gpu/cl/gpu_object_desc.h:78-100 | the enumeration of an aggregate built from a list of bindings is the list's names bucketed by kind, buckets in precedence order, each bucket in list order |
| Resources.InsertionOrderAcrossGroupsIrrelevant | tensorflow/lite/delegates/gpu/cl/gpu_object_desc.h:78-100 | two binding lists that agree on the order within every kind yield the same enumeration, however the kinds are interleaved |
| Resources.LoneBufferScenario | tensorflow/lite/delegates/gpu/cl/gpu_object_desc.h:78-100 | an aggregate holding only a GLOBAL buffer "weights" with attribute "restrict", of any data type and access tag, enumerates as exactly ["weights"] |
| Resources.ImageBeforeCustomMemoryScenario | tensorflow/lite/delegates/gpu/cl/gpu_object_desc.h:84-98 | custom memory "smp" pushed before 2D image "tex" still enumerates as ["tex", "smp"] |
| ObjectDesc.WithStateVar | tensorflow/lite/delegates/gpu/cl/gpu_object_desc.h:112-114 | after a write, the key maps to the value; the key set grows by exactly that key; every other key keeps its entry or absence; the access tag is unchanged |
| ObjectDesc.StateVarOverwrite | tensorflow/lite/delegates/gpu/cl/gpu_object_desc.h:112-114 | a second write to the same key overwrites the first completely |
| ObjectDesc.StateVarsCommute | tensorflow/lite/delegates/gpu/cl/gpu_object_desc.h:112-114 | writes to two different keys commute |
| ObjectDesc.WithAccess | tensorflow/lite/delegates/gpu/cl/gpu_object_desc.h:131 | setting the access tag leaves the state-variable table unchanged and makes the tag the given one |
| ObjectDesc.AccessRoundTrip | tensorflow/lite/delegates/gpu/cl/gpu_object_desc.h:131-132 | the tag read after setting it is the one set, and setting the old tag back restores the descriptor |
| ObjectDesc.GPUObjectDescriptor.constructor | tensorflow/lite/delegates/gpu/cl/gpu_object_desc.h:105 | a new descriptor has an empty state table and the tag passed in |
| ObjectDesc.GPUObjectDescriptor.Copy | tensorflow/lite/delegates/gpu/cl/gpu_object_desc.h:106 | a copy holds the same state variables and access tag as its source |
| ObjectDesc.GPUObjectDescriptor.SetStateVar | tensorflow/lite/delegates/gpu/cl/gpu_object_desc.h:112-114 | the object's fields after the call are WithStateVar of its fields before |
| ObjectDesc.GPUObjectDescriptor.PerformConstExpr | tensorflow/lite/delegates/gpu/cl/gpu_object_desc.h:116-118 | the base descriptor resolves every constant expression to the empty text |
| ObjectDesc.GPUObjectDescriptor.PerformSelector | tensorflow/lite/delegates/gpu/cl/gpu_object_desc.h:120-126 | the base descriptor succeeds with an empty result for every selector, argument list and template argument list |
| ObjectDesc.GPUObjectDescriptor.GetGPUResources | tensorflow/lite/delegates/gpu/cl/gpu_object_desc.h:127 | the base descriptor's aggregate has every group empty, so its name enumeration is empty |
| ObjectDesc.GPUObjectDescriptor.Release | tensorflow/lite/delegates/gpu/cl/gpu_object_desc.h:129 | releasing the base descriptor changes neither the state variables nor the access tag |
| ObjectDesc.GPUObjectDescriptor.SetAccess | tensorflow/lite/delegates/gpu/cl/gpu_object_desc.h:131 | the object's fields after the call are WithAccess of its fields before |
| ObjectDesc.GPUObjectDescriptor.GetAccess | tensorflow/lite/delegates/gpu/cl/gpu_object_desc.h:132 | reads the current access tag |
| ObjectDesc.StateVarIsolation | tensorflow/lite/delegates/gpu/cl/gpu_object_desc.h:139 | a state variable written to one descriptor is visible on it and absent from an independently constructed one |
| ObjectDesc.CopyIsIndependent | tensorflow/lite/delegates/gpu/cl/gpu_object_desc.h:106 | a state variable written to a copy is visible on the copy and absent from the original, as with a C++ value copy |
| ObjectDesc.SetThenGetAccess | tensorflow/lite/delegates/gpu/cl/gpu_object_desc.h:131-132 | on a fresh descriptor with one state variable, GetAccess after SetAccess returns the tag set and the state table still holds exactly that variable |
| ObjectDesc.ReleaseKeepsFields | tensorflow/lite/delegates/gpu/cl/gpu_object_desc.h:129 | after repeated Release calls the access tag and the state table read back unchanged |

## Left out

- `Encode` / `Decode` and the flatbuffers types: the binary format is generated code that is not part of this model.
- `DataType` and `AccessType` internals: their headers are not part of this model; `DataType` is an opaque ordinal.
- `absl::Status` error codes: only OK versus error is modelled.
- Concrete descriptor subclasses and virtual dispatch to them: none is defined in this header.
- The `GPUObjectDescriptorPtr` alias: ownership is not modelled.
- The defaulted copy assignment and the move constructor and assignment (gpu_object_desc.h:107-109): `GPUObjectDescriptor` is a class with reference semantics here, so assigning one variable to another aliases. A value copy is modelled only by the `Copy` constructor and by the `State()` value; the moved-from state is not modelled.
- The default constructor leaves `access_type_` indeterminate; the model's constructor takes the initial tag as a parameter instead.
- ObjectDesc.GPUObjectDescriptor.SetStateVar: the `mutable`-through-`const` member is modelled as ordinary object state, so the setter declares `modifies this`.
