# Bolt `transform_reduce`: a Dafny model of the host engine

This project models the host side of Bolt's OpenCL `transform_reduce`. Bolt is
AMD's C++ template library for running STL-style algorithms on an OpenCL
device. It also models the small functor library (`plus`, `minus`,
`multiplies`, `maximum`, `minimum`, `square`, `negate`) that callers reduce
with. Only the decisions the host code makes are modelled. The OpenCL runtime
and the device kernel are inputs.

The model has six modules, one per component of the engine:

- `Functional` (`functional.dfy`): the seven functors at their `int`
  instance, their algebraic laws, and the registry that
  `CREATE_BOLT_FUNCTIONAL` / `CREATE_STD_TYPENAMES` fill with a type name and
  an OpenCL code string per operator and element type.
- `KernelSource` (`kernel_source.dfy`): the type signature (`kernelParams`),
  the template-instantiation header, the type-definition text, and the
  compile request. A reader for the header recovers the signature. That
  proves different signatures, with type names without newlines, never
  produce the same header.
- `CompileOnce` (`compile_once.dfy`): the per-instantiation
  `static once_flag` / `static Kernel` pair, modelled as one `KernelCache`
  object. It holds a map from signature to compiled kernel and a counter of
  compilations.
- `LaunchPlanner` (`launch_planner.dfy`): how many work-groups are launched
  (capacity shrunk to `ceil(sz / wgSize)`), how many result slots are
  allocated, the NDRange geometry, and how many slots the host folds.
- `TailReduction` (`tail_reduction.dfy`): the host loop that folds the
  partial results into `init`, proved against a left fold.
- `TransformReduce` (`transform_reduce.dfy`): the two `pick_iterator`
  overloads as pure functions over the run mode and the input's residency,
  the device path `transform_reduce_enqueue` as a method, and the whole call.
- `Strings` (`strings.dfy`) is a helper: searching a string for a
  character, and the `Option` result shared by the registry's and the
  header's readers.

Four behaviours of the code are easy to misread from its signatures, and
the model keeps them as written:

- `reduce_op` is accepted on every path, but under `SerialCpu` a host range
  is folded by `std::accumulate` with its default `+`
  (include/bolt/cl/detail/transform_reduce.inl:148), so `reduce_op` is never
  called there. `[2,3,4]` squared with `init = 1` and `multiplies` gives
  `1+4+9+16 = 30`, where a fold with `multiplies` would give `1*4*9*16 = 576`
  (`SerialScenarioSquareIgnoresMultiplies`). The serial result equals the
  fold of `reduce_op` when `reduce_op` adds
  (`SerialCpuMatchesReduceWhenPlus`), and for any other `reduce_op` some
  one-element input tells them apart (`SerialCpuIgnoresReduceOp`).
- `MultiCoreCpu` on a non-empty host range prints that it is not
  implemented and returns `init` (lines 150-152). The value carries no mark
  of the stub; the printed message is left out.
- The number of work-groups is capped by the device's capacity, and the
  code's own comment at line 269 leaves open what happens when the input
  needs more. The grid then covers every element only when
  `ceil(sz / wgSize)` work-groups fit; `PlanWorkGroups` states this as an
  if-and-only-if.
- A host range under the device mode is first copied into a
  `device_vector<iType>` (lines 155-157). The kernel is therefore
  instantiated for that vector's iterator type, not the caller's, and host
  calls share their kernel with `device_vector` calls of the same element
  type (`StagedHostCallSharesKernel`, `StagingScenario`).

## Model

| member | source | states |
|---|---|---|
| `Functional.Maximum` | BoltForOpenCL/clbolt/functional.h:42-48 | the result is at least each operand and is one of them |
| `Functional.Minimum` | BoltForOpenCL/clbolt/functional.h:51-57 | the result is at most each operand and is one of them |
| `Functional.Square` | BoltForOpenCL/clbolt/functional.h:60-68 | the result is never negative and equals `multiplies(x, x)` |
| `Functional.PlusLaws` | BoltForOpenCL/clbolt/functional.h:17-23 | the operator `Functional.Plus` (line 21) adds, is commutative and associative, and has identity 0 |
| `Functional.MinusLaws` | BoltForOpenCL/clbolt/functional.h:25-31 | the operator `Functional.Minus` (line 29) subtracts; `minus(a, a) == 0`; `minus` undoes `plus`; `minus(a, b) == plus(a, negate(b))`; swapping the operands negates it |
| `Functional.MultipliesLaws` | BoltForOpenCL/clbolt/functional.h:33-39 | the operator `Functional.Multiplies` (line 37) multiplies, is commutative and associative, has identity 1, and 0 absorbs |
| `Functional.MaximumMinimumLaws` | BoltForOpenCL/clbolt/functional.h:42-57 | `maximum + minimum == l + r`; `maximum` is `minimum` mirrored by `negate`; both are symmetric |
| `Functional.NegateSquareLaws` | BoltForOpenCL/clbolt/functional.h:60-78 | the operator `Functional.Negate` (line 76) is an involution, `negate(negate(x)) == x`; `square(negate(x)) == square(x)` |
| `Functional.CreateStdTypenames` | BoltForOpenCL/clbolt/functional.h:5-8 | one registration each for float, int and double, all with the same code string |
| `Functional.Lookup` | BoltForOpenCL/clbolt/functional.h:5-12 | a registered functor's code is `Functional.Definition(op)`, the operator's stringified definition (`#F`), and its name is `Functional.TypeName(op, T)`, that is `op<T>` |
| `Functional.RegistryNamesAreDistinct` | BoltForOpenCL/clbolt/functional.h:5-8 | two registrations with the same type name have the same operator and element type |
| `Functional.RegistryCodeIgnoresElementType` | BoltForOpenCL/clbolt/functional.h:12 | the code string does not depend on the element type |
| `KernelSource.Signature` | include/bolt/cl/detail/transform_reduce.inl:57-71 | each of the five signature fields is the name of the matching type |
| `KernelSource.InstantiationRoundTrip` | include/bolt/cl/detail/transform_reduce.inl:80-93 | reading the five type names back out of the instantiation header gives the signature it was built from |
| `KernelSource.InstantiationInjective` | include/bolt/cl/detail/transform_reduce.inl:80-93 | different signatures (names without newlines) never produce the same header |
| `KernelSource.TypeDefinitions` | include/bolt/cl/detail/transform_reduce.inl:225-230 | user code comes first, then the element type, iterator, transform and reduce code; the output type's code is appended exactly when it is a different type |
| `KernelSource.OutputCodeOnlyWhenTypesDiffer` | include/bolt/cl/detail/transform_reduce.inl:227-230 | the text for differing types is the equal-types text plus the output type's code, and nothing else |
| `KernelSource.ConstructAndCompile` | include/bolt/cl/detail/transform_reduce.inl:74-98 | the compile request names kernel `transform_reduce`, carries the given type definitions, the output type name and `transform , reduce` as functor names |
| `KernelSource.CompiledKernelNamesItsSignature` | include/bolt/cl/detail/transform_reduce.inl:80-97 | the signature can be read back from a compiled kernel's instantiation text |
| `CompileOnce.AfterCallOnce` | include/bolt/cl/detail/transform_reduce.inl:232-240 | one call_once always leaves a kernel for its signature and keeps every other signature's entry as it was |
| `CompileOnce.FirstCallWins` | include/bolt/cl/detail/transform_reduce.inl:232-240 | a second call for the same signature changes nothing, whatever code it brings; the kernel is built from the first call's code |
| `CompileOnce.SignaturesAreIndependent` | include/bolt/cl/detail/transform_reduce.inl:214-215 | calls for two different signatures commute |
| `CompileOnce.KernelCache.constructor` | include/bolt/cl/detail/transform_reduce.inl:214-215 | the cache starts with no kernels and no compilations |
| `CompileOnce.KernelCache.GetOrCompile` | include/bolt/cl/detail/transform_reduce.inl:232-240 | the map becomes `AfterCallOnce` of the old map; the counter rises by one exactly on a new signature; the counter always equals the number of stored kernels; the returned kernel is the stored one, instantiated for this signature |
| `CompileOnce.CompileOnceScenario` | include/bolt/cl/detail/transform_reduce.inl:214-240 | two calls with one signature share the kernel built from the first call's code; a third signature adds a second compilation |
| `LaunchPlanner.CeilDiv` | include/bolt/cl/detail/transform_reduce.inl:270 | the result is the least `q` with `q * d >= n`; it is 0 exactly when `n` is 0 |
| `LaunchPlanner.PlannedWorkGroups` | include/bolt/cl/detail/transform_reduce.inl:246-272 | the planned count is within both the device's capacity and `ceil(sz / wgSize)`, and equals one of them: the smaller |
| `LaunchPlanner.PlanWorkGroups` | include/bolt/cl/detail/transform_reduce.inl:244-272 | `numWG == min(computeUnits * wgPerComputeUnit, ceil(sz / wgSize))`, bounded by both; at least 1 for a non-empty input and positive factors; covers the input if and only if the device has room; no work-group is launched without an element; allocated slots are the unshrunk count |
| `LaunchPlanner.LaunchGeometry` | include/bolt/cl/detail/transform_reduce.inl:283-291 | local size is `wgSize`; global size is a multiple of it with `numWG` groups; scratch is `wgSize * sizeof(oType)` bytes |
| `LaunchPlanner.TailCount` | include/bolt/cl/detail/transform_reduce.inl:299-301 | the slots folded are within both the work-groups launched and `ceil(sz / wgSize)`, and equal one of them: the smaller |
| `LaunchPlanner.TailCountIsPlannedWorkGroups` | include/bolt/cl/detail/transform_reduce.inl:299-301 | the tail fold reads exactly the planned number of slots, which never exceeds the slots allocated |
| `LaunchPlanner.SmallInputUsesOneWorkGroup` | include/bolt/cl/detail/transform_reduce.inl:270-272 | a non-empty input no larger than one work-group runs one work-group, and the host reads one slot |
| `TailReduction.TailReduce` | include/bolt/cl/detail/transform_reduce.inl:305-311 | the accumulator is the left fold of `reduce_op` from `init` over the first `numTailReduce` slots |
| `TailReduction.FoldVisitsInOrder` | include/bolt/cl/detail/transform_reduce.inl:306-309 | a recording operator under the fold sees the slots once each, in ascending index order; the host loop inherits this through `TailReduce`, which equals the fold |
| `TransformReduce.Transformed` | include/bolt/cl/detail/transform_reduce.inl:145-147 | the temporary vector has one element per input element, each the transform of its input |
| `TransformReduce.PickHostIterator` | include/bolt/cl/detail/transform_reduce.inl:125-159 | a host range goes to the device exactly when non-empty and the mode is OpenCL, and is then staged; otherwise it returns a value, never an error |
| `TransformReduce.PickDeviceVector` | include/bolt/cl/detail/transform_reduce.inl:163-202 | a device_vector goes to the device exactly when non-empty and the mode is OpenCL, without staging; a value is returned only for an empty range, and an error is CL_INVALID_DEVICE |
| `TransformReduce.PickIterator` | include/bolt/cl/detail/transform_reduce.inl:113-121 | the device path is taken exactly for a non-empty range under OpenCL mode; staging happens exactly for host input; errors come only from a non-empty device_vector under a CPU mode |
| `TransformReduce.EmptyRangeReturnsInit` | include/bolt/cl/detail/transform_reduce.inl:137-139 | an empty range returns `init` under every mode and residency, before any mode check |
| `TransformReduce.SerialCpuResult` | include/bolt/cl/detail/transform_reduce.inl:145-148 | `std::accumulate` with its default `+` over the transformed vector equals `init` plus the sum of the transformed elements |
| `TransformReduce.SerialCpuAddsTransformed` | include/bolt/cl/detail/transform_reduce.inl:137-148 | SerialCpu on a host range, empty or not, returns `init` plus the sum of the transformed elements |
| `TransformReduce.SerialCpuMatchesReduceWhenPlus` | include/bolt/cl/detail/transform_reduce.inl:148 | when `reduce_op` adds, the SerialCpu result is the fold of `reduce_op` |
| `TransformReduce.SerialCpuIgnoresReduceOp` | include/bolt/cl/detail/transform_reduce.inl:148 | for any `reduce_op` that differs from `+` at some `(a, b)`, SerialCpu on `[b]` with `init = a` differs from the fold of `reduce_op`: the serial path never calls it |
| `TransformReduce.MultiCoreCpuReturnsInit` | include/bolt/cl/detail/transform_reduce.inl:150-152 | MultiCoreCpu on a non-empty host range returns exactly `init` |
| `TransformReduce.DeviceVectorOnCpuThrows` | include/bolt/cl/detail/transform_reduce.inl:180-196 | a non-empty device_vector under SerialCpu or MultiCoreCpu throws CL_INVALID_DEVICE with the source's message and returns no value |
| `TransformReduce.SerialScenarioIdentitySum` | include/bolt/cl/detail/transform_reduce.inl:142-148 | `[1,2,3,4,5]`, identity, `init = 0` under SerialCpu gives 15 |
| `TransformReduce.SerialScenarioSquareIgnoresMultiplies` | include/bolt/cl/detail/transform_reduce.inl:145-148 | `[2,3,4]`, square, `init = 1` under SerialCpu gives 30, while folding with multiplies would give 576 |
| `TransformReduce.SmallInputFoldsOneSlot` | include/bolt/cl/detail/transform_reduce.inl:270-309 | on the device, an input that fits one work-group yields `reduce_op(init, partial[0])` |
| `TransformReduce.DeviceMatchesSerialForPlus` | include/bolt/cl/detail/transform_reduce.inl:299-311 | with `+` as `reduce_op`, the device result equals the SerialCpu result whenever the folded slots add up to the transformed input's sum |
| `TransformReduce.EnqueueResult` | include/bolt/cl/detail/transform_reduce.inl:299-311 | the device path's value is `init` folded with `reduce_op` over exactly the slots of the planned work-groups, in order |
| `TransformReduce.EnqueueOnDevice` | include/bolt/cl/detail/transform_reduce.inl:204-312 | the cache takes one call_once step for this call's signature and type definitions; the result is `init` folded over the planned slots; the geometry is that of the planned launch |
| `TransformReduce.Run` | include/bolt/cl/detail/transform_reduce.inl:36-53 | the result is the dispatcher's outcome, or the device path's fold; the cache is untouched unless the device path runs, and then takes one call_once step keyed by the staged `device_vector` iterator for host input and by the caller's iterator for `device_vector` input |
| `TransformReduce.StagedHostCallSharesKernel` | include/bolt/cl/detail/transform_reduce.inl:155-157 | the caller's host iterator type is not part of the kernel signature: host calls differing only in it, and a `device_vector` call on the staged iterator type, look up the same kernel |
| `TransformReduce.StagingScenario` | include/bolt/cl/detail/transform_reduce.inl:153-240 | two host calls with different iterator types and one `device_vector` call, all under the device mode, return the same value and compile one kernel between them |

## Left out

- OpenCL plumbing is not modelled: `acquireBuffer`, `setArg`, `enqueueNDRangeKernel`, `enqueueMapBuffer`, `bolt::cl::wait`, the `getInfo` / `getWorkGroupInfo` queries, `constructAndCompileString`, and the `V_OPENCL` error checks that throw when any of them fails. The device's compute-unit count and preferred work-group size multiple are inputs (`Device`).
- The device kernel (`transform_reduce_kernels`) is not part of this model. Its output is the array of partial results passed to `EnqueueOnDevice` / `Run`, so no lemma relates the device result to the input's values without a stated assumption (`DeviceMatchesSerialForPlus`).
- Staging a host range into a `device_vector` (line 155) is only recorded as the `stageHostCopy` flag of the route.
- Thread safety of `boost::call_once` is not modelled. The once-flag is sequential: a map plus a counter.
- The `static_assert` that rejects non-random-access iterators (lines 103-111) is a compile-time check. The model takes every input as a `seq`.
- Only the `int` instance of the functors is evaluated. The `float` and `double` instances appear only as registry entries.
- `CeilDiv` is exact integer arithmetic. The source divides through `float` (lines 270 and 299), which can round differently above 2^24 elements.
- `std::cout` messages (lines 151 and 197), `ALIGNED(256)`, and the unreachable code after each `throw` (lines 185-189 and 197-198) are left out.
- `TransformReduce.EnqueueOnDevice`: the `cl_uint` truncation of the element count (line 266) is a precondition `szElements < 2^32` rather than wrap-around.
- `LaunchPlanner.PlanWorkGroups`: `computeUnits`, `wgPerComputeUnit` and `wgSize` are unbounded naturals. The `int` overflow of their product and negative `wgPerComputeUnit` values are not modelled. With a product of 0 the model folds no slots, and the zero-sized buffer the source would request is not modelled.
- `Functional.Square`: only the value is modelled, not the dangling `T&` that the C++ operator returns.
- `Functional.Maximum`: the rule that a tie returns the left operand is unobservable on `int`, where tied operands are equal. The same holds for `Functional.Minimum`.
- The code strings in `Functional.Definition` are the stringified definitions with each run of white space read as one space. The names `op<T>` assume `BOLT_CREATE_TYPENAME` stringifies the type. clbolt/bolt.h is not part of this model.
- Type names and code for element, iterator and output types come from `TypeName<T>` / `ClCode<T>` traits that are not part of this model. They are inputs (`TypeDesc`).
- The C++ keeps one `once_flag` per template instantiation of `transform_reduce_enqueue`. The model keys its cache by the five type names of the instantiation, which identify it as long as distinct types have distinct `TypeName`s. The type traits of `device_vector<iType>::iterator` are an input to `Run` (`stagedIter`), because those traits are not part of this model. A kernel compiled under one control's device is reused under another; that is not modelled further.
- Functor results, the serial `std::accumulate` and the host tail fold are computed over unbounded integers. In C++ a signed `int` overflow past 2^31 - 1 is undefined behaviour, and in practice it wraps. So `Functional.Square`'s `r >= 0`, `Functional.MultipliesLaws`, `TransformReduce.SerialCpuAddsTransformed` and `TransformReduce.DeviceMatchesSerialForPlus` hold for the model's unbounded values, not for overflowing `int` arithmetic.
- Element, output and accumulator values are all `int`. The conversions between `iType` and `oType` are not modelled.
- The default-control overload (`control::getDefault()`, line 51) is modelled only through `Run`, which takes the control as a parameter.
