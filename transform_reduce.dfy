/** transform_reduce: decide, from the control's run mode and where the input
    lives, whether to fold on the host, return the stub result, fail, or run
    on the device; on the device path, look up (or compile) the kernel, plan
    the launch and fold the per-work-group partial results on the host.

    Element, output and accumulator values are all `int`. The device is
    abstracted as the buffer of partial results it leaves behind. */
module TransformReduce {
  import Functional
  import opened KernelSource
  import opened LaunchPlanner
  import opened TailReduction
  import opened CompileOnce

  /** control::e_RunMode: every mode other than the two CPU modes takes the
      device path. */
  datatype RunMode = OpenCL | SerialCpu | MultiCoreCpu

  /** Which overload of pick_iterator the iterator's category selects: a
      plain host iterator or an iterator into a `device_vector`. */
  datatype Residency = HostIterator | DeviceVector

  /** The OpenCL error code CL_INVALID_DEVICE. */
  const CL_INVALID_DEVICE: int := -33

  const DEVICE_VECTOR_ON_CPU := "transform_reduce device_vector CPU device not implemented"

  /** A thrown ::cl::Error: its code and its message. */
  datatype ClError = ClError(code: int, message: string)

  /** A call either returns a value or throws. */
  datatype Outcome<T> = Ok(value: T) | Err(error: ClError)

  /** What pick_iterator decides: finish on the host (value or error), or run
      transform_reduce_enqueue, staging a host copy into a device_vector
      first when the input is not already one. */
  datatype Route = Finish(outcome: Outcome<int>) | Enqueue(stageHostCopy: bool)

  /** The device queries the planner reads. */
  datatype Device = Device(maxComputeUnits: nat, preferredWorkGroupSizeMultiple: nat)

  /** The control object as this algorithm sees it. */
  datatype Control = Control(mode: RunMode, wgPerComputeUnit: nat, device: Device)

  /** A functor: its type traits (name and OpenCL code) and its meaning. */
  datatype UnaryFunctor = UnaryFunctor(desc: TypeDesc, apply: int -> int)
  datatype BinaryFunctor = BinaryFunctor(desc: TypeDesc, apply: (int, int) -> int)

  /** sizeof(int), the output type's size in bytes. */
  const SIZEOF_INT: nat := 4

  // ---------------------------------------------------------------------------
  // Host-side reference definitions
  // ---------------------------------------------------------------------------

  /** std::transform into a temporary vector. */
  function Transformed(t: int -> int, xs: seq<int>): (ys: seq<int>)
    ensures |ys| == |xs|
    ensures forall i :: 0 <= i < |xs| ==> ys[i] == t(xs[i])
  {
    seq(|xs|, i requires 0 <= i < |xs| => t(xs[i]))
  }

  /** The sum of a sequence, summed from the right. */
  function Sum(xs: seq<int>): int {
    if xs == [] then 0 else xs[0] + Sum(xs[1..])
  }

  /** std::accumulate(output.begin(), output.end(), init): a left fold with
      the default `+`. The caller's reduce functor takes no part. */
  function SerialCpuResult(input: seq<int>, t: int -> int, init: int): (r: int)
    ensures r == init + Sum(Transformed(t, input))
  {
    FoldPlusIsSum(init, Transformed(t, input));
    FoldLeft(Functional.Plus, init, Transformed(t, input))
  }

  lemma {:induction false} FoldPlusIsSum(acc: int, xs: seq<int>)
    ensures FoldLeft(Functional.Plus, acc, xs) == acc + Sum(xs)
    decreases |xs|
  {
    if xs != [] {
      FoldPlusIsSum(acc + xs[0], xs[1..]);
    }
  }

  // ---------------------------------------------------------------------------
  // The dispatcher
  // ---------------------------------------------------------------------------

  /** pick_iterator for a host iterator. */
  function PickHostIterator(mode: RunMode, input: seq<int>, t: int -> int, init: int): (r: Route)
    ensures r.Enqueue? <==> |input| > 0 && mode == OpenCL
    ensures r.Enqueue? ==> r.stageHostCopy
    ensures r.Finish? ==> r.outcome.Ok?
  {
    if |input| == 0 then Finish(Ok(init))
    else
      match mode
      case SerialCpu => Finish(Ok(SerialCpuResult(input, t, init)))
      case MultiCoreCpu => Finish(Ok(init))
      case OpenCL => Enqueue(true)
  }

  /** pick_iterator for a device_vector iterator: the CPU modes throw, since
      the host cannot reach the data. */
  function PickDeviceVector(mode: RunMode, input: seq<int>, init: int): (r: Route)
    ensures r.Enqueue? <==> |input| > 0 && mode == OpenCL
    ensures r.Enqueue? ==> !r.stageHostCopy
    ensures r.Finish? && r.outcome.Ok? ==> |input| == 0 && r.outcome.value == init
    ensures r.Finish? && r.outcome.Err? ==> r.outcome.error.code == CL_INVALID_DEVICE
  {
    if |input| == 0 then Finish(Ok(init))
    else
      match mode
      case SerialCpu => Finish(Err(ClError(CL_INVALID_DEVICE, DEVICE_VECTOR_ON_CPU)))
      case MultiCoreCpu => Finish(Err(ClError(CL_INVALID_DEVICE, DEVICE_VECTOR_ON_CPU)))
      case OpenCL => Enqueue(false)
  }

  /** The overload chosen by the iterator's category. */
  function PickIterator(mode: RunMode, residency: Residency, input: seq<int>, t: int -> int, init: int): (r: Route)
    ensures r.Enqueue? <==> |input| > 0 && mode == OpenCL
    ensures r.Enqueue? ==> (r.stageHostCopy <==> residency == HostIterator)
    ensures r.Finish? && r.outcome.Err? ==> residency == DeviceVector && |input| > 0 && mode != OpenCL
  {
    match residency
    case HostIterator => PickHostIterator(mode, input, t, init)
    case DeviceVector => PickDeviceVector(mode, input, init)
  }

  /** An empty range gives back `init`, whatever the mode and wherever the
      input lives: no error, no device work. */
  lemma EmptyRangeReturnsInit(mode: RunMode, residency: Residency, t: int -> int, init: int)
    ensures PickIterator(mode, residency, [], t, init) == Finish(Ok(init))
  {
  }

  /** SerialCpu on a host iterator adds the transformed elements to `init`. */
  lemma SerialCpuAddsTransformed(input: seq<int>, t: int -> int, init: int)
    ensures PickIterator(SerialCpu, HostIterator, input, t, init)
         == Finish(Ok(init + Sum(Transformed(t, input))))
  {
  }

  /** When the caller's reduce functor is `+`, the SerialCpu result is its
      fold; `SerialCpuIgnoresReduceOp` gives the converse. */
  lemma SerialCpuMatchesReduceWhenPlus(input: seq<int>, t: int -> int, init: int, reduceOp: (int, int) -> int)
    requires forall a, b :: reduceOp(a, b) == a + b
    ensures SerialCpuResult(input, t, init) == FoldLeft(reduceOp, init, Transformed(t, input))
  {
    FoldLeftPointwise(Functional.Plus, reduceOp, init, Transformed(t, input));
  }

  /** Conversely, any reduce functor that differs from `+` at some `(a, b)`
      makes the SerialCpu result differ from its fold: the one-element range
      `[b]`, identity transform and `init = a` tell them apart. */
  lemma SerialCpuIgnoresReduceOp(a: int, b: int, reduceOp: (int, int) -> int)
    requires reduceOp(a, b) != a + b
    ensures SerialCpuResult([b], x => x, a) != FoldLeft(reduceOp, a, Transformed(x => x, [b]))
  {
    var ys := Transformed(x => x, [b]);
    assert ys == [b] && ys[1..] == [];
    assert FoldLeft(reduceOp, a, ys) == FoldLeft(reduceOp, reduceOp(a, b), []);
    assert Sum(ys) == b + Sum([]);
  }

  /** MultiCoreCpu on a non-empty host range is a stub returning `init`. */
  lemma MultiCoreCpuReturnsInit(input: seq<int>, t: int -> int, init: int)
    requires |input| > 0
    ensures PickIterator(MultiCoreCpu, HostIterator, input, t, init) == Finish(Ok(init))
  {
  }

  /** A non-empty device_vector under either CPU mode throws CL_INVALID_DEVICE
      and yields no value. */
  lemma DeviceVectorOnCpuThrows(mode: RunMode, input: seq<int>, t: int -> int, init: int)
    requires |input| > 0 && mode != OpenCL
    ensures PickIterator(mode, DeviceVector, input, t, init)
         == Finish(Err(ClError(CL_INVALID_DEVICE, DEVICE_VECTOR_ON_CPU)))
  {
  }

  /** Input [1,2,3,4,5], identity transform, init 0, under SerialCpu: 15. */
  lemma SerialScenarioIdentitySum()
    ensures PickIterator(SerialCpu, HostIterator, [1, 2, 3, 4, 5], x => x, 0) == Finish(Ok(15))
  {
    SerialCpuAddsTransformed([1, 2, 3, 4, 5], x => x, 0);
    assert Transformed(x => x, [1, 2, 3, 4, 5]) == [1, 2, 3, 4, 5];
  }

  /** Input [2,3,4], square, init 1, reduce multiplies, under SerialCpu: the
      code adds (1 + 4 + 9 + 16 = 30) where folding with multiplies would give
      1 * 4 * 9 * 16 = 576. */
  lemma SerialScenarioSquareIgnoresMultiplies()
    ensures PickIterator(SerialCpu, HostIterator, [2, 3, 4], Functional.Square, 1) == Finish(Ok(30))
    ensures FoldLeft(Functional.Multiplies, 1, Transformed(Functional.Square, [2, 3, 4])) == 576
  {
    var squares := Transformed(Functional.Square, [2, 3, 4]);
    assert squares == [4, 9, 16];
    SerialCpuAddsTransformed([2, 3, 4], Functional.Square, 1);
    assert Sum([16]) == 16;
    assert Sum([9, 16]) == 9 + Sum([16]);
    assert Sum([4, 9, 16]) == 4 + Sum([9, 16]);
    assert [4, 9, 16][1..] == [9, 16] && [9, 16][1..] == [16] && [16][1..] == [];
    assert FoldLeft(Functional.Multiplies, 1, [4, 9, 16]) == FoldLeft(Functional.Multiplies, 4, [9, 16]);
    assert FoldLeft(Functional.Multiplies, 4, [9, 16]) == FoldLeft(Functional.Multiplies, 36, [16]);
    assert FoldLeft(Functional.Multiplies, 36, [16]) == FoldLeft(Functional.Multiplies, 576, []);
  }

  // ---------------------------------------------------------------------------
  // The device path
  // ---------------------------------------------------------------------------

  /** What the device path returns, given the partial results the device
      left in the result buffer: `init` folded with the reduce functor over the
      slots of the work-groups launched, in ascending order. */
  function EnqueueResult(ctl: Control, szElements: nat, init: int, reduceOp: (int, int) -> int,
                         partials: seq<int>): (r: int)
    requires ctl.device.preferredWorkGroupSizeMultiple > 0
    requires |partials| >= ctl.device.maxComputeUnits * ctl.wgPerComputeUnit
    // the host folds exactly the slots of the work-groups it launched
    ensures r == FoldLeft(reduceOp, init,
                          partials[..PlannedWorkGroups(ctl.device.maxComputeUnits, ctl.wgPerComputeUnit,
                                                       ctl.device.preferredWorkGroupSizeMultiple, szElements)])
  {
    var wgSize := ctl.device.preferredWorkGroupSizeMultiple;
    var numWG := PlannedWorkGroups(ctl.device.maxComputeUnits, ctl.wgPerComputeUnit, wgSize, szElements);
    TailCountIsPlannedWorkGroups(ctl.device.maxComputeUnits, ctl.wgPerComputeUnit, wgSize, szElements);
    FoldLeft(reduceOp, init, partials[..TailCount(szElements, wgSize, numWG)])
  }

  /** The whole call, as a value. */
  function TransformReduceResult(ctl: Control, residency: Residency, input: seq<int>, t: int -> int,
                                 init: int, reduceOp: (int, int) -> int, partials: seq<int>): Outcome<int>
    requires ctl.device.preferredWorkGroupSizeMultiple > 0
    requires |partials| >= ctl.device.maxComputeUnits * ctl.wgPerComputeUnit
  {
    match PickIterator(ctl.mode, residency, input, t, init)
    case Finish(outcome) => outcome
    case Enqueue(_) => Ok(EnqueueResult(ctl, |input|, init, reduceOp, partials))
  }

  /** On the device, an input that fits in one work-group yields
      `reduce_op(init, partial[0])`: one work-group, one slot folded. */
  lemma SmallInputFoldsOneSlot(ctl: Control, residency: Residency, input: seq<int>, t: int -> int,
                               init: int, reduceOp: (int, int) -> int, partials: seq<int>)
    requires ctl.mode == OpenCL
    requires 0 < |input| <= ctl.device.preferredWorkGroupSizeMultiple
    requires ctl.device.maxComputeUnits > 0 && ctl.wgPerComputeUnit > 0
    requires |partials| >= ctl.device.maxComputeUnits * ctl.wgPerComputeUnit
    ensures TransformReduceResult(ctl, residency, input, t, init, reduceOp, partials)
         == Ok(reduceOp(init, partials[0]))
  {
    var d := ctl.device;
    SmallInputUsesOneWorkGroup(d.maxComputeUnits, ctl.wgPerComputeUnit,
                               d.preferredWorkGroupSizeMultiple, |input|);
    OneWorkGroupFoldsOneSlot(ctl, |input|, init, reduceOp, partials);
  }

  lemma OneWorkGroupFoldsOneSlot(ctl: Control, szElements: nat, init: int, reduceOp: (int, int) -> int,
                                 partials: seq<int>)
    requires ctl.device.preferredWorkGroupSizeMultiple > 0
    requires |partials| >= ctl.device.maxComputeUnits * ctl.wgPerComputeUnit
    requires PlannedWorkGroups(ctl.device.maxComputeUnits, ctl.wgPerComputeUnit,
                               ctl.device.preferredWorkGroupSizeMultiple, szElements) == 1
    ensures EnqueueResult(ctl, szElements, init, reduceOp, partials) == reduceOp(init, partials[0])
  {
    TailCountIsPlannedWorkGroups(ctl.device.maxComputeUnits, ctl.wgPerComputeUnit,
                                 ctl.device.preferredWorkGroupSizeMultiple, szElements);
    var wgSize := ctl.device.preferredWorkGroupSizeMultiple;
    assert TailCount(szElements, wgSize, 1) == 1;
    var slots := partials[..1];
    assert slots == [partials[0]] && slots[1..] == [];
    assert FoldLeft(reduceOp, init, slots) == FoldLeft(reduceOp, reduceOp(init, partials[0]), []);
  }

  /** With `+` as the reduce functor, the device path agrees with SerialCpu
      whenever the slots the host folds add up to the sum of the transformed
      input (what the device kernel, outside this model, is meant to
      deliver). */
  lemma DeviceMatchesSerialForPlus(ctl: Control, input: seq<int>, t: int -> int, init: int,
                                   partials: seq<int>)
    requires ctl.device.preferredWorkGroupSizeMultiple > 0
    requires |partials| >= ctl.device.maxComputeUnits * ctl.wgPerComputeUnit
    requires var wgSize := ctl.device.preferredWorkGroupSizeMultiple;
             var numWG := PlannedWorkGroups(ctl.device.maxComputeUnits, ctl.wgPerComputeUnit, wgSize, |input|);
             numWG <= |partials| && Sum(partials[..numWG]) == Sum(Transformed(t, input))
    ensures EnqueueResult(ctl, |input|, init, Functional.Plus, partials) == SerialCpuResult(input, t, init)
  {
    var wgSize := ctl.device.preferredWorkGroupSizeMultiple;
    var numWG := PlannedWorkGroups(ctl.device.maxComputeUnits, ctl.wgPerComputeUnit, wgSize, |input|);
    TailCountIsPlannedWorkGroups(ctl.device.maxComputeUnits, ctl.wgPerComputeUnit, wgSize, |input|);
    FoldPlusIsSum(init, partials[..numWG]);
    FoldPlusIsSum(init, Transformed(t, input));
  }

  /** transform_reduce_enqueue: build the signature and type definitions,
      compile once per signature, plan the launch, and fold the partial
      results the device left in `hResult`. Also returns the launch geometry
      handed to enqueueNDRangeKernel. */
  method EnqueueOnDevice(cache: KernelCache, ctl: Control, szElements: nat,
                         iType: TypeDesc, iterType: TypeDesc, oType: TypeDesc,
                         transformOp: UnaryFunctor, init: int, reduceOp: BinaryFunctor,
                         userCode: string, hResult: array<int>)
    returns (acc: int, launch: Geometry)
    requires cache.Valid()
    requires ctl.device.preferredWorkGroupSizeMultiple > 0
    requires szElements < 0x1_0000_0000
    requires hResult.Length >= ctl.device.maxComputeUnits * ctl.wgPerComputeUnit
    modifies cache
    ensures cache.Valid()
    ensures cache.kernels == AfterCallOnce(old(cache.kernels),
              Signature(iType, iterType, oType, transformOp.desc, reduceOp.desc),
              TypeDefinitions(userCode, iType, iterType, oType, transformOp.desc, reduceOp.desc))
    ensures acc == EnqueueResult(ctl, szElements, init, reduceOp.apply, hResult[..])
    ensures launch == LaunchGeometry(
              PlannedWorkGroups(ctl.device.maxComputeUnits, ctl.wgPerComputeUnit,
                                ctl.device.preferredWorkGroupSizeMultiple, szElements),
              ctl.device.preferredWorkGroupSizeMultiple, SIZEOF_INT)
  {
    var args := Signature(iType, iterType, oType, transformOp.desc, reduceOp.desc);
    var typeDefinitions := TypeDefinitions(userCode, iType, iterType, oType, transformOp.desc, reduceOp.desc);
    var kernel := cache.GetOrCompile(args, typeDefinitions);

    var wgSize := ctl.device.preferredWorkGroupSizeMultiple;
    var numWG, allocatedSlots := PlanWorkGroups(ctl.device.maxComputeUnits, ctl.wgPerComputeUnit,
                                                wgSize, szElements);
    launch := LaunchGeometry(numWG, wgSize, SIZEOF_INT);

    var numTailReduce := Functional.Minimum(CeilDiv(szElements, wgSize), numWG);
    acc := TailReduce(hResult, numTailReduce, init, reduceOp.apply);
    assert hResult[..][..numTailReduce] == hResult[..numTailReduce];
  }

  /** The iterator type transform_reduce_enqueue is instantiated with. A host
      range is first copied into a `device_vector<iType>`, so the device path
      then runs on that vector's iterator (`stagedIter`), never on the
      caller's; a device_vector range runs on its own iterator. */
  function KernelIterator(residency: Residency, iterType: TypeDesc, stagedIter: TypeDesc): TypeDesc {
    match residency
    case HostIterator => stagedIter
    case DeviceVector => iterType
  }

  /** The signature under which the device path looks up its kernel. */
  function KernelSignature(residency: Residency, iType: TypeDesc, iterType: TypeDesc, stagedIter: TypeDesc,
                           oType: TypeDesc, transformOp: UnaryFunctor, reduceOp: BinaryFunctor): KernelParams {
    Signature(iType, KernelIterator(residency, iterType, stagedIter), oType, transformOp.desc, reduceOp.desc)
  }

  /** The caller's host iterator type takes no part in the kernel's
      signature: host calls that differ only in it, and a device_vector call
      on the staged vector's iterator type, all share one kernel. */
  lemma StagedHostCallSharesKernel(iType: TypeDesc, hostIter1: TypeDesc, hostIter2: TypeDesc,
                                   stagedIter: TypeDesc, oType: TypeDesc,
                                   transformOp: UnaryFunctor, reduceOp: BinaryFunctor)
    ensures KernelSignature(HostIterator, iType, hostIter1, stagedIter, oType, transformOp, reduceOp)
         == KernelSignature(HostIterator, iType, hostIter2, stagedIter, oType, transformOp, reduceOp)
    ensures KernelSignature(HostIterator, iType, hostIter1, stagedIter, oType, transformOp, reduceOp)
         == KernelSignature(DeviceVector, iType, stagedIter, hostIter1, oType, transformOp, reduceOp)
    ensures KernelSignature(HostIterator, iType, hostIter1, stagedIter, oType, transformOp, reduceOp)
              .inValueIterType == stagedIter.name
  {
  }

  /** transform_reduce: dispatch, and run the device path when chosen. The
      kernel cache is touched only on the device path; an empty range, the
      CPU modes and the thrown error leave it as it was. `stagedIter` is the
      type traits of `device_vector<iType>::iterator`, used when a host range
      is staged. */
  method Run(cache: KernelCache, ctl: Control, residency: Residency, input: seq<int>,
             iType: TypeDesc, iterType: TypeDesc, stagedIter: TypeDesc, oType: TypeDesc,
             transformOp: UnaryFunctor, init: int, reduceOp: BinaryFunctor,
             userCode: string, hResult: array<int>)
    returns (r: Outcome<int>)
    requires cache.Valid()
    requires ctl.device.preferredWorkGroupSizeMultiple > 0
    requires ctl.mode == OpenCL ==> |input| < 0x1_0000_0000
    requires hResult.Length >= ctl.device.maxComputeUnits * ctl.wgPerComputeUnit
    modifies cache
    ensures cache.Valid()
    ensures r == TransformReduceResult(ctl, residency, input, transformOp.apply, init, reduceOp.apply, hResult[..])
    ensures PickIterator(ctl.mode, residency, input, transformOp.apply, init).Finish?
            ==> cache.kernels == old(cache.kernels) && cache.compileCount == old(cache.compileCount)
    ensures PickIterator(ctl.mode, residency, input, transformOp.apply, init).Enqueue?
            ==> cache.kernels == AfterCallOnce(old(cache.kernels),
                  KernelSignature(residency, iType, iterType, stagedIter, oType, transformOp, reduceOp),
                  TypeDefinitions(userCode, iType, KernelIterator(residency, iterType, stagedIter), oType,
                                  transformOp.desc, reduceOp.desc))
  {
    var route := PickIterator(ctl.mode, residency, input, transformOp.apply, init);
    match route
    case Finish(outcome) =>
      r := outcome;
    case Enqueue(stageHostCopy) =>
      // a staged host range is handed on as an iterator into the new device_vector
      var enqueuedIter := if stageHostCopy then stagedIter else iterType;
      var acc, _ := EnqueueOnDevice(cache, ctl, |input|, iType, enqueuedIter, oType,
                                    transformOp, init, reduceOp, userCode, hResult);
      r := Ok(acc);
  }

  /** Under the device mode, two host ranges with different iterator types and
      then a device_vector range of the same element type all reach the
      device, return the same value, and compile a single kernel between
      them. */
  method StagingScenario(ctl: Control, input: seq<int>, iType: TypeDesc, hostIter1: TypeDesc,
                         hostIter2: TypeDesc, stagedIter: TypeDesc, oType: TypeDesc,
                         transformOp: UnaryFunctor, init: int, reduceOp: BinaryFunctor,
                         userCode: string, hResult: array<int>)
    returns (r1: Outcome<int>, r2: Outcome<int>, r3: Outcome<int>, compiles: nat)
    requires ctl.mode == OpenCL && 0 < |input| < 0x1_0000_0000
    requires ctl.device.preferredWorkGroupSizeMultiple > 0
    requires hResult.Length >= ctl.device.maxComputeUnits * ctl.wgPerComputeUnit
    ensures r1.Ok? && r1 == r2 && r2 == r3
    ensures compiles == 1
  {
    var cache := new KernelCache();
    r1 := Run(cache, ctl, HostIterator, input, iType, hostIter1, stagedIter, oType,
              transformOp, init, reduceOp, userCode, hResult);
    r2 := Run(cache, ctl, HostIterator, input, iType, hostIter2, stagedIter, oType,
              transformOp, init, reduceOp, userCode, hResult);
    r3 := Run(cache, ctl, DeviceVector, input, iType, stagedIter, stagedIter, oType,
              transformOp, init, reduceOp, userCode, hResult);
    compiles := cache.compileCount;
  }
}
