/** How transform_reduce_enqueue sizes its launch: how many work-groups it
    runs, how large each is, how many result slots it allocates, and how many
    of them the host folds afterwards. All quantities are integers; the
    device queries that supply them are inputs. */
module LaunchPlanner {
  import Functional

  /** The number of `d`-sized groups needed to hold `n` elements. The source
      computes this through `float`; here it is exact integer arithmetic. */
  function CeilDiv(n: nat, d: nat): (q: nat)
    requires d > 0
    ensures q * d >= n
    ensures q > 0 ==> (q - 1) * d < n
    ensures q == 0 <==> n == 0
  {
    var q := (n + d - 1) / d;
    assert q * d + (n + d - 1) % d == n + d - 1;
    q
  }

  /** The work-group count the planner settles on: the device's capacity,
      cut down to what the input needs whenever that is smaller. */
  function PlannedWorkGroups(computeUnits: nat, wgPerComputeUnit: nat, wgSize: nat, szElements: nat): (numWG: nat)
    requires wgSize > 0
    ensures numWG <= computeUnits * wgPerComputeUnit && numWG <= CeilDiv(szElements, wgSize)
    ensures numWG == computeUnits * wgPerComputeUnit || numWG == CeilDiv(szElements, wgSize)
  {
    Functional.Minimum(computeUnits * wgPerComputeUnit, CeilDiv(szElements, wgSize))
  }

  lemma MulMonotone(a: nat, b: nat, d: nat)
    requires a <= b
    ensures a * d <= b * d
  {
  }

  /** The shrink step: `numWG` starts as the device's capacity (which also
      sizes the result buffer) and is reassigned to the number of work-groups
      the input needs when that is smaller. */
  method PlanWorkGroups(computeUnits: nat, wgPerComputeUnit: nat, wgSize: nat, szElements: nat)
    returns (numWG: nat, allocatedSlots: nat)
    requires wgSize > 0
    ensures allocatedSlots == computeUnits * wgPerComputeUnit
    ensures numWG == PlannedWorkGroups(computeUnits, wgPerComputeUnit, wgSize, szElements)
    ensures numWG <= allocatedSlots && numWG <= CeilDiv(szElements, wgSize)
    ensures numWG == allocatedSlots || numWG == CeilDiv(szElements, wgSize)
    ensures szElements > 0 && computeUnits > 0 && wgPerComputeUnit > 0 ==> numWG >= 1
    // the grid covers the input exactly when the device has room for it
    ensures numWG * wgSize >= szElements <==> CeilDiv(szElements, wgSize) <= allocatedSlots
    // no work-group is launched without an element to work on
    ensures numWG > 0 ==> (numWG - 1) * wgSize < szElements
  {
    numWG := computeUnits * wgPerComputeUnit;
    allocatedSlots := numWG;
    var requiredWorkGroups := CeilDiv(szElements, wgSize);
    if requiredWorkGroups < numWG {
      numWG := requiredWorkGroups;
    }
    if numWG > 0 {
      MulMonotone(numWG - 1, requiredWorkGroups - 1, wgSize);
    }
    if requiredWorkGroups > allocatedSlots {
      MulMonotone(numWG, requiredWorkGroups - 1, wgSize);
    }
  }

  lemma MulDivExact(a: nat, d: nat)
    requires d > 0
    ensures (a * d) % d == 0 && (a * d) / d == a
  {
    var q, r := (a * d) / d, (a * d) % d;
    assert (a - q) * d == r;
    if a - q >= 1 {
      MulMonotone(1, a - q, d);
    } else if a - q <= -1 {
      MulMonotone(1, q - a, d);
    }
  }

  /** The NDRange of the launch and the size of the local scratch argument. */
  datatype Geometry = Geometry(globalSize: nat, localSize: nat, scratchBytes: nat)

  /** Global size `numWG * wgSize`, local size `wgSize`, and `wgSize` elements
      of the output type as local scratch. */
  function LaunchGeometry(numWG: nat, wgSize: nat, outTypeBytes: nat): (g: Geometry)
    requires wgSize > 0
    ensures g.localSize == wgSize
    ensures g.globalSize % g.localSize == 0 && g.globalSize / g.localSize == numWG
    ensures g.scratchBytes == g.localSize * outTypeBytes
  {
    MulDivExact(numWG, wgSize);
    Geometry(numWG * wgSize, wgSize, wgSize * outTypeBytes)
  }

  /** The number of result slots the host folds: the smaller of the
      work-groups the input needs and the work-groups launched. */
  function TailCount(szElements: nat, wgSize: nat, numWG: nat): (n: nat)
    requires wgSize > 0
    ensures n <= numWG && n <= CeilDiv(szElements, wgSize)
    ensures n == numWG || n == CeilDiv(szElements, wgSize)
  {
    Functional.Minimum(CeilDiv(szElements, wgSize), numWG)
  }

  /** After planning, the tail fold reads exactly the slots of the launched
      work-groups, which never exceed the slots allocated. */
  lemma TailCountIsPlannedWorkGroups(computeUnits: nat, wgPerComputeUnit: nat, wgSize: nat, szElements: nat)
    requires wgSize > 0
    ensures var numWG := PlannedWorkGroups(computeUnits, wgPerComputeUnit, wgSize, szElements);
            TailCount(szElements, wgSize, numWG) == numWG
            && numWG <= computeUnits * wgPerComputeUnit
  {
  }

  /** An input no larger than one work-group runs as a single work-group whose
      one slot is all the host reads. */
  lemma SmallInputUsesOneWorkGroup(computeUnits: nat, wgPerComputeUnit: nat, wgSize: nat, szElements: nat)
    requires wgSize > 0 && 0 < szElements <= wgSize
    requires computeUnits > 0 && wgPerComputeUnit > 0
    ensures PlannedWorkGroups(computeUnits, wgPerComputeUnit, wgSize, szElements) == 1
    ensures TailCount(szElements, wgSize, 1) == 1
  {
    assert CeilDiv(szElements, wgSize) == 1 by {
      var q := CeilDiv(szElements, wgSize);
      if q >= 2 {
        MulMonotone(1, q - 1, wgSize);
      }
    }
    MulMonotone(1, computeUnits, wgPerComputeUnit);
  }
}
