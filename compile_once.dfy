/** The compile-once state of transform_reduce_enqueue: for every template
    instantiation the C++ code keeps a function-local `static once_flag` and
    `static Kernel`. Here those statics are one object: a map from the
    instantiation's type signature to the kernel compiled for it, plus a count
    of how many compilations ran. The once-flag is modelled sequentially. */
module CompileOnce {
  import opened KernelSource

  /** The signature-to-kernel map after one call_once on `kp`: untouched when
      the signature already has a kernel, otherwise extended with the kernel
      compiled from this call's type definitions. */
  function AfterCallOnce(kernels: map<KernelParams, CompiledKernel>, kp: KernelParams,
                         typeDefinitions: string): (m: map<KernelParams, CompiledKernel>)
    ensures kp in m
    ensures forall other :: other != kp ==> (other in m <==> other in kernels)
    ensures forall other :: other in kernels ==> m[other] == kernels[other]
  {
    if kp in kernels then kernels else kernels[kp := ConstructAndCompile(typeDefinitions, kp)]
  }

  /** The first call for a signature decides its kernel for good: a later call
      with any other type definitions changes nothing. */
  lemma FirstCallWins(kernels: map<KernelParams, CompiledKernel>, kp: KernelParams,
                      code1: string, code2: string)
    ensures AfterCallOnce(AfterCallOnce(kernels, kp, code1), kp, code2) == AfterCallOnce(kernels, kp, code1)
    ensures kp !in kernels ==> AfterCallOnce(kernels, kp, code1)[kp].typeDefinitions == code1
  {
  }

  /** Calls on two different signatures commute and leave each other's
      entries alone. */
  lemma SignaturesAreIndependent(kernels: map<KernelParams, CompiledKernel>, kp1: KernelParams,
                                 kp2: KernelParams, code1: string, code2: string)
    requires kp1 != kp2
    ensures AfterCallOnce(AfterCallOnce(kernels, kp1, code1), kp2, code2)
         == AfterCallOnce(AfterCallOnce(kernels, kp2, code2), kp1, code1)
  {
  }

  class KernelCache {
    /** The kernel stored for every signature whose once-flag has fired. */
    var kernels: map<KernelParams, CompiledKernel>
    /** How many times constructAndCompile ran. */
    var compileCount: nat

    /** Every stored kernel came from exactly one compilation, and each was
        instantiated for the signature it is stored under. */
    ghost predicate Valid()
      reads this
    {
      && compileCount == |kernels|
      && forall kp :: kp in kernels ==> kernels[kp].instantiation == InstantiationString(kp)
    }

    /** The statics before any call: no flag has fired. */
    constructor ()
      ensures Valid()
      ensures kernels == map[] && compileCount == 0
    {
      kernels := map[];
      compileCount := 0;
    }

    /** call_once(initOnlyOnce, constructAndCompile, ...): compile only when
        this signature has no kernel yet, and then from this call's type
        definitions; otherwise hand back the stored kernel untouched, whatever
        type definitions this call brings. */
    method GetOrCompile(kp: KernelParams, typeDefinitions: string) returns (k: CompiledKernel)
      requires Valid()
      modifies this
      ensures Valid()
      ensures kernels == AfterCallOnce(old(kernels), kp, typeDefinitions)
      ensures compileCount == old(compileCount) + (if kp in old(kernels) then 0 else 1)
      ensures k == kernels[kp]
      ensures k.instantiation == InstantiationString(kp)
    {
      if kp !in kernels {
        kernels := kernels[kp := ConstructAndCompile(typeDefinitions, kp)];
        compileCount := compileCount + 1;
      }
      k := kernels[kp];
    }
  }

  /** Two calls with one signature compile once, and the second call gets the
      kernel built from the first call's code; a call with another signature
      compiles its own. */
  method CompileOnceScenario(kp: KernelParams, other: KernelParams, code1: string, code2: string)
    returns (first: CompiledKernel, second: CompiledKernel, third: CompiledKernel, compiles: nat)
    requires kp != other
    ensures first == second && second.typeDefinitions == code1
    ensures third.typeDefinitions == code2 && third.instantiation == InstantiationString(other)
    ensures compiles == 2
  {
    var cache := new KernelCache();
    first := cache.GetOrCompile(kp, code1);
    second := cache.GetOrCompile(kp, code2);
    third := cache.GetOrCompile(other, code2);
    compiles := cache.compileCount;
  }
}
