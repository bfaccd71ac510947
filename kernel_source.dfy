/** The text the host assembles before compiling the transform_reduce kernel:
    the type signature (`kernelParams`), the template-instantiation header that
    names the five types, and the type-definition code handed to the compiler
    alongside it. */
module KernelSource {
  import opened Strings

  /** The five type names that identify one kernel instantiation: element
      type, iterator type, output type, transform functor and reduce functor. */
  datatype KernelParams = KernelParams(
    inValueNakedType: string,
    inValueIterType: string,
    outValueNakedType: string,
    transformFunctorTypeName: string,
    reduceFunctorTypeName: string)

  /** What the type traits report for one C++ type: its name
      (TypeName<T>::get) and the OpenCL code that defines it (ClCode<T>::get). */
  datatype TypeDesc = TypeDesc(name: string, code: string)

  /** The arguments the host passes to the kernel compiler. The kernel
      template itself (`transform_reduce_kernels`) is fixed text outside the
      model. */
  datatype CompiledKernel = CompiledKernel(
    kernelName: string,
    instantiation: string,
    typeDefinitions: string,
    valueTypeName: string,
    functorNames: string)

  /** The signature of a call, built from the five types' names. */
  function Signature(iType: TypeDesc, iterType: TypeDesc, oType: TypeDesc,
                     unary: TypeDesc, binary: TypeDesc): (kp: KernelParams)
    ensures kp.inValueNakedType == iType.name && kp.inValueIterType == iterType.name
    ensures kp.outValueNakedType == oType.name
    ensures kp.transformFunctorTypeName == unary.name && kp.reduceFunctorTypeName == binary.name
  {
    KernelParams(iType.name, iterType.name, oType.name, unary.name, binary.name)
  }

  // ---------------------------------------------------------------------------
  // The instantiation header
  // ---------------------------------------------------------------------------

  /** Lines joined, each followed by a newline. */
  function JoinLines(lines: seq<string>): string {
    if lines == [] then [] else lines[0] + "\n" + JoinLines(lines[1..])
  }

  /** Cuts a string at its newlines; a last piece without a newline is kept. */
  function SplitLines(s: string): seq<string>
    decreases |s|
  {
    if s == [] then []
    else
      var i := Strings.IndexOf(s, '\n');
      if i == |s| then [s] else [s[..i]] + SplitLines(s[i + 1..])
  }

  predicate NoNewline(line: string) {
    '\n' !in line
  }

  /** Splitting undoes joining, as long as no line holds a newline itself. */
  lemma {:induction false} SplitJoinLines(lines: seq<string>)
    requires forall k :: 0 <= k < |lines| ==> NoNewline(lines[k])
    ensures SplitLines(JoinLines(lines)) == lines
  {
    if lines != [] {
      var rest := JoinLines(lines[1..]);
      assert JoinLines(lines) == lines[0] + ("\n" + rest);
      Strings.IndexOfAfter(lines[0], "\n" + rest, '\n');
      assert (lines[0] + ("\n" + rest))[|lines[0]| + 1..] == rest;
      SplitJoinLines(lines[1..]);
      assert [lines[0]] + lines[1..] == lines;
    }
  }

  // The four fixed lines that open the header (written in pieces so that the
  // verifier can see they hold no newline).
  const HEADER_COMMENT := "// Host generates this " + "instantiation string with "
                          + "user-specified value type and functor"
  const TEMPLATE_LINE := "template __attribute__((" + "mangled_name(transform_" + "reduceInstantiated)))"
  const WORK_GROUP_LINE := "__attribute__((" + "reqd_work_group_size" + "(64,1,1)))"
  const KERNEL_LINE := "kernel void " + "transform_reduce" + "Template("

  lemma HeaderCommentWithoutNewline()
    ensures NoNewline(HEADER_COMMENT)
  {
    NoNewlineAround("// Host generates this ", "instantiation string with ",
                    "user-specified value type and functor");
  }

  lemma TemplateLineWithoutNewline()
    ensures NoNewline(TEMPLATE_LINE)
  {
    NoNewlineAround("template __attribute__((", "mangled_name(transform_", "reduceInstantiated)))");
  }

  lemma WorkGroupLineWithoutNewline()
    ensures NoNewline(WORK_GROUP_LINE)
  {
    NoNewlineAround("__attribute__((", "reqd_work_group_size", "(64,1,1)))");
  }

  lemma KernelLineWithoutNewline()
    ensures NoNewline(KERNEL_LINE)
  {
    NoNewlineAround("kernel void ", "transform_reduce", "Template(");
  }

  /** The lines of the instantiation header, in order. The parameter list of
      `transform_reduceTemplate` names the element type, the iterator type,
      the transform functor, the output type (three times) and the reduce
      functor. */
  function InstantiationLines(kp: KernelParams): seq<string> {
    [ HEADER_COMMENT,
      TEMPLATE_LINE,
      WORK_GROUP_LINE,
      KERNEL_LINE,
      "global " + kp.inValueNakedType + "* input_ptr,",
      kp.inValueIterType + " iIter,",
      "const int length,",
      "global " + kp.transformFunctorTypeName + "* transformFunctor,",
      "const " + kp.outValueNakedType + " init,",
      "global " + kp.reduceFunctorTypeName + "* reduceFunctor,",
      "global " + kp.outValueNakedType + "* result,",
      "local " + kp.outValueNakedType + "* scratch",
      ");",
      "" ]
  }

  /** The instantiation string built in constructAndCompile. */
  function InstantiationString(kp: KernelParams): string {
    JoinLines(InstantiationLines(kp))
  }

  /** The part of `line` between a known prefix and a known suffix. */
  function Between(line: string, prefix: string, suffix: string): (r: Option<string>)
    ensures r.Some? ==> line == prefix + r.value + suffix
  {
    if |prefix| + |suffix| <= |line| && line[..|prefix|] == prefix
       && line[|line| - |suffix|..] == suffix
    then
      var mid := line[|prefix|..|line| - |suffix|];
      assert line == line[..|prefix|] + mid + line[|line| - |suffix|..];
      Some(mid)
    else None
  }

  lemma BetweenOf(prefix: string, x: string, suffix: string)
    ensures Between(prefix + x + suffix, prefix, suffix) == Some(x)
  {
    var line := prefix + x + suffix;
    assert line[..|prefix|] == prefix;
    assert line[|line| - |suffix|..] == suffix;
    assert line[|prefix|..|line| - |suffix|] == x;
  }

  lemma NoNewlineAround(prefix: string, x: string, suffix: string)
    requires NoNewline(prefix) && NoNewline(x) && NoNewline(suffix)
    ensures NoNewline(prefix + x + suffix)
  {
    var line := prefix + x + suffix;
    forall i | 0 <= i < |line| ensures line[i] != '\n' {
      if i < |prefix| {
        assert line[i] == prefix[i];
      } else if i < |prefix| + |x| {
        assert line[i] == x[i - |prefix|];
      } else {
        assert line[i] == suffix[i - |prefix| - |x|];
      }
    }
  }

  /** Reads the five type names back out of the lines of a header. */
  function ParseLines(ls: seq<string>): Option<KernelParams> {
    if |ls| != 14 then None
    else
      match (Between(ls[4], "global ", "* input_ptr,"), Between(ls[5], "", " iIter,"),
             Between(ls[8], "const ", " init,"), Between(ls[7], "global ", "* transformFunctor,"),
             Between(ls[9], "global ", "* reduceFunctor,"))
      case (Some(i), Some(it), Some(o), Some(t), Some(r)) => Some(KernelParams(i, it, o, t, r))
      case _ => None
  }

  /** Reads the five type names back out of an instantiation header. */
  function ParseInstantiation(s: string): Option<KernelParams> {
    ParseLines(SplitLines(s))
  }

  predicate NamesWithoutNewline(kp: KernelParams) {
    NoNewline(kp.inValueNakedType) && NoNewline(kp.inValueIterType)
    && NoNewline(kp.outValueNakedType) && NoNewline(kp.transformFunctorTypeName)
    && NoNewline(kp.reduceFunctorTypeName)
  }

  lemma InstantiationLinesWithoutNewline(kp: KernelParams)
    requires NamesWithoutNewline(kp)
    ensures forall k :: 0 <= k < |InstantiationLines(kp)| ==> NoNewline(InstantiationLines(kp)[k])
  {
    HeaderCommentWithoutNewline();
    TemplateLineWithoutNewline();
    WorkGroupLineWithoutNewline();
    KernelLineWithoutNewline();
    assert NoNewline("const int length,") && NoNewline(");") && NoNewline("");
    NoNewlineAround("global ", kp.inValueNakedType, "* input_ptr,");
    NoNewlineAround("", kp.inValueIterType, " iIter,");
    assert "" + kp.inValueIterType + " iIter," == kp.inValueIterType + " iIter,";
    NoNewlineAround("global ", kp.transformFunctorTypeName, "* transformFunctor,");
    NoNewlineAround("const ", kp.outValueNakedType, " init,");
    NoNewlineAround("global ", kp.reduceFunctorTypeName, "* reduceFunctor,");
    NoNewlineAround("global ", kp.outValueNakedType, "* result,");
    NoNewlineAround("local ", kp.outValueNakedType, "* scratch");
  }

  lemma ParseInstantiationLines(kp: KernelParams)
    ensures ParseLines(InstantiationLines(kp)) == Some(kp)
  {
    var lines := InstantiationLines(kp);
    BetweenOf("global ", kp.inValueNakedType, "* input_ptr,");
    BetweenOf("", kp.inValueIterType, " iIter,");
    assert "" + kp.inValueIterType + " iIter," == lines[5];
    BetweenOf("const ", kp.outValueNakedType, " init,");
    BetweenOf("global ", kp.transformFunctorTypeName, "* transformFunctor,");
    BetweenOf("global ", kp.reduceFunctorTypeName, "* reduceFunctor,");
  }

  /** The header names each of the five types at its own parameter position:
      reading it back gives the signature it was built from. */
  lemma InstantiationRoundTrip(kp: KernelParams)
    requires NamesWithoutNewline(kp)
    ensures ParseInstantiation(InstantiationString(kp)) == Some(kp)
  {
    InstantiationLinesWithoutNewline(kp);
    SplitJoinLines(InstantiationLines(kp));
    ParseInstantiationLines(kp);
  }

  /** Two different signatures never produce the same header. */
  lemma InstantiationInjective(a: KernelParams, b: KernelParams)
    requires NamesWithoutNewline(a) && NamesWithoutNewline(b)
    requires InstantiationString(a) == InstantiationString(b)
    ensures a == b
  {
    InstantiationRoundTrip(a);
    InstantiationRoundTrip(b);
  }

  // ---------------------------------------------------------------------------
  // Type definitions and the compile request
  // ---------------------------------------------------------------------------

  /** The code compiled ahead of the kernel template: the caller's own code,
      then the definitions of the element type, the iterator, the transform
      functor and the reduce functor, and the output type's definition only
      when it is a different type from the element type. */
  function TypeDefinitions(userCode: string, iType: TypeDesc, iterType: TypeDesc,
                           oType: TypeDesc, unary: TypeDesc, binary: TypeDesc): (r: string)
    ensures userCode <= r
    ensures iType == oType ==> r == userCode + iType.code + iterType.code + unary.code + binary.code
    ensures iType != oType ==> r == userCode + iType.code + iterType.code + unary.code + binary.code + oType.code
  {
    var shared := userCode + iType.code + iterType.code + unary.code + binary.code;
    if iType != oType then shared + oType.code else shared
  }

  /** The output type's code is the only thing its identity adds: the text
      for two different types is the text for equal types plus that code. */
  lemma OutputCodeOnlyWhenTypesDiffer(userCode: string, iType: TypeDesc, iterType: TypeDesc,
                                      oType: TypeDesc, unary: TypeDesc, binary: TypeDesc)
    ensures TypeDefinitions(userCode, iType, iterType, oType, unary, binary)
         == TypeDefinitions(userCode, iType, iterType, iType, unary, binary)
            + (if iType != oType then oType.code else "")
  {
  }

  /** constructAndCompile: the request sent to the compiler for one signature
      and one block of type definitions. */
  function ConstructAndCompile(typeDefinitions: string, kp: KernelParams): (k: CompiledKernel)
    ensures k.kernelName == "transform_reduce"
    ensures k.typeDefinitions == typeDefinitions
    ensures k.valueTypeName == kp.outValueNakedType
    ensures k.functorNames == kp.transformFunctorTypeName + " , " + kp.reduceFunctorTypeName
  {
    CompiledKernel("transform_reduce", InstantiationString(kp), typeDefinitions,
                   kp.outValueNakedType,
                   kp.transformFunctorTypeName + " , " + kp.reduceFunctorTypeName)
  }

  /** A compiled kernel remembers the signature it was instantiated for. */
  lemma CompiledKernelNamesItsSignature(typeDefinitions: string, kp: KernelParams)
    requires NamesWithoutNewline(kp)
    ensures ParseInstantiation(ConstructAndCompile(typeDefinitions, kp).instantiation) == Some(kp)
  {
    InstantiationRoundTrip(kp);
  }
}
