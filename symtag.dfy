/**
 * SymTagToStr (DxDiaSymTag.h): the name of a DIA symbol tag, for the tags
 * listed in ST_ENUM, and "<unknown N>" for any other value.
 */
module SymTags {
  import opened Com
  import opened Decimal

  /**
   * The SymTagEnum enumerators that ST_ENUM lists. Their values come from
   * the DIA SDK header, which is not part of this model; they are taken to
   * be the positions in the list, SymTagNull = 0 up to SymTagMax = 43.
   */
  datatype SymTag =
    | SymTagNull
    | SymTagExe
    | SymTagCompiland
    | SymTagCompilandDetails
    | SymTagCompilandEnv
    | SymTagFunction
    | SymTagBlock
    | SymTagData
    | SymTagAnnotation
    | SymTagLabel
    | SymTagPublicSymbol
    | SymTagUDT
    | SymTagEnum
    | SymTagFunctionType
    | SymTagPointerType
    | SymTagArrayType
    | SymTagBaseType
    | SymTagTypedef
    | SymTagBaseClass
    | SymTagFriend
    | SymTagFunctionArgType
    | SymTagFuncDebugStart
    | SymTagFuncDebugEnd
    | SymTagUsingNamespace
    | SymTagVTableShape
    | SymTagVTable
    | SymTagCustom
    | SymTagThunk
    | SymTagCustomType
    | SymTagManagedType
    | SymTagDimension
    | SymTagCallSite
    | SymTagInlineSite
    | SymTagBaseInterface
    | SymTagVectorType
    | SymTagMatrixType
    | SymTagHLSLType
    | SymTagCaller
    | SymTagCallee
    | SymTagExport
    | SymTagHeapAllocationSite
    | SymTagCoffGroup
    | SymTagInlinee
    | SymTagMax

  /** The number of enumerators ST_ENUM lists. */
  const SymTagCount := 44

  /** The enumerator's numeric value. */
  function Value(t: SymTag): (n: nat)
    ensures n < SymTagCount
  {
    match t
    case SymTagNull => 0
    case SymTagExe => 1
    case SymTagCompiland => 2
    case SymTagCompilandDetails => 3
    case SymTagCompilandEnv => 4
    case SymTagFunction => 5
    case SymTagBlock => 6
    case SymTagData => 7
    case SymTagAnnotation => 8
    case SymTagLabel => 9
    case SymTagPublicSymbol => 10
    case SymTagUDT => 11
    case SymTagEnum => 12
    case SymTagFunctionType => 13
    case SymTagPointerType => 14
    case SymTagArrayType => 15
    case SymTagBaseType => 16
    case SymTagTypedef => 17
    case SymTagBaseClass => 18
    case SymTagFriend => 19
    case SymTagFunctionArgType => 20
    case SymTagFuncDebugStart => 21
    case SymTagFuncDebugEnd => 22
    case SymTagUsingNamespace => 23
    case SymTagVTableShape => 24
    case SymTagVTable => 25
    case SymTagCustom => 26
    case SymTagThunk => 27
    case SymTagCustomType => 28
    case SymTagManagedType => 29
    case SymTagDimension => 30
    case SymTagCallSite => 31
    case SymTagInlineSite => 32
    case SymTagBaseInterface => 33
    case SymTagVectorType => 34
    case SymTagMatrixType => 35
    case SymTagHLSLType => 36
    case SymTagCaller => 37
    case SymTagCallee => 38
    case SymTagExport => 39
    case SymTagHeapAllocationSite => 40
    case SymTagCoffGroup => 41
    case SymTagInlinee => 42
    case SymTagMax => 43
  }

  /** Each enumerator has its own value: the switch's case labels are distinct. */
  lemma FromValueOfValue(t: SymTag)
    ensures FromValue(Value(t)) == Some(t)
  {
    match t
    case SymTagNull =>
    case SymTagExe =>
    case SymTagCompiland =>
    case SymTagCompilandDetails =>
    case SymTagCompilandEnv =>
    case SymTagFunction =>
    case SymTagBlock =>
    case SymTagData =>
    case SymTagAnnotation =>
    case SymTagLabel =>
    case SymTagPublicSymbol =>
    case SymTagUDT =>
    case SymTagEnum =>
    case SymTagFunctionType =>
    case SymTagPointerType =>
    case SymTagArrayType =>
    case SymTagBaseType =>
    case SymTagTypedef =>
    case SymTagBaseClass =>
    case SymTagFriend =>
    case SymTagFunctionArgType =>
    case SymTagFuncDebugStart =>
    case SymTagFuncDebugEnd =>
    case SymTagUsingNamespace =>
    case SymTagVTableShape =>
    case SymTagVTable =>
    case SymTagCustom =>
    case SymTagThunk =>
    case SymTagCustomType =>
    case SymTagManagedType =>
    case SymTagDimension =>
    case SymTagCallSite =>
    case SymTagInlineSite =>
    case SymTagBaseInterface =>
    case SymTagVectorType =>
    case SymTagMatrixType =>
    case SymTagHLSLType =>
    case SymTagCaller =>
    case SymTagCallee =>
    case SymTagExport =>
    case SymTagHeapAllocationSite =>
    case SymTagCoffGroup =>
    case SymTagInlinee =>
    case SymTagMax =>
  }

  /** L#EnumName: the enumerator's name without its SymTag prefix. */
  function Spelling(t: SymTag): string {
    match t
    case SymTagNull => "Null"
    case SymTagExe => "Exe"
    case SymTagCompiland => "Compiland"
    case SymTagCompilandDetails => "CompilandDetails"
    case SymTagCompilandEnv => "CompilandEnv"
    case SymTagFunction => "Function"
    case SymTagBlock => "Block"
    case SymTagData => "Data"
    case SymTagAnnotation => "Annotation"
    case SymTagLabel => "Label"
    case SymTagPublicSymbol => "PublicSymbol"
    case SymTagUDT => "UDT"
    case SymTagEnum => "Enum"
    case SymTagFunctionType => "FunctionType"
    case SymTagPointerType => "PointerType"
    case SymTagArrayType => "ArrayType"
    case SymTagBaseType => "BaseType"
    case SymTagTypedef => "Typedef"
    case SymTagBaseClass => "BaseClass"
    case SymTagFriend => "Friend"
    case SymTagFunctionArgType => "FunctionArgType"
    case SymTagFuncDebugStart => "FuncDebugStart"
    case SymTagFuncDebugEnd => "FuncDebugEnd"
    case SymTagUsingNamespace => "UsingNamespace"
    case SymTagVTableShape => "VTableShape"
    case SymTagVTable => "VTable"
    case SymTagCustom => "Custom"
    case SymTagThunk => "Thunk"
    case SymTagCustomType => "CustomType"
    case SymTagManagedType => "ManagedType"
    case SymTagDimension => "Dimension"
    case SymTagCallSite => "CallSite"
    case SymTagInlineSite => "InlineSite"
    case SymTagBaseInterface => "BaseInterface"
    case SymTagVectorType => "VectorType"
    case SymTagMatrixType => "MatrixType"
    case SymTagHLSLType => "HLSLType"
    case SymTagCaller => "Caller"
    case SymTagCallee => "Callee"
    case SymTagExport => "Export"
    case SymTagHeapAllocationSite => "HeapAllocationSite"
    case SymTagCoffGroup => "CoffGroup"
    case SymTagInlinee => "Inlinee"
    case SymTagMax => "Max"
  }

  /** The case label a value selects in SymTagToStr's switch, if any. */
  function FromValue(st: int): (r: Option<SymTag>)
    ensures r.Some? <==> 0 <= st < SymTagCount
  {
    match st
    case 0 => Some(SymTagNull)
    case 1 => Some(SymTagExe)
    case 2 => Some(SymTagCompiland)
    case 3 => Some(SymTagCompilandDetails)
    case 4 => Some(SymTagCompilandEnv)
    case 5 => Some(SymTagFunction)
    case 6 => Some(SymTagBlock)
    case 7 => Some(SymTagData)
    case 8 => Some(SymTagAnnotation)
    case 9 => Some(SymTagLabel)
    case 10 => Some(SymTagPublicSymbol)
    case 11 => Some(SymTagUDT)
    case 12 => Some(SymTagEnum)
    case 13 => Some(SymTagFunctionType)
    case 14 => Some(SymTagPointerType)
    case 15 => Some(SymTagArrayType)
    case 16 => Some(SymTagBaseType)
    case 17 => Some(SymTagTypedef)
    case 18 => Some(SymTagBaseClass)
    case 19 => Some(SymTagFriend)
    case 20 => Some(SymTagFunctionArgType)
    case 21 => Some(SymTagFuncDebugStart)
    case 22 => Some(SymTagFuncDebugEnd)
    case 23 => Some(SymTagUsingNamespace)
    case 24 => Some(SymTagVTableShape)
    case 25 => Some(SymTagVTable)
    case 26 => Some(SymTagCustom)
    case 27 => Some(SymTagThunk)
    case 28 => Some(SymTagCustomType)
    case 29 => Some(SymTagManagedType)
    case 30 => Some(SymTagDimension)
    case 31 => Some(SymTagCallSite)
    case 32 => Some(SymTagInlineSite)
    case 33 => Some(SymTagBaseInterface)
    case 34 => Some(SymTagVectorType)
    case 35 => Some(SymTagMatrixType)
    case 36 => Some(SymTagHLSLType)
    case 37 => Some(SymTagCaller)
    case 38 => Some(SymTagCallee)
    case 39 => Some(SymTagExport)
    case 40 => Some(SymTagHeapAllocationSite)
    case 41 => Some(SymTagCoffGroup)
    case 42 => Some(SymTagInlinee)
    case 43 => Some(SymTagMax)
    case _ => None
  }

  /**
   * SymTagToStr: the listed name, which reads back to the tag of that value,
   * or "<unknown N>", where N reads back to the value.
   */
  function SymTagToStr(st: int): (s: string)
    ensures 0 <= st < SymTagCount ==> ParseSpelling(s).Some? && ParseSpelling(s) == FromValue(st)
    ensures !(0 <= st < SymTagCount) ==>
      |s| > 10 && s[..9] == "<unknown " && s[|s| - 1] == '>' && ParseInt(s[9..|s| - 1]) == Some(st)
  {
    match FromValue(st)
    case Some(t) =>
      ParseSpellingRoundTrip(t);
      Spelling(t)
    case None =>
      var n := IntToString(st);
      var text := "<unknown " + n + ">";
      assert text[9..|text| - 1] == n;
      text
  }

  /** Each listed enumerator SymTagX prints as X. */
  lemma SymTagToStrListed(t: SymTag)
    ensures SymTagToStr(Value(t)) == Spelling(t)
  {
    FromValueOfValue(t);
  }

  /**
   * A value outside the list prints as "<unknown N>": it starts with '<',
   * which no listed name does, and N reads back as the value.
   */
  lemma SymTagToStrUnknown(st: int)
    requires !(0 <= st < SymTagCount)
    ensures var s := SymTagToStr(st);
      |s| > 10 && s[..9] == "<unknown " && s[|s| - 1] == '>' &&
      ParseInt(s[9..|s| - 1]) == Some(st) &&
      forall t :: s != Spelling(t)
  {
    var s := SymTagToStr(st);
    var n := IntToString(st);
    assert s == "<unknown " + n + ">";
    assert s[9..|s| - 1] == n;
    forall t ensures s != Spelling(t) {
      SpellingStartsWithLetter(t);
    }
  }

  lemma SpellingStartsWithLetter(t: SymTag)
    ensures |Spelling(t)| > 0 && 'A' <= Spelling(t)[0] <= 'Z'
  {
  }

  /** Reads a listed name back to its enumerator, independently of Spelling. */
  function ParseSpelling(s: string): Option<SymTag> {
    if |s| == 0 then None
    else match s[0]
    case 'A' =>
      if s == "Annotation" then Some(SymTagAnnotation)
      else if s == "ArrayType" then Some(SymTagArrayType)
      else None
    case 'B' =>
      if s == "Block" then Some(SymTagBlock)
      else if s == "BaseType" then Some(SymTagBaseType)
      else if s == "BaseClass" then Some(SymTagBaseClass)
      else if s == "BaseInterface" then Some(SymTagBaseInterface)
      else None
    case 'C' =>
      if s == "Compiland" then Some(SymTagCompiland)
      else if s == "CompilandDetails" then Some(SymTagCompilandDetails)
      else if s == "CompilandEnv" then Some(SymTagCompilandEnv)
      else if s == "Custom" then Some(SymTagCustom)
      else if s == "CustomType" then Some(SymTagCustomType)
      else if s == "CallSite" then Some(SymTagCallSite)
      else if s == "Caller" then Some(SymTagCaller)
      else if s == "Callee" then Some(SymTagCallee)
      else if s == "CoffGroup" then Some(SymTagCoffGroup)
      else None
    case 'D' =>
      if s == "Data" then Some(SymTagData)
      else if s == "Dimension" then Some(SymTagDimension)
      else None
    case 'E' =>
      if s == "Exe" then Some(SymTagExe)
      else if s == "Enum" then Some(SymTagEnum)
      else if s == "Export" then Some(SymTagExport)
      else None
    case 'F' =>
      if s == "Function" then Some(SymTagFunction)
      else if s == "FunctionType" then Some(SymTagFunctionType)
      else if s == "Friend" then Some(SymTagFriend)
      else if s == "FunctionArgType" then Some(SymTagFunctionArgType)
      else if s == "FuncDebugStart" then Some(SymTagFuncDebugStart)
      else if s == "FuncDebugEnd" then Some(SymTagFuncDebugEnd)
      else None
    case 'H' =>
      if s == "HLSLType" then Some(SymTagHLSLType)
      else if s == "HeapAllocationSite" then Some(SymTagHeapAllocationSite)
      else None
    case 'I' =>
      if s == "InlineSite" then Some(SymTagInlineSite)
      else if s == "Inlinee" then Some(SymTagInlinee)
      else None
    case 'L' =>
      if s == "Label" then Some(SymTagLabel)
      else None
    case 'M' =>
      if s == "ManagedType" then Some(SymTagManagedType)
      else if s == "MatrixType" then Some(SymTagMatrixType)
      else if s == "Max" then Some(SymTagMax)
      else None
    case 'N' =>
      if s == "Null" then Some(SymTagNull)
      else None
    case 'P' =>
      if s == "PublicSymbol" then Some(SymTagPublicSymbol)
      else if s == "PointerType" then Some(SymTagPointerType)
      else None
    case 'T' =>
      if s == "Typedef" then Some(SymTagTypedef)
      else if s == "Thunk" then Some(SymTagThunk)
      else None
    case 'U' =>
      if s == "UDT" then Some(SymTagUDT)
      else if s == "UsingNamespace" then Some(SymTagUsingNamespace)
      else None
    case 'V' =>
      if s == "VTableShape" then Some(SymTagVTableShape)
      else if s == "VTable" then Some(SymTagVTable)
      else if s == "VectorType" then Some(SymTagVectorType)
      else None
    case _ => None
  }

  lemma ParseSpellingRoundTrip(t: SymTag)
    ensures ParseSpelling(Spelling(t)) == Some(t)
  {
    if Value(t) < 11 {
      ParseSpellingRoundTripA(t);
    } else if Value(t) < 22 {
      ParseSpellingRoundTripB(t);
    } else if Value(t) < 33 {
      ParseSpellingRoundTripC(t);
    } else {
      ParseSpellingRoundTripD(t);
    }
  }

  lemma ParseSpellingRoundTripA(t: SymTag)
    requires Value(t) < 11
    ensures ParseSpelling(Spelling(t)) == Some(t)
  {
    match t
    case SymTagNull =>
    case SymTagExe =>
    case SymTagCompiland =>
    case SymTagCompilandDetails =>
    case SymTagCompilandEnv =>
    case SymTagFunction =>
    case SymTagBlock =>
    case SymTagData =>
    case SymTagAnnotation =>
    case SymTagLabel =>
    case SymTagPublicSymbol =>
    case _ => assert false;
  }

  lemma ParseSpellingRoundTripB(t: SymTag)
    requires 11 <= Value(t) < 22
    ensures ParseSpelling(Spelling(t)) == Some(t)
  {
    match t
    case SymTagUDT =>
    case SymTagEnum =>
    case SymTagFunctionType =>
    case SymTagPointerType =>
    case SymTagArrayType =>
    case SymTagBaseType =>
    case SymTagTypedef =>
    case SymTagBaseClass =>
    case SymTagFriend =>
    case SymTagFunctionArgType =>
    case SymTagFuncDebugStart =>
    case _ => assert false;
  }

  lemma ParseSpellingRoundTripC(t: SymTag)
    requires 22 <= Value(t) < 33
    ensures ParseSpelling(Spelling(t)) == Some(t)
  {
    match t
    case SymTagFuncDebugEnd =>
    case SymTagUsingNamespace =>
    case SymTagVTableShape =>
    case SymTagVTable =>
    case SymTagCustom =>
    case SymTagThunk =>
    case SymTagCustomType =>
    case SymTagManagedType =>
    case SymTagDimension =>
    case SymTagCallSite =>
    case SymTagInlineSite =>
    case _ => assert false;
  }

  lemma ParseSpellingRoundTripD(t: SymTag)
    requires 33 <= Value(t)
    ensures ParseSpelling(Spelling(t)) == Some(t)
  {
    match t
    case SymTagBaseInterface =>
    case SymTagVectorType =>
    case SymTagMatrixType =>
    case SymTagHLSLType =>
    case SymTagCaller =>
    case SymTagCallee =>
    case SymTagExport =>
    case SymTagHeapAllocationSite =>
    case SymTagCoffGroup =>
    case SymTagInlinee =>
    case SymTagMax =>
    case _ => assert false;
  }

  /** The 44 names are pairwise distinct: SymTagToStr is injective on listed tags. */
  lemma SymTagToStrInjective(a: SymTag, b: SymTag)
    ensures SymTagToStr(Value(a)) == SymTagToStr(Value(b)) ==> a == b
  {
    SymTagToStrListed(a);
    SymTagToStrListed(b);
    ParseSpellingRoundTrip(a);
    ParseSpellingRoundTrip(b);
  }
}
