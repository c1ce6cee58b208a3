/**
 * The fatal-error taxonomy of dxdia (DxDiaResult.h): an enumeration whose
 * ordinals become the process exit status, its table of printable names,
 * and the error record that every FATAL_ERROR site throws.
 */
module Errors {
  import opened Com

  /** FatalError::Kind, in the order of DXDIA_ERROR_LIST. */
  datatype Kind =
    | FailedToLoadInput
    | D3DGetDebugInfoFailed
    | HLSLCompilationFailure
    | FailedToParseBC
    | OOM
    | ThreadFSCreationErr
    | DataSourceCreationErr
    | DataSourceLoadErr
    | SessionCreationErr
    | QueryErr
    | ChildrenEnumErr
    | D3DCompilerLoadErr
    | CompilerLoadErr
    | ENotImpl
    | TempFileCreationErr
    | OutputFileCreationErr
    | UnknownErr

  /** DXDIA_ERROR_LIST: every kind once, in declaration order. */
  const KindList: seq<Kind> := [
    FailedToLoadInput, D3DGetDebugInfoFailed, HLSLCompilationFailure,
    FailedToParseBC, OOM, ThreadFSCreationErr, DataSourceCreationErr,
    DataSourceLoadErr, SessionCreationErr, QueryErr, ChildrenEnumErr,
    D3DCompilerLoadErr, CompilerLoadErr, ENotImpl, TempFileCreationErr,
    OutputFileCreationErr, UnknownErr
  ]

  /** The name table that kind_str indexes, one stringified name per kind. */
  const KindNames: seq<string> := [
    "FailedToLoadInput", "D3DGetDebugInfoFailed", "HLSLCompilationFailure",
    "FailedToParseBC", "OOM", "ThreadFSCreationErr", "DataSourceCreationErr",
    "DataSourceLoadErr", "SessionCreationErr", "QueryErr", "ChildrenEnumErr",
    "D3DCompilerLoadErr", "CompilerLoadErr", "ENotImpl", "TempFileCreationErr",
    "OutputFileCreationErr", "UnknownErr"
  ]

  /** static_cast<uint32_t>(kind): the kind's position in the list. */
  function Ordinal(k: Kind): (n: nat)
    ensures n < |KindList| && KindList[n] == k
  {
    match k
    case FailedToLoadInput => 0
    case D3DGetDebugInfoFailed => 1
    case HLSLCompilationFailure => 2
    case FailedToParseBC => 3
    case OOM => 4
    case ThreadFSCreationErr => 5
    case DataSourceCreationErr => 6
    case DataSourceLoadErr => 7
    case SessionCreationErr => 8
    case QueryErr => 9
    case ChildrenEnumErr => 10
    case D3DCompilerLoadErr => 11
    case CompilerLoadErr => 12
    case ENotImpl => 13
    case TempFileCreationErr => 14
    case OutputFileCreationErr => 15
    case UnknownErr => 16
  }

  /** Different kinds have different ordinals, so the exit status names the kind. */
  lemma OrdinalInjective(a: Kind, b: Kind)
    ensures Ordinal(a) == Ordinal(b) ==> a == b
  {
  }

  /** Every ordinal 0..16 belongs to exactly one kind. */
  lemma OrdinalOnto(n: nat)
    requires n < |KindList|
    ensures Ordinal(KindList[n]) == n
  {
    assert forall i, j :: 0 <= i < j < |KindList| ==> KindList[i] != KindList[j];
  }

  /**
   * FatalError::kind_str: the entry of the name table at the kind's ordinal,
   * which is the spelling of the kind's own enumerator.
   */
  function KindStr(k: Kind): (name: string)
    ensures ParseKindName(name) == Some(k)
  {
    NameTableSpellsKinds(k);
    KindNames[Ordinal(k)]
  }

  /** Reads a printed kind name back, independently of the table. */
  function ParseKindName(s: string): Option<Kind> {
    if s == "FailedToLoadInput" then Some(FailedToLoadInput)
    else if s == "D3DGetDebugInfoFailed" then Some(D3DGetDebugInfoFailed)
    else if s == "HLSLCompilationFailure" then Some(HLSLCompilationFailure)
    else if s == "FailedToParseBC" then Some(FailedToParseBC)
    else if s == "OOM" then Some(OOM)
    else if s == "ThreadFSCreationErr" then Some(ThreadFSCreationErr)
    else if s == "DataSourceCreationErr" then Some(DataSourceCreationErr)
    else if s == "DataSourceLoadErr" then Some(DataSourceLoadErr)
    else if s == "SessionCreationErr" then Some(SessionCreationErr)
    else if s == "QueryErr" then Some(QueryErr)
    else if s == "ChildrenEnumErr" then Some(ChildrenEnumErr)
    else if s == "D3DCompilerLoadErr" then Some(D3DCompilerLoadErr)
    else if s == "CompilerLoadErr" then Some(CompilerLoadErr)
    else if s == "ENotImpl" then Some(ENotImpl)
    else if s == "TempFileCreationErr" then Some(TempFileCreationErr)
    else if s == "OutputFileCreationErr" then Some(OutputFileCreationErr)
    else if s == "UnknownErr" then Some(UnknownErr)
    else None
  }

  /** The name table lists the enumerators' spellings in enumerator order. */
  lemma NameTableSpellsKinds(k: Kind)
    ensures ParseKindName(KindNames[Ordinal(k)]) == Some(k)
  {
    match k
    case FailedToLoadInput =>
    case D3DGetDebugInfoFailed =>
    case HLSLCompilationFailure =>
    case FailedToParseBC =>
    case OOM =>
    case ThreadFSCreationErr =>
    case DataSourceCreationErr =>
    case DataSourceLoadErr =>
    case SessionCreationErr =>
    case QueryErr =>
    case ChildrenEnumErr =>
    case D3DCompilerLoadErr =>
    case CompilerLoadErr =>
    case ENotImpl =>
    case TempFileCreationErr =>
    case OutputFileCreationErr =>
    case UnknownErr =>
  }

  /** No two kinds print the same name. */
  lemma KindStrInjective(a: Kind, b: Kind)
    ensures KindStr(a) == KindStr(b) ==> a == b
  {
  }

  /**
   * The record FATAL_ERROR throws: the kind and the file and line of the
   * raising site, fixed when it is built.
   */
  datatype FatalError = FatalError(kind: Kind, filename: string, lineno: uint32)

  // The raising sites' files. __FILE__ spells the path the compiler was given;
  // the model uses the file name alone.
  const DxDiaCpp := "dxdia.cpp"
  const DxDiaInputCpp := "DxDiaInput.cpp"
  const DxDiaBufferH := "DxDiaBuffer.h"
  const DxDiaOutputCpp := "DxDiaOutput.cpp"

  /**
   * How a stage of dxdia ends: with a value, with a thrown FatalError, or by
   * reading outside a buffer (undefined behaviour in the source, so the model
   * says nothing about what follows).
   */
  datatype Result<+T> = Ok(value: T) | Fail(error: FatalError) | OutOfBoundsRead {
    predicate IsFailure() {
      !Ok?
    }

    function PropagateFailure<U>(): Result<U>
      requires !Ok?
    {
      match this
      case Fail(e) => Fail(e)
      case OutOfBoundsRead => OutOfBoundsRead
    }

    function Extract(): T
      requires Ok?
    {
      value
    }
  }

  /** FATAL_ERROR(kind) at the given site. */
  function Raise<T>(kind: Kind, file: string, line: uint32): (r: Result<T>)
    ensures r.Fail? && r.error.kind == kind && r.error.filename == file && r.error.lineno == line
  {
    Fail(FatalError(kind, file, line))
  }
}
