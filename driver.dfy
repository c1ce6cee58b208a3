/**
 * The dxdia driver (dxdia.cpp): three switches over the input format fill
 * the input buffer, the blob buffer, the DXIL buffer and the PDB file name;
 * a final rule picks the PDB load or the module load; the query is answered
 * on the data source; and main turns a fatal error into the exit status.
 */
module Driver {
  import opened Com
  import opened Decimal
  import opened Errors
  import opened Output
  import opened Input
  import opened Printer
  import Buffers

  /** The --input-format choices, and any other value the option could hold. */
  datatype InputKind = LLVMInput | BlobInput | HLSLInput | PDBInput | OtherInput

  /** The command-line options DxDia reads. */
  datatype Options = Options(
    query: string,
    inputFilename: string,
    useD3DCompiler: bool,
    entrypoint: string,
    targetProfile: string,
    inputFormat: InputKind)

  /** What the world answers during one run. */
  datatype Env = Env(
    inputContents: Option<seq<byte>>,  // MemoryBuffer::getFileOrSTDIN(InputFilename)
    stdin: Option<seq<byte>>,          // MemoryBuffer::getSTDIN, when a PDB is read from "-"
    mallocOk: bool,                    // whether the thread's allocator yields memory
    dxcInitHr: HResult,                // DxcDllSupport::InitializeForDll
    dxc: DxcLibrary,
    d3d: Option<D3DLibrary>,           // LoadLibrary of the d3dcompiler dll, None when it fails
    ir: IrToolkit,
    dia: DiaProvider,
    fs: TempFs,
    openSession: DataSource -> SessionOpen)

  const LoadedDxilBufferId := "loaded-dxil"

  /** The state after the three switches: the PDB file name and the DXIL buffer. */
  datatype Resolved = Resolved(pdbFilename: string, dxil: Option<seq<byte>>)

  /** The first switch: the input bytes, copied into a new buffer; PDB input is not read. */
  function ReadInput(o: Options, env: Env): (r: Result<Option<seq<byte>>>)
    ensures o.inputFormat == PDBInput ==> r == Ok(None)
    ensures r.Ok? && o.inputFormat != PDBInput ==> r.value.Some? && Some(r.value.value) == env.inputContents
    ensures r.Ok? <==> o.inputFormat == PDBInput ||
                       (o.inputFormat != OtherInput && env.inputContents.Some? && env.mallocOk)
    ensures o.inputFormat == OtherInput ==> r == Raise(FailedToLoadInput, DxDiaCpp, 325)
    ensures o.inputFormat != OtherInput && o.inputFormat != PDBInput && env.inputContents.None? ==>
              r == Raise(FailedToLoadInput, DxDiaCpp, 337)
    ensures r.Fail? && r.error.kind != FailedToLoadInput ==> r == Raise(OOM, DxDiaBufferH, 56)
  {
    match o.inputFormat
    case OtherInput => Raise(FailedToLoadInput, DxDiaCpp, 325)
    case PDBInput => Ok(None)
    case _ =>
      if env.inputContents.None? then Raise(FailedToLoadInput, DxDiaCpp, 337)
      else if !env.mallocOk then Raise(OOM, DxDiaBufferH, 56)
      else Ok(env.inputContents)
  }

  /** The dxcompiler lambda: the library is initialised on first use, or raises. */
  function DxCompiler(env: Env): Result<DxcLibrary> {
    if env.dxcInitHr != S_OK then Raise(CompilerLoadErr, DxDiaCpp, 313) else Ok(env.dxc)
  }

  /** The d3dcompiler lambda: the dll is loaded on first use, or raises. */
  function D3DCompiler(env: Env): Result<D3DLibrary> {
    if env.d3d.None? then Raise(CompilerLoadErr, DxDiaCpp, 302) else Ok(env.d3d.value)
  }

  /** Compile HLSL input with the chosen compiler. */
  function CompileHlsl(o: Options, env: Env, source: seq<byte>): Result<Blob> {
    if o.useD3DCompiler then
      var dll :- D3DCompiler(env);
      ParseHLSLWithD3DCompiler(Some(dll), env.mallocOk, source, o.inputFilename, o.entrypoint, o.targetProfile)
    else
      var dxc :- DxCompiler(env);
      ParseHLSLWithDXCompiler(dxc, source, o.inputFilename, o.entrypoint, o.targetProfile)
  }

  /** The second switch: the container blob, as given or as compiled. */
  function BlobOf(o: Options, env: Env, input: Option<seq<byte>>): Result<Option<seq<byte>>>
    requires o.inputFormat in {BlobInput, HLSLInput} ==> input.Some?
  {
    match o.inputFormat
    case OtherInput => Raise(FailedToLoadInput, DxDiaCpp, 348)
    case PDBInput => Ok(None)
    case LLVMInput => Ok(None)
    case BlobInput => Ok(input)
    case HLSLInput =>
      var cob :- CompileHlsl(o, env, input.value);
      if !env.mallocOk then Raise(OOM, DxDiaBufferH, 56) else Ok(Some(cob.bytes))
  }

  /** The parts of a container blob that go on: a DXIL part drops any PDB part. */
  function KeptParts(p: Parts): Parts {
    if p.dxil.Some? then Parts(p.dxil, None) else p
  }

  /** The third switch: the DXIL buffer, or a PDB part written to a temporary file. */
  function DxilOf(o: Options, env: Env, input: Option<seq<byte>>, blob: Option<seq<byte>>): Result<Resolved>
    requires o.inputFormat == LLVMInput ==> input.Some?
    requires o.inputFormat in {BlobInput, HLSLInput} ==> blob.Some?
  {
    match o.inputFormat
    case OtherInput => Raise(FailedToLoadInput, DxDiaCpp, 377)
    case PDBInput => Ok(Resolved(o.inputFilename, None))
    case LLVMInput => Ok(Resolved("", input))
    case _ =>
      var dxc :- DxCompiler(env);
      var parts :- ExtractSpec(dxc, Blob(blob.value));
      var kept := KeptParts(parts);
      if kept.pdb.None? then Ok(Resolved("", if kept.dxil.Some? then Some(kept.dxil.value.bytes) else None))
      else
        var name :- WritePDBToTmpFile(env.fs, kept.pdb.value);
        Ok(Resolved(name, None))
  }

  /** The three switches, run one after the other. */
  function ResolveInput(o: Options, env: Env): Result<Resolved> {
    var input :- ReadInput(o, env);
    var blob :- BlobOf(o, env, input);
    assert o.inputFormat in {BlobInput, HLSLInput} ==> blob.Some?;
    DxilOf(o, env, input, blob)
  }

  /**
   * The final rule: a PDB file name takes the PDB load, otherwise a DXIL
   * buffer takes the module load, otherwise there is nothing to load.
   */
  function LoadDataSource(r: Resolved, env: Env): Result<DataSource> {
    if r.pdbFilename != "" then LoadPBD(r.pdbFilename, env.stdin, env.mallocOk, env.fs, env.dia)
    else if r.dxil.Some? then LoadLLVMModule(r.dxil.value, LoadedDxilBufferId, env.mallocOk, env.ir, env.dia)
    else Raise(FailedToLoadInput, DxDiaCpp, 415)
  }

  /** What DxDia prints and how it ends. */
  function DxDiaSpec(o: Options, env: Env): Printed {
    match ResolveInput(o, env)
    case Fail(e) => Printed([], Fail(e))
    case OutOfBoundsRead => Printed([], OutOfBoundsRead)
    case Ok(r) =>
      match LoadDataSource(r, env)
      case Fail(e) => Printed([], Fail(e))
      case OutOfBoundsRead => Printed([], OutOfBoundsRead)
      case Ok(ds) => QueryOutput(env.openSession(ds), o.query)
  }

  /** The input, blob and DXIL switches of DxDia, with its buffers as DxDiaBuffer objects. */
  method ResolveBuffers(o: Options, env: Env) returns (r: Result<Resolved>)
    ensures r == ResolveInput(o, env)
  {
    // The input buffer.
    var inputBuffer: Buffers.DxDiaBuffer? := null;
    var pdbFilename := "";
    match o.inputFormat {
      case OtherInput =>
        return Raise(FailedToLoadInput, DxDiaCpp, 325);
      case PDBInput =>
        pdbFilename := o.inputFilename;
      case _ =>
        if env.inputContents.None? {
          return Raise(FailedToLoadInput, DxDiaCpp, 337);
        }
        var created := Buffers.DxDiaBuffer.CreateWithMalloc(env.mallocOk, Buffers.FromString(env.inputContents.value));
        if !created.Ok? {
          return Raise(OOM, DxDiaBufferH, 56);
        }
        inputBuffer := created.value;
    }
    assert ReadInput(o, env) == Ok(if inputBuffer == null then None else Some(inputBuffer.value));

    // The blob buffer.
    var blobBuffer: Buffers.DxDiaBuffer? := null;
    if o.inputFormat == BlobInput {
      blobBuffer := inputBuffer;
    } else if o.inputFormat == HLSLInput {
      var source := inputBuffer.GetBufferPointer();
      var cob: Blob;
      if o.useD3DCompiler {
        if env.d3d.None? {
          return Raise(CompilerLoadErr, DxDiaCpp, 302);
        }
        var compiled := ParseHLSLWithD3DCompiler(env.d3d, env.mallocOk, source, o.inputFilename,
                                                 o.entrypoint, o.targetProfile);
        if !compiled.Ok? {
          return compiled.PropagateFailure();
        }
        cob := compiled.value;
      } else {
        if env.dxcInitHr != S_OK {
          return Raise(CompilerLoadErr, DxDiaCpp, 313);
        }
        var compiled := ParseHLSLWithDXCompiler(env.dxc, source, o.inputFilename, o.entrypoint, o.targetProfile);
        if !compiled.Ok? {
          return compiled.PropagateFailure();
        }
        cob := compiled.value;
      }
      // mallocOk held when the input buffer was created, so this Create succeeds too.
      var created := Buffers.DxDiaBuffer.CreateWithMalloc(env.mallocOk, Buffers.FromDxc(cob));
      blobBuffer := created.value;
    }
    ghost var blob := if blobBuffer == null then None else Some(blobBuffer.value);
    assert BlobOf(o, env, ReadInput(o, env).value) == Ok(blob);

    // The DXIL buffer.
    var dxilBuffer: Option<seq<byte>> := None;
    if o.inputFormat == LLVMInput {
      var bytes := inputBuffer.GetBufferPointer();
      dxilBuffer := Some(bytes);
    } else if o.inputFormat == BlobInput || o.inputFormat == HLSLInput {
      if env.dxcInitHr != S_OK {
        return Raise(CompilerLoadErr, DxDiaCpp, 313);
      }
      var bytes := blobBuffer.GetBufferPointer();
      var parts := ExtractDxilAndPDBBlobParts(env.dxc, Blob(bytes));
      if !parts.Ok? {
        return parts.PropagateFailure();
      }
      var pdbBuffer := parts.value.pdb;
      if parts.value.dxil.Some? {
        dxilBuffer := Some(parts.value.dxil.value.bytes);
        pdbBuffer := None;
      }
      if pdbBuffer.Some? {
        var written := WritePDBToTmpFile(env.fs, pdbBuffer.value);
        if !written.Ok? {
          return written.PropagateFailure();
        }
        pdbFilename := written.value;
      }
    }
    return Ok(Resolved(pdbFilename, dxilBuffer));
  }

  /** DxDia as the program runs it. */
  method DxDia(o: Options, env: Env) returns (p: Printed)
    ensures p == DxDiaSpec(o, env)
  {
    var resolved := ResolveBuffers(o, env);
    if !resolved.Ok? {
      return Printed([], resolved.PropagateFailure());
    }
    var pdbFilename := resolved.value.pdbFilename;
    var dxilBuffer := resolved.value.dxil;

    // The final rule.
    var dds: Result<DataSource>;
    if pdbFilename != "" {
      dds := LoadPBD(pdbFilename, env.stdin, env.mallocOk, env.fs, env.dia);
    } else if dxilBuffer.Some? {
      dds := LoadLLVMModule(dxilBuffer.value, LoadedDxilBufferId, env.mallocOk, env.ir, env.dia);
    } else {
      return Printed([], Raise(FailedToLoadInput, DxDiaCpp, 415));
    }
    if !dds.Ok? {
      return Printed([], dds.PropagateFailure());
    }
    p := ProcessDiaDataSource(env.openSession(dds.value), o.query);
  }

  // ---------------------------------------------------------------------
  // main

  /**
   * What main writes to standard error for a fatal error: the fixed opening,
   * then the file, and last the kind's name, from which the kind reads back.
   */
  function Diagnostic(e: FatalError): (d: string)
    ensures |d| > 30 + |e.filename| && d[..30] == "Fatal dxdia error reported on "
    ensures d[30..30 + |e.filename|] == e.filename
    ensures var m := 31 + |e.filename|;
            var q := |d| - 3 - |KindStr(e.kind)|;
            m < q && d[m - 1] == ':' && d[q..q + 2] == ": " &&
            AllDigits(d[m..q]) && ParseNat(d[m..q]) == e.lineno as int
    ensures var n := |KindStr(e.kind)|;
            |d| > n && d[|d| - 1] == '\n' && ParseKindName(d[|d| - 1 - n..|d| - 1]) == Some(e.kind)
  {
    var opening := "Fatal dxdia error reported on ";
    var name := KindStr(e.kind);
    var digits := NatToString(e.lineno);
    DiagnosticLayout(opening, e.filename, digits, name);
    opening + e.filename + ":" + digits + ": " + name + "\n"
  }

  /** Where each piece of a diagnostic sits in the concatenated line. */
  lemma DiagnosticLayout(opening: string, file: string, digits: string, name: string)
    ensures var d := opening + file + ":" + digits + ": " + name + "\n";
            var m := |opening| + |file| + 1;
            var q := |d| - 3 - |name|;
            |d| == m + |digits| + 3 + |name| &&
            d[..|opening|] == opening && d[|opening|..|opening| + |file|] == file &&
            d[m - 1] == ':' && d[m..q] == digits && d[q..q + 2] == ": " &&
            d[|d| - 1 - |name|..|d| - 1] == name && d[|d| - 1] == '\n'
  {
    var d := opening + file + ":" + digits + ": " + name + "\n";
    var m := |opening| + |file| + 1;
    assert d[..|opening|] == opening;
    assert d[|opening|..|opening| + |file|] == file;
    assert d[m..m + |digits|] == digits;
    assert d[m + |digits|..m + |digits| + 2] == ": ";
    assert d[|d| - 1 - |name|..|d| - 1] == name;
  }

  /** main's exit status: 0 on success, the kind's ordinal on a fatal error; undefined after an out-of-bounds read. */
  function ExitStatus(status: Result<()>): (code: Option<nat>)
    ensures status.OutOfBoundsRead? <==> code.None?
    ensures status.Ok? ==> code == Some(0)
    ensures status.Fail? ==> code == Some(Ordinal(status.error.kind)) && KindList[code.value] == status.error.kind
  {
    match status
    case Ok(_) => Some(0)
    case Fail(e) => Some(Ordinal(e.kind))
    case OutOfBoundsRead => None
  }

  /** Only FailedToLoadInput, ordinal 0, shares its exit status with success. */
  lemma ExitStatusZero(status: Result<()>)
    ensures ExitStatus(status) == Some(0) <==> status.Ok? || (status.Fail? && status.error.kind == FailedToLoadInput)
  {
    if status.Fail? && ExitStatus(status) == Some(0) {
      OrdinalInjective(status.error.kind, FailedToLoadInput);
    }
  }

  // ---------------------------------------------------------------------
  // Input resolution

  /** PDB input only names the file to load; the input is never read. */
  lemma PdbInputNamesFile(o: Options, env: Env, contents: Option<seq<byte>>)
    requires o.inputFormat == PDBInput
    ensures ResolveInput(o, env) == Ok(Resolved(o.inputFilename, None))
    ensures DxDiaSpec(o, env) == DxDiaSpec(o, env.(inputContents := contents))
  {
  }

  /** An empty PDB file name leaves nothing to load: FailedToLoadInput, which exits with 0. */
  lemma EmptyPdbNameLoadsNothing(o: Options, env: Env)
    requires o.inputFormat == PDBInput && o.inputFilename == ""
    ensures DxDiaSpec(o, env) == Printed([], Raise(FailedToLoadInput, DxDiaCpp, 415))
    ensures ExitStatus(DxDiaSpec(o, env).status) == Some(0)
  {
  }

  /** LLVM input is loaded as a module from the input bytes themselves. */
  lemma LlvmInputIsTheModule(o: Options, env: Env)
    requires o.inputFormat == LLVMInput && env.inputContents.Some? && env.mallocOk
    ensures ResolveInput(o, env) == Ok(Resolved("", env.inputContents))
    ensures LoadDataSource(ResolveInput(o, env).value, env) ==
            LoadLLVMModule(env.inputContents.value, LoadedDxilBufferId, env.mallocOk, env.ir, env.dia)
  {
  }

  /** Unreadable input is FailedToLoadInput for every format that reads it. */
  lemma UnreadableInput(o: Options, env: Env)
    requires o.inputFormat in {LLVMInput, BlobInput, HLSLInput} && env.inputContents.None?
    ensures DxDiaSpec(o, env) == Printed([], Raise(FailedToLoadInput, DxDiaCpp, 337))
  {
  }

  /** A blob with a DXIL part is loaded from that part; any PDB part is dropped and no file is written. */
  lemma DxilPartWins(o: Options, env: Env, d: Blob, fs: TempFs)
    requires o.inputFormat == BlobInput && env.inputContents.Some? && env.mallocOk && env.dxcInitHr == S_OK
    requires ExtractSpec(env.dxc, Blob(env.inputContents.value)).Ok?
    requires ExtractSpec(env.dxc, Blob(env.inputContents.value)).value.dxil == Some(d)
    ensures ResolveInput(o, env) == Ok(Resolved("", Some(d.bytes)))
    ensures ResolveInput(o, env) == ResolveInput(o, env.(fs := fs))
  {
  }

  /** A blob with only a PDB part is loaded from a temporary copy of that part. */
  lemma PdbPartGoesThroughTempFile(o: Options, env: Env, pdb: Blob)
    requires o.inputFormat == BlobInput && env.inputContents.Some? && env.mallocOk && env.dxcInitHr == S_OK
    requires ExtractSpec(env.dxc, Blob(env.inputContents.value)) == Ok(Parts(None, Some(pdb)))
    ensures var r := ResolveInput(o, env);
            (r.Ok? <==> WritePDBToTmpFile(env.fs, pdb).Ok?) &&
            (r.Ok? ==> r.value == Resolved(env.fs.tempFileName.value, None)) &&
            (r.Fail? ==> r.error.kind == TempFileCreationErr)
  {
  }

  /** A blob with neither debug part leaves nothing to load. */
  lemma NoDebugPartLoadsNothing(o: Options, env: Env)
    requires o.inputFormat == BlobInput && env.inputContents.Some? && env.mallocOk && env.dxcInitHr == S_OK
    requires ExtractSpec(env.dxc, Blob(env.inputContents.value)) == Ok(Parts(None, None))
    ensures DxDiaSpec(o, env) == Printed([], Raise(FailedToLoadInput, DxDiaCpp, 415))
  {
  }

  /** HLSL that dxcompiler rejects prints nothing and exits with HLSLCompilationFailure's ordinal, 2. */
  lemma RejectedHlsl(o: Options, env: Env)
    requires o.inputFormat == HLSLInput && !o.useD3DCompiler
    requires env.inputContents.Some? && env.mallocOk && env.dxcInitHr == S_OK && env.dxc.compilerCreateHr == S_OK
    requires !DxcCompileSucceeds(env.dxc.compile(DxcCompileRequest(env.inputContents.value, o.inputFilename,
                                                                   o.entrypoint, o.targetProfile)))
    ensures DxDiaSpec(o, env).out == []
    ensures ExitStatus(DxDiaSpec(o, env).status) == Some(2)
  {
  }

  /** With --use-d3dcompiler, a dll that does not load is reported by the loader, before any compilation. */
  lemma MissingD3DCompiler(o: Options, env: Env)
    requires o.inputFormat == HLSLInput && o.useD3DCompiler
    requires env.inputContents.Some? && env.mallocOk && env.d3d.None?
    ensures DxDiaSpec(o, env) == Printed([], Raise(CompilerLoadErr, DxDiaCpp, 302))
  {
  }

  /** The final rule prefers the PDB file name to the DXIL buffer. */
  lemma PdbNameTakesPrecedence(r: Resolved, env: Env)
    requires r.pdbFilename != ""
    ensures LoadDataSource(r, env) == LoadDataSource(r.(dxil := None), env)
    ensures LoadDataSource(r, env).Ok? ==> LoadDataSource(r, env).value.PdbSource?
  {
  }

  /** Nothing is printed unless a data source was loaded. */
  lemma OutputNeedsDataSource(o: Options, env: Env)
    requires DxDiaSpec(o, env).out != []
    ensures ResolveInput(o, env).Ok? && LoadDataSource(ResolveInput(o, env).value, env).Ok?
  {
  }
}
