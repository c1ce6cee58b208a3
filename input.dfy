/**
 * DxDiaInput.cpp: turning what the user gave into something the DIA
 * provider can load. HLSL is compiled by one of two compilers, a container
 * blob is split into its debug parts, a DXIL program header is stripped and
 * the module re-serialised, and a PDB is loaded by path. The compilers, the
 * container reflection, LLVM and DIA are collaborators whose answers are
 * given as values.
 */
module Input {
  import opened Com
  import opened Errors
  import opened Output

  // ---------------------------------------------------------------------
  // Part tags

  /** DXIL_FOURCC: four characters packed little-endian into a 32-bit tag. */
  function FourCC(c0: bv8, c1: bv8, c2: bv8, c3: bv8): (tag: bv32)
    ensures tag & 0xFF == c0 as bv32 && (tag >> 8) & 0xFF == c1 as bv32
    ensures (tag >> 16) & 0xFF == c2 as bv32 && tag >> 24 == c3 as bv32
  {
    (c0 as bv32) | ((c1 as bv32) << 8) | ((c2 as bv32) << 16) | ((c3 as bv32) << 24)
  }

  /**
   * hlsl::DFCC_ShaderDebugInfoDXIL, declared in DxilContainer.h, which is not
   * part of this model; upstream it is DXIL_FOURCC('I', 'L', 'D', 'B').
   */
  const DFCC_ShaderDebugInfoDXIL: bv32 := FourCC('I' as bv8, 'L' as bv8, 'D' as bv8, 'B' as bv8)

  /** The tag of a part that holds a whole PDB. */
  const DFCC_ShaderDebugInfoPDB: bv32 := FourCC('S' as bv8, 'P' as bv8, 'D' as bv8, 'B' as bv8)

  lemma DebugTags()
    ensures DFCC_ShaderDebugInfoPDB == 0x42445053
    ensures DFCC_ShaderDebugInfoDXIL == 0x42444C49
    ensures DFCC_ShaderDebugInfoPDB != DFCC_ShaderDebugInfoDXIL
  {
  }

  // ---------------------------------------------------------------------
  // The DXIL program header

  // Layout of hlsl::DxilProgramHeader (DxilContainer.h, not part of this
  // model): ProgramVersion, SizeInUint32, then the bitcode header DxilMagic,
  // DxilVersion, BitcodeOffset, BitcodeSize; six little-endian uint32s.
  const DxilProgramHeaderSize := 24
  const SizeInUint32Offset := 4
  const DxilMagicOffset := 8
  const BitcodeOffsetOffset := 16
  /** 'DXIL' read as a little-endian uint32. */
  const DxilMagic := 0x4C495844
  /** size_t arithmetic wraps modulo 2^64. */
  const SizeTModulus := 0x1_0000_0000_0000_0000

  function ReadUint32LE(s: seq<byte>, off: nat): uint32
    requires off + 4 <= |s|
  {
    s[off] as int + 0x100 * (s[off + 1] as int) + 0x1_0000 * (s[off + 2] as int) +
    0x100_0000 * (s[off + 3] as int)
  }

  lemma DxilMagicSpellsDXIL()
    ensures ReadUint32LE(['D' as byte, 'X' as byte, 'I' as byte, 'L' as byte], 0) == DxilMagic
    ensures FourCC('D' as bv8, 'X' as bv8, 'I' as bv8, 'L' as bv8) as int == DxilMagic
  {
  }

  /** Whether the magic word lies inside the buffer, so that reading it is defined. */
  predicate CanReadMagic(contents: seq<byte>) {
    DxilMagicOffset + 4 <= |contents|
  }

  /**
   * LooksLikeDxilProgramHeader: the bitcode header's magic word is 0x4C495844,
   * which holds exactly when the four bytes at its offset spell 'DXIL'.
   */
  predicate LooksLikeDxilProgramHeader(contents: seq<byte>)
    requires CanReadMagic(contents)
    ensures LooksLikeDxilProgramHeader(contents) <==>
            contents[DxilMagicOffset..DxilMagicOffset + 4] == ['D' as byte, 'X' as byte, 'I' as byte, 'L' as byte]
  {
    ReadUint32LE(contents, DxilMagicOffset) == DxilMagic
  }

  /** SizeInUint32 * sizeof(uint32_t) - sizeof(DxilProgramHeader), in size_t. */
  function PayloadLength(contents: seq<byte>): nat
    requires SizeInUint32Offset + 4 <= |contents|
  {
    (ReadUint32LE(contents, SizeInUint32Offset) * 4 - DxilProgramHeaderSize) % SizeTModulus
  }

  /** Whether the slice SkipDxilProgramHeader builds lies inside the buffer. */
  predicate CanSkipHeader(contents: seq<byte>) {
    DxilProgramHeaderSize <= |contents| &&
    DxilProgramHeaderSize + PayloadLength(contents) <= |contents|
  }

  /**
   * SkipDxilProgramHeader: the bytes right after the header, as many as the
   * header's size field says remain. BitcodeOffset and BitcodeSize are not read.
   */
  function SkipDxilProgramHeader(contents: seq<byte>): (payload: seq<byte>)
    requires CanSkipHeader(contents)
    ensures |payload| == PayloadLength(contents)
    ensures forall i :: 0 <= i < |payload| ==> payload[i] == contents[DxilProgramHeaderSize + i]
  {
    contents[DxilProgramHeaderSize..DxilProgramHeaderSize + PayloadLength(contents)]
  }

  /**
   * For a buffer that fits in memory, a size field smaller than the header
   * makes the subtraction wrap, and the slice then reaches past the buffer.
   */
  lemma HeaderUnderflowIsOutOfBounds(contents: seq<byte>)
    requires SizeInUint32Offset + 4 <= |contents| < SizeTModulus
    requires ReadUint32LE(contents, SizeInUint32Offset) * 4 < DxilProgramHeaderSize
    ensures !CanSkipHeader(contents)
  {
    var v := ReadUint32LE(contents, SizeInUint32Offset) * 4 - DxilProgramHeaderSize;
    assert -DxilProgramHeaderSize <= v < 0;
    assert v % SizeTModulus == v + SizeTModulus;
  }

  /** When the slice is defined the payload length is the unwrapped difference. */
  lemma PayloadLengthUnwrapped(contents: seq<byte>)
    requires CanSkipHeader(contents) && |contents| < SizeTModulus
    ensures |SkipDxilProgramHeader(contents)| ==
            ReadUint32LE(contents, SizeInUint32Offset) * 4 - DxilProgramHeaderSize
  {
    if ReadUint32LE(contents, SizeInUint32Offset) * 4 < DxilProgramHeaderSize {
      HeaderUnderflowIsOutOfBounds(contents);
      assert false;
    }
  }

  /**
   * Lines 200-202 of LoadLLVMModule: contents with the DXIL magic lose their
   * header, anything else is passed on as it is; a read outside the buffer
   * is undefined.
   */
  function StripDxilProgramHeader(contents: seq<byte>): (r: Result<seq<byte>>)
    ensures !r.Fail?
    ensures r.Ok? <==> CanReadMagic(contents) &&
                       (LooksLikeDxilProgramHeader(contents) ==> CanSkipHeader(contents))
    ensures r.Ok? && !LooksLikeDxilProgramHeader(contents) ==> r.value == contents
    ensures r.Ok? && LooksLikeDxilProgramHeader(contents) ==>
              |r.value| == PayloadLength(contents) &&
              r.value == contents[DxilProgramHeaderSize..DxilProgramHeaderSize + |r.value|]
  {
    if !CanReadMagic(contents) then OutOfBoundsRead
    else if !LooksLikeDxilProgramHeader(contents) then Ok(contents)
    else if !CanSkipHeader(contents) then OutOfBoundsRead
    else Ok(SkipDxilProgramHeader(contents))
  }

  /** Stripping reads only the size field and the magic word of the header. */
  lemma StripIgnoresOtherHeaderFields(a: seq<byte>, b: seq<byte>)
    requires |a| == |b|
    requires forall i :: (0 <= i < |a| && !(0 <= i < SizeInUint32Offset) &&
                          !(DxilMagicOffset + 4 <= i < DxilProgramHeaderSize)) ==> a[i] == b[i]
    ensures StripDxilProgramHeader(a).Ok? <==> StripDxilProgramHeader(b).Ok?
    ensures StripDxilProgramHeader(a).Ok? && CanReadMagic(a) && LooksLikeDxilProgramHeader(a) ==>
              StripDxilProgramHeader(a) == StripDxilProgramHeader(b)
  {
    if CanReadMagic(a) {
      assert ReadUint32LE(a, DxilMagicOffset) == ReadUint32LE(b, DxilMagicOffset);
      assert ReadUint32LE(a, SizeInUint32Offset) == ReadUint32LE(b, SizeInUint32Offset);
      if LooksLikeDxilProgramHeader(a) && CanSkipHeader(a) {
        assert SkipDxilProgramHeader(a) == SkipDxilProgramHeader(b);
      }
    }
  }

  // ---------------------------------------------------------------------
  // Collaborators

  /** The data a DIA data source was loaded from. */
  datatype DataSource = StreamSource(stream: seq<byte>) | PdbSource(path: string)

  /** The answers of the DIA provider's data-source calls. */
  datatype DiaProvider = DiaProvider(
    streamSourceCreateHr: HResult,       // CreateDxcDiaDataSource
    loadFromStream: seq<byte> -> HResult, // IDiaDataSource::loadDataFromIStream
    pdbSourceCreated: bool,              // CoCreateInstance(DiaSource) left a non-null object
    loadFromPdb: string -> HResult)      // IDiaDataSource::loadDataFromPdb

  /** An opaque handle to an llvm::Module. */
  datatype IrModule = IrModule(handle: nat)

  /** llvm::parseIR (None when it yields no module) and llvm::WriteBitcodeToFile. */
  datatype IrToolkit = IrToolkit(
    parse: (seq<byte>, string) -> Option<IrModule>,
    write: IrModule -> seq<byte>)

  /** The arguments IDxcCompiler::Compile receives. */
  datatype DxcRequest = DxcRequest(
    source: seq<byte>, fileName: string, entrypoint: string, targetProfile: string,
    args: seq<string>)

  /** The answers of one IDxcCompiler::Compile and of the operation result it yields. */
  datatype DxcOperation = DxcOperation(
    compileHr: HResult,   // Compile
    statusHr: HResult,    // GetStatus
    status: HResult,      // the status it reports
    resultHr: HResult,    // GetResult
    result: Blob)

  /** One part as IDxcContainerReflection reports it. */
  datatype PartQuery = PartQuery(kindHr: HResult, kind: bv32, contentHr: HResult, content: Blob)

  /** The answers of IDxcContainerReflection after Load of a given blob. */
  datatype Reflection = Reflection(loadHr: HResult, partCountHr: HResult, parts: seq<PartQuery>)

  /** The answers of a loaded dxcompiler library. */
  datatype DxcLibrary = DxcLibrary(
    compilerCreateHr: HResult,           // CreateInstance(CLSID_DxcCompiler)
    compile: DxcRequest -> DxcOperation,
    reflectionCreateHr: HResult,         // CreateInstance(CLSID_DxcContainerReflection)
    reflect: seq<byte> -> Reflection)

  /** The arguments D3DCompile2 receives. */
  datatype D3DRequest = D3DRequest(
    source: seq<byte>, fileName: string, entrypoint: string, targetProfile: string, flags1: bv32)

  /** What D3DCompile2 answers: its HRESULT and the code blob. */
  datatype D3DOutcome = D3DOutcome(hr: HResult, code: Blob)

  /** A loaded d3dcompiler library: whether it exports D3DCompile2, and its answers. */
  datatype D3DLibrary = D3DLibrary(hasD3DCompile2: bool, compile: D3DRequest -> D3DOutcome)

  const D3DCOMPILE_DEBUG: bv32 := 1
  const D3DCOMPILE_SKIP_OPTIMIZATION: bv32 := 4

  // ---------------------------------------------------------------------
  // Compiling HLSL

  /** The name dxcompiler sees for an input: standard input is called "<stdin>". */
  function DxcFileName(inputFilename: string): (name: string)
    ensures inputFilename == "-" ==> name == "<stdin>"
    ensures inputFilename != "-" ==> name == inputFilename
  {
    if inputFilename == "-" then "<stdin>" else inputFilename
  }

  function DxcCompileRequest(source: seq<byte>, inputFilename: string, entrypoint: string,
                             targetProfile: string): DxcRequest
  {
    DxcRequest(source, DxcFileName(inputFilename), entrypoint, targetProfile, ["/Zi", "/Od"])
  }

  /** Whether every call dxcompiler answers during one compilation reports S_OK. */
  predicate DxcCompileSucceeds(op: DxcOperation) {
    op.compileHr == S_OK && op.statusHr == S_OK && op.status == S_OK && op.resultHr == S_OK
  }

  /**
   * ParseHLSLWithDXCompiler: compile with debug info and no optimisation;
   * a compiler that cannot be created is a load error, anything the
   * compilation reports other than S_OK is a compilation failure.
   */
  function ParseHLSLWithDXCompiler(dxc: DxcLibrary, source: seq<byte>, inputFilename: string,
                                   entrypoint: string, targetProfile: string): (r: Result<Blob>)
    ensures var op := dxc.compile(DxcCompileRequest(source, inputFilename, entrypoint, targetProfile));
            (r.Ok? <==> dxc.compilerCreateHr == S_OK && DxcCompileSucceeds(op)) &&
            (r.Ok? ==> r.value == op.result)
    ensures r.Fail? ==> (r.error.kind == CompilerLoadErr <==> dxc.compilerCreateHr != S_OK)
    ensures r.Fail? ==> r.error.kind in {CompilerLoadErr, HLSLCompilationFailure}
    ensures !r.OutOfBoundsRead?
  {
    if dxc.compilerCreateHr != S_OK then Raise(CompilerLoadErr, DxDiaInputCpp, 32)
    else
      var op := dxc.compile(DxcCompileRequest(source, inputFilename, entrypoint, targetProfile));
      if op.compileHr != S_OK then Raise(HLSLCompilationFailure, DxDiaInputCpp, 51)
      else if op.statusHr != S_OK || op.status != S_OK then Raise(HLSLCompilationFailure, DxDiaInputCpp, 61)
      else if op.resultHr != S_OK then Raise(HLSLCompilationFailure, DxDiaInputCpp, 65)
      else Ok(op.result)
  }

  /** Compiling standard input is compiling a file called "<stdin>". */
  lemma StdinIsCompiledAsStdinName(dxc: DxcLibrary, source: seq<byte>, entrypoint: string,
                                   targetProfile: string)
    ensures ParseHLSLWithDXCompiler(dxc, source, "-", entrypoint, targetProfile) ==
            ParseHLSLWithDXCompiler(dxc, source, "<stdin>", entrypoint, targetProfile)
    ensures DxcCompileRequest(source, "-", entrypoint, targetProfile).args == ["/Zi", "/Od"]
  {
  }

  function D3DCompileRequest(source: seq<byte>, inputFilename: string, entrypoint: string,
                             targetProfile: string): D3DRequest
  {
    D3DRequest(source, inputFilename, entrypoint, targetProfile,
               D3DCOMPILE_DEBUG | D3DCOMPILE_SKIP_OPTIMIZATION)
  }

  /**
   * ParseHLSLWithD3DCompiler: a missing library or a library without
   * D3DCompile2 is a load error, a failed compilation a compilation failure,
   * and the code is then wrapped in a new buffer, which needs memory.
   */
  function ParseHLSLWithD3DCompiler(dll: Option<D3DLibrary>, mallocOk: bool, source: seq<byte>,
                                    inputFilename: string, entrypoint: string,
                                    targetProfile: string): (r: Result<Blob>)
    ensures r.Ok? <==> dll.Some? && dll.value.hasD3DCompile2 && mallocOk &&
                       dll.value.compile(D3DCompileRequest(source, inputFilename, entrypoint, targetProfile)).hr == S_OK
    ensures r.Ok? ==> r.value == dll.value.compile(D3DCompileRequest(source, inputFilename, entrypoint, targetProfile)).code
    ensures r.Fail? ==> (r.error.kind == CompilerLoadErr <==> dll.None? || !dll.value.hasD3DCompile2)
    ensures r.Fail? ==> r.error.kind in {CompilerLoadErr, HLSLCompilationFailure, OOM}
    ensures !r.OutOfBoundsRead?
  {
    if dll.None? then Raise(CompilerLoadErr, DxDiaInputCpp, 79)
    else if !dll.value.hasD3DCompile2 then Raise(CompilerLoadErr, DxDiaInputCpp, 83)
    else
      var out := dll.value.compile(D3DCompileRequest(source, inputFilename, entrypoint, targetProfile));
      if out.hr != S_OK then Raise(HLSLCompilationFailure, DxDiaInputCpp, 102)
      else if !mallocOk then Raise(OOM, DxDiaBufferH, 56)
      else Ok(out.code)
  }

  /** D3DCompile2 sees the input's own name, "-" included, and the debug flags. */
  lemma D3DRequestKeepsName(source: seq<byte>, inputFilename: string, entrypoint: string,
                            targetProfile: string)
    ensures D3DCompileRequest(source, inputFilename, entrypoint, targetProfile).fileName == inputFilename
    ensures D3DCompileRequest(source, inputFilename, entrypoint, targetProfile).flags1 == 5
  {
  }

  // ---------------------------------------------------------------------
  // Extracting the debug parts of a container

  /** The DXIL debug part and the PDB part found so far. */
  datatype Parts = Parts(dxil: Option<Blob>, pdb: Option<Blob>)

  /** One iteration of the extraction loop, in the order the code makes its calls. */
  function ScanPart(p: PartQuery, found: Parts): (r: Result<Parts>)
  {
    if p.kindHr != S_OK then Raise(FailedToLoadInput, DxDiaInputCpp, 143)
    else
      var afterDxil :-
        if p.kind != DFCC_ShaderDebugInfoDXIL then Ok(found)
        else if found.dxil.Some? then Raise(FailedToLoadInput, DxDiaInputCpp, 148)
        else if p.contentHr != S_OK then Raise(FailedToLoadInput, DxDiaInputCpp, 151)
        else Ok(found.(dxil := Some(p.content)));
      if p.kind != DFCC_ShaderDebugInfoPDB then Ok(afterDxil)
      else if afterDxil.pdb.Some? then Raise(FailedToLoadInput, DxDiaInputCpp, 164)
      else if p.contentHr != S_OK then Raise(FailedToLoadInput, DxDiaInputCpp, 167)
      else Ok(afterDxil.(pdb := Some(p.content)))
  }

  /** The extraction loop over the parts from the current index on. */
  function ScanParts(ps: seq<PartQuery>, found: Parts): (r: Result<Parts>)
    decreases |ps|
  {
    if ps == [] then Ok(found)
    else
      var next :- ScanPart(ps[0], found);
      ScanParts(ps[1..], next)
  }

  /** What ExtractDxilAndPDBBlobParts computes for a blob. */
  function ExtractSpec(dxc: DxcLibrary, blob: Blob): Result<Parts> {
    if dxc.reflectionCreateHr != S_OK then Raise(CompilerLoadErr, DxDiaInputCpp, 123)
    else
      var c := dxc.reflect(blob.bytes);
      if c.loadHr != S_OK then Raise(FailedToLoadInput, DxDiaInputCpp, 127)
      else if c.partCountHr != S_OK then Raise(FailedToLoadInput, DxDiaInputCpp, 132)
      else ScanParts(c.parts, Parts(None, None))
  }

  /**
   * ExtractDxilAndPDBBlobParts over a blob: walk the parts in index order,
   * keeping the DXIL debug part and the PDB part.
   */
  method ExtractDxilAndPDBBlobParts(dxc: DxcLibrary, blob: Blob) returns (r: Result<Parts>)
    ensures r == ExtractSpec(dxc, blob)
  {
    if dxc.reflectionCreateHr != S_OK {
      return Raise(CompilerLoadErr, DxDiaInputCpp, 123);
    }
    var c := dxc.reflect(blob.bytes);
    if c.loadHr != S_OK {
      return Raise(FailedToLoadInput, DxDiaInputCpp, 127);
    }
    if c.partCountHr != S_OK {
      return Raise(FailedToLoadInput, DxDiaInputCpp, 132);
    }
    var pDxil: Option<Blob> := None;
    var pPdb: Option<Blob> := None;
    var i := 0;
    while i < |c.parts|
      invariant 0 <= i <= |c.parts|
      invariant ScanParts(c.parts[i..], Parts(pDxil, pPdb)) == ScanParts(c.parts, Parts(None, None))
    {
      var part := c.parts[i];
      ghost var before := Parts(pDxil, pPdb);
      ScanPartsStep(c.parts[i..], before);
      assert c.parts[i..][0] == part && c.parts[i..][1..] == c.parts[i + 1..];
      if part.kindHr != S_OK {
        return Raise(FailedToLoadInput, DxDiaInputCpp, 143);
      }
      if part.kind == DFCC_ShaderDebugInfoDXIL {
        if pDxil.Some? {
          return Raise(FailedToLoadInput, DxDiaInputCpp, 148);
        }
        if part.contentHr != S_OK {
          return Raise(FailedToLoadInput, DxDiaInputCpp, 151);
        }
        pDxil := Some(part.content);
      }
      ghost var afterDxil := Parts(pDxil, pPdb);
      if part.kind == DFCC_ShaderDebugInfoPDB {
        if pPdb.Some? {
          assert ScanPart(part, before) == Raise(FailedToLoadInput, DxDiaInputCpp, 164);
          return Raise(FailedToLoadInput, DxDiaInputCpp, 164);
        }
        if part.contentHr != S_OK {
          assert ScanPart(part, before) == Raise(FailedToLoadInput, DxDiaInputCpp, 167);
          return Raise(FailedToLoadInput, DxDiaInputCpp, 167);
        }
        pPdb := Some(part.content);
      }
      assert ScanPart(part, before) == Ok(Parts(pDxil, pPdb));
      i := i + 1;
    }
    return Ok(Parts(pDxil, pPdb));
  }

  /** One step of the loop: a part that fails ends it, otherwise the rest is scanned. */
  lemma ScanPartsStep(ps: seq<PartQuery>, found: Parts)
    requires ps != []
    ensures ScanPart(ps[0], found).Ok? ==>
              ScanParts(ps, found) == ScanParts(ps[1..], ScanPart(ps[0], found).value)
    ensures ScanPart(ps[0], found).Fail? ==> ScanParts(ps, found) == ScanPart(ps[0], found)
    ensures !ScanPart(ps[0], found).OutOfBoundsRead?
  {
  }

  /** The overload taking a string wraps it in a new buffer first. */
  function ExtractFromString(dxc: DxcLibrary, mallocOk: bool, blobStr: seq<byte>): (r: Result<Parts>)
    ensures !mallocOk ==> r == Raise(OOM, DxDiaBufferH, 56)
    ensures mallocOk ==> r == ExtractSpec(dxc, Blob(blobStr))
  {
    if !mallocOk then Raise(OOM, DxDiaBufferH, 56) else ExtractSpec(dxc, Blob(blobStr))
  }

  // Reference definitions of what the extraction keeps.

  /** How many parts carry the tag. */
  function CountTag(ps: seq<PartQuery>, tag: bv32): nat
    decreases |ps|
  {
    if ps == [] then 0 else (if ps[0].kind == tag then 1 else 0) + CountTag(ps[1..], tag)
  }

  /** The content of the first part carrying the tag. */
  function FirstWithTag(ps: seq<PartQuery>, tag: bv32): Option<Blob>
    decreases |ps|
  {
    if ps == [] then None
    else if ps[0].kind == tag then Some(ps[0].content)
    else FirstWithTag(ps[1..], tag)
  }

  /** Every part's kind can be read, and so can the content of every debug part. */
  predicate PartsReadable(ps: seq<PartQuery>) {
    forall i :: 0 <= i < |ps| ==>
      ps[i].kindHr == S_OK &&
      (ps[i].kind in {DFCC_ShaderDebugInfoDXIL, DFCC_ShaderDebugInfoPDB} ==> ps[i].contentHr == S_OK)
  }

  function Present(o: Option<Blob>): nat {
    if o.Some? then 1 else 0
  }

  /** A part found earlier is kept; otherwise the first one with the tag. */
  function Kept(o: Option<Blob>, ps: seq<PartQuery>, tag: bv32): Option<Blob> {
    if o.Some? then o else FirstWithTag(ps, tag)
  }

  /**
   * The loop succeeds exactly when every query answers and neither debug tag
   * appears twice; it then holds the first part of each tag; every failure
   * is FailedToLoadInput.
   */
  lemma {:induction false} ScanPartsCharacterised(ps: seq<PartQuery>, found: Parts)
    ensures ScanParts(ps, found).Ok? <==>
            PartsReadable(ps) &&
            Present(found.dxil) + CountTag(ps, DFCC_ShaderDebugInfoDXIL) <= 1 &&
            Present(found.pdb) + CountTag(ps, DFCC_ShaderDebugInfoPDB) <= 1
    ensures ScanParts(ps, found).Ok? ==>
            ScanParts(ps, found).value ==
              Parts(Kept(found.dxil, ps, DFCC_ShaderDebugInfoDXIL), Kept(found.pdb, ps, DFCC_ShaderDebugInfoPDB))
    ensures ScanParts(ps, found).Fail? ==> ScanParts(ps, found).error.kind == FailedToLoadInput
    ensures !ScanParts(ps, found).OutOfBoundsRead?
    decreases |ps|
  {
    if ps != [] {
      var p := ps[0];
      DebugTags();
      assert PartsReadable(ps) <==> PartsReadable([p]) && PartsReadable(ps[1..]) by {
        if PartsReadable([p]) && PartsReadable(ps[1..]) {
          forall i | 0 <= i < |ps|
            ensures ps[i].kindHr == S_OK &&
              (ps[i].kind in {DFCC_ShaderDebugInfoDXIL, DFCC_ShaderDebugInfoPDB} ==> ps[i].contentHr == S_OK)
          {
            if i == 0 { assert ps[i] == [p][0]; } else { assert ps[i] == ps[1..][i - 1]; }
          }
        }
        if PartsReadable(ps) {
          assert [p][0] == ps[0];
          forall i | 0 <= i < |ps[1..]|
            ensures ps[1..][i].kindHr == S_OK &&
              (ps[1..][i].kind in {DFCC_ShaderDebugInfoDXIL, DFCC_ShaderDebugInfoPDB} ==> ps[1..][i].contentHr == S_OK)
          {
            assert ps[1..][i] == ps[i + 1];
          }
        }
      }
      match ScanPart(p, found)
      case Ok(next) =>
        ScanPartsCharacterised(ps[1..], next);
      case Fail(_) =>
      case OutOfBoundsRead =>
    }
  }

  /** ExtractDxilAndPDBBlobParts, characterised over the reflection's answers. */
  lemma ExtractCharacterised(dxc: DxcLibrary, blob: Blob)
    ensures var c := dxc.reflect(blob.bytes);
            var r := ExtractSpec(dxc, blob);
            (r.Ok? <==> dxc.reflectionCreateHr == S_OK && c.loadHr == S_OK && c.partCountHr == S_OK &&
                        PartsReadable(c.parts) &&
                        CountTag(c.parts, DFCC_ShaderDebugInfoDXIL) <= 1 &&
                        CountTag(c.parts, DFCC_ShaderDebugInfoPDB) <= 1) &&
            (r.Ok? ==> r.value == Parts(FirstWithTag(c.parts, DFCC_ShaderDebugInfoDXIL),
                                        FirstWithTag(c.parts, DFCC_ShaderDebugInfoPDB))) &&
            (r.Fail? ==> r.error.kind == (if dxc.reflectionCreateHr != S_OK then CompilerLoadErr
                                          else FailedToLoadInput)) &&
            !r.OutOfBoundsRead?
  {
    ScanPartsCharacterised(dxc.reflect(blob.bytes).parts, Parts(None, None));
  }

  /** A container without debug parts yields neither part and no error. */
  lemma ExtractWithoutDebugParts(dxc: DxcLibrary, blob: Blob)
    requires dxc.reflectionCreateHr == S_OK
    requires dxc.reflect(blob.bytes).loadHr == S_OK && dxc.reflect(blob.bytes).partCountHr == S_OK
    requires forall i :: 0 <= i < |dxc.reflect(blob.bytes).parts| ==>
               dxc.reflect(blob.bytes).parts[i].kindHr == S_OK &&
               dxc.reflect(blob.bytes).parts[i].kind !in {DFCC_ShaderDebugInfoDXIL, DFCC_ShaderDebugInfoPDB}
    ensures ExtractSpec(dxc, blob) == Ok(Parts(None, None))
  {
    var ps := dxc.reflect(blob.bytes).parts;
    NoTagNoCount(ps, DFCC_ShaderDebugInfoDXIL);
    NoTagNoCount(ps, DFCC_ShaderDebugInfoPDB);
    ExtractCharacterised(dxc, blob);
  }

  lemma {:induction false} NoTagNoCount(ps: seq<PartQuery>, tag: bv32)
    requires forall i :: 0 <= i < |ps| ==> ps[i].kind != tag
    ensures CountTag(ps, tag) == 0 && FirstWithTag(ps, tag) == None
    decreases |ps|
  {
    if ps != [] {
      assert ps[0].kind != tag;
      assert forall i :: 0 <= i < |ps[1..]| ==> ps[1..][i] == ps[i + 1];
      NoTagNoCount(ps[1..], tag);
    }
  }

  /** Two parts with the same debug tag make the extraction fail. */
  lemma ExtractRejectsDuplicateTag(dxc: DxcLibrary, blob: Blob, tag: bv32)
    requires tag in {DFCC_ShaderDebugInfoDXIL, DFCC_ShaderDebugInfoPDB}
    requires CountTag(dxc.reflect(blob.bytes).parts, tag) >= 2
    ensures ExtractSpec(dxc, blob).Fail?
    ensures dxc.reflectionCreateHr == S_OK ==> ExtractSpec(dxc, blob).error.kind == FailedToLoadInput
  {
    ExtractCharacterised(dxc, blob);
  }

  // ---------------------------------------------------------------------
  // Loading a data source

  /**
   * LoadLLVMModule: strip a DXIL program header, parse what remains,
   * serialise the module into a new buffer and load a DIA data source from it.
   */
  function LoadLLVMModule(contents: seq<byte>, bufId: string, mallocOk: bool, ir: IrToolkit,
                          dia: DiaProvider): (r: Result<DataSource>)
    ensures r.Ok? <==> StripDxilProgramHeader(contents).Ok? &&
                       ir.parse(StripDxilProgramHeader(contents).value, bufId).Some? &&
                       mallocOk && dia.streamSourceCreateHr == S_OK &&
                       dia.loadFromStream(ir.write(ir.parse(StripDxilProgramHeader(contents).value, bufId).value)) == S_OK
    ensures r.Ok? ==> r == Ok(StreamSource(ir.write(ir.parse(StripDxilProgramHeader(contents).value, bufId).value)))
    ensures r.Fail? ==> r.error.kind in {FailedToParseBC, OOM, DataSourceCreationErr, DataSourceLoadErr}
    ensures r.OutOfBoundsRead? <==> StripDxilProgramHeader(contents).OutOfBoundsRead?
  {
    var body :- StripDxilProgramHeader(contents);
    match ir.parse(body, bufId)
    case None => Raise(FailedToParseBC, DxDiaInputCpp, 208)
    case Some(m) =>
      var serialized := ir.write(m);
      if !mallocOk then Raise(OOM, DxDiaBufferH, 56)
      else if dia.streamSourceCreateHr != S_OK then Raise(DataSourceCreationErr, DxDiaInputCpp, 221)
      else if dia.loadFromStream(serialized) != S_OK then Raise(DataSourceLoadErr, DxDiaInputCpp, 225)
      else Ok(StreamSource(serialized))
  }

  /** A parse failure is reported whatever the allocator and the DIA provider would do. */
  lemma LoadLLVMParseFailsFirst(contents: seq<byte>, bufId: string, ir: IrToolkit,
                                mallocOk: bool, dia: DiaProvider, mallocOk': bool, dia': DiaProvider)
    requires StripDxilProgramHeader(contents).Ok?
    requires ir.parse(StripDxilProgramHeader(contents).value, bufId).None?
    ensures LoadLLVMModule(contents, bufId, mallocOk, ir, dia) == Raise(FailedToParseBC, DxDiaInputCpp, 208)
    ensures LoadLLVMModule(contents, bufId, mallocOk, ir, dia) == LoadLLVMModule(contents, bufId, mallocOk', ir, dia')
  {
  }

  /** A data source that cannot be created is reported before any load is tried. */
  lemma LoadLLVMCreationBeforeLoad(contents: seq<byte>, bufId: string, ir: IrToolkit,
                                   dia: DiaProvider, load': seq<byte> -> HResult)
    requires StripDxilProgramHeader(contents).Ok?
    requires ir.parse(StripDxilProgramHeader(contents).value, bufId).Some?
    requires dia.streamSourceCreateHr != S_OK
    ensures LoadLLVMModule(contents, bufId, true, ir, dia) == Raise(DataSourceCreationErr, DxDiaInputCpp, 221)
    ensures LoadLLVMModule(contents, bufId, true, ir, dia) ==
            LoadLLVMModule(contents, bufId, true, ir, dia.(loadFromStream := load'))
  {
  }

  /** Contents without the DXIL magic reach the parser unchanged. */
  lemma LoadLLVMParsesPlainContents(contents: seq<byte>, bufId: string, ir: IrToolkit)
    requires CanReadMagic(contents) && !LooksLikeDxilProgramHeader(contents)
    ensures StripDxilProgramHeader(contents) == Ok(contents)
  {
  }

  /** The path LoadPBD loads: the given one, or a temporary copy of standard input. */
  function PdbPath(inputFilename: string, stdin: Option<seq<byte>>, mallocOk: bool, fs: TempFs): (r: Result<string>)
  {
    if inputFilename != "-" then Ok(inputFilename)
    else if stdin.None? then Raise(FailedToLoadInput, DxDiaInputCpp, 243)
    else if !mallocOk then Raise(OOM, DxDiaBufferH, 56)
    else WritePDBToTmpFile(fs, Blob(stdin.value))
  }

  /** LoadPBD: load a DIA data source from a PDB file, "-" standing for standard input. */
  function LoadPBD(inputFilename: string, stdin: Option<seq<byte>>, mallocOk: bool, fs: TempFs,
                   dia: DiaProvider): (r: Result<DataSource>)
    ensures inputFilename != "-" ==>
              (r.Ok? <==> dia.pdbSourceCreated && dia.loadFromPdb(inputFilename) == S_OK) &&
              (r.Ok? ==> r.value == PdbSource(inputFilename))
    ensures inputFilename == "-" && r.Ok? ==>
              stdin.Some? && fs.tempFileName.Some? && r.value == PdbSource(fs.tempFileName.value)
    ensures inputFilename == "-" && stdin.None? ==> r == Raise(FailedToLoadInput, DxDiaInputCpp, 243)
    ensures r.Fail? ==> r.error.kind in {FailedToLoadInput, OOM, TempFileCreationErr,
                                         DataSourceCreationErr, DataSourceLoadErr}
    ensures !r.OutOfBoundsRead?
  {
    var path :- PdbPath(inputFilename, stdin, mallocOk, fs);
    if !dia.pdbSourceCreated then Raise(DataSourceCreationErr, DxDiaInputCpp, 253)
    else if dia.loadFromPdb(path) != S_OK then Raise(DataSourceLoadErr, DxDiaInputCpp, 257)
    else Ok(PdbSource(path))
  }
}
