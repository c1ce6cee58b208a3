# dxdia in Dafny

dxdia is a small standalone tool in DirectXShaderCompiler for inspecting the
debug information of a shader. It accepts four kinds of input:

- an LLVM module;
- a DXBC/DXIL container ("blob");
- HLSL source, which it compiles with debug information using either
  dxcompiler or the legacy d3dcompiler;
- a PDB.

From that input it resolves one DIA data source. There are two routes:

- A PDB file is loaded directly. A PDB part found inside a container, or a PDB
  read from standard input, is first written to a temporary file.
- A DXIL part is stripped of its program header, parsed, re-serialised and
  loaded as a stream.

The tool then answers a dot-separated query against the DIA session:

- `tables` lists the tables and their symbols;
- `@` walks the symbol tree from the global scope.

Every failure is a `FatalError` that names its kind, file and line. `main`
prints that error and returns the kind's ordinal as the exit status.

This project models that core:

| module | file | what it holds |
|---|---|---|
| `Com` | `com.dfy` | integer widths, HRESULT values, opaque blobs |
| `Decimal` | `decimal.dfy` | decimal rendering of numbers (`std::to_wstring`) with its parser |
| `Errors` | `errors.dfy` | the 17 fatal error kinds, their ordinals and names, `FatalError`, `FATAL_ERROR` |
| `SymTags` | `symtag.dfy` | the 44 DIA symbol tags and `SymTagToStr` |
| `Buffers` | `buffer.dfy` | the `DxDiaBuffer` class, which owns or borrows bytes and implements the blob/stream interfaces |
| `Output` | `output.dfy` | writing a PDB to a temporary file, with the error narrowing |
| `Input` | `input.dfy` | the two HLSL compile paths, part extraction from a container, the DXIL program header, LLVM and PDB loading |
| `Printer` | `printer.dfy` | the symbol/table printer and the query dispatch |
| `Driver` | `driver.dfy` | the `DxDia` driver and `main`'s exit status |

Collaborators the tool calls are parameters of the model:

- DIA, dxcompiler, d3dcompiler, the LLVM IR reader and writer, the file system
  and the allocator;
- each is a datatype that carries the answers these collaborators give.

Every fallible operation returns a `Result`:

- `Ok`;
- `Fail(FatalError)`, which carries the file and line of the `FATAL_ERROR` that
  raised it;
- `OutOfBoundsRead`, where the C++ reads memory it does not own (undefined
  behaviour).

The printer's output is a sequence of `Write` events. Its `Printed` result
pairs the events written so far with how the run ended. This way a fatal error
raised halfway through a walk keeps what was already printed.

Each imperative routine of the source is a method proved equal to a
specification function:

- the part-extraction loop, `Input.ExtractDxilAndPDBBlobParts`;
- the enumerator loops of `FindChildrenAndPrint` and `ProcessDiaDataSource`;
- `PrintSymbol` and `PrintTable`;
- the driver `DxDia`, with its input resolution `ResolveBuffers`.

Lemmas then state what those functions promise:

- which errors can occur and when;
- when a walk succeeds;
- how labels and indentation nest;
- the token properties of the query split;
- the precedence of a PDB over a DXIL part;
- the exit status.

A few lemmas are worked examples rather than general properties, and are left
out of the table below:

- `Input.DebugTags` gives the values of the two debug-part tags;
- `Input.DxilMagicSpellsDXIL` shows that the magic word is 'DXIL' read little-endian;
- `Printer.SplitExamples` splits four sample queries;
- `Printer.GlobalScopeExample` renders a small symbol tree.

The lemmas `Printer.ExampleWalk`, `Printer.ExampleTexts`, `Printer.ExampleRender`
and `Printer.RenderCons` are steps of that last example.

Some of the code's behaviour is surprising; the model keeps it as written:

- The DXIL magic is read at byte offset 8 of the program header. That is where
  `DxilProgramHeader::BitcodeHeader.DxilMagic` lies. It is not read from the
  first four bytes.
- The diagnostic text is "Fatal dxdia error reported on FILE:LINE: KIND".
- The exit status is the kind's ordinal. So `FailedToLoadInput`, ordinal 0,
  exits with status 0.
- An empty query prints "no query provided - exiting..." and then still reads
  `tokens[0]`.
- A first token other than `tables` or `@` prints nothing and succeeds.

## Model

| member | source | states |
|---|---|---|
| `Decimal.NatToString` | tools/dxdia/dxdia.cpp:116 | the decimal text of a label index is non-empty, all digits, without a leading zero except for 0, and parses back to the number |
| `Decimal.IntToString` | tools/dxdia/DxDiaSymTag.h:59 | the decimal text of a tag value is non-empty, starts with a sign or a digit, and parses back to the value |
| `Decimal.NatToStringInjective` | tools/dxdia/dxdia.cpp:116 | distinct child indices get distinct decimal labels |
| `Errors.Ordinal` | tools/dxdia/DxDiaResult.h:7-32 | the ordinal of a kind is its position in the error list |
| `Errors.OrdinalInjective` | tools/dxdia/DxDiaResult.h:26-32 | distinct kinds have distinct ordinals, so the exit status identifies the kind |
| `Errors.OrdinalOnto` | tools/dxdia/DxDiaResult.h:26-32 | every position of the error list is the ordinal of the kind listed there |
| `Errors.NameTableSpellsKinds` | tools/dxdia/DxDiaResult.h:41-46 | the name table lists each enumerator's own spelling at its ordinal |
| `Errors.KindStr` | tools/dxdia/DxDiaResult.h:41-48 | `kind_str` returns the kind's own name, which parses back to the kind through a separately written parser |
| `Errors.KindStrInjective` | tools/dxdia/DxDiaResult.h:41-48 | distinct kinds have distinct names |
| `Errors.Raise` | tools/dxdia/DxDiaResult.h:51 | `FATAL_ERROR` fails with the given kind, file and line |
| `SymTags.Value` | tools/dxdia/DxDiaSymTag.h:9-53 | every tag's value lies below the count of listed tags |
| `SymTags.FromValueOfValue` | tools/dxdia/DxDiaSymTag.h:55-65 | the switch recognises the value of every listed tag as that tag |
| `SymTags.FromValue` | tools/dxdia/DxDiaSymTag.h:55-65 | a value selects a case of the switch exactly when it lies inside the listed range |
| `SymTags.SymTagToStr` | tools/dxdia/DxDiaSymTag.h:55-65 | a value in the listed range renders as a name that parses back to the tag of that value; any other value renders as `<unknown N>`, where N parses back to the value |
| `SymTags.SymTagToStrListed` | tools/dxdia/DxDiaSymTag.h:60-61 | a listed tag is rendered as its own enumerator name |
| `SymTags.SymTagToStrUnknown` | tools/dxdia/DxDiaSymTag.h:58-59 | any other value is rendered as `<unknown N>` with N in decimal, so it is never a tag name |
| `SymTags.SpellingStartsWithLetter` | tools/dxdia/DxDiaSymTag.h:9-53 | every tag name is non-empty and starts with a capital letter |
| `SymTags.ParseSpellingRoundTrip` | tools/dxdia/DxDiaSymTag.h:60-61 | every tag name parses back to its tag |
| `SymTags.SymTagToStrInjective` | tools/dxdia/DxDiaSymTag.h:55-65 | distinct tags are rendered differently |
| `Buffers.DxDiaBuffer.constructor` | tools/dxdia/DxDiaBuffer.h:17-27 | a new buffer holds no blob and no contents and views nothing |
| `Buffers.DxDiaBuffer.AssignD3D` | tools/dxdia/DxDiaBuffer.h:29-35 | keeps the D3D blob, releases the DXC blob, clears the contents and views the blob's bytes |
| `Buffers.DxDiaBuffer.AssignDxc` | tools/dxdia/DxDiaBuffer.h:37-43 | keeps the DXC blob, releases the D3D blob, clears the contents and views the blob's bytes |
| `Buffers.DxDiaBuffer.AssignString` | tools/dxdia/DxDiaBuffer.h:45-50 | releases both blobs, copies the bytes into the owned contents and views the copy |
| `Buffers.DxDiaBuffer.Assign` | tools/dxdia/DxDiaBuffer.h:29-50 | whichever overload applies, the buffer views the source's bytes from the store that matches the source |
| `Buffers.DxDiaBuffer.CreateWithMalloc` | tools/dxdia/DxDiaBuffer.h:52-60 | an allocation failure raises OOM at line 56; otherwise a fresh, consistent buffer views the value's bytes |
| `Buffers.DxDiaBuffer.GetBufferPointer` | tools/dxdia/DxDiaBuffer.h:72-74 | the bytes exposed are those of the store currently viewed |
| `Buffers.DxDiaBuffer.GetBufferSize` | tools/dxdia/DxDiaBuffer.h:76-78 | the size is the length of the viewed bytes, and 0 for a new buffer |
| `Buffers.DxDiaBuffer.Stream` | tools/dxdia/DxDiaBuffer.h:81-138 | every IStream method answers E_NOTIMPL, never S_OK |
| `Output.WriteToFile` | tools/dxdia/DxDiaOutput.cpp:13-41 | succeeds iff the file is created and every byte is written; every failure is OutputFileCreationErr |
| `Output.NarrowOutputError` | tools/dxdia/DxDiaOutput.cpp:64-71 | an OutputFileCreationErr becomes TempFileCreationErr and any other error passes through unchanged |
| `Output.WritePDBToTmpFile` | tools/dxdia/DxDiaOutput.cpp:43-73 | succeeds iff the temp path fits MAX_PATH, a temp name is generated and the write succeeds, and then returns that name; every failure is TempFileCreationErr |
| `Input.FourCC` | tools/dxdia/DxDiaInput.cpp:155-158 | the four characters are the tag's bytes, least significant first |
| `Input.LooksLikeDxilProgramHeader` | tools/dxdia/DxDiaInput.cpp:182-185 | the magic-word test holds exactly when the four bytes at offset 8 are 'D', 'X', 'I', 'L' |
| `Input.SkipDxilProgramHeader` | tools/dxdia/DxDiaInput.cpp:187-192 | the payload starts right after the 24-byte header, and its length is SizeInUint32*4-24, wrapped modulo 2^64 |
| `Input.HeaderUnderflowIsOutOfBounds` | tools/dxdia/DxDiaInput.cpp:187-192 | a SizeInUint32 below the header's own size wraps to a length no buffer holds, so skipping the header reads out of bounds |
| `Input.PayloadLengthUnwrapped` | tools/dxdia/DxDiaInput.cpp:191 | when the payload can be read, its length is exactly SizeInUint32*4-24 with no wrap |
| `Input.StripDxilProgramHeader` | tools/dxdia/DxDiaInput.cpp:182-202 | never fails; well-defined iff the magic is readable and, for a DXIL header, the payload lies inside the input; otherwise the input passes through unchanged |
| `Input.StripIgnoresOtherHeaderFields` | tools/dxdia/DxDiaInput.cpp:182-192 | only the size and magic words of the header decide the outcome |
| `Input.DxcFileName` | tools/dxdia/DxDiaInput.cpp:35-37 | "-" is renamed to "&lt;stdin&gt;"; every other name is kept |
| `Input.ParseHLSLWithDXCompiler` | tools/dxdia/DxDiaInput.cpp:21-67 | succeeds with the result blob iff the compiler is created and Compile, the status and GetResult all answer S_OK; CompilerLoadErr iff creation failed; otherwise HLSLCompilationFailure |
| `Input.StdinIsCompiledAsStdinName` | tools/dxdia/DxDiaInput.cpp:35-46 | compiling "-" is compiling "&lt;stdin&gt;", with the arguments /Zi /Od |
| `Input.ParseHLSLWithD3DCompiler` | tools/dxdia/DxDiaInput.cpp:69-106 | succeeds with the compiled code iff the dll is loaded, exports D3DCompile2, the compile answers S_OK and the buffer is allocated; CompilerLoadErr iff the dll or the export is missing |
| `Input.D3DRequestKeepsName` | tools/dxdia/DxDiaInput.cpp:88-95 | d3dcompiler gets the file name as given, with flags DEBUG and SKIP_OPTIMIZATION |
| `Input.ExtractDxilAndPDBBlobParts` | tools/dxdia/DxDiaInput.cpp:116-174 | the part loop computes the extraction specification |
| `Input.ExtractFromString` | tools/dxdia/DxDiaInput.cpp:108-114 | the string overload raises OOM when the buffer cannot be allocated, and otherwise extracts from those bytes |
| `Input.ScanPartsCharacterised` | tools/dxdia/DxDiaInput.cpp:138-170 | the scan succeeds iff every kind and every tagged content is readable and neither tag occurs twice; it then keeps the first part with each tag; every failure is FailedToLoadInput |
| `Input.ExtractCharacterised` | tools/dxdia/DxDiaInput.cpp:116-174 | extraction in terms of the reflection answers: CompilerLoadErr, a load or count failure, or the scan above |
| `Input.ExtractWithoutDebugParts` | tools/dxdia/DxDiaInput.cpp:135-173 | a readable container without debug parts yields neither part |
| `Input.ExtractRejectsDuplicateTag` | tools/dxdia/DxDiaInput.cpp:146-168 | a container with two DXIL or two PDB parts is rejected |
| `Input.LoadLLVMModule` | tools/dxdia/DxDiaInput.cpp:194-228 | succeeds iff the header strip is defined, the module parses, the buffer is allocated and the data source is created and loaded; the source is the re-serialised module |
| `Input.LoadLLVMParseFailsFirst` | tools/dxdia/DxDiaInput.cpp:200-209 | an unparsable module raises FailedToParseBC at line 208, whatever the allocator or DIA would answer |
| `Input.LoadLLVMCreationBeforeLoad` | tools/dxdia/DxDiaInput.cpp:217-226 | a failed data-source creation raises DataSourceCreationErr before any load is tried |
| `Input.LoadLLVMParsesPlainContents` | tools/dxdia/DxDiaInput.cpp:200-205 | input without the DXIL magic is parsed as given |
| `Input.LoadPBD` | tools/dxdia/DxDiaInput.cpp:230-260 | a named PDB is loaded from that file; "-" is read from stdin and loaded through a temp file; unreadable stdin raises FailedToLoadInput at 243 |
| `Printer.PrintSymbol` | tools/dxdia/dxdia.cpp:122-201 | prints what the symbol specification says |
| `Printer.FindChildrenAndPrint` | tools/dxdia/dxdia.cpp:93-120 | the enumerator loop prints what the children specification says |
| `Printer.PrintTable` | tools/dxdia/dxdia.cpp:203-216 | prints what the table specification says |
| `Printer.ProcessDiaDataSource` | tools/dxdia/dxdia.cpp:218-273 | the session, the split and the tables loop print what the query specification says |
| `Printer.SymbolErrors` | tools/dxdia/dxdia.cpp:122-201 | a symbol walk fails only with ChildrenEnumErr and never reads out of bounds |
| `Printer.ChildrenErrors` | tools/dxdia/dxdia.cpp:93-120 | a children walk fails only with ChildrenEnumErr and never reads out of bounds |
| `Printer.TablesErrors` | tools/dxdia/dxdia.cpp:242-260 | the tables walk fails only with ChildrenEnumErr and never reads out of bounds |
| `Printer.SymbolSucceeds` | tools/dxdia/dxdia.cpp:122-201 | a symbol walk succeeds iff every property query of every reached symbol is answered and every reached enumerator ends with S_FALSE |
| `Printer.ChildrenSucceed` | tools/dxdia/dxdia.cpp:102-119 | a children walk succeeds iff every reached Next is answered and every fetched child's walk succeeds |
| `Printer.EnumWalkableStep` | tools/dxdia/dxdia.cpp:102-119 | an enumerator can be walked from one position iff that fetch is answered, its child can be walked, and the walk can continue past a non-final fetch |
| `Printer.ChildIndented` | tools/dxdia/dxdia.cpp:116 | a line under a child's label and indentation lies strictly below its parent's label and indentation |
| `Printer.EnumIndented` | tools/dxdia/dxdia.cpp:198 | a line under a deeper-indented enumeration stays under the symbol's label |
| `Printer.SymbolIndentation` | tools/dxdia/dxdia.cpp:122-201 | every line a symbol prints has a label that extends the symbol's label, and is indented four spaces more than the symbol for each extra label component |
| `Printer.ChildrenIndentation` | tools/dxdia/dxdia.cpp:93-120 | every line a children walk prints has at least one more label component than the walk's prefix, and is indented two spaces plus four for each further component |
| `Printer.TableSymbolsIndentation` | tools/dxdia/dxdia.cpp:203-216 | after a table's name line, each symbol line is labelled under the table's number and indented two spaces plus four for each further label component |
| `Printer.TableLabel` | tools/dxdia/dxdia.cpp:244-258 | the table fetched at position i is printed first, as a name line labelled i+1 with no indentation |
| `Printer.EmptyFetchUsesLabel` | tools/dxdia/dxdia.cpp:114-118 | an S_OK with nothing fetched prints nothing but still uses up a label number |
| `Printer.FetchedChildLabel` | tools/dxdia/dxdia.cpp:114-117 | the child fetched at position i is printed first, two spaces deeper, with label prefix.(i+1) |
| `Printer.FalseEndsEnumeration` | tools/dxdia/dxdia.cpp:105-107 | what follows an S_FALSE from Next never influences the output |
| `Printer.FailedNextRaises` | tools/dxdia/dxdia.cpp:110-111 | any other Next result raises ChildrenEnumErr at line 111 |
| `Printer.LeafSymbol` | tools/dxdia/dxdia.cpp:189-195 | a symbol whose findChildren answers S_FALSE or E_NOTIMPL prints exactly its one line |
| `Printer.ParentDoesNotSteer` | tools/dxdia/dxdia.cpp:123-133 | the lexical parent changes only the address shown on the symbol's line; the walk does not depend on it |
| `Printer.ValueSuffixShowsValue` | tools/dxdia/dxdia.cpp:171-187 | each variant type is rendered so that the value or type number can be read back |
| `Printer.WideTagIsNegative` | tools/dxdia/dxdia.cpp:148-154 | a tag DWORD of 2^31 or more becomes a negative enumerator value, the same bits |
| `Printer.SplitFromTokens` | tools/dxdia/dxdia.cpp:224-226 | every token of the split is non-empty and free of dots, and together they are the input without dots |
| `Printer.SplitString` | tools/dxdia/dxdia.cpp:224-226 | the query splits into non-empty dot-free tokens that concatenate to the query without its dots |
| `Printer.SplitRun` | tools/dxdia/dxdia.cpp:224-226 | a non-empty query without dots is a single token, itself: tokens are maximal runs |
| `Printer.SplitAtDelimiter` | tools/dxdia/dxdia.cpp:224-226 | every dot separates: the tokens of `a.b` are the tokens of `a` followed by those of `b` |
| `Printer.SessionFirst` | tools/dxdia/dxdia.cpp:219-222 | a failed openSession raises SessionCreationErr whatever the query |
| `Printer.ExtraTokensAreQueryErrors` | tools/dxdia/dxdia.cpp:232-264 | `tables` or `@` followed by more tokens raises QueryErr and prints nothing |
| `Printer.OtherQueriesDoNothing` | tools/dxdia/dxdia.cpp:232-272 | a first token other than `tables` and `@` prints nothing and succeeds |
| `Printer.EmptyQueryReadsOutOfBounds` | tools/dxdia/dxdia.cpp:228-232 | an empty query prints the no-query message and then reads past the token list |
| `Printer.QueryErrors` | tools/dxdia/dxdia.cpp:218-273 | a query fails only with SessionCreationErr, QueryErr or ChildrenEnumErr, and reads out of bounds iff the query has no token |
| `Driver.ReadInput` | tools/dxdia/dxdia.cpp:319-341 | PDB input is not read; reading succeeds iff the input is PDB, or is another known format whose file loads and whose buffer is allocated, and then yields exactly the input's bytes; an unknown format fails with FailedToLoadInput at line 325, an unreadable file at line 337, and otherwise only allocation failure (OOM) remains |
| `Driver.ResolveBuffers` | tools/dxdia/dxdia.cpp:297-402 | the input, blob and DXIL switches, run over DxDiaBuffer objects, yield exactly the resolution the three-switch specification gives, failures included |
| `Driver.DxDia` | tools/dxdia/dxdia.cpp:297-419 | the driver computes the driver specification: input, blob, DXIL/PDB resolution, data source, query |
| `Driver.ExitStatus` | tools/dxdia/dxdia.cpp:421-432 | status 0 on success, the kind's ordinal on a fatal error, and no defined status after an out-of-bounds read |
| `Driver.ExitStatusZero` | tools/dxdia/dxdia.cpp:428 | the status is 0 iff the run succeeded or failed with FailedToLoadInput |
| `Driver.Diagnostic` | tools/dxdia/dxdia.cpp:426-427 | the diagnostic opens with "Fatal dxdia error reported on " followed by the file name, then ":", the line number in decimal digits that parse back to it, ": ", and ends with the kind's name and a newline, from which the kind reads back |
| `Driver.PdbInputNamesFile` | tools/dxdia/dxdia.cpp:326-331 | PDB input resolves to that file name without reading the input |
| `Driver.EmptyPdbNameLoadsNothing` | tools/dxdia/dxdia.cpp:407-416 | a PDB input with an empty name raises FailedToLoadInput at 415, which exits with status 0 |
| `Driver.LlvmInputIsTheModule` | tools/dxdia/dxdia.cpp:381-413 | LLVM input is itself the DXIL buffer and is loaded as module "loaded-dxil" |
| `Driver.UnreadableInput` | tools/dxdia/dxdia.cpp:332-338 | an unreadable LLVM, blob or HLSL input raises FailedToLoadInput at 337 and prints nothing |
| `Driver.DxilPartWins` | tools/dxdia/dxdia.cpp:386-395 | when a container has a DXIL part, it is the DXIL buffer, any PDB part is dropped and no temp file is written |
| `Driver.PdbPartGoesThroughTempFile` | tools/dxdia/dxdia.cpp:396-399 | a PDB part alone is written to a temp file whose name becomes the PDB file name |
| `Driver.NoDebugPartLoadsNothing` | tools/dxdia/dxdia.cpp:386-416 | a container without debug parts raises FailedToLoadInput at 415 |
| `Driver.RejectedHlsl` | tools/dxdia/dxdia.cpp:357-368 | HLSL that dxcompiler rejects prints nothing and exits with the ordinal of HLSLCompilationFailure, 2 |
| `Driver.MissingD3DCompiler` | tools/dxdia/dxdia.cpp:298-306 | asking for d3dcompiler when its dll cannot be loaded raises CompilerLoadErr at 302 |
| `Driver.PdbNameTakesPrecedence` | tools/dxdia/dxdia.cpp:407-413 | a non-empty PDB file name is loaded as a PDB whatever DXIL buffer exists |
| `Driver.OutputNeedsDataSource` | tools/dxdia/dxdia.cpp:404-418 | nothing is printed unless the input resolves and its data source loads |

## Left out

- Symbols form a finite tree in the model (`Symbol` is an inductive datatype); a provider whose findChildren revisits a symbol would make the walk at dxdia.cpp:197-198 recurse without bound, which the model cannot express.
- Reference counting, `QueryInterface`, `Detach` and smart-pointer release are not modelled. Objects are values.
- Symbol and parent pointers printed with `(void*)` are opaque strings supplied by the provider.
- `llvm::errs()` output of the compiler's error buffer (DxDiaInput.cpp:56-59) is not modelled. It only goes to stderr.
- The `std::flush` calls are not modelled either; only the order of what is written is.
- The per-thread file system, the thread allocator setup and `CoInitialize` (dxdia.cpp:284-293) are not modelled. With them goes ThreadFSCreationErr. They are platform set-up with no logic of their own.
- Command-line parsing (dxdia.cpp:295) is not modelled; the parsed options are an input.
- One allocator flag stands for every allocation in a run. A failing allocator fails the first allocation the run makes.
- `sCount` and `tCount` are unbounded here. The 32-bit wrap after 2^32 fetches is not modelled.
- The `assert`s at dxdia.cpp:379, 382, 392 and 408 are not modelled. They are debug-only checks with no release effect.
- The LLVM IR reader and the bitcode writer are abstract functions. Determinism and use-list order are not modelled.
- A DIA enumerator is a finite list of answers. Past the end it answers S_FALSE.
- The split keeps the non-empty pieces between dots. That is the documented behaviour of `llvm::SplitString`, whose source is not part of this model.
- The numeric values of the symbol tags are taken as their positions in the list. `dia2.h` is not part of this model.
- The layout of `DxilProgramHeader` follows `DxilContainer.h`, which is not part of this model: 24 bytes, SizeInUint32 at offset 4, DxilMagic at offset 8.
- `DxDiaInput.h` and `DxDiaOutput.h` are not part of this model beyond the signatures their callers use.
- `__FILE__` is modelled as the file's base name.
