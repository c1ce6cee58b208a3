/**
 * DxDiaOutput.cpp: writing a PDB part to a fresh temporary file. The file
 * system calls are collaborators whose answers are given; what is modelled
 * is which answer raises which error, and the one place in dxdia that
 * catches an error and throws a different one.
 */
module Output {
  import opened Com
  import opened Errors

  const MAX_PATH := 260

  /** What WriteFile reports: success, and how many bytes it wrote. */
  datatype WriteOutcome = WriteOutcome(ok: bool, written: nat)

  /** The answers of the Win32 calls WritePDBToTmpFile makes. */
  datatype TempFs = TempFs(
    tempPathLength: nat,              // GetTempPath's return value
    tempFileName: Option<string>,     // GetTempFileName's name, None when it returns 0
    create: string -> bool,           // whether CreateFileA opens the named file
    write: seq<byte> -> WriteOutcome) // WriteFile on the opened file

  /** WriteToFile: create the file, then write every byte of the blob. */
  function WriteToFile(fs: TempFs, blob: Blob, filename: string): (r: Result<()>)
    ensures r.Ok? <==> fs.create(filename) && fs.write(blob.bytes) == WriteOutcome(true, |blob.bytes|)
    ensures r.Fail? ==> r.error.kind == OutputFileCreationErr
    ensures !r.OutOfBoundsRead?
  {
    if !fs.create(filename) then Raise(OutputFileCreationErr, DxDiaOutputCpp, 28)
    else
      var w := fs.write(blob.bytes);
      if !w.ok || w.written != |blob.bytes| then Raise(OutputFileCreationErr, DxDiaOutputCpp, 39)
      else Ok(())
  }

  /** The catch clause of WritePDBToTmpFile: only OutputFileCreationErr is narrowed. */
  function NarrowOutputError(e: FatalError): (e': FatalError)
    ensures e'.kind != OutputFileCreationErr
    ensures e.kind != OutputFileCreationErr ==> e' == e
    ensures e.kind == OutputFileCreationErr ==> e'.kind == TempFileCreationErr
  {
    if e.kind != OutputFileCreationErr then e
    else FatalError(TempFileCreationErr, DxDiaOutputCpp, 70)
  }

  /**
   * WritePDBToTmpFile: the PDB lands in a new temporary file whose name is
   * returned; every failure surfaces as TempFileCreationErr.
   */
  function WritePDBToTmpFile(fs: TempFs, pdb: Blob): (r: Result<string>)
    ensures r.Ok? <==> 0 < fs.tempPathLength <= MAX_PATH && fs.tempFileName.Some? &&
                       WriteToFile(fs, pdb, fs.tempFileName.value).Ok?
    ensures r.Ok? ==> Some(r.value) == fs.tempFileName
    ensures r.Fail? ==> r.error.kind == TempFileCreationErr
    ensures !r.OutOfBoundsRead?
  {
    if fs.tempPathLength > MAX_PATH || fs.tempPathLength == 0 then
      Raise(TempFileCreationErr, DxDiaOutputCpp, 52)
    else if fs.tempFileName.None? then
      Raise(TempFileCreationErr, DxDiaOutputCpp, 61)
    else
      var name := fs.tempFileName.value;
      match WriteToFile(fs, pdb, name)
      case Ok(_) => Ok(name)
      case Fail(e) => Fail(NarrowOutputError(e))
      case OutOfBoundsRead => OutOfBoundsRead
  }
}
