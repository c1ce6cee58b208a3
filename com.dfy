/**
 * Plain values shared by every component: bytes, fixed-width integers,
 * optional values, COM result codes and the byte blobs that COM objects
 * hand around.
 */
module Com {

  type byte = b: int | 0 <= b < 0x100
  type uint16 = n: int | 0 <= n < 0x1_0000
  type uint32 = n: int | 0 <= n < 0x1_0000_0000
  type int32 = n: int | -0x8000_0000 <= n < 0x8000_0000

  /** A pointer that may be null. */
  datatype Option<+T> = None | Some(value: T)

  /** A COM result code: a signed 32-bit HRESULT. */
  type HResult = int32

  const S_OK: HResult := 0
  const S_FALSE: HResult := 1
  /** 0x80004001 read as a signed 32-bit value. */
  const E_NOTIMPL: HResult := -0x7FFF_BFFF

  /** The two codes a DIA query or enumerator may answer without failing. */
  predicate Answered(hr: HResult) {
    hr == S_OK || hr == S_FALSE
  }

  /** The bytes behind an IDxcBlob or ID3DBlob. */
  datatype Blob = Blob(bytes: seq<byte>)
}
