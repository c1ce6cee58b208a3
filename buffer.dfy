/**
 * DxDiaBuffer (DxDiaBuffer.h): a byte buffer that is either a view of a
 * D3D blob, a view of a DXC blob, or a copy it owns, and that answers the
 * IDxcBlob queries on that view. Its IStream half is stubs only.
 */
module Buffers {
  import opened Com
  import opened Errors

  /** What the view Value points into. */
  datatype Store = NoStore | D3DStore | DxcStore | OwnedStore

  /** The argument of one of the three assign overloads. */
  datatype Source = FromD3D(d3d: Blob) | FromDxc(dxc: Blob) | FromString(str: seq<byte>)

  function SourceBytes(v: Source): seq<byte> {
    match v
    case FromD3D(b) => b.bytes
    case FromDxc(b) => b.bytes
    case FromString(s) => s
  }

  function SourceStore(v: Source): Store {
    match v
    case FromD3D(_) => D3DStore
    case FromDxc(_) => DxcStore
    case FromString(_) => OwnedStore
  }

  /** The IStream methods, every one of them a stub. */
  datatype StreamMethod =
    Read | Write | Seek | SetSize | CopyTo | Commit | Revert | LockRegion | UnlockRegion | Stat | Clone

  class DxDiaBuffer {
    var d3dBlob: Option<Blob>
    var dxcBlob: Option<Blob>
    var contents: seq<byte>
    /** The bytes Value views. */
    var value: seq<byte>
    /** Which store Value points into. */
    ghost var viewing: Store

    /**
     * At most one backing store is live, and Value views exactly the bytes
     * of the live one; a new buffer has none and an empty view.
     */
    ghost predicate Valid()
      reads this
    {
      match viewing
      case NoStore => d3dBlob == None && dxcBlob == None && contents == [] && value == []
      case D3DStore => d3dBlob.Some? && dxcBlob == None && contents == [] && value == d3dBlob.value.bytes
      case DxcStore => dxcBlob.Some? && d3dBlob == None && contents == [] && value == dxcBlob.value.bytes
      case OwnedStore => d3dBlob == None && dxcBlob == None && value == contents
    }

    constructor ()
      ensures Valid() && viewing == NoStore
    {
      d3dBlob, dxcBlob, contents, value := None, None, [], [];
      viewing := NoStore;
    }

    /** assign(CComPtr<ID3DBlob>): hold the D3D blob and view its bytes. */
    method AssignD3D(b: Blob)
      modifies this
      ensures Valid() && viewing == D3DStore
      ensures d3dBlob == Some(b) && dxcBlob == None && contents == [] && value == b.bytes
    {
      d3dBlob := Some(b);
      dxcBlob := None;
      contents := [];
      value := b.bytes;
      viewing := D3DStore;
    }

    /** assign(CComPtr<IDxcBlob>): hold the DXC blob and view its bytes. */
    method AssignDxc(b: Blob)
      modifies this
      ensures Valid() && viewing == DxcStore
      ensures dxcBlob == Some(b) && d3dBlob == None && contents == [] && value == b.bytes
    {
      d3dBlob := None;
      dxcBlob := Some(b);
      contents := [];
      value := b.bytes;
      viewing := DxcStore;
    }

    /** assign(StringRef): release both blobs, copy the bytes and view the copy. */
    method AssignString(s: seq<byte>)
      modifies this
      ensures Valid() && viewing == OwnedStore
      ensures d3dBlob == None && dxcBlob == None && contents == s && value == s
    {
      d3dBlob := None;
      dxcBlob := None;
      contents := s;
      value := contents;
      viewing := OwnedStore;
    }

    /**
     * The overload a Create call selects. Whatever the buffer held before,
     * afterwards exactly the new source backs it and Value is its bytes.
     */
    method Assign(v: Source)
      modifies this
      ensures Valid() && viewing == SourceStore(v) && value == SourceBytes(v)
    {
      match v
      case FromD3D(b) => AssignD3D(b);
      case FromDxc(b) => AssignDxc(b);
      case FromString(s) => AssignString(s);
    }

    /**
     * CreateWithMalloc: OOM when the allocator yields null, otherwise a new
     * buffer assigned the given value. Create is the same call on the
     * thread's allocator, whose answer mallocOk stands for.
     */
    static method CreateWithMalloc(mallocOk: bool, v: Source) returns (r: Result<DxDiaBuffer>)
      ensures !mallocOk ==> r == Raise(OOM, DxDiaBufferH, 56)
      ensures mallocOk ==> r.Ok? && fresh(r.value) && r.value.Valid()
      ensures mallocOk ==> r.value.viewing == SourceStore(v) && r.value.value == SourceBytes(v)
    {
      if !mallocOk {
        return Raise(OOM, DxDiaBufferH, 56);
      }
      var b := new DxDiaBuffer();
      b.Assign(v);
      r := Ok(b);
    }

    /** GetBufferPointer: the bytes from the start of the view on. */
    method GetBufferPointer() returns (data: seq<byte>)
      requires Valid()
      ensures data == value
      ensures viewing == D3DStore ==> data == d3dBlob.value.bytes
      ensures viewing == DxcStore ==> data == dxcBlob.value.bytes
      ensures viewing == OwnedStore ==> data == contents
    {
      data := value;
    }

    /** GetBufferSize: the length of the view. */
    method GetBufferSize() returns (n: nat)
      requires Valid()
      ensures n == |value|
      ensures viewing == NoStore ==> n == 0
    {
      n := |value|;
    }

    /** Every IStream method answers E_NOTIMPL and changes nothing. */
    method Stream(m: StreamMethod) returns (hr: HResult)
      ensures hr == E_NOTIMPL && hr != S_OK
    {
      hr := E_NOTIMPL;
    }
  }
}
