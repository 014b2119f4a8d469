/** The value trees of core/include/value.hpp. */
module Values {

  type byte = x: int | 0 <= x < 0x100
  type uint16 = x: int | 0 <= x < 0x1_0000
  type uint32 = x: int | 0 <= x < 0x1_0000_0000
  type uint64 = x: int | 0 <= x < 0x1_0000_0000_0000_0000
  type int64 = x: int | -0x8000_0000_0000_0000 <= x < 0x8000_0000_0000_0000

  datatype DLDataType = DLDataType(code: byte, bits: byte, lanes: uint16)

  /** Floating-point numbers are the reals they stand for. */
  datatype Value =
    | Null
    | Bool(b: bool)
    | UInt(u: uint64)
    | Int(i: int64)
    | Float(f: real)
    | Double(d: real)
    | Str(s: string)
    | Bytes(bytes: seq<byte>)
    | Array(elems: seq<Value>)
    | Map(fields: map<string, Value>)
    | NdArray(shape: seq<uint64>, dtype: DLDataType, data: seq<byte>)
}
