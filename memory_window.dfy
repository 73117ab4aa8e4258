/**
 * Windows into the module's linear memory, as the host reads them with
 * `new Uint8Array(memory.buffer, offset, length)`.
 *
 * Pointers and lengths arrive from the module as 32-bit integers that the
 * host sees as signed numbers, so they are modelled as `int`. The memory is
 * the current contents of `memory.buffer`, passed in on every call.
 */
module MemoryWindow {
  import opened Wrappers

  newtype Byte = b: int | 0 <= b < 0x100

  /** What the host can throw: the typed-array constructor's RangeError, or a thrown string. */
  datatype Exception = RangeError | Thrown(message: string)

  /** The byte window [offset, offset + length) lies inside the memory. */
  predicate InBounds(mem: seq<Byte>, offset: int, length: int)
  {
    0 <= offset && 0 <= length && offset + length <= |mem|
  }

  /**
   * `readCharStr(ptr, len)`: the bytes [ptr, ptr + len) that are handed to the
   * UTF-8 decoder. A window outside the buffer makes the typed-array
   * constructor throw a RangeError.
   */
  function ReadCharStr(mem: seq<Byte>, ptr: int, len: int): (r: Result<seq<Byte>, Exception>)
    ensures r.Success? <==> InBounds(mem, ptr, len)
    ensures r.Failure? ==> r.error == RangeError
    ensures r.Success? ==> |r.value| == len && forall i :: 0 <= i < len ==> r.value[i] == mem[ptr + i]
  {
    if InBounds(mem, ptr, len) then Success(mem[ptr..ptr + len]) else Failure(RangeError)
  }

  /**
   * `logWasm(s, len)`: `len` counts UTF-16 code units. A zero length returns
   * before memory is touched (`None`: nothing is logged, whatever `s` is);
   * otherwise the 2 * len bytes from `s` are handed to the UTF-16LE decoder.
   */
  function LogWasm(mem: seq<Byte>, s: int, len: int): (r: Result<Option<seq<Byte>>, Exception>)
    ensures len == 0 ==> r == Success(None)
    ensures len != 0 ==> (r.Success? <==> InBounds(mem, s, 2 * len))
    ensures r.Failure? ==> r.error == RangeError
    ensures len != 0 && r.Success? ==> r.value.Some?
    ensures r.Success? && r.value.Some? ==>
      len > 0 && |r.value.value| == 2 * len &&
      forall i :: 0 <= i < 2 * len ==> r.value.value[i] == mem[s + i]
  {
    if len == 0 then Success(None)
    else if InBounds(mem, s, len * 2) then Success(Some(mem[s..s + len * 2]))
    else Failure(RangeError)
  }

  /** A logged message covers exactly the window that `readCharStr` would take for 2 * len bytes. */
  lemma LogWasmTakesUtf16Window(mem: seq<Byte>, s: int, len: int)
    requires len != 0
    ensures LogWasm(mem, s, len).Success? <==> ReadCharStr(mem, s, 2 * len).Success?
    ensures LogWasm(mem, s, len).Success? ==>
      LogWasm(mem, s, len).value == Some(ReadCharStr(mem, s, 2 * len).value)
  {
  }

  /** Overwriting one byte outside a window leaves what is read from the window unchanged. */
  lemma ReadUnaffectedOutsideWindow(mem: seq<Byte>, ptr: int, len: int, at: int, b: Byte)
    requires 0 <= at < |mem|
    requires at < ptr || ptr + len <= at
    ensures ReadCharStr(mem[at := b], ptr, len) == ReadCharStr(mem, ptr, len)
  {
  }
}
