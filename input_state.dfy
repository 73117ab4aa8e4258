/**
 * The shared input-state record: three bytes of module memory (move_left,
 * move_right, shoot) at an offset the module reports once, which the host's
 * key handlers overwrite in place and the module polls every frame.
 */
module InputState {
  import opened Wrappers
  import opened MemoryWindow

  /** The record is three one-byte booleans. */
  const RecordSize: nat := 3

  /** The record, starting at `base`, lies inside the memory. */
  predicate RecordFits(mem: seq<Byte>, base: int)
  {
    InBounds(mem, base, RecordSize)
  }

  /** The field a key drives: "a" move_left, "d" move_right, "j" shoot; no other key drives one. */
  function FieldOf(key: string): (f: Option<nat>)
    ensures f.Some? ==> f.value < RecordSize
    ensures f == Some(0) <==> key == "a"
    ensures f == Some(1) <==> key == "d"
    ensures f == Some(2) <==> key == "j"
  {
    if key == "a" then Some(0)
    else if key == "d" then Some(1)
    else if key == "j" then Some(2)
    else None
  }

  /** A keyboard event as the canvas delivers it, with its `key` string. */
  datatype KeyEvent = KeyDown(key: string) | KeyUp(key: string)
  {
    /** The flag an event writes: 1 on key down, 0 on key up. */
    function Flag(): Byte
    {
      if KeyDown? then 1 else 0
    }
  }

  /** Whether handling an event for `key` writes the byte at `i`. */
  predicate Writes(key: string, base: int, i: int)
  {
    FieldOf(key).Some? && i == base + FieldOf(key).value
  }

  /**
   * `onKeyDown` / `onKeyUp`: the byte of the key's field gets the event's
   * flag; every other byte of memory, including the rest of the record, keeps
   * its value. A key with no field writes nothing.
   */
  function Handle(mem: seq<Byte>, base: int, e: KeyEvent): (m: seq<Byte>)
    requires RecordFits(mem, base)
    ensures |m| == |mem|
    ensures forall i :: 0 <= i < |mem| ==> m[i] == if Writes(e.key, base, i) then e.Flag() else mem[i]
  {
    match FieldOf(e.key)
    case None => mem
    case Some(field) => mem[base + field := e.Flag()]
  }

  /** A run of key events, handled in order. */
  function HandleAll(mem: seq<Byte>, base: int, events: seq<KeyEvent>): (m: seq<Byte>)
    requires RecordFits(mem, base)
    ensures |m| == |mem|
  {
    if events == [] then mem
    else Handle(HandleAll(mem, base, events[..|events| - 1]), base, events[|events| - 1])
  }

  /** The last event of a run whose key drives `field`, if any. */
  function LastEventFor(events: seq<KeyEvent>, field: nat): Option<KeyEvent>
  {
    if events == [] then None
    else if FieldOf(events[|events| - 1].key) == Some(field) then Some(events[|events| - 1])
    else LastEventFor(events[..|events| - 1], field)
  }

  /**
   * After any run of events, each field holds the flag of the last event for
   * its key (1 if that was a key down, 0 if a key up), or its old value if
   * no event of the run was for its key.
   */
  lemma {:induction false} HandleAllField(mem: seq<Byte>, base: int, events: seq<KeyEvent>, field: nat)
    requires RecordFits(mem, base) && field < RecordSize
    ensures HandleAll(mem, base, events)[base + field] ==
      match LastEventFor(events, field)
      case None => mem[base + field]
      case Some(e) => e.Flag()
  {
    if events != [] {
      HandleAllField(mem, base, events[..|events| - 1], field);
    }
  }

  /** No run of events changes a byte outside the record. */
  lemma {:induction false} HandleAllOutsideRecord(mem: seq<Byte>, base: int, events: seq<KeyEvent>, i: int)
    requires RecordFits(mem, base) && 0 <= i < |mem|
    requires i < base || base + RecordSize <= i
    ensures HandleAll(mem, base, events)[i] == mem[i]
  {
    if events != [] {
      HandleAllOutsideRecord(mem, base, events[..|events| - 1], i);
    }
  }

  /** A key down followed by the key up of the same key has the effect of the key up alone. */
  lemma PressThenRelease(mem: seq<Byte>, base: int, key: string)
    requires RecordFits(mem, base)
    ensures Handle(Handle(mem, base, KeyDown(key)), base, KeyUp(key)) == Handle(mem, base, KeyUp(key))
  {
  }

  /** Events for keys that drive different fields commute: the fields are independent. */
  lemma IndependentFieldsCommute(mem: seq<Byte>, base: int, e1: KeyEvent, e2: KeyEvent)
    requires RecordFits(mem, base)
    requires FieldOf(e1.key) != FieldOf(e2.key) || FieldOf(e1.key).None?
    ensures Handle(Handle(mem, base, e1), base, e2) == Handle(Handle(mem, base, e2), base, e1)
  {
  }

  /** Every byte of a record is a boolean, 0 or 1. */
  predicate AllFlags(record: seq<Byte>)
  {
    forall i :: 0 <= i < |record| ==> record[i] <= 1
  }

  /** A record of 0/1 flags stays one under any run of events. */
  lemma {:induction false} FlagsStayFlags(mem: seq<Byte>, base: int, events: seq<KeyEvent>)
    requires RecordFits(mem, base) && AllFlags(mem[base..base + RecordSize])
    ensures AllFlags(HandleAll(mem, base, events)[base..base + RecordSize])
  {
    if events != [] {
      var before := HandleAll(mem, base, events[..|events| - 1]);
      FlagsStayFlags(mem, base, events[..|events| - 1]);
      var after := Handle(before, base, events[|events| - 1]);
      var record := after[base..base + RecordSize];
      forall i | 0 <= i < |record| ensures record[i] <= 1 {
        assert before[base..base + RecordSize][i] == before[base + i];
      }
    }
  }

  /** Key events never change what the host reads from a window that does not overlap the record. */
  lemma HandleKeepsOtherWindows(mem: seq<Byte>, base: int, e: KeyEvent, ptr: int, len: int)
    requires RecordFits(mem, base)
    requires ptr + len <= base || base + RecordSize <= ptr
    ensures ReadCharStr(Handle(mem, base, e), ptr, len) == ReadCharStr(mem, ptr, len)
  {
  }

  /**
   * The host's key handlers, bound to the canvas. The record view is fixed at
   * construction over the module's memory at the offset it reports.
   */
  class CanvasInputHandler {
    const memory: array<Byte>
    const inputPtr: int

    /** `inputStateView` lies inside the memory. */
    predicate Valid()
    {
      0 <= inputPtr && inputPtr + RecordSize <= memory.Length
    }

    constructor (memory: array<Byte>, inputPtr: int)
      requires 0 <= inputPtr && inputPtr + RecordSize <= memory.Length
      ensures this.memory == memory && this.inputPtr == inputPtr && Valid()
    {
      this.memory := memory;
      this.inputPtr := inputPtr;
    }

    /** The three bytes of `inputStateView`. */
    function InputStateView(): (v: seq<Byte>)
      reads memory
      requires Valid()
      ensures |v| == RecordSize
      ensures forall i :: 0 <= i < RecordSize ==> v[i] == memory[inputPtr + i]
    {
      memory[inputPtr..inputPtr + RecordSize]
    }

    /** Sets the flag of the pressed key's field to 1. */
    method OnKeyDown(key: string)
      requires Valid()
      modifies memory
      ensures memory[..] == Handle(old(memory[..]), inputPtr, KeyDown(key))
      ensures FieldOf(key).Some? ==> InputStateView()[FieldOf(key).value] == 1
      ensures forall i :: 0 <= i < RecordSize && FieldOf(key) != Some(i) ==> InputStateView()[i] == old(InputStateView()[i])
    {
      if key == "a" {
        memory[inputPtr + 0] := 1;
      } else if key == "d" {
        memory[inputPtr + 1] := 1;
      } else if key == "j" {
        memory[inputPtr + 2] := 1;
      }
    }

    /** Clears the flag of the released key's field to 0. */
    method OnKeyUp(key: string)
      requires Valid()
      modifies memory
      ensures memory[..] == Handle(old(memory[..]), inputPtr, KeyUp(key))
      ensures FieldOf(key).Some? ==> InputStateView()[FieldOf(key).value] == 0
      ensures forall i :: 0 <= i < RecordSize && FieldOf(key) != Some(i) ==> InputStateView()[i] == old(InputStateView()[i])
    {
      if key == "a" {
        memory[inputPtr + 0] := 0;
      } else if key == "d" {
        memory[inputPtr + 1] := 0;
      } else if key == "j" {
        memory[inputPtr + 2] := 0;
      }
    }
  }
}
