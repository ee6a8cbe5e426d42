/**
 * The block store: a bounded stack of block positions (one byte each), kept
 * in a static array with a one-based top index. `index` is both the number
 * of stored blocks and the slot of the top block; slot 0 is never written.
 *
 * As declared, the array has ten slots, so the tenth push writes one slot
 * past its end; and the emptiness test compares an unsigned index with 0,
 * so it never holds. The class below keeps the declared capacity of ten
 * blocks but gives the array the eleven slots a one-based index needs, and
 * tests emptiness as `index == 0`; the functions and lemmas at the end of the
 * module show the two defects of the code as written.
 */
module BlockStack {
  import opened CTypes

  /** BLOCK_STACK_MAX_SIZE: the number of blocks the store holds. */
  const MaxSize: nat := 10

  class Stack {
    /** block_storage, slots 0 .. MaxSize (slot 0 unused). */
    const storage: array<uint8>
    /** block_index: the number of blocks and the slot of the top one. */
    var index: uint8

    ghost predicate Valid()
      reads this
    {
      storage.Length == MaxSize + 1 && index <= MaxSize
    }

    /** The stored blocks, bottom first. */
    ghost function Contents(): (s: seq<uint8>)
      requires Valid()
      reads this, storage
      ensures |s| == index
    {
      storage[1..index + 1]
    }

    /** The static storage: zero-filled before the program starts. */
    constructor ()
      ensures Valid() && fresh(storage) && Contents() == []
    {
      storage := new uint8[MaxSize + 1](_ => 0);
      index := 0;
    }

    /** BLOCK_Init and BLOCK_Clear: only the index is reset. */
    method Clear()
      requires Valid()
      modifies this
      ensures Valid() && Contents() == [] && GetSize() == 0
      ensures storage[..] == old(storage[..])
    {
      index := 0;
    }

    /** BLOCK_IsEmtpy, with the test it evidently meant. */
    method IsEmpty() returns (r: bool)
      requires Valid()
      ensures r <==> Contents() == []
    {
      r := index == 0;
    }

    /** BLOCK_IsFull. */
    method IsFull() returns (r: bool)
      requires Valid()
      ensures r <==> |Contents()| == MaxSize
    {
      r := index > MaxSize - 1;
    }

    /** BLOCK_GetSingle: the block in a slot. */
    function GetSingle(i: uint8): uint8
      requires Valid() && i <= MaxSize
      reads this, storage
    {
      storage[i]
    }

    /** BLOCK_GetSize. */
    function GetSize(): (n: uint8)
      requires Valid()
      reads this, storage
      ensures n == |Contents()|
    {
      index
    }

    /**
     * BLOCK_Push: on a store that is not full the block goes into the next
     * slot and becomes the top; on a full store nothing changes.
     */
    method Push(obj: uint8)
      requires Valid()
      modifies this, storage
      ensures Valid()
      ensures old(index) < MaxSize ==>
        && index == old(index) + 1
        && storage[..] == old(storage[..])[index := obj]
        && Contents() == old(Contents()) + [obj]
        && GetSingle(GetSize()) == obj
      ensures old(index) >= MaxSize ==> index == old(index) && storage[..] == old(storage[..])
    {
      var full := IsFull();
      if !full {
        index := index + 1;
        storage[index] := obj;
        assert Contents() == old(Contents()) + [obj];
      }
    }

    /**
     * BLOCK_Pop: on a non-empty store returns the top block and lowers the
     * index; the array is never written. On an empty store the result is the
     * uninitialised local `obj` of the C code, passed in as `junk`.
     */
    method Pop(junk: uint8) returns (obj: uint8)
      requires Valid()
      modifies this
      ensures Valid() && storage[..] == old(storage[..])
      ensures old(index) > 0 ==>
        && obj == old(Contents())[old(index) - 1]
        && Contents() == old(Contents())[..old(index) - 1]
      ensures old(index) == 0 ==> index == 0 && obj == junk
    {
      obj := junk;
      var empty := IsEmpty();
      if !empty {
        obj := GetSingle(index);
        index := index - 1;
      }
    }
  }

  /** Pushing blocks one by one and popping as many returns them last first. */
  method PushThenPopAll(s: Stack, xs: seq<uint8>, junk: uint8) returns (ys: seq<uint8>)
    requires s.Valid() && s.Contents() == [] && |xs| <= MaxSize
    modifies s, s.storage
    ensures s.Valid() && s.Contents() == []
    ensures |ys| == |xs| && forall i :: 0 <= i < |xs| ==> ys[i] == xs[|xs| - 1 - i]
  {
    var i := 0;
    while i < |xs|
      invariant 0 <= i <= |xs|
      invariant s.Valid() && s.Contents() == xs[..i]
    {
      s.Push(xs[i]);
      assert xs[..i + 1] == xs[..i] + [xs[i]];
      i := i + 1;
    }
    ys := [];
    while |ys| < |xs|
      invariant |ys| <= |xs|
      invariant s.Valid() && s.Contents() == xs[..|xs| - |ys|]
      invariant forall j :: 0 <= j < |ys| ==> ys[j] == xs[|xs| - 1 - j]
    {
      var y := s.Pop(junk);
      ys := ys + [y];
    }
  }

  // The code as written.

  /** The length block_storage is declared with. */
  const DeclaredSlots: nat := MaxSize

  /** BLOCK_IsFull as written. */
  predicate IsFullAsWritten(index: uint8)
  {
    index > MaxSize - 1
  }

  /** BLOCK_IsEmtpy as written: an unsigned index is never below zero. */
  predicate IsEmtpyAsWritten(index: uint8): (empty: bool)
    ensures !empty
  {
    index < 0
  }

  /** The slot BLOCK_Push writes (`++block_index`), when the store is not full. */
  function PushSlotAsWritten(index: uint8): (slot: Option<nat>)
    ensures slot.Some? <==> index < MaxSize
    ensures slot.Some? ==> slot.value == index + 1
  {
    if IsFullAsWritten(index) then None else Some(index + 1)
  }

  /** BLOCK_Pop as written: the slot it reads and the index it leaves (`block_index--`). */
  function PopAsWritten(index: uint8): (r: (int, int))
    ensures r.0 == index && 0 <= r.1 < 0x100
    ensures index > 0 ==> r.1 == index - 1
    ensures r.1 == (index - 1) % 0x100
  {
    if IsEmtpyAsWritten(index) then (index as int, index as int) else (index as int, (index - 1) % 0x100)
  }

  /** The tenth push, at index 9, writes slot 10: past the declared array. */
  lemma PushOverrunsDeclaredArray()
    ensures !IsFullAsWritten(9) && PushSlotAsWritten(9) == Some(DeclaredSlots)
  {
  }

  /**
   * The emptiness test never holds, so a pop on an empty store reads slot 0
   * (which no push writes) and wraps the index to 255, where the store then
   * counts as full and the next pop reads slot 255.
   */
  lemma PopOnEmptyWraps()
    ensures forall i: uint8 :: !IsEmtpyAsWritten(i)
    ensures PopAsWritten(0) == (0, 255)
    ensures IsFullAsWritten(255) && PopAsWritten(255).0 >= DeclaredSlots
  {
  }
}
