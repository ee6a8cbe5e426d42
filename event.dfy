/**
 * The generic event driver: numbered events kept as single bits in a byte
 * array, event `e` in byte `e / 8` under mask `0x80 >> (e % 8)`. Event 0 has
 * the highest priority when pending events are dispatched.
 */
module Event {
  import opened CTypes

  /** Index of the byte that holds event `e`. */
  function ByteOf(e: nat): nat
  {
    e / 8
  }

  /** The mask of event `e` within its byte: one bit, most significant first. */
  function MaskOf(e: nat): (m: bv8)
    ensures m != 0
  {
    (0x80 as bv8) >> (e % 8)
  }

  /** Whether event `e` is set in `b`, the byte that holds it. */
  predicate BitSet(b: bv8, e: nat)
  {
    b & MaskOf(e) != 0
  }

  /** Distinct events occupy distinct bits: another byte, or a disjoint mask. */
  lemma DistinctEventsDistinctBits(e: nat, e': nat)
    requires e != e'
    ensures ByteOf(e) != ByteOf(e') || MaskOf(e) & MaskOf(e') == 0
  {
    if ByteOf(e) == ByteOf(e') {
      assert e % 8 != e' % 8;
      var i, j := e % 8, e' % 8;
      assert MaskOf(e) == (0x80 as bv8) >> i && MaskOf(e') == (0x80 as bv8) >> j;
      assert 0 <= i < 8 && 0 <= j < 8 && i != j;
      assert ((0x80 as bv8) >> i) & ((0x80 as bv8) >> j) == 0 by {
        if i == 0 {} else if i == 1 {} else if i == 2 {} else if i == 3 {}
        else if i == 4 {} else if i == 5 {} else if i == 6 {} else {}
      }
    }
  }

  /** Setting the bit of `e` leaves the bit of every other event as it was. */
  lemma SetKeepsOthers(b: bv8, e: nat, e': nat)
    requires e != e' && ByteOf(e) == ByteOf(e')
    ensures BitSet(b | MaskOf(e), e') == BitSet(b, e')
    ensures BitSet(b | MaskOf(e), e)
  {
    DistinctEventsDistinctBits(e, e');
    var m, m' := MaskOf(e), MaskOf(e');
    assert (b | m) & m' == (b & m') | (m & m');
  }

  /** Clearing the bit of `e` leaves the bit of every other event as it was. */
  lemma ClearKeepsOthers(b: bv8, e: nat, e': nat)
    requires e != e' && ByteOf(e) == ByteOf(e')
    ensures BitSet(b & !MaskOf(e), e') == BitSet(b, e')
    ensures !BitSet(b & !MaskOf(e), e)
  {
    DistinctEventsDistinctBits(e, e');
    var m, m' := MaskOf(e), MaskOf(e');
    assert (b & !m) & m' == b & (m' & !m);
    assert m' & !m == m';
  }

  class Events {
    /** The number of events (the enumeration's sentinel). */
    const count: nat
    /** The event bit array, `((count - 1) / 8) + 1` bytes. */
    const bits: array<bv8>
    /** The events whose bit is set. */
    ghost var Pending: set<nat>

    ghost predicate Valid()
      reads this, bits
    {
      && count >= 1
      && bits.Length == (count - 1) / 8 + 1
      && (forall e :: e in Pending ==> e < count)
      && (forall e: nat :: e < count ==> (e in Pending <==> BitSet(bits[ByteOf(e)], e)))
    }

    /** The static array, zero-filled before the program starts. */
    constructor (n: nat)
      requires n >= 1
      ensures Valid() && fresh(bits)
      ensures count == n && Pending == {}
    {
      count := n;
      bits := new bv8[(n - 1) / 8 + 1](_ => 0);
      Pending := {};
    }

    /** EVNT_Init: clears every byte of the array. */
    method Init()
      requires Valid()
      modifies this, bits
      ensures Valid() && Pending == {}
    {
      var i := 0;
      while i < bits.Length
        invariant 0 <= i <= bits.Length
        invariant forall j :: 0 <= j < i ==> bits[j] == 0
      {
        bits[i] := 0;
        i := i + 1;
      }
      Pending := {};
    }

    /** EVNT_SetEvent. */
    method Set(e: nat)
      requires Valid() && e < count
      modifies this, bits
      ensures Valid()
      ensures Pending == old(Pending) + {e}
    {
      bits[ByteOf(e)] := bits[ByteOf(e)] | MaskOf(e);
      Pending := Pending + {e};
      forall e': nat | e' < count && e' != e && ByteOf(e') == ByteOf(e)
        ensures BitSet(bits[ByteOf(e')], e') == (e' in Pending)
      {
        SetKeepsOthers(old(bits[ByteOf(e)]), e, e');
      }
    }

    /** EVNT_ClearEvent. */
    method Clear(e: nat)
      requires Valid() && e < count
      modifies this, bits
      ensures Valid()
      ensures Pending == old(Pending) - {e}
    {
      var i := ByteOf(e);
      var b := bits[i];
      bits[i] := b & !MaskOf(e);
      Pending := Pending - {e};
      forall e': nat | e' < count
        ensures BitSet(bits[ByteOf(e')], e') == (e' in Pending)
      {
        if ByteOf(e') != i {
          assert bits[ByteOf(e')] == old(bits[ByteOf(e')]);
        } else if e' != e {
          ClearKeepsOthers(b, e, e');
        }
      }
    }

    /** EVNT_EventIsSet. */
    method IsSet(e: nat) returns (r: bool)
      requires Valid() && e < count
      ensures r <==> e in Pending
    {
      r := BitSet(bits[ByteOf(e)], e);
    }

    /**
     * EVNT_HandleEvent: clears the lowest-numbered pending event and returns
     * it, standing for the callback invoked with it; `None` (no callback)
     * when nothing is pending.
     */
    method HandleEvent() returns (dispatched: Option<nat>)
      requires Valid()
      modifies this, bits
      ensures Valid()
      ensures old(Pending) == {} ==> dispatched == None && Pending == old(Pending)
      ensures old(Pending) != {} ==>
        && dispatched.Some?
        && dispatched.value in old(Pending)
        && (forall e :: e in old(Pending) ==> dispatched.value <= e)
        && Pending == old(Pending) - {dispatched.value}
    {
      var event := 0;
      while event < count
        invariant 0 <= event <= count
        invariant Valid() && Pending == old(Pending)
        invariant forall e :: 0 <= e < event ==> e !in Pending
      {
        var present := IsSet(event);
        if present {
          Clear(event);
          break;
        }
        event := event + 1;
      }
      if event != count {
        dispatched := Some(event);
      } else {
        dispatched := None;
      }
    }
  }
}
