/**
 * `FftSampleBuffer`: a fixed ring of 2048 sample slots and a write cursor
 * that only grows.  The playback path pushes every sample it outputs; the
 * analysis reads the most recent ones.  The source keeps slots and cursor in
 * relaxed atomics shared between threads; here the buffer is used by one
 * caller at a time.
 */
module SampleRing {

  const BufferSize: nat := 2048

  /** The slot a read of the `count` most recent samples takes its i-th value from. */
  function LatestSlot(writePos: nat, count: nat, i: nat): (k: nat)
    requires count <= writePos + BufferSize
    ensures k < BufferSize
  {
    (writePos + BufferSize - count + i) % BufferSize
  }

  function Zeros(n: nat): (z: seq<real>)
    ensures |z| == n && forall i :: 0 <= i < n ==> z[i] == 0.0
  {
    seq(n, _ => 0.0)
  }

  /**
   * What a read of the `count` most recent samples means, given every
   * sample pushed since the buffer was created or cleared: the last `count`
   * pushes in push order, preceded by zero slots while fewer than `count`
   * samples have been pushed.
   */
  function Latest(pushed: seq<real>, count: nat): (r: seq<real>)
    requires count <= BufferSize
    ensures |r| == count
    ensures count <= |pushed| ==> r == pushed[|pushed| - count..]
    ensures |pushed| < count ==> r == Zeros(count - |pushed|) + pushed
  {
    if count <= |pushed| then pushed[|pushed| - count..] else Zeros(count - |pushed|) + pushed
  }

  class SampleBuffer {
    var slots: array<real>
    var writePos: nat
    /** Every sample pushed since creation or the last `Clear`, oldest first. */
    ghost var Pushed: seq<real>

    /**
     * The cursor counts the pushes; each of the last 2048 pushes sits in
     * the slot its push index selects modulo 2048; slots not yet reached
     * since creation or the last clear hold 0.
     */
    ghost predicate Valid()
      reads this, slots
    {
      && slots.Length == BufferSize
      && writePos == |Pushed|
      && (forall j :: 0 <= j < |Pushed| && |Pushed| - BufferSize <= j ==>
            slots[j % BufferSize] == Pushed[j])
      && (forall k :: |Pushed| <= k < BufferSize ==> slots[k] == 0.0)
    }

    constructor ()
      ensures Valid() && fresh(slots)
      ensures writePos == 0 && Pushed == []
      ensures forall k :: 0 <= k < slots.Length ==> slots[k] == 0.0
    {
      slots := new real[BufferSize](_ => 0.0);
      writePos := 0;
      Pushed := [];
    }

    /** Stores `sample` at the cursor's slot and advances the cursor by one. */
    method Push(sample: real)
      requires Valid()
      modifies this, slots
      ensures Valid() && slots == old(slots)
      ensures writePos == old(writePos) + 1
      ensures Pushed == old(Pushed) + [sample]
      ensures slots[old(writePos) % BufferSize] == sample
      ensures forall k :: 0 <= k < BufferSize && k != old(writePos) % BufferSize ==>
                slots[k] == old(slots[k])
    {
      var pos := writePos % BufferSize;
      writePos := writePos + 1;
      slots[pos] := sample;
      Pushed := Pushed + [sample];
      forall j | 0 <= j < |Pushed| && |Pushed| - BufferSize <= j
        ensures slots[j % BufferSize] == Pushed[j]
      {
        if j < |Pushed| - 1 {
          assert j % BufferSize != pos by { ModDistinct(j, |Pushed| - 1); }
        }
      }
    }

    /**
     * The `count` values ending just before the cursor, read from slot
     * `(writePos + 2048 - count + i) mod 2048`.  The unsigned subtraction in
     * that index underflows when `count` exceeds `writePos + 2048`, which
     * the precondition excludes.
     */
    method GetLatest(count: nat) returns (r: seq<real>)
      requires Valid()
      requires count <= writePos + BufferSize
      ensures |r| == count
      ensures forall i :: 0 <= i < count ==> r[i] == slots[LatestSlot(writePos, count, i)]
      ensures count <= BufferSize ==> r == Latest(Pushed, count)
    {
      r := [];
      var i := 0;
      while i < count
        invariant 0 <= i <= count
        invariant |r| == i
        invariant forall k :: 0 <= k < i ==> r[k] == slots[LatestSlot(writePos, count, k)]
      {
        r := r + [slots[(writePos + BufferSize - count + i) % BufferSize]];
        i := i + 1;
      }
      if count <= BufferSize {
        forall i | 0 <= i < count ensures r[i] == Latest(Pushed, count)[i] {
          LatestSlotHolds(count, i);
        }
      }
    }

    /** Slot `LatestSlot(writePos, count, i)` holds the i-th value of `Latest`. */
    lemma LatestSlotHolds(count: nat, i: nat)
      requires Valid()
      requires count <= BufferSize && i < count
      ensures slots[LatestSlot(writePos, count, i)] == Latest(Pushed, count)[i]
    {
      var w := writePos;
      var k := LatestSlot(w, count, i);
      if count <= w {
        var j := w - count + i;
        assert k == j % BufferSize by { ShiftMod(j); }
        assert Latest(Pushed, count)[i] == Pushed[j];
      } else if i < count - w {
        assert k == w + BufferSize - count + i;
        assert Latest(Pushed, count)[i] == 0.0;
      } else {
        var j := i - (count - w);
        assert k == j by { assert w + BufferSize - count + i == j + BufferSize; }
        assert j % BufferSize == j;
        assert Latest(Pushed, count)[i] == Pushed[j];
      }
    }

    /** Resets the cursor and zeroes every slot. */
    method Clear()
      requires Valid()
      modifies this, slots
      ensures Valid() && slots == old(slots)
      ensures writePos == 0 && Pushed == []
      ensures forall k :: 0 <= k < slots.Length ==> slots[k] == 0.0
    {
      writePos := 0;
      Pushed := [];
      var k := 0;
      while k < slots.Length
        invariant 0 <= k <= slots.Length
        invariant slots == old(slots) && writePos == 0 && Pushed == []
        invariant forall m :: 0 <= m < k ==> slots[m] == 0.0
      {
        slots[k] := 0.0;
        k := k + 1;
      }
    }
  }

  /** Two push indices less than 2048 apart land in different slots. */
  lemma ModDistinct(j: nat, n: nat)
    requires j < n < j + BufferSize
    ensures j % BufferSize != n % BufferSize
  {
    var qj, qn := j / BufferSize, n / BufferSize;
    assert j == qj * BufferSize + j % BufferSize;
    assert n == qn * BufferSize + n % BufferSize;
  }

  /** Adding a whole ring length does not move a slot. */
  lemma ShiftMod(j: nat)
    ensures (j + BufferSize) % BufferSize == j % BufferSize
  {
  }
}
