/**
 The ring of everything a TimeStretchProcessor has emitted. Appending keeps the newest
 frames; reading unwraps the newest `count` of them into chronological order.
 */
module OutputHistory {

  import Arithmetic
  import opened EmittedStream

  // Remainder of a division that truncates towards zero.
  function Remainder(a: int, b: int): (r: int)
    requires b > 0
  {
    if a >= 0 then a % b else -((-a) % b)
  }

  // The ring position of the frame that was written `age` frames before the newest one.
  function Position(write: nat, capacity: nat, age: nat): (p: nat)
    requires write < capacity && age < capacity
    ensures p < capacity
  {
    if age < write then write - 1 - age else write + capacity - 1 - age
  }

  // The write position after `count` more frames.
  function Advance(write: nat, count: nat, capacity: nat): (next: nat)
    requires write < capacity && count <= capacity
    ensures next == if write + count < capacity then write + count else write + count - capacity
  {
    WrapAt(write + count, capacity);
    (write + count) % capacity
  }

  // Every ring entry holds the emitted frame of its age.
  ghost predicate Holds(ring: seq<Frame>, write: nat, emitted: seq<Frame>)
  {
    && write < |ring|
    && forall age :: 0 <= age < |ring| ==>
         ring[Position(write, |ring|, age)] == At(emitted, |emitted| - 1 - age)
  }

  // `after` is `before` with `news` written from `write` on, wrapping at most once.
  ghost predicate Written(before: seq<Frame>, after: seq<Frame>, write: nat, news: seq<Frame>)
  {
    && write < |before| == |after| && |news| <= |before|
    && forall p :: 0 <= p < |before| ==>
         after[p] == if write <= p < write + |news| then news[p - write]
                     else if p + |before| < write + |news| then news[p + |before| - write]
                     else before[p]
  }

  lemma WrittenHolds(before: seq<Frame>, after: seq<Frame>, write: nat, next: nat,
                     emitted: seq<Frame>, block: seq<Frame>, news: seq<Frame>)
    requires Holds(before, write, emitted) && Written(before, after, write, news)
    requires |news| <= |block| && news == block[|block| - |news|..]
    requires |block| > |news| ==> |news| == |before|
    requires next == if write + |news| < |before| then write + |news| else write + |news| - |before|
    ensures Holds(after, next, emitted + block)
  {
    var n := |before|;
    var longer := emitted + block;
    forall age | 0 <= age < n
      ensures after[Position(next, n, age)] == At(longer, |longer| - 1 - age)
    {
      var p := Position(next, n, age);
      if age < |news| {
        assert At(longer, |longer| - 1 - age) == news[|news| - 1 - age];
      } else {
        assert p == Position(write, n, age - |news|);
      }
    }
  }

  class Ring {
    const frames: array<Frame>
    var write: nat
    var samples: nat
    ghost var emitted: seq<Frame>

    ghost predicate Valid()
      reads this, frames
    {
      && samples == |emitted|
      && (frames.Length > 0 ==> Holds(frames[..], write, emitted))
    }

    constructor (capacity: nat)
      ensures Valid() && fresh(frames) && frames.Length == capacity && emitted == []
    {
      frames := new Frame[capacity](i => 0);
      write, samples, emitted := 0, 0, [];
    }

    // One contiguous copy into the ring.
    method CopyIn(at: nat, block: seq<Frame>, from: nat, count: nat)
      requires at + count <= frames.Length && from + count <= |block|
      modifies frames
      ensures forall p :: at <= p < at + count ==> frames[p] == block[from + p - at]
      ensures forall p :: 0 <= p < frames.Length && !(at <= p < at + count) ==> frames[p] == old(frames[p])
    {
      for i := 0 to count
        invariant forall p :: at <= p < at + i ==> frames[p] == block[from + p - at]
        invariant forall p :: 0 <= p < frames.Length && !(at <= p < at + i) ==> frames[p] == old(frames[p])
      {
        frames[at + i] := block[from + i];
      }
    }

    // The two copies of a block that may wrap around the end of the ring.
    method CopyWrapped(block: seq<Frame>, from: nat, kept: nat)
      requires write < frames.Length && kept <= frames.Length && from + kept <= |block|
      modifies frames
      ensures Written(old(frames[..]), frames[..], write, block[from..from + kept])
    {
      var first := if kept < frames.Length - write then kept else frames.Length - write;
      var second := kept - first;
      CopyIn(write, block, from, first);
      CopyIn(0, block, from + first, second);
    }

    method Append(block: seq<Frame>, start: nat, count: nat)
      requires Valid() && start + count <= |block|
      modifies this, frames
      ensures Valid()
      ensures frames.Length > 0 ==> emitted == old(emitted) + block[start..start + count]
      ensures frames.Length == 0 ==> emitted == old(emitted)
    {
      var capacity := frames.Length;
      if capacity <= 0 {
        return;
      }
      assert write < capacity;
      hide Holds, Advance, Written;
      var kept := if count < capacity then count else capacity;
      ghost var part := block[start..start + count];
      CopyWrapped(block, start + count - kept, kept);
      ghost var news := block[start + count - kept..start + count];
      assert news == part[|part| - kept..];
      WrittenHolds(old(frames[..]), frames[..], write, Advance(write, kept, capacity), emitted, part, news);
      write := Advance(write, kept, capacity);
      samples := samples + count;
      emitted := emitted + part;
    }

    method Read(destination: array<Frame>, count: int)
      requires Valid() && destination != frames && count <= frames.Length
      modifies destination
      ensures frames.Length <= 0 || count <= 0 || destination.Length < count ==>
                destination[..] == old(destination[..])
      ensures frames.Length > 0 && 0 < count <= destination.Length ==>
                && destination[..count] == Newest(emitted, count)
                && destination[count..] == old(destination[count..])
    {
      var capacity := frames.Length;
      if capacity <= 0 || count <= 0 || destination.Length < count {
        return;
      }
      var start := (Remainder(write - count, capacity) + capacity) % capacity;
      assert start == if count <= write then write - count else write + capacity - count by {
        StartOf(write, count, capacity);
      }
      var first := if count < capacity - start then count else capacity - start;
      for i := 0 to count
        invariant destination[..i] == Newest(emitted, count)[..i]
        invariant destination[count..] == old(destination[count..])
        invariant forall p :: 0 <= p < capacity ==> frames[p] == old(frames[p])
      {
        var p := if i < first then start + i else i - first;
        assert p == Position(write, capacity, count - 1 - i);
        destination[i] := frames[p];
      }
    }
  }

  lemma WrapAt(i: nat, capacity: nat)
    requires i < 2 * capacity
    ensures i % capacity == if i < capacity then i else i - capacity
  {
    if i < capacity {
      Arithmetic.QuotientUnique(i, capacity, 0, i);
    } else {
      Arithmetic.QuotientUnique(i, capacity, 1, i - capacity);
    }
  }

  lemma StartOf(write: nat, count: nat, capacity: nat)
    requires write < capacity && 0 < count <= capacity
    ensures (Remainder(write - count, capacity) + capacity) % capacity
         == if count <= write then write - count else write + capacity - count
  {
    var d := write - count;
    if d >= 0 {
      Arithmetic.QuotientUnique(d, capacity, 0, d);
      Arithmetic.QuotientUnique(d + capacity, capacity, 1, d);
    } else if -d == capacity {
      Arithmetic.QuotientUnique(-d, capacity, 1, 0);
      Arithmetic.QuotientUnique(capacity, capacity, 1, 0);
    } else {
      Arithmetic.QuotientUnique(-d, capacity, 0, -d);
      Arithmetic.QuotientUnique(d + capacity, capacity, 0, d + capacity);
    }
  }
}
