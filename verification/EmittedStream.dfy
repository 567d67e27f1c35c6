/** The stream of emitted frames, and windows of it. */
module EmittedStream {

  type Frame = int

  // Frame p of the emitted stream; the history ring starts out silent.
  function At(emitted: seq<Frame>, p: int): Frame
  {
    if 0 <= p < |emitted| then emitted[p] else 0
  }

  // `w` holds the frames that end just before position `end` of the emitted stream.
  ghost predicate EndsAt(w: seq<Frame>, emitted: seq<Frame>, end: int)
  {
    end <= |emitted| && forall i :: 0 <= i < |w| ==> w[i] == At(emitted, end - |w| + i)
  }

  // The newest n frames, oldest first.
  function Newest(emitted: seq<Frame>, n: nat): (w: seq<Frame>)
    ensures |w| == n && EndsAt(w, emitted, |emitted|)
  {
    seq(n, i => At(emitted, |emitted| - n + i))
  }

  lemma EndsAtGrows(emitted: seq<Frame>, block: seq<Frame>)
    ensures forall w, end :: EndsAt(w, emitted, end) ==> EndsAt(w, emitted + block, end)
  {
  }

  lemma EndsAtJoin(w: seq<Frame>, v: seq<Frame>, emitted: seq<Frame>, end: int)
    requires EndsAt(w, emitted, end) && EndsAt(v, emitted, end + |v|)
    ensures EndsAt(w + v, emitted, end + |v|)
  {
  }

  lemma EndsAtSlice(w: seq<Frame>, emitted: seq<Frame>, end: int, lo: nat, hi: nat)
    requires EndsAt(w, emitted, end) && lo <= hi <= |w|
    ensures EndsAt(w[lo..hi], emitted, end - |w| + hi)
  {
  }
}
