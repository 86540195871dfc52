/** The chunked playback path of app.js (`playAudioChunk`, `playAudioQueue`): a FIFO of
    decoded segments and an `isPlaying` flag; the `onended` callback of the segment that
    is playing is what starts the next one. */
module Playback {
  import opened Js

  /** One decoded chunk: its PCM16 samples (played at 24 kHz, one channel). */
  datatype AudioSegment = AudioSegment(samples: seq<int>)

  /** What became of a segment once it left the queue. */
  datatype Fate = Started(seg: AudioSegment) | Dropped(seg: AudioSegment) | Cleared(seg: AudioSegment)

  function Segments(fates: seq<Fate>): (r: seq<AudioSegment>)
    ensures |r| == |fates|
  {
    if fates == [] then [] else Segments(fates[..|fates| - 1]) + [fates[|fates| - 1].seg]
  }

  lemma SegmentsAppend(a: seq<Fate>, b: seq<Fate>)
    ensures Segments(a + b) == Segments(a) + Segments(b)
    decreases |b|
  {
    if b != [] {
      assert (a + b)[..|a + b| - 1] == a + b[..|b| - 1];
      SegmentsAppend(a, b[..|b| - 1]);
    } else {
      assert a + b == a;
    }
  }

  function ClearedAll(q: seq<AudioSegment>): (r: seq<Fate>)
    ensures |r| == |q|
  {
    if q == [] then [] else ClearedAll(q[..|q| - 1]) + [Cleared(q[|q| - 1])]
  }

  function DroppedAll(q: seq<AudioSegment>): (r: seq<Fate>)
    ensures |r| == |q|
  {
    if q == [] then [] else DroppedAll(q[..|q| - 1]) + [Dropped(q[|q| - 1])]
  }

  lemma {:induction false} ClearedAllSegments(q: seq<AudioSegment>)
    ensures Segments(ClearedAll(q)) == q
  {
    if q != [] {
      ClearedAllSegments(q[..|q| - 1]);
      assert ClearedAll(q)[..|q| - 1] == ClearedAll(q[..|q| - 1]);
    }
  }

  lemma DroppedAllAppend(q: seq<AudioSegment>, s: AudioSegment)
    ensures DroppedAll(q + [s]) == DroppedAll(q) + [Dropped(s)]
  {
    assert (q + [s])[..|q|] == q;
  }

  /** Moving the head of the queue to the end of the fates keeps the FIFO invariant. */
  lemma ShiftKeepsOrder(fates: seq<Fate>, queue: seq<AudioSegment>, f: Fate)
    requires queue != [] && f.seg == queue[0]
    ensures Segments(fates + [f]) + queue[1..] == Segments(fates) + queue
  {
    SegmentsAppend(fates, [f]);
    assert Segments([f]) == [queue[0]];
    calc {
      Segments(fates + [f]) + queue[1..];
      (Segments(fates) + [queue[0]]) + queue[1..];
      Segments(fates) + ([queue[0]] + queue[1..]);
      { assert [queue[0]] + queue[1..] == queue; }
      Segments(fates) + queue;
    }
  }

  /** One round of the dropping loop: the head of what is left moves from the queue to the
      dropped segments, and both loop facts are kept. */
  lemma DropStep(f0: seq<Fate>, q0: seq<AudioSegment>, done: seq<AudioSegment>,
                 fates: seq<Fate>, queue: seq<AudioSegment>)
    requires queue != [] && q0 == done + queue && fates == f0 + DroppedAll(done)
    ensures Segments(fates + [Dropped(queue[0])]) + queue[1..] == Segments(fates) + queue
    ensures q0 == (done + [queue[0]]) + queue[1..]
    ensures fates + [Dropped(queue[0])] == f0 + DroppedAll(done + [queue[0]])
  {
    ShiftKeepsOrder(fates, queue, Dropped(queue[0]));
    DroppedAllAppend(done, queue[0]);
    AppendAssoc(f0, DroppedAll(done), [Dropped(queue[0])]);
    assert queue == [queue[0]] + queue[1..];
    AppendAssoc(done, [queue[0]], queue[1..]);
  }

  class PlaybackQueue {
    /** `audioBufferQueue`: segments waiting to be played. */
    var queue: seq<AudioSegment>
    /** `isPlaying`. */
    var isPlaying: bool
    /** The buffer source that has been started and whose `onended` has not fired yet. */
    var current: Option<AudioSegment>
    /** Every segment ever pushed, and what became of each one that left the queue. */
    ghost var pushed: seq<AudioSegment>
    ghost var fates: seq<Fate>

    /** Segments leave the queue in the order they were pushed, and at most one
        segment (the one in `current`) is playing, exactly when `isPlaying` holds. */
    ghost predicate Valid()
      reads this
    {
      && Segments(fates) + queue == pushed
      && isPlaying == current.Some?
    }

    constructor ()
      ensures Valid() && queue == [] && !isPlaying && pushed == [] && fates == []
    {
      queue := [];
      isPlaying := false;
      current := None;
      pushed := [];
      fates := [];
    }

    /** `playAudioChunk`: the segment is built on the audio context (which throws when the
        context is gone or the chunk holds no sample, dropping the chunk), pushed, and
        playback is started only if nothing is playing. */
    method PlayChunk(seg: AudioSegment, contextAvailable: bool)
      requires Valid()
      modifies this
      ensures Valid()
      ensures !contextAvailable || seg.samples == [] ==>
        queue == old(queue) && current == old(current) && isPlaying == old(isPlaying)
        && pushed == old(pushed) && fates == old(fates)
      ensures contextAvailable && seg.samples != [] ==> pushed == old(pushed) + [seg]
      ensures contextAvailable && seg.samples != [] && old(isPlaying) ==>
        queue == old(queue) + [seg] && current == old(current) && isPlaying && fates == old(fates)
      ensures contextAvailable && seg.samples != [] && !old(isPlaying) ==>
        queue == (old(queue) + [seg])[1..] && current == Some((old(queue) + [seg])[0]) && isPlaying
        && fates == old(fates) + [Started((old(queue) + [seg])[0])]
    {
      if !contextAvailable || seg.samples == [] {
        return;
      }
      queue := queue + [seg];
      pushed := pushed + [seg];
      if !isPlaying {
        PlayNext(contextAvailable);
      }
    }

    /** The `onended` callback of the playing segment: it calls `playAudioQueue` again. */
    method OnEnded(contextAvailable: bool)
      requires Valid() && current.Some?
      modifies this
      ensures Valid() && pushed == old(pushed)
      ensures contextAvailable && old(queue) != [] ==>
        current == Some(old(queue)[0]) && queue == old(queue)[1..] && isPlaying
        && fates == old(fates) + [Started(old(queue)[0])]
      ensures contextAvailable && old(queue) == [] ==>
        current.None? && !isPlaying && queue == [] && fates == old(fates)
      ensures !contextAvailable ==>
        current.None? && !isPlaying && queue == [] && fates == old(fates) + DroppedAll(old(queue))
    {
      current := None;
      isPlaying := false;
      PlayNext(contextAvailable);
    }

    /** `playAudioQueue`: with an empty queue, clear `isPlaying`; otherwise shift the head and
        start it. When the audio context is gone, building the source throws after the shift,
        so the head is dropped and the function calls itself again, until the queue is empty. */
    method PlayNext(contextAvailable: bool)
      requires Valid() && current.None?
      modifies this
      ensures Valid() && pushed == old(pushed)
      ensures contextAvailable && old(queue) != [] ==>
        current == Some(old(queue)[0]) && queue == old(queue)[1..] && isPlaying
        && fates == old(fates) + [Started(old(queue)[0])]
      ensures contextAvailable && old(queue) == [] ==>
        current.None? && !isPlaying && queue == [] && fates == old(fates)
      ensures !contextAvailable ==>
        current.None? && !isPlaying && queue == [] && fates == old(fates) + DroppedAll(old(queue))
    {
      if contextAvailable {
        if queue == [] {
          isPlaying := false;
          return;
        }
        isPlaying := true;
        var head := queue[0];
        ShiftKeepsOrder(fates, queue, Started(head));
        queue := queue[1..];
        current := Some(head);
        fates := fates + [Started(head)];
        return;
      }
      DropAll();
    }

    /** `playAudioQueue` without an audio context: building the source throws after the
        shift, so the catch clears the flag and calls `playAudioQueue` again, until the
        queue is empty. Every queued segment is dropped, in order. */
    method DropAll()
      requires Valid() && current.None?
      modifies this
      ensures Valid() && pushed == old(pushed)
      ensures current.None? && !isPlaying && queue == [] && fates == old(fates) + DroppedAll(old(queue))
    {
      ghost var q0, f0 := queue, fates;
      ghost var done: seq<AudioSegment> := [];
      var q := queue;
      ghost var f := fates;
      while q != []
        modifies {}
        invariant Segments(f) + q == pushed
        invariant q0 == done + q
        invariant f == f0 + DroppedAll(done)
        decreases |q|
      {
        var head := q[0];
        DropStep(f0, q0, done, f, q);
        q := q[1..];
        f := f + [Dropped(head)];
        done := done + [head];
      }
      assert done == q0;
      queue, fates, isPlaying := q, f, false;
    }

    /** `audioBufferQueue = []` in `disconnect`: the queue is emptied; `isPlaying` and the
        segment already playing are left alone. */
    method Clear()
      requires Valid()
      modifies this
      ensures Valid() && queue == [] && pushed == old(pushed)
      ensures isPlaying == old(isPlaying) && current == old(current)
      ensures fates == old(fates) + ClearedAll(old(queue))
    {
      SegmentsAppend(fates, ClearedAll(queue));
      ClearedAllSegments(queue);
      assert Segments(fates + ClearedAll(queue)) + [] == Segments(fates) + queue;
      fates := fates + ClearedAll(queue);
      queue := [];
    }
  }
}
