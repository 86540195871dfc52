/** The client's bounded diagnostics log (`logDiagnostic` in app.js): every record is
    appended, then only the most recent 200 are kept. */
module Diagnostics {

  const MaxEntries: nat := 200

  datatype Level = Info | Warn | Error | Success | Debug

  /** One log record; `timestamp` is the locale time string taken when it was logged. */
  datatype Entry<M> = Entry(timestamp: string, level: Level, message: M)

  /** The specification of the log's contents: the last min(MaxEntries, |h|) records
      of the history `h`, in insertion order. */
  function Recent<T>(h: seq<T>): (r: seq<T>)
    ensures |r| <= MaxEntries
    ensures |h| <= MaxEntries ==> r == h
    ensures |h| > MaxEntries ==> |r| == MaxEntries
    ensures forall i :: 0 <= i < |r| ==> r[i] == h[|h| - |r| + i]
  {
    if |h| <= MaxEntries then h else h[|h| - MaxEntries..]
  }

  /** A suffix of `h`, extended by `more`, is a suffix of `h + more`. */
  lemma SuffixAppend<T>(h: seq<T>, w: seq<T>, more: seq<T>)
    requires |w| <= |h| && w == h[|h| - |w|..]
    ensures w + more == (h + more)[|h| - |w|..]
  {
  }

  /** The last `n` elements of a suffix are the last `n` elements of the whole. */
  lemma SuffixOfSuffix<T>(all: seq<T>, wm: seq<T>, n: nat)
    requires |wm| <= |all| && wm == all[|all| - |wm|..] && n <= |wm|
    ensures wm[|wm| - n..] == all[|all| - n..]
  {
  }

  /** Appending to a window and taking the window again is the window of the full history:
      the evicted records can never come back into view. */
  lemma {:induction false} RecentAppend<T>(h: seq<T>, more: seq<T>)
    ensures Recent(Recent(h) + more) == Recent(h + more)
  {
    var w := Recent(h);
    SuffixAppend(h, w, more);
    var all, wm := h + more, w + more;
    assert |Recent(wm)| == |Recent(all)|;
    SuffixOfSuffix(all, wm, |Recent(all)|);
  }

  /** The log itself: `entries` is what the page holds; `history` is every record ever appended. */
  class DiagnosticsLog<M> {
    var entries: seq<Entry<M>>
    ghost var history: seq<Entry<M>>

    ghost predicate Valid()
      reads this
    {
      entries == Recent(history)
    }

    constructor ()
      ensures Valid() && history == []
    {
      entries := [];
      history := [];
    }

    /** `logDiagnostic(level, message)`: push, then keep the last 200. */
    method Append(e: Entry<M>)
      requires Valid()
      modifies this
      ensures Valid() && history == old(history) + [e]
      ensures |entries| <= MaxEntries && entries[|entries| - 1] == e
    {
      entries := entries + [e];
      if |entries| > MaxEntries {
        entries := entries[|entries| - MaxEntries..];
      }
      RecentAppend(history, [e]);
      history := history + [e];
    }
  }
}
