/** The timer heap and the loop of `check_timers`.

    `check_timers` gives up the heap lock around every `goready`, so other tasks may push
    new timers in between; `arrivals[k]` are those pushed during its k-th unlock. */
module Timers {
  import opened Common
  import W = Workers

  type Entry = W.TimerEntry

  ghost predicate IsMin(e: Entry, heap: multiset<Entry>) {
    e in heap && forall f :: f in heap ==> e.wake <= f.wake
  }

  /** All the entries of the batches. */
  ghost function Total(batches: seq<seq<Entry>>): multiset<Entry> {
    if batches == [] then multiset{} else Total(batches[..|batches| - 1]) + multiset(batches[|batches| - 1])
  }

  ghost predicate Ascending(s: seq<Entry>) {
    forall i, j :: 0 <= i < j < |s| ==> s[i].wake <= s[j].wake
  }

  /** Where the loop of `check_timers` stands after firing `fired`, having started from
      `start`: every entry is fired or still there, only expired ones were fired, and if
      nothing has been pushed, they were fired in order and no later than the rest. */
  ghost predicate Progress(
    start: multiset<Entry>, arrivals: seq<seq<Entry>>, now: int, fired: seq<Entry>, heap: multiset<Entry>)
  {
    && |fired| <= |arrivals|
    && heap + multiset(fired) == start + Total(arrivals[..|fired|])
    && (forall i :: 0 <= i < |fired| ==> fired[i].wake <= now)
    && (Quiet(arrivals) ==> Ascending(fired) && NotBefore(fired, heap))
  }

  ghost predicate Quiet(arrivals: seq<seq<Entry>>) {
    forall i :: 0 <= i < |arrivals| ==> arrivals[i] == []
  }

  ghost predicate NotBefore(fired: seq<Entry>, heap: multiset<Entry>) {
    forall i, f :: 0 <= i < |fired| && f in heap ==> fired[i].wake <= f.wake
  }

  lemma ProgressStep(
    start: multiset<Entry>, arrivals: seq<seq<Entry>>, now: int, fired: seq<Entry>, heap: multiset<Entry>, e: Entry)
    requires Progress(start, arrivals, now, fired, heap) && |fired| < |arrivals|
    requires IsMin(e, heap) && e.wake <= now
    ensures Progress(start, arrivals, now, fired + [e], heap - multiset{e} + multiset(arrivals[|fired|]))
  {
    TotalGrows(arrivals, |fired|);
    var heap' := heap - multiset{e} + multiset(arrivals[|fired|]);
    assert multiset(fired + [e]) == multiset(fired) + multiset{e};
    assert heap' + multiset(fired + [e]) == heap + multiset(fired) + multiset(arrivals[|fired|]);
    if Quiet(arrivals) {
      assert heap' == heap - multiset{e};
    }
  }

  /** The loop has not yet fired as much as there is. */
  lemma RoomLeft(
    start: multiset<Entry>, arrivals: seq<seq<Entry>>, now: int, fired: seq<Entry>, heap: multiset<Entry>)
    requires Progress(start, arrivals, now, fired, heap) && heap != multiset{}
    requires |arrivals| >= |start| + |Total(arrivals)|
    ensures |fired| < |arrivals|
  {
    TotalGrows(arrivals, |fired|);
    assert |heap + multiset(fired)| == |heap| + |fired|;
    assert |heap| > 0;
  }

  lemma {:induction false} TotalGrows(batches: seq<seq<Entry>>, k: nat)
    requires k <= |batches|
    ensures |Total(batches[..k])| <= |Total(batches)|
    ensures k < |batches| ==> Total(batches[..k + 1]) == Total(batches[..k]) + multiset(batches[k])
    decreases |batches| - k
  {
    if k < |batches| {
      assert batches[..k + 1][..k] == batches[..k];
      TotalGrows(batches, k + 1);
    } else {
      assert batches[..k] == batches;
    }
  }

  /** A binary heap behind its mutex; `entries` is its contents in an unspecified order. */
  class TimerHeap {
    var entries: seq<Entry>

    ghost function Model(): multiset<Entry>
      reads this
    {
      multiset(entries)
    }

    constructor ()
      ensures Model() == multiset{}
    {
      entries := [];
    }

    method Push(e: Entry)
      modifies this
      ensures Model() == old(Model()) + multiset{e}
    {
      entries := entries + [e];
    }

    /** The position of an entry with the earliest wake time. */
    method PeekIndex() returns (at: nat)
      requires entries != []
      ensures at < |entries| && IsMin(entries[at], Model())
    {
      at := 0;
      for i := 1 to |entries|
        invariant at < |entries|
        invariant forall j :: 0 <= j < i ==> entries[at].wake <= entries[j].wake
      {
        if entries[i].wake < entries[at].wake {
          at := i;
        }
      }
      forall f | f in multiset(entries) ensures entries[at].wake <= f.wake {
        var j :| 0 <= j < |entries| && entries[j] == f;
      }
    }

    method RemoveAt(at: nat) returns (e: Entry)
      requires at < |entries|
      modifies this
      ensures e == old(entries)[at] && e in old(Model()) && Model() == old(Model()) - multiset{e}
    {
      e := entries[at];
      assert entries == entries[..at] + [e] + entries[at + 1..];
      entries := entries[..at] + entries[at + 1..];
    }

    /** Fires the expired timers and reports the next wake time.

        Whatever is pushed meanwhile: what is fired had expired, every entry is fired or
        still in the heap, nothing expired is left at the last look, and the reported
        time is the true minimum then, strictly later than `now`.  The loop runs at most
        once per entry, and if nothing is pushed, it fires just the expired entries, in
        the order of their wake times. */
    method CheckTimers(now: int, arrivals: seq<seq<Entry>>) returns (fired: seq<Entry>, next: Option<int>)
      requires |arrivals| >= |entries| + |Total(arrivals)|
      modifies this
      ensures Progress(old(Model()), arrivals, now, fired, Model())
      ensures forall e :: e in Model() ==> e.wake > now
      ensures next == None <==> Model() == multiset{}
      ensures next.Some? ==> exists e :: IsMin(e, Model()) && e.wake == next.value
    {
      fired := [];
      assert Total(arrivals[..0]) == multiset{};
      while true
        invariant Progress(old(Model()), arrivals, now, fired, Model())
        decreases |arrivals| - |fired|
      {
        if entries == [] {
          return fired, None;
        }
        var at := PeekIndex();
        if entries[at].wake > now {
          return fired, Some(entries[at].wake);
        }
        RoomLeft(old(Model()), arrivals, now, fired, Model());
        ProgressStep(old(Model()), arrivals, now, fired, Model(), entries[at]);
        var e := RemoveAt(at);
        // The lock is free while `e`'s task is readied.
        entries := entries + arrivals[|fired|];
        fired := fired + [e];
      }
    }
  }

  /** Without pushes in between, exactly the expired entries are fired, earliest first. */
  lemma QuietFiresExpired(
    start: multiset<Entry>, arrivals: seq<seq<Entry>>, now: int, fired: seq<Entry>, heap: multiset<Entry>)
    requires Progress(start, arrivals, now, fired, heap) && Quiet(arrivals)
    requires forall e :: e in heap ==> e.wake > now
    ensures Ascending(fired)
    ensures forall e: Entry :: multiset(fired)[e] == if e.wake <= now then start[e] else 0
    ensures forall e: Entry :: heap[e] == if e.wake <= now then 0 else start[e]
  {
    QuietTotal(arrivals, |fired|);
    forall e: Entry
      ensures multiset(fired)[e] == if e.wake <= now then start[e] else 0
      ensures heap[e] == if e.wake <= now then 0 else start[e]
    {
      assert (heap + multiset(fired))[e] == heap[e] + multiset(fired)[e];
      assert heap + multiset(fired) == start;
      if e in multiset(fired) {
        assert e in fired;
      }
    }
  }

  lemma {:induction false} QuietTotal(arrivals: seq<seq<Entry>>, k: nat)
    requires Quiet(arrivals) && k <= |arrivals|
    ensures Total(arrivals[..k]) == multiset{}
  {
    if k > 0 {
      assert arrivals[..k][..k - 1] == arrivals[..k - 1];
      QuietTotal(arrivals, k - 1);
    }
  }
}
