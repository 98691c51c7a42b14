/** Collecting the timeline from the backend's history iterator: events are
    taken in order until the iterator is exhausted or a step fails; what was
    gathered before the failure is kept. */
module History {
  import opened Backend
  import opened Events

  /** The number of steps before the first failing one (all of them when
      none fails). */
  function FirstError(steps: seq<IteratorStep>): (k: nat)
    ensures k <= |steps|
    ensures forall i :: 0 <= i < k ==> steps[i].Item?
    ensures k < |steps| ==> steps[k].ItemError?
  {
    if steps == [] || steps[0].ItemError? then 0 else 1 + FirstError(steps[1..])
  }

  /** The timeline gathered from the steps: exactly the display records of
      the events before the first error, in order. */
  function Collected(steps: seq<IteratorStep>): (events: seq<EventView>)
    ensures |events| == FirstError(steps)
    ensures forall i :: 0 <= i < |events| ==> steps[i].Item? && events[i] == ProjectEvent(steps[i].event)
  {
    var k := FirstError(steps);
    seq(k, i requires 0 <= i < k => ProjectEvent(steps[i].event))
  }

  /** The iterator loop: take each step, stop at the first error, project
      and append every event. */
  method CollectHistory(steps: seq<IteratorStep>) returns (events: seq<EventView>)
    ensures events == Collected(steps)
  {
    events := [];
    var i := 0;
    while i < |steps| && steps[i].Item?
      invariant i <= FirstError(steps)
      invariant events == Collected(steps)[..i]
    {
      CollectedStep(steps, i);
      events := events + [ProjectEvent(steps[i].event)];
      i := i + 1;
    }
    CollectedDone(steps, i);
  }

  /** One more event before the first error extends the gathered prefix by
      its display record. */
  lemma CollectedStep(steps: seq<IteratorStep>, i: nat)
    requires i < |steps| && steps[i].Item? && i <= FirstError(steps)
    ensures i < FirstError(steps)
    ensures Collected(steps)[..i + 1] == Collected(steps)[..i] + [ProjectEvent(steps[i].event)]
  {
    var c := Collected(steps);
    PrefixExtends(c, i);
  }

  /** Stopping at the end of the stream or at an error stops exactly at the
      first error, where the gathered prefix is the whole timeline. */
  lemma CollectedDone(steps: seq<IteratorStep>, i: nat)
    requires i <= FirstError(steps)
    requires i == |steps| || (i < |steps| && steps[i].ItemError?)
    ensures Collected(steps)[..i] == Collected(steps)
  {
    var c := Collected(steps);
    PrefixExtends(c, i);
  }

  /** Taking one more element of a sequence appends that element, and the
      prefix as long as the sequence is the sequence. */
  lemma PrefixExtends<T>(c: seq<T>, i: nat)
    requires i <= |c|
    ensures i < |c| ==> c[..i + 1] == c[..i] + [c[i]]
    ensures i == |c| ==> c[..i] == c
  {
  }

  /** Where a prefix of the stream first fails: at the stream's own first
      error if that lies inside the prefix, otherwise nowhere inside it. */
  lemma FirstErrorOfPrefix(steps: seq<IteratorStep>, n: nat)
    requires n <= |steps|
    ensures FirstError(steps[..n]) == if n < FirstError(steps) then n else FirstError(steps)
  {
    var k := FirstError(steps);
    var k' := FirstError(steps[..n]);
    if k' < n {
      assert steps[k'] == steps[..n][k'];
    }
    if k < n {
      assert steps[..n][k] == steps[k];
    }
  }

  /** Nothing after a failing step is looked at: a failure ends the
      timeline at the events gathered before it. */
  lemma CollectedStopsAtError(before: seq<IteratorStep>, err: string, after: seq<IteratorStep>)
    requires forall i :: 0 <= i < |before| ==> before[i].Item?
    ensures Collected(before + [ItemError(err)] + after) == Collected(before)
    ensures |Collected(before)| == |before|
  {
    var steps := before + [ItemError(err)] + after;
    assert steps[|before|].ItemError?;
    assert FirstError(steps) == |before|;
    assert FirstError(before) == |before|;
    forall i | 0 <= i < |before|
      ensures Collected(steps)[i] == Collected(before)[i]
    {
      assert steps[i] == before[i];
    }
  }

  /** Reading a shorter part of the same stream never reorders or changes
      the timeline: it yields a prefix of the longer read's timeline. */
  lemma CollectedPrefix(steps: seq<IteratorStep>, n: nat)
    requires n <= |steps|
    ensures Collected(steps[..n]) <= Collected(steps)
  {
    FirstErrorOfPrefix(steps, n);
    var short := Collected(steps[..n]);
    var long := Collected(steps);
    forall i | 0 <= i < |short|
      ensures short[i] == long[i]
    {
      assert steps[..n][i] == steps[i];
    }
  }

  /** The history response: the queried ids, the timeline and its length. */
  datatype HistoryView = HistoryView(workflowId: string, runId: string, events: seq<EventView>, count: nat)

  /** The history response for the queried ids and the iterator's steps.
      It never fails; an empty stream gives an empty timeline and count 0. */
  function HistoryResponse(workflowId: string, runId: string, steps: seq<IteratorStep>): (v: HistoryView)
    ensures v.workflowId == workflowId && v.runId == runId
    ensures v.count == |v.events| == FirstError(steps)
    ensures forall i :: 0 <= i < |v.events| ==> steps[i].Item? && v.events[i] == ProjectEvent(steps[i].event)
    ensures steps == [] ==> v.count == 0
  {
    var events := Collected(steps);
    HistoryView(workflowId, runId, events, |events|)
  }
}
