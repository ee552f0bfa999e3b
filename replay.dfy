/** Sequences of events handled one after another, as the server handles the
    calls it receives: what a run of events does to the registry, and that
    each partition's entry depends only on the events for that partition, in
    the order they were submitted. */
module Replay {
  import opened Registry

  /** One call to the server's event operation. */
  datatype Ev = Ev(part: string, time: int64, typ: EventType, obj: Object)

  function Apply<A>(m: map<string, A>, ev: Ev, newAutoscaler: string -> Built<A>): Step<A>
  {
    Event(m, ev.part, ev.time, ev.typ, ev.obj, newAutoscaler)
  }

  /** The partitions that the events of `evs` are addressed to. */
  function Partitions(evs: seq<Ev>): (ps: set<string>)
    ensures forall i :: 0 <= i < |evs| ==> evs[i].part in ps
    ensures forall p :: p in ps ==> exists i :: 0 <= i < |evs| && evs[i].part == p
    decreases |evs|
  {
    if evs == [] then {} else {evs[0].part} + Partitions(evs[1..])
  }

  /** The registry after the events of `evs` are handled in order; an event
      that fails leaves the registry as it was and the run goes on. */
  function Run<A>(m: map<string, A>, evs: seq<Ev>, newAutoscaler: string -> Built<A>): (r: map<string, A>)
    ensures r.Keys <= m.Keys + Partitions(evs)
    ensures forall k :: k !in Partitions(evs) ==> At(r, k) == At(m, k)
    decreases |evs|
  {
    if evs == [] then m else Run(Apply(m, evs[0], newAutoscaler).autoscalers, evs[1..], newAutoscaler)
  }

  /** The events of `evs` addressed to partition `p`, in submission order. */
  function OnPartition(evs: seq<Ev>, p: string): (r: seq<Ev>)
    ensures forall i :: 0 <= i < |r| ==> r[i].part == p
    ensures |r| <= |evs|
    decreases |evs|
  {
    if evs == [] then []
    else if evs[0].part == p then [evs[0]] + OnPartition(evs[1..], p)
    else OnPartition(evs[1..], p)
  }

  /** The entry a partition holds after one event for it, stated on that
      entry alone: a successful create fills an empty entry, a delete empties
      it, and every other event keeps it. */
  function EntryStep<A>(e: Option<A>, ev: Ev, newAutoscaler: string -> Built<A>): Option<A>
  {
    match ev.obj
    case AutoscalerObject(yaml) =>
      if ev.typ == Create && e.None? && newAutoscaler(yaml).Built? then Some(newAutoscaler(yaml).autoscaler)
      else if ev.typ == Delete then None
      else e
    case _ => e
  }

  /** The entry a partition holds after a run of events for it. */
  function EntryRun<A>(e: Option<A>, evs: seq<Ev>, newAutoscaler: string -> Built<A>): Option<A>
    decreases |evs|
  {
    if evs == [] then e else EntryRun(EntryStep(e, evs[0], newAutoscaler), evs[1..], newAutoscaler)
  }

  /** Handling one event changes the entry of its partition as `EntryStep`
      says. */
  lemma EventAtPartition<A>(m: map<string, A>, ev: Ev, newAutoscaler: string -> Built<A>)
    ensures At(Apply(m, ev, newAutoscaler).autoscalers, ev.part)
            == EntryStep(At(m, ev.part), ev, newAutoscaler)
  {
  }

  /** After any run of events, the entry of partition `p` is what the events
      addressed to `p` alone, in their order, make of its initial entry:
      events for other partitions neither change it nor interfere with it. */
  lemma {:induction false} RunIsPerPartition<A>(m: map<string, A>, evs: seq<Ev>, p: string,
                                                newAutoscaler: string -> Built<A>)
    ensures At(Run(m, evs, newAutoscaler), p) == EntryRun(At(m, p), OnPartition(evs, p), newAutoscaler)
    decreases |evs|
  {
    if evs != [] {
      var m1 := Apply(m, evs[0], newAutoscaler).autoscalers;
      RunIsPerPartition(m1, evs[1..], p, newAutoscaler);
      if evs[0].part == p {
        EventAtPartition(m, evs[0], newAutoscaler);
      } else {
        assert At(m1, p) == At(m, p);
      }
    }
  }

  /** A run in which no event creates or deletes an autoscaler (pod events,
      updates, unknown kinds and unknown object types) leaves the registry
      exactly as it was. */
  lemma {:induction false} ObservationsChangeNothing<A>(m: map<string, A>, evs: seq<Ev>,
                                                        newAutoscaler: string -> Built<A>)
    requires forall i :: 0 <= i < |evs| ==> !IsLifecycle(evs[i].typ, evs[i].obj)
    ensures Run(m, evs, newAutoscaler) == m
    decreases |evs|
  {
    if evs != [] {
      assert !IsLifecycle(evs[0].typ, evs[0].obj);
      ObservationsChangeNothing(m, evs[1..], newAutoscaler);
    }
  }

  /** A fresh registry that receives a run of events only ever holds
      partitions that some create event whose payload builds was addressed
      to. */
  lemma FreshRunKeys<A>(evs: seq<Ev>, newAutoscaler: string -> Built<A>, p: string)
    requires p in Run(Empty(), evs, newAutoscaler)
    ensures exists i :: 0 <= i < |evs| && evs[i].part == p && IsBuildingCreate(evs[i], newAutoscaler)
  {
    var e := EntryRun(None, OnPartition(evs, p), newAutoscaler);
    RunIsPerPartition(Empty(), evs, p, newAutoscaler);
    assert e.Some?;
    FilledByCreate(None, OnPartition(evs, p), newAutoscaler);
    var j :| 0 <= j < |OnPartition(evs, p)| && IsBuildingCreate(OnPartition(evs, p)[j], newAutoscaler);
    OnPartitionMembers(evs, p, j);
  }

  /** Whether `ev` is a create event on an autoscaler object whose payload
      builds. */
  predicate IsBuildingCreate<A>(ev: Ev, newAutoscaler: string -> Built<A>)
  {
    ev.obj.AutoscalerObject? && ev.typ == Create && newAutoscaler(ev.obj.yaml).Built?
  }

  /** An entry that a run fills in from empty was filled in by a create event
      whose payload builds. */
  lemma {:induction false} FilledByCreate<A>(e: Option<A>, evs: seq<Ev>, newAutoscaler: string -> Built<A>)
    requires e.None? && EntryRun(e, evs, newAutoscaler).Some?
    ensures exists i :: 0 <= i < |evs| && IsBuildingCreate(evs[i], newAutoscaler)
    decreases |evs|
  {
    assert evs != [];
    var e1 := EntryStep(e, evs[0], newAutoscaler);
    if !IsBuildingCreate(evs[0], newAutoscaler) {
      assert e1 == None;
      FilledByCreate(e1, evs[1..], newAutoscaler);
      var i :| 0 <= i < |evs[1..]| && IsBuildingCreate(evs[1..][i], newAutoscaler);
      assert IsBuildingCreate(evs[i + 1], newAutoscaler);
    }
  }

  /** Every event of `OnPartition(evs, p)` is an event of `evs`. */
  lemma {:induction false} OnPartitionMembers(evs: seq<Ev>, p: string, j: nat)
    requires j < |OnPartition(evs, p)|
    ensures exists i :: 0 <= i < |evs| && evs[i] == OnPartition(evs, p)[j]
    decreases |evs|
  {
    if evs[0].part == p && j == 0 {
      assert evs[0] == OnPartition(evs, p)[0];
    } else {
      var j' := if evs[0].part == p then j - 1 else j;
      assert OnPartition(evs, p)[j] == OnPartition(evs[1..], p)[j'];
      OnPartitionMembers(evs[1..], p, j');
      var i :| 0 <= i < |evs[1..]| && evs[1..][i] == OnPartition(evs[1..], p)[j'];
      assert evs[i + 1] == OnPartition(evs, p)[j];
    }
  }
}
