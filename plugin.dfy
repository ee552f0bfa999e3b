/** The autoscaler plugin server: one object that owns the partition map and
    updates it in place. Each method is one atomic step; the reader/writer
    lock that makes it so is not part of this model. Every state-changing
    method is tied to the step function of `Registry` that specifies it. */
module Plugin {
  import opened Registry

  class PluginServer<A> {
    /** The autoscaler instance owned by each partition. */
    var autoscalers: map<string, A>

    /** A server that owns no autoscaler yet. */
    constructor ()
      ensures autoscalers == Empty()
    {
      autoscalers := map[];
    }

    /** Handles one lifecycle event for partition `part`. */
    method Event(part: string, time: int64, typ: EventType, obj: Object,
                 newAutoscaler: string -> Built<A>) returns (err: Outcome)
      modifies this
      ensures Step(err, autoscalers) == Registry.Event(old(autoscalers), part, time, typ, obj, newAutoscaler)
    {
      match obj {
        case AutoscalerObject(yaml) =>
          match typ {
            case Create => err := CreateAutoscaler(part, yaml, newAutoscaler);
            case Update => err := Fail(UpdateNotSupported);
            case Delete => err := DeleteAutoscaler(part);
            case OtherType(_) => err := Fail(UnhandledEventType(typ));
          }
        case PodObject => err := Ok;
        case OtherObject(typeName) => err := Fail(UnhandledObjectType(typeName));
      }
    }

    /** Accepts a batch of stats for `part`; the samples are dropped, whether
        or not `part` has an autoscaler. */
    method Stat<S>(part: string, stats: seq<S>) returns (err: Outcome)
      ensures err == Ok
      ensures autoscalers == old(autoscalers)
    {
      err := Ok;
    }

    /** The replica recommendation for `part` at `time`: always zero and no
        error, whether or not `part` has an autoscaler. */
    method Scale(part: string, time: int64) returns (rec: int32, err: Outcome)
      ensures rec == 0 && err == Ok
      ensures autoscalers == old(autoscalers)
    {
      rec, err := 0, Ok;
    }

    /** Builds the autoscaler of a partition that has none yet and records it. */
    method CreateAutoscaler(part: string, yaml: string, newAutoscaler: string -> Built<A>)
      returns (err: Outcome)
      modifies this
      ensures Step(err, autoscalers) == Registry.CreateAutoscaler(old(autoscalers), part, yaml, newAutoscaler)
    {
      if part in autoscalers {
        return Fail(DuplicateAutoscaler(part));
      }
      var built := newAutoscaler(yaml);
      if built.BuildFailed? {
        return Fail(AutoscalerConfig(built.cause));
      }
      autoscalers := autoscalers[part := built.autoscaler];
      err := Ok;
    }

    /** Forgets the autoscaler of a partition that has one. */
    method DeleteAutoscaler(part: string) returns (err: Outcome)
      modifies this
      ensures Step(err, autoscalers) == Registry.DeleteAutoscaler(old(autoscalers), part)
    {
      if part !in autoscalers {
        return Fail(NonexistentPartition(part));
      }
      autoscalers := autoscalers - {part};
      err := Ok;
    }
  }

  /** A client of the server: a second create for a partition fails as a
      duplicate and keeps the first instance; a delete then removes it, and a
      second delete fails as not found. */
  method DuplicateCreateThenDelete<A>(yaml: string, newAutoscaler: string -> Built<A>, a: A)
    returns (first: Outcome, second: Outcome, del: Outcome, again: Outcome)
    requires newAutoscaler(yaml) == Built(a)
    ensures first == Ok && second == Fail(DuplicateAutoscaler("p"))
    ensures del == Ok && again == Fail(NonexistentPartition("p"))
  {
    var s := new PluginServer<A>();
    first := s.Event("p", 0, Create, AutoscalerObject(yaml), newAutoscaler);
    second := s.Event("p", 1, Create, AutoscalerObject(yaml), newAutoscaler);
    assert s.autoscalers == map["p" := a];
    del := s.Event("p", 3, Delete, AutoscalerObject(yaml), newAutoscaler);
    again := s.Event("p", 4, Delete, AutoscalerObject(yaml), newAutoscaler);
  }
}
