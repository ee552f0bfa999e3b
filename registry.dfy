/** The partition autoscaler registry of the autoscaler plugin server, as
    values: the event vocabulary, the errors the server returns, and one pure
    step function per operation that maps the registry before a call to the
    call's outcome and the registry after it.

    The autoscaler instance is the type parameter `A`: its internals belong to
    a package that is not part of this model. Building an instance from a YAML
    payload is the function parameter `newAutoscaler`, which may fail. */
module Registry {

  newtype int32 = x: int | -0x8000_0000 <= x < 0x8000_0000
  newtype int64 = x: int | -0x8000_0000_0000_0000 <= x < 0x8000_0000_0000_0000

  datatype Option<T> = None | Some(value: T)

  /** The lifecycle event kinds of the plugin protocol; any other enum value
      arrives as `OtherType`. */
  datatype EventType = Create | Update | Delete | OtherType(code: int32)

  /** The object an event is about: an autoscaler carrying its YAML
      configuration, a pod, or an object of any other type (by type name). */
  datatype Object = AutoscalerObject(yaml: string) | PodObject | OtherObject(typeName: string)

  /** The errors the server returns, with the values their messages carry. */
  datatype Error =
    | DuplicateAutoscaler(part: string)
    | NonexistentPartition(part: string)
    | UpdateNotSupported
    | UnhandledEventType(typ: EventType)
    | UnhandledObjectType(typeName: string)
    | AutoscalerConfig(cause: string)

  /** A Go `error` return: nil is `Ok`. */
  datatype Outcome = Ok | Fail(error: Error)

  /** What building an autoscaler from its YAML payload yields. */
  datatype Built<A> = Built(autoscaler: A) | BuildFailed(cause: string)

  /** The outcome of one call and the partition map after it. */
  datatype Step<A> = Step(outcome: Outcome, autoscalers: map<string, A>)

  /** The registry entry of partition `part`. */
  function At<A>(m: map<string, A>, part: string): (e: Option<A>)
    ensures e.Some? <==> part in m
    ensures e.Some? ==> e.value == m[part]
  {
    if part in m then Some(m[part]) else None
  }

  /** `m` and `m'` hold the same entry for every partition other than `part`. */
  ghost predicate SameExcept<A>(m: map<string, A>, m': map<string, A>, part: string)
  {
    forall k :: k != part ==> At(m, k) == At(m', k)
  }

  /** The registry a newly constructed server starts with. */
  function Empty<A>(): (m: map<string, A>)
    ensures forall part :: At(m, part) == None
  {
    map[]
  }

  /** Creating the autoscaler of partition `part` from `yaml`. */
  function CreateAutoscaler<A>(m: map<string, A>, part: string, yaml: string,
                             newAutoscaler: string -> Built<A>): (s: Step<A>)
    ensures s.outcome == Ok <==> part !in m && newAutoscaler(yaml).Built?
    ensures part in m ==> s.outcome == Fail(DuplicateAutoscaler(part))
    ensures part !in m && newAutoscaler(yaml).BuildFailed? ==>
              s.outcome == Fail(AutoscalerConfig(newAutoscaler(yaml).cause))
    ensures s.outcome.Fail? ==> s.autoscalers == m
    ensures s.outcome == Ok ==> At(s.autoscalers, part) == Some(newAutoscaler(yaml).autoscaler)
    ensures s.outcome == Ok ==> s.autoscalers.Keys == m.Keys + {part}
    ensures SameExcept(m, s.autoscalers, part)
  {
    if part in m then
      Step(Fail(DuplicateAutoscaler(part)), m)
    else
      match newAutoscaler(yaml)
      case BuildFailed(cause) => Step(Fail(AutoscalerConfig(cause)), m)
      case Built(a) => Step(Ok, m[part := a])
  }

  /** Deleting the autoscaler of partition `part`. */
  function DeleteAutoscaler<A>(m: map<string, A>, part: string): (s: Step<A>)
    ensures s.outcome == Ok <==> part in m
    ensures part !in m ==> s.outcome == Fail(NonexistentPartition(part)) && s.autoscalers == m
    ensures part in m ==> s.autoscalers.Keys == m.Keys - {part}
    ensures At(s.autoscalers, part) == None
    ensures SameExcept(m, s.autoscalers, part)
  {
    if part !in m then
      Step(Fail(NonexistentPartition(part)), m)
    else
      Step(Ok, m - {part})
  }

  /** Whether an event of kind `typ` on `obj` is one the server acts on,
      that is, changes the registry when it succeeds. */
  predicate IsLifecycle(typ: EventType, obj: Object)
  {
    obj.AutoscalerObject? && (typ == Create || typ == Delete)
  }

  /** Handling one event: dispatch on the object's type, then on the event
      kind. The timestamp takes no part in the decision. */
  function Event<A>(m: map<string, A>, part: string, time: int64, typ: EventType,
                    obj: Object, newAutoscaler: string -> Built<A>): (s: Step<A>)
    ensures s.outcome.Fail? ==> s.autoscalers == m
    ensures !IsLifecycle(typ, obj) ==> s.autoscalers == m
    ensures SameExcept(m, s.autoscalers, part)
    ensures (s.outcome == Ok) <==>
              (obj.PodObject? ||
               (obj.AutoscalerObject? && typ == Create && part !in m && newAutoscaler(obj.yaml).Built?) ||
               (obj.AutoscalerObject? && typ == Delete && part in m))
  {
    match obj
    case AutoscalerObject(yaml) =>
      (match typ
       case Create => CreateAutoscaler(m, part, yaml, newAutoscaler)
       case Update => Step(Fail(UpdateNotSupported), m)
       case Delete => DeleteAutoscaler(m, part)
       case OtherType(_) => Step(Fail(UnhandledEventType(typ)), m))
    case PodObject => Step(Ok, m)
    case OtherObject(typeName) => Step(Fail(UnhandledObjectType(typeName)), m)
  }

  /** A second create for a partition that is already present fails with a
      duplicate error and keeps the original instance. */
  lemma DuplicateCreateKeepsOriginal<A>(m: map<string, A>, part: string, first: string,
                                         second: string, newAutoscaler: string -> Built<A>)
    requires CreateAutoscaler(m, part, first, newAutoscaler).outcome == Ok
    ensures var m1 := CreateAutoscaler(m, part, first, newAutoscaler).autoscalers;
            CreateAutoscaler(m1, part, second, newAutoscaler) == Step(Fail(DuplicateAutoscaler(part)), m1) &&
            At(m1, part) == Some(newAutoscaler(first).autoscaler)
  {
  }

  /** Deleting a partition that was never created, or was already deleted,
      fails with a not-found error. */
  lemma DeleteTwiceFails<A>(m: map<string, A>, part: string)
    ensures var m1 := DeleteAutoscaler(m, part).autoscalers;
            DeleteAutoscaler(m1, part) == Step(Fail(NonexistentPartition(part)), m1)
  {
  }

  /** A successful create followed by a delete of the same partition gives
      back the registry before the create. */
  lemma CreateThenDeleteRestores<A>(m: map<string, A>, part: string, yaml: string,
                                     newAutoscaler: string -> Built<A>)
    requires CreateAutoscaler(m, part, yaml, newAutoscaler).outcome == Ok
    ensures DeleteAutoscaler(CreateAutoscaler(m, part, yaml, newAutoscaler).autoscalers, part) == Step(Ok, m)
  {
  }

  /** A delete of a present partition followed by a create whose payload
      builds succeeds and leaves the partition holding the newly built
      instance, with every other entry as before the delete. */
  lemma DeleteThenCreateReplaces<A>(m: map<string, A>, part: string, yaml: string,
                                     newAutoscaler: string -> Built<A>)
    requires part in m && newAutoscaler(yaml).Built?
    ensures CreateAutoscaler(DeleteAutoscaler(m, part).autoscalers, part, yaml, newAutoscaler)
            == Step(Ok, m[part := newAutoscaler(yaml).autoscaler])
  {
  }

  /** An update event on an autoscaler always fails as unsupported and
      leaves the registry as it was. */
  lemma UpdateAlwaysFails<A>(m: map<string, A>, part: string, time: int64, yaml: string,
                             newAutoscaler: string -> Built<A>)
    ensures Event(m, part, time, Update, AutoscalerObject(yaml), newAutoscaler)
            == Step(Fail(UpdateNotSupported), m)
  {
  }

  /** An event of an unrecognised kind on an autoscaler fails and leaves the
      registry as it was. */
  lemma UnknownEventTypeFails<A>(m: map<string, A>, part: string, time: int64, code: int32,
                                 yaml: string, newAutoscaler: string -> Built<A>)
    ensures Event(m, part, time, OtherType(code), AutoscalerObject(yaml), newAutoscaler)
            == Step(Fail(UnhandledEventType(OtherType(code))), m)
  {
  }

  /** A pod event of any kind succeeds without changing the registry; an event
      on an object of any other type fails without changing it. */
  lemma NonAutoscalerObjects<A>(m: map<string, A>, part: string, time: int64, typ: EventType,
                                typeName: string, newAutoscaler: string -> Built<A>)
    ensures Event(m, part, time, typ, PodObject, newAutoscaler) == Step(Ok, m)
    ensures Event(m, part, time, typ, OtherObject(typeName), newAutoscaler)
            == Step(Fail(UnhandledObjectType(typeName)), m)
  {
  }

  /** Create and delete events route to `CreateAutoscaler` and `DeleteAutoscaler`. */
  lemma LifecycleRouting<A>(m: map<string, A>, part: string, time: int64, yaml: string,
                            newAutoscaler: string -> Built<A>)
    ensures Event(m, part, time, Create, AutoscalerObject(yaml), newAutoscaler)
            == CreateAutoscaler(m, part, yaml, newAutoscaler)
    ensures Event(m, part, time, Delete, AutoscalerObject(yaml), newAutoscaler)
            == DeleteAutoscaler(m, part)
  {
  }

  /** Events for two different partitions commute: either order yields the
      same outcomes and the same registry. */
  lemma EventsCommute<A>(m: map<string, A>, newAutoscaler: string -> Built<A>,
                         p1: string, t1: int64, typ1: EventType, o1: Object,
                         p2: string, t2: int64, typ2: EventType, o2: Object)
    requires p1 != p2
    ensures var a1 := Event(m, p1, t1, typ1, o1, newAutoscaler);
            var a2 := Event(a1.autoscalers, p2, t2, typ2, o2, newAutoscaler);
            var b2 := Event(m, p2, t2, typ2, o2, newAutoscaler);
            var b1 := Event(b2.autoscalers, p1, t1, typ1, o1, newAutoscaler);
            a1.outcome == b1.outcome && a2.outcome == b2.outcome && a2.autoscalers == b1.autoscalers
  {
  }

  /** The outcome of an event and the new entry of its partition depend only
      on that partition's entry before the event. */
  lemma EntryDeterminesEvent<A>(m: map<string, A>, n: map<string, A>, part: string, time: int64,
                                typ: EventType, obj: Object, newAutoscaler: string -> Built<A>)
    requires At(m, part) == At(n, part)
    ensures var sm := Event(m, part, time, typ, obj, newAutoscaler);
            var sn := Event(n, part, time, typ, obj, newAutoscaler);
            sm.outcome == sn.outcome && At(sm.autoscalers, part) == At(sn.autoscalers, part)
  {
  }
}
