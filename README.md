# Partition autoscaler registry of the autoscaler plugin

This project models the plugin server in `cmd/plugin/main.go`. The server owns
one autoscaler instance per traffic partition, keyed by the partition's name.
It handles lifecycle events from the host (create, update or delete of an
autoscaler object, pod observations) and answers stat and scale calls.

- `registry.dfy` (module `Registry`) holds the values. These are the event
  kinds, the object kinds, the errors the server returns, and one pure step
  function per operation. A step function maps the partition map before a call
  to the call's outcome and the map after it.
- `replay.dfy` (module `Replay`) handles runs of events processed one after
  another. It proves that each partition's entry depends only on the events
  addressed to that partition, in submission order.
- `plugin.dfy` (module `Plugin`) holds the class `PluginServer`. Its field
  `autoscalers` is updated in place. Every state-changing method is proved
  equal to the step function that specifies it. `Stat` and `Scale` state their
  constant results directly.

The autoscaler instance is the type parameter `A` and stays opaque.
`knativeplugin.NewAutoscaler` lives in a package that is not part of this
model. It is the function parameter `newAutoscaler: string -> Built<A>`, which
may fail with a cause string. Go's `error` result is `Outcome` (`Ok` is nil).
Each message's `%v` arguments become fields of the `Error` datatype. The
protocol's `int32` and `int64` become newtypes with the same ranges.

Three behaviours of the source are worth stating plainly:
- An event on an object of any type other than autoscaler or pod is an error (`UnhandledObjectType`), not a no-op (cmd/plugin/main.go:47-48).
- `Scale` returns 0 and nil for every partition, known or not. It never reports a missing partition (cmd/plugin/main.go:56-58).
- `Stat` drops its samples for every partition. It never looks at the map (cmd/plugin/main.go:52-54).

## Model

| member | source | states |
|---|---|---|
| Registry.Empty | cmd/plugin/main.go:25-29 | a new registry holds no entry for any partition |
| Registry.CreateAutoscaler | cmd/plugin/main.go:60-73 | succeeds exactly when the partition is absent and the payload builds; a present partition gives the duplicate error, a failed build passes its cause on; any failure leaves the map unchanged; success maps the partition to the built instance, adds exactly that key, and keeps every other entry |
| Registry.DeleteAutoscaler | cmd/plugin/main.go:75-84 | succeeds exactly when the partition is present; an absent partition gives the not-found error and an unchanged map; afterwards the partition has no entry, exactly that key is gone and every other entry is kept |
| Registry.Event | cmd/plugin/main.go:31-50 | a failed event never changes the map; only a create or delete on an autoscaler object changes it; only the event's own partition can change; the event succeeds exactly for pod objects, a create of an absent partition whose payload builds, or a delete of a present partition |
| Registry.DuplicateCreateKeepsOriginal | cmd/plugin/main.go:63-65 | after a successful create, a second create of the same partition, with any payload, is the duplicate error, the map is unchanged, and the first instance is still in place |
| Registry.DeleteTwiceFails | cmd/plugin/main.go:78-80 | after any delete, a second delete of the same partition is the not-found error with the map unchanged |
| Registry.CreateThenDeleteRestores | cmd/plugin/main.go:60-84 | a successful create followed by a delete of the same partition succeeds and gives back the original map |
| Registry.DeleteThenCreateReplaces | cmd/plugin/main.go:60-84 | deleting a present partition and then creating it again from a payload that builds succeeds; the partition then holds the newly built instance and every other entry is as before |
| Registry.UpdateAlwaysFails | cmd/plugin/main.go:37-38 | an update event on an autoscaler object is always the unsupported error and leaves the map unchanged |
| Registry.UnknownEventTypeFails | cmd/plugin/main.go:41-42 | an unrecognised event kind on an autoscaler object is the unhandled-event-type error (naming that kind) and leaves the map unchanged |
| Registry.NonAutoscalerObjects | cmd/plugin/main.go:44-48 | a pod event of any kind succeeds with the map unchanged; an event on any other object type is the unhandled-object-type error with the map unchanged |
| Registry.LifecycleRouting | cmd/plugin/main.go:34-40 | a create event on an autoscaler object is exactly the create operation and a delete event is exactly the delete operation |
| Registry.EventsCommute | cmd/plugin/main.go:31-84 | two events for different partitions give the same outcomes and the same final map in either order |
| Registry.EntryDeterminesEvent | cmd/plugin/main.go:31-84 | an event's outcome and its partition's new entry depend only on that partition's entry before the event |
| Replay.Run | cmd/plugin/main.go:31-50 | after a run of events the map holds only keys it held before or that some event was addressed to, and partitions no event addressed keep their entries |
| Replay.EventAtPartition | cmd/plugin/main.go:31-84 | one event changes its partition's entry exactly as the per-partition reference `EntryStep` says: a successful create fills an empty entry, a delete empties it, everything else keeps it |
| Replay.RunIsPerPartition | cmd/plugin/main.go:31-84 | after any run, a partition's entry is what the events addressed to it alone, in submission order, make of its initial entry under the per-partition reference |
| Replay.ObservationsChangeNothing | cmd/plugin/main.go:37-48 | a run with no create or delete on an autoscaler object leaves the map exactly as it was |
| Replay.FreshRunKeys | cmd/plugin/main.go:25-29 | a registry that starts empty only ever holds partitions that some create event on an autoscaler object, with a payload that builds, was addressed to |
| Plugin.PluginServer.constructor | cmd/plugin/main.go:25-29 | a new server owns no autoscaler |
| Plugin.PluginServer.Event | cmd/plugin/main.go:31-50 | the outcome and the new map are those of `Registry.Event` on the old map |
| Plugin.PluginServer.Stat | cmd/plugin/main.go:52-54 | always returns no error and leaves the map unchanged, for any partition and any samples |
| Plugin.PluginServer.Scale | cmd/plugin/main.go:56-58 | always returns 0 and no error and leaves the map unchanged, for any partition, known or not |
| Plugin.PluginServer.CreateAutoscaler | cmd/plugin/main.go:60-73 | the outcome and the new map are those of `Registry.CreateAutoscaler` on the old map |
| Plugin.PluginServer.DeleteAutoscaler | cmd/plugin/main.go:75-84 | the outcome and the new map are those of `Registry.DeleteAutoscaler` on the old map |
| Plugin.DuplicateCreateThenDelete | cmd/plugin/main.go:60-84 | on a fresh server, a create succeeds, a second create of the same partition fails as a duplicate, a delete succeeds and a second delete fails as not found |

## Left out

- The `sync.RWMutex` (cmd/plugin/main.go:21, 61-62, 76-77): concurrency. Each method is one atomic step.
- The `log.Println` calls (cmd/plugin/main.go:71, 82): output only, no effect on state or results.
- `main` (cmd/plugin/main.go:86-96): the plugin handshake and gRPC serving are process wiring.
- The internals of `knativeplugin.NewAutoscaler` and of the autoscaler instance: that package is not part of this model. Building is a parameter that may fail, and the instance is an opaque type.
- Building is modelled as a deterministic function of the payload, so two builds of the same YAML give equal instances. The source's `knativeplugin.NewAutoscaler` (cmd/plugin/main.go:66) returns a fresh instance on each call, and that distinct identity is not captured.
- A nil `*skplug.Autoscaler` object is not modelled. It matches the autoscaler case (cmd/plugin/main.go:33) and a create event then panics on `a.Yaml` (cmd/plugin/main.go:66); `AutoscalerObject` always carries a payload.
- The fields of `proto.Stat`: `Stat` ignores its samples, so they are an opaque type parameter.
- The numeric codes of `proto.EventType`: any value other than CREATE, UPDATE and DELETE is `OtherType(code)`. The exact wording of error messages is reduced to the values they carry.
- The revision reconciler, HPA reconciler and `SetDefaults` tests (pkg/reconciler/v1alpha1/revision/table_test.go, pkg/reconciler/v1alpha1/autoscaling/hpa/hpa_test.go, pkg/apis/autoscaling/v1alpha1/kpa_defaults_test.go): the code they test is not part of this model.
