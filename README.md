# PredictionIO Java client `Event`, modelled in Dafny

`org.apache.predictionio.sdk.java.Event` is the record a client fills in
before it sends an event to the PredictionIO event server. It has three
"mandatory" string fields (`event`, `entityType`, `entityId`), which nothing
enforces, two optional strings (`targetEntityType`, `targetEntityId`), a
properties map from string keys to arbitrary values, and an optional
`eventTime`. It has a no-argument constructor, a getter per field, and fluent
builder methods. Each builder method assigns one field, or updates the
properties map in place with `put` / `putAll`, and returns the same object.

The model is split into five modules:

- `wrappers.dfy` (`Wrappers`): `Option` (with `None` standing for Java `null`) and `Result`.
- `property_map.dfy` (`PropertyMap`): the two `java.util.Map` operations the class uses.
  `Put` is `put` and `PutAll` is `putAll` (union with override). The module also proves their laws.
  One of them says that `putAll` equals putting the entries one at a time, in any iteration order (`PutEach`).
- `event_spec.dfy` (`EventSpec`): the abstract value of an event (`Fields`) and one `Step` per builder call.
  `Apply` gives the effect of one call and `Run` the effect of a chain of calls.
  `Read`, `Writes` and `WritesKey` say which field or key a call assigns, independently of `Apply`.
- `event_laws.dfy` (`EventLaws`): what any chain of calls leaves behind.
  Each field holds the value of the last call that assigned it.
  Each property key holds the value of the last call that bound it.
  Everything untouched keeps its value.
- `event.dfy` (`Events`): the class `Event<V, T>` with the seven fields as mutable fields.
  The getters are functions reading `this`, so they cannot change anything.
  Each builder method `modifies this`.
  Its postconditions say that it returns `this` and state the whole new state as a datatype update of the old one ("nothing else changes").
  They also equate the new state with `Apply` of the matching `Step`, so the laws of `EventLaws` carry over to chains of calls on the object.

Java `null` is modelled explicitly. Every `String` field and argument is an
`Option<string>` (`NullableString`), so setters accept `null` and `""` alike.
Map keys are `NullableString` too, because `HashMap` admits a `null` key.
Property values are an abstract type `V` (Java `Object`, `null` included).
`eventTime` is an abstract `Option<T>`.

`properties(m)` with `m == null` throws `NullPointerException` from
`HashMap.putAll` before changing anything. The model follows the code:
`Events.Event.PutProperties` takes an `Option<map>` and returns
`Failure(NullPointerException)` with the state unchanged.

## Model

| member | source | states |
|---|---|---|
| `PropertyMap.Put` | client/src/main/java/org/apache/predictionio/sdk/java/Event.java:138 | after `put(k, v)` the key set is the old key set plus `k`, `k` maps to `v`, every other key keeps its old value |
| `PropertyMap.PutAll` | client/src/main/java/org/apache/predictionio/sdk/java/Event.java:143 | `putAll(n)` is union with override: keys are the old keys plus `n`'s, keys of `n` take `n`'s values, keys only in the old map keep theirs |
| `PropertyMap.PutEachAt` | client/src/main/java/org/apache/predictionio/sdk/java/Event.java:143 | putting entries of `n` one at a time over a key list binds exactly the listed keys to `n`'s values and leaves every other key as it was |
| `PropertyMap.PutAllIsPutEach` | client/src/main/java/org/apache/predictionio/sdk/java/Event.java:143 | `putAll(n)` equals putting every entry of `n` one by one, in any order that visits each key of `n` |
| `PropertyMap.PutIsPutAllOfSingleton` | client/src/main/java/org/apache/predictionio/sdk/java/Event.java:137-145 | `property(k, v)` has the same effect on the map as `properties` of the one-entry map `{k: v}` |
| `PropertyMap.PutOverwrites` | client/src/main/java/org/apache/predictionio/sdk/java/Event.java:137-140 | two `property` calls with the same key leave only the later value |
| `PropertyMap.PutAllEmpty` | client/src/main/java/org/apache/predictionio/sdk/java/Event.java:142-145 | `properties` of an empty map leaves the map unchanged |
| `PropertyMap.PutAllIdempotent` | client/src/main/java/org/apache/predictionio/sdk/java/Event.java:142-145 | applying the same `properties(m)` twice gives the same map as applying it once |
| `PropertyMap.PutAllTwice` | client/src/main/java/org/apache/predictionio/sdk/java/Event.java:142-145 | `properties(a)` then `properties(b)` equals one `properties` of `b` merged over `a` |
| `EventLaws.ApplyAssignsOnlyItsField` | client/src/main/java/org/apache/predictionio/sdk/java/Event.java:106-150 | one builder call sets the field it names to its argument and leaves every other scalar field unchanged |
| `EventLaws.ApplyBindsOnlyItsKeys` | client/src/main/java/org/apache/predictionio/sdk/java/Event.java:106-150 | one builder call binds exactly the property keys it names (`property`: its key, `properties`: the keys of its map); other keys keep their binding or absence |
| `EventLaws.LastWriteWins` | client/src/main/java/org/apache/predictionio/sdk/java/Event.java:106-135 | after any chain of calls, a scalar field reads the argument of the last call that assigned it |
| `EventLaws.UnassignedFieldKept` | client/src/main/java/org/apache/predictionio/sdk/java/Event.java:106-150 | a scalar field no call in the chain assigns keeps its value, whatever else the chain does |
| `EventLaws.LastKeyWriteWins` | client/src/main/java/org/apache/predictionio/sdk/java/Event.java:137-145 | after any chain of calls, a property key is bound to the value given by the last `property`/`properties` call that bound it |
| `EventLaws.UnboundKeyKept` | client/src/main/java/org/apache/predictionio/sdk/java/Event.java:137-145 | a property key no call in the chain binds keeps its binding, or stays absent |
| `EventLaws.FreshEventUnset` | client/src/main/java/org/apache/predictionio/sdk/java/Event.java:36-50 | starting from a new event, a field no call assigned still reads `null` and a key no call bound is absent |
| `EventLaws.SettersKeepProperties` | client/src/main/java/org/apache/predictionio/sdk/java/Event.java:106-135 | a chain of scalar setters leaves the properties map unchanged |
| `Events.Event.constructor` | client/src/main/java/org/apache/predictionio/sdk/java/Event.java:36-50 | a new event has all six reference fields `null` and an empty, non-null properties map |
| `Events.Event.GetEvent` | client/src/main/java/org/apache/predictionio/sdk/java/Event.java:55-57 | returns the event name held in the object's state; reads only, changes nothing |
| `Events.Event.GetEntityType` | client/src/main/java/org/apache/predictionio/sdk/java/Event.java:62-64 | returns the entity type held in the object's state; changes nothing |
| `Events.Event.GetEntityId` | client/src/main/java/org/apache/predictionio/sdk/java/Event.java:69-71 | returns the entity id held in the object's state; changes nothing |
| `Events.Event.GetTargetEntityType` | client/src/main/java/org/apache/predictionio/sdk/java/Event.java:76-78 | returns the target entity type, `null` when unset; changes nothing |
| `Events.Event.GetTargetEntityId` | client/src/main/java/org/apache/predictionio/sdk/java/Event.java:83-85 | returns the target entity id, `null` when unset; changes nothing |
| `Events.Event.GetProperties` | client/src/main/java/org/apache/predictionio/sdk/java/Event.java:90-92 | returns the properties map, which is a map value and so never `null`; changes nothing |
| `Events.Event.GetEventTime` | client/src/main/java/org/apache/predictionio/sdk/java/Event.java:97-99 | returns the event time, `null` when unset; changes nothing |
| `Events.Event.SetEvent` | client/src/main/java/org/apache/predictionio/sdk/java/Event.java:106-109 | stores its argument unchecked (`null` and `""` included), returns the same object, every other field unchanged |
| `Events.Event.SetEntityType` | client/src/main/java/org/apache/predictionio/sdk/java/Event.java:114-117 | stores its argument unchecked, returns the same object, every other field unchanged |
| `Events.Event.SetEntityId` | client/src/main/java/org/apache/predictionio/sdk/java/Event.java:122-125 | stores its argument unchecked, returns the same object, every other field unchanged |
| `Events.Event.SetTargetEntityType` | client/src/main/java/org/apache/predictionio/sdk/java/Event.java:127-130 | stores its argument unchecked, returns the same object, every other field unchanged |
| `Events.Event.SetTargetEntityId` | client/src/main/java/org/apache/predictionio/sdk/java/Event.java:132-135 | stores its argument unchecked, returns the same object, every other field unchanged |
| `Events.Event.PutProperty` | client/src/main/java/org/apache/predictionio/sdk/java/Event.java:137-140 | binds the key to the value in the same map (old keys plus the key, other bindings kept), returns the same object, scalar fields unchanged |
| `Events.Event.PutProperties` | client/src/main/java/org/apache/predictionio/sdk/java/Event.java:142-145 | merges the argument over the map with override and returns the same object; a `null` argument throws `NullPointerException` and changes nothing |
| `Events.Event.SetEventTime` | client/src/main/java/org/apache/predictionio/sdk/java/Event.java:147-150 | stores its argument unchecked, returns the same object, every other field unchanged |
| `Events.BuildUserSetEvent` | client/src/main/java/org/apache/predictionio/sdk/java/Event.java:49-140 | a chain of calls from `new Event()` acts on one object and ends with exactly the fields it set, all others `null` |

## Left out

- `toString` / `toJsonString` (Event.java:154-165): they delegate to Gson's reflective encoder and a `DateTimeAdapter` that is not part of this model. The JSON text, including how `null` fields are written, depends on that library.
- Date and time semantics of `eventTime`: the joda-time `DateTime` is an abstract type `T`. Formatting and parsing are not modelled.
- Runtime types of property values: `Object` is an abstract type `V`. Whether a value can be written as JSON is the encoder's concern.
- Aliasing through `getProperties()`: Java returns the internal `HashMap`, so a caller could mutate it behind the object's back. The model's map is a value, so such external mutation is not represented.
- Concurrency: the class is not thread-safe. The model is sequential.
- Java's `HashMap` iteration order and the `HashMap` object's identity: only the key-to-value contents of the map are modelled.
