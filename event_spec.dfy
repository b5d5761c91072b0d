/**
 * The abstract value of an `Event` and the effect of each builder call on
 * it. A chain such as `new Event().event("rate").entityId("u1")` is a
 * sequence of `Step`s run from `Initial()`.
 */
module EventSpec {
  import opened Wrappers
  import opened PropertyMap

  /** The seven fields of an `Event`, as one value. `None` is a Java `null`. */
  datatype Fields<V, T> = Fields(
    event: NullableString,
    entityType: NullableString,
    entityId: NullableString,
    targetEntityType: NullableString,
    targetEntityId: NullableString,
    properties: map<Key, V>,
    eventTime: Option<T>)

  /** A new `Event`: every reference field `null`, the properties map empty. */
  function Initial<V, T>(): Fields<V, T>
  {
    Fields(None, None, None, None, None, map[], None)
  }

  /**
   * One builder call that returns normally, named after the Java method.
   * `properties(null)` throws and so is not a step; see `Events.Event.PutProperties`.
   */
  datatype Step<V, T> =
    | SetEvent(name: NullableString)
    | SetEntityType(entityType: NullableString)
    | SetEntityId(entityId: NullableString)
    | SetTargetEntityType(targetEntityType: NullableString)
    | SetTargetEntityId(targetEntityId: NullableString)
    | PutProperty(key: Key, value: V)
    | PutProperties(entries: map<Key, V>)
    | SetEventTime(time: Option<T>)

  /** The effect of one call on the fields. */
  function Apply<V, T>(f: Fields<V, T>, step: Step<V, T>): Fields<V, T>
  {
    match step
    case SetEvent(s) => f.(event := s)
    case SetEntityType(s) => f.(entityType := s)
    case SetEntityId(s) => f.(entityId := s)
    case SetTargetEntityType(s) => f.(targetEntityType := s)
    case SetTargetEntityId(s) => f.(targetEntityId := s)
    case PutProperty(k, v) => f.(properties := Put(f.properties, k, v))
    case PutProperties(n) => f.(properties := PutAll(f.properties, n))
    case SetEventTime(t) => f.(eventTime := t)
  }

  /** The effect of a chain of calls, applied left to right. */
  function Run<V, T>(f: Fields<V, T>, steps: seq<Step<V, T>>): Fields<V, T>
    decreases |steps|
  {
    if steps == [] then f else Apply(Run(f, steps[..|steps| - 1]), steps[|steps| - 1])
  }

  /** The six fields that a scalar setter assigns. */
  datatype Field = EventField | EntityTypeField | EntityIdField
                 | TargetEntityTypeField | TargetEntityIdField | EventTimeField

  /** The value of a scalar field: a string reference, or the event time. */
  datatype Scalar<T> = Text(text: NullableString) | Time(time: Option<T>)

  /** Reads one scalar field, as its getter does. */
  function Read<V, T>(f: Fields<V, T>, field: Field): Scalar<T>
  {
    match field
    case EventField => Text(f.event)
    case EntityTypeField => Text(f.entityType)
    case EntityIdField => Text(f.entityId)
    case TargetEntityTypeField => Text(f.targetEntityType)
    case TargetEntityIdField => Text(f.targetEntityId)
    case EventTimeField => Time(f.eventTime)
  }

  /** The value a call assigns to `field`, or `None` when it does not assign it. */
  function Writes<V, T>(step: Step<V, T>, field: Field): Option<Scalar<T>>
  {
    match (step, field)
    case (SetEvent(s), EventField) => Some(Text(s))
    case (SetEntityType(s), EntityTypeField) => Some(Text(s))
    case (SetEntityId(s), EntityIdField) => Some(Text(s))
    case (SetTargetEntityType(s), TargetEntityTypeField) => Some(Text(s))
    case (SetTargetEntityId(s), TargetEntityIdField) => Some(Text(s))
    case (SetEventTime(t), EventTimeField) => Some(Time(t))
    case _ => None
  }

  /** The value a call binds to property key `k`, or `None` when it does not bind `k`. */
  function WritesKey<V, T>(step: Step<V, T>, k: Key): Option<V>
  {
    match step
    case PutProperty(j, v) => if j == k then Some(v) else None
    case PutProperties(n) => if k in n then Some(n[k]) else None
    case _ => None
  }
}
