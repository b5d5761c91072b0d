/**
 * The mutable `Event` record of the PredictionIO Java client: seven fields,
 * a no-argument constructor, a getter per field and fluent setters that
 * assign one field (or update the properties map in place) and return the
 * same object.
 */
module Events {
  import opened Wrappers
  import opened PropertyMap
  import opened EventSpec

  /** What `HashMap.putAll(null)` throws. */
  datatype Thrown = NullPointerException

  /**
   * An event. `V` stands for the type of property values (`Object`), `T` for
   * the event time (a joda-time `DateTime`), both left abstract.
   */
  class Event<V, T> {
    // mandatory fields; nothing enforces that they are set
    var event: NullableString
    var entityType: NullableString
    var entityId: NullableString

    // optional fields
    var targetEntityType: NullableString
    var targetEntityId: NullableString
    var properties: map<Key, V>
    var eventTime: Option<T>

    /** The object's fields as one value. */
    function Snapshot(): Fields<V, T>
      reads this
    {
      Fields(event, entityType, entityId, targetEntityType, targetEntityId, properties, eventTime)
    }

    /** A new event: every reference field `null`, an empty properties map. */
    constructor ()
      ensures Snapshot() == Initial()
    {
      event, entityType, entityId := None, None, None;
      targetEntityType, targetEntityId := None, None;
      properties := map[];
      eventTime := None;
    }

    function GetEvent(): (r: NullableString)
      reads this
      ensures r == Read(Snapshot(), EventField).text
    {
      event
    }

    function GetEntityType(): (r: NullableString)
      reads this
      ensures r == Read(Snapshot(), EntityTypeField).text
    {
      entityType
    }

    function GetEntityId(): (r: NullableString)
      reads this
      ensures r == Read(Snapshot(), EntityIdField).text
    {
      entityId
    }

    function GetTargetEntityType(): (r: NullableString)
      reads this
      ensures r == Read(Snapshot(), TargetEntityTypeField).text
    {
      targetEntityType
    }

    function GetTargetEntityId(): (r: NullableString)
      reads this
      ensures r == Read(Snapshot(), TargetEntityIdField).text
    {
      targetEntityId
    }

    /** The properties map; a map value, so never `null`. */
    function GetProperties(): (r: map<Key, V>)
      reads this
      ensures r == Snapshot().properties
    {
      properties
    }

    function GetEventTime(): (r: Option<T>)
      reads this
      ensures r == Read(Snapshot(), EventTimeField).time
    {
      eventTime
    }

    /** `event(name)`: assigns the event name, accepting `null` and "" alike. */
    method SetEvent(name: NullableString) returns (self: Event<V, T>)
      modifies this
      ensures self == this && GetEvent() == name
      ensures Snapshot() == Apply(old(Snapshot()), Step.SetEvent(name))
    {
      event := name;
      self := this;
    }

    /** `entityType(entityType)`: assigns the entity type. */
    method SetEntityType(t: NullableString) returns (self: Event<V, T>)
      modifies this
      ensures self == this && GetEntityType() == t
      ensures Snapshot() == Apply(old(Snapshot()), Step.SetEntityType(t))
    {
      entityType := t;
      self := this;
    }

    /** `entityId(entityId)`: assigns the entity id. */
    method SetEntityId(id: NullableString) returns (self: Event<V, T>)
      modifies this
      ensures self == this && GetEntityId() == id
      ensures Snapshot() == Apply(old(Snapshot()), Step.SetEntityId(id))
    {
      entityId := id;
      self := this;
    }

    /** `targetEntityType(targetEntityType)`: assigns the target entity type. */
    method SetTargetEntityType(t: NullableString) returns (self: Event<V, T>)
      modifies this
      ensures self == this && GetTargetEntityType() == t
      ensures Snapshot() == Apply(old(Snapshot()), Step.SetTargetEntityType(t))
    {
      targetEntityType := t;
      self := this;
    }

    /** `targetEntityId(targetEntityId)`: assigns the target entity id. */
    method SetTargetEntityId(id: NullableString) returns (self: Event<V, T>)
      modifies this
      ensures self == this && GetTargetEntityId() == id
      ensures Snapshot() == Apply(old(Snapshot()), Step.SetTargetEntityId(id))
    {
      targetEntityId := id;
      self := this;
    }

    /**
     * `property(key, value)`: binds `key` to `value` in the properties map,
     * replacing an earlier binding of `key`.
     */
    method PutProperty(key: Key, value: V) returns (self: Event<V, T>)
      modifies this
      ensures self == this
      ensures key in GetProperties() && GetProperties()[key] == value
      ensures Snapshot() == Apply(old(Snapshot()), Step.PutProperty(key, value))
    {
      properties := Put(properties, key, value);
      self := this;
    }

    /**
     * `properties(entries)`: merges `entries` into the properties map, its
     * bindings overriding existing ones. A `null` argument makes `putAll`
     * throw before it changes anything.
     */
    method PutProperties(entries: Option<map<Key, V>>) returns (r: Result<Event<V, T>, Thrown>)
      modifies this
      ensures entries.None? ==> r == Failure(NullPointerException) && Snapshot() == old(Snapshot())
      ensures entries.Some? ==> r == Success(this)
      ensures entries.Some? ==> properties.Keys == old(properties).Keys + entries.value.Keys
      ensures entries.Some? ==> forall k :: k in entries.value ==> properties[k] == entries.value[k]
      ensures entries.Some? ==> forall k :: k in old(properties) && k !in entries.value ==>
        properties[k] == old(properties)[k]
      ensures entries.Some? ==> Snapshot() == Apply(old(Snapshot()), Step.PutProperties(entries.value))
    {
      match entries
      case None =>
        r := Failure(NullPointerException);
      case Some(n) =>
        properties := PutAll(properties, n);
        r := Success(this);
    }

    /** `eventTime(eventTime)`: assigns the event time. */
    method SetEventTime(time: Option<T>) returns (self: Event<V, T>)
      modifies this
      ensures self == this && GetEventTime() == time
      ensures Snapshot() == Apply(old(Snapshot()), Step.SetEventTime(time))
    {
      eventTime := time;
      self := this;
    }
  }

  /**
   * The chain `new Event().event("$set").entityType("user").entityId("u1")
   * .property("age", age)`: every call returns the object it was called on,
   * the chain ends with exactly the fields it set, and the rest are `null`.
   */
  method BuildUserSetEvent<V, T>(age: V) returns (e: Event<V, T>)
    ensures e.GetEvent() == Some("$set")
    ensures e.GetEntityType() == Some("user") && e.GetEntityId() == Some("u1")
    ensures e.GetTargetEntityType() == None && e.GetTargetEntityId() == None
    ensures e.GetProperties() == map[Some("age") := age]
    ensures e.GetEventTime() == None
  {
    var created := new Event<V, T>();
    var e1 := created.SetEvent(Some("$set"));
    var e2 := e1.SetEntityType(Some("user"));
    var e3 := e2.SetEntityId(Some("u1"));
    e := e3.PutProperty(Some("age"), age);
    assert e == created;
  }
}
