/**
 * What a chain of builder calls leaves in an `Event`: every scalar field
 * holds the value of the last call that assigned it, every property key the
 * value of the last call that bound it, and whatever no call touched keeps
 * its value.
 */
module EventLaws {
  import opened Wrappers
  import opened PropertyMap
  import opened EventSpec

  /**
   * One call assigns exactly the field it names: that field reads the
   * argument, every other scalar field is unchanged.
   */
  lemma ApplyAssignsOnlyItsField<V, T>(f: Fields<V, T>, step: Step<V, T>, field: Field)
    ensures Writes(step, field).Some? ==> Read(Apply(f, step), field) == Writes(step, field).value
    ensures Writes(step, field).None? ==> Read(Apply(f, step), field) == Read(f, field)
  {
  }

  /**
   * One call binds exactly the property keys it names: `put(k, v)` binds `k`,
   * `putAll(n)` the keys of `n`; every other key keeps its binding or its absence.
   */
  lemma ApplyBindsOnlyItsKeys<V, T>(f: Fields<V, T>, step: Step<V, T>, k: Key)
    ensures WritesKey(step, k).Some? ==>
      k in Apply(f, step).properties && Apply(f, step).properties[k] == WritesKey(step, k).value
    ensures WritesKey(step, k).None? ==>
      (k in Apply(f, step).properties <==> k in f.properties) &&
      (k in f.properties ==> Apply(f, step).properties[k] == f.properties[k])
  {
  }

  /** Last write wins: a field reads the value of the last call that assigned it. */
  lemma {:induction false} LastWriteWins<V, T>(f: Fields<V, T>, steps: seq<Step<V, T>>, field: Field, i: nat)
    requires i < |steps| && Writes(steps[i], field).Some?
    requires forall j :: i < j < |steps| ==> Writes(steps[j], field).None?
    ensures Read(Run(f, steps), field) == Writes(steps[i], field).value
    decreases |steps|
  {
    var last := |steps| - 1;
    var prefix := steps[..last];
    ApplyAssignsOnlyItsField(Run(f, prefix), steps[last], field);
    if i < last {
      LastWriteWins(f, prefix, field, i);
    }
  }

  /** A field that no call in the chain assigns keeps its value. */
  lemma {:induction false} UnassignedFieldKept<V, T>(f: Fields<V, T>, steps: seq<Step<V, T>>, field: Field)
    requires forall j :: 0 <= j < |steps| ==> Writes(steps[j], field).None?
    ensures Read(Run(f, steps), field) == Read(f, field)
    decreases |steps|
  {
    if steps != [] {
      var last := |steps| - 1;
      ApplyAssignsOnlyItsField(Run(f, steps[..last]), steps[last], field);
      UnassignedFieldKept(f, steps[..last], field);
    }
  }

  /**
   * Last write wins for properties: a key is bound to the value that the last
   * `property` or `properties` call binding it gave it.
   */
  lemma {:induction false} LastKeyWriteWins<V, T>(f: Fields<V, T>, steps: seq<Step<V, T>>, k: Key, i: nat)
    requires i < |steps| && WritesKey(steps[i], k).Some?
    requires forall j :: i < j < |steps| ==> WritesKey(steps[j], k).None?
    ensures k in Run(f, steps).properties
    ensures Run(f, steps).properties[k] == WritesKey(steps[i], k).value
    decreases |steps|
  {
    var last := |steps| - 1;
    var prefix := steps[..last];
    ApplyBindsOnlyItsKeys(Run(f, prefix), steps[last], k);
    if i < last {
      LastKeyWriteWins(f, prefix, k, i);
    }
  }

  /** A property key that no call in the chain binds keeps its binding, or stays absent. */
  lemma {:induction false} UnboundKeyKept<V, T>(f: Fields<V, T>, steps: seq<Step<V, T>>, k: Key)
    requires forall j :: 0 <= j < |steps| ==> WritesKey(steps[j], k).None?
    ensures k in Run(f, steps).properties <==> k in f.properties
    ensures k in f.properties ==> Run(f, steps).properties[k] == f.properties[k]
    decreases |steps|
  {
    if steps != [] {
      var last := |steps| - 1;
      ApplyBindsOnlyItsKeys(Run(f, steps[..last]), steps[last], k);
      UnboundKeyKept(f, steps[..last], k);
    }
  }

  /**
   * On a new `Event`, a field that no call assigned reads `null`, and a
   * property key that no call bound is absent.
   */
  lemma {:induction false} FreshEventUnset<V, T>(steps: seq<Step<V, T>>, field: Field, k: Key)
    ensures (forall j :: 0 <= j < |steps| ==> Writes(steps[j], field).None?) ==>
      Read(Run(Initial(), steps), field) == Read(Initial<V, T>(), field)
    ensures (forall j :: 0 <= j < |steps| ==> WritesKey(steps[j], k).None?) ==>
      k !in Run(Initial(), steps).properties
  {
    if forall j :: 0 <= j < |steps| ==> Writes(steps[j], field).None? {
      UnassignedFieldKept(Initial(), steps, field);
    }
    if forall j :: 0 <= j < |steps| ==> WritesKey(steps[j], k).None? {
      UnboundKeyKept(Initial(), steps, k);
    }
  }

  /** Scalar setters never touch the properties map. */
  lemma {:induction false} SettersKeepProperties<V, T>(f: Fields<V, T>, steps: seq<Step<V, T>>)
    requires forall j :: 0 <= j < |steps| ==> !steps[j].PutProperty? && !steps[j].PutProperties?
    ensures Run(f, steps).properties == f.properties
    decreases |steps|
  {
    if steps != [] {
      SettersKeepProperties(f, steps[..|steps| - 1]);
    }
  }
}
