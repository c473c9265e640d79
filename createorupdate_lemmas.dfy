/**
 * Properties of `ctrl.CreateOrUpdate` on store values, for any callback:
 * what it reads and writes, when it succeeds, and when a repeat writes
 * nothing.
 */
module CreateOrUpdateProperties {
  import opened Wrappers
  import opened Api
  import opened Store
  import opened Controllers

  /** No call on `key` fails for reasons of the store. */
  predicate Reliable(w: World, key: StoreKey)
  {
    Call(Get, key) !in w.faults && Call(Create, key) !in w.faults && Call(Update, key) !in w.faults
  }

  /** One round of CreateOrUpdate's calls on `key`: the read, then perhaps one write. */
  predicate Round(calls: seq<Call>, key: StoreKey)
  {
    || calls == [Call(Get, key)]
    || calls == [Call(Get, key), Call(Create, key)]
    || calls == [Call(Get, key), Call(Update, key)]
  }

  /**
   * From `w` to `w'` the store made one round of calls on `key` and changed
   * no object filed under another key.
   */
  ghost predicate Touches(w: World, w': World, key: StoreKey)
  {
    && |w.journal| < |w'.journal|
    && w'.journal[..|w.journal|] == w.journal
    && Round(w'.journal[|w.journal|..], key)
    && (forall k | k != key :: (k in w'.objects <==> k in w.objects) && (k in w.objects ==> w'.objects[k] == w.objects[k]))
  }

  /** What CreateOrUpdate reports when the callback turned the object at `key` into `m`. */
  function Op(w: World, key: StoreKey, m: Object): OperationResult
  {
    if key !in w.objects then Created else if w.objects[key] == m then Unchanged else Updated
  }

  /** The write CreateOrUpdate makes for `op`. */
  function Writes(op: OperationResult, key: StoreKey): seq<Call>
  {
    match op
    case Created => [Call(Create, key)]
    case Updated => [Call(Update, key)]
    case Unchanged => []
  }

  /**
   * On success CreateOrUpdate reports Created exactly when the key was
   * missing and Unchanged exactly when the callback returned the live object
   * as it was, and the journal holds the read and exactly the write the
   * reported result names (none for Unchanged).
   */
  lemma CreateOrUpdateOutcome(w: World, obj: Object, f: MutateFn)
    requires WellFormed(w) && AppliesTo(f, obj.Kind())
    ensures var (op, w') := CreateOrUpdateSpec(w, obj, f);
      var key := obj.Key();
      var m := Mutate(f, key, Base(w, obj));
      op.Success? ==>
        && (op.value == Created <==> key !in w.objects)
        && (op.value == Unchanged <==> key in w.objects && w.objects[key] == m.value)
        && op.value == Op(w, key, m.value)
        && w'.journal == w.journal + [Call(Get, key)] + Writes(op.value, key)
  {
    var key := obj.Key();
    var w1 := Log(w, Call(Get, key));
    if Call(Get, key) !in w.faults && key in w.objects {
      var m := Mutate(f, key, w.objects[key]);
      if m.Success? && m.value != w.objects[key] {
        var w2 := UpdateStep(w1, m.value).1;
        assert w2.journal == w.journal + [Call(Get, key), Call(Update, key)];
      }
    } else if Call(Get, key) in w.faults && !w.faults[Call(Get, key)].NotFound? {
    } else {
      var m := Mutate(f, key, obj);
      if m.Success? {
        var w2 := CreateStep(w1, m.value).1;
        assert w2.journal == w.journal + [Call(Get, key), Call(Create, key)];
      }
    }
  }


  /**
   * The error a failed CreateOrUpdate returns: a fault on the read other than
   * NotFound; otherwise the callback's own error or KeyMutated on the object
   * it was given; otherwise the write's error. A live object is only written by
   * Update, so that write cannot report a missing key; a blank one is written by
   * Create, which reports AlreadyExists only when the read's NotFound was itself
   * a fault.
   */
  lemma CreateOrUpdateFails(w: World, obj: Object, f: MutateFn)
    requires WellFormed(w) && AppliesTo(f, obj.Kind())
    requires CreateOrUpdateSpec(w, obj, f).0.Failure?
    ensures var e := CreateOrUpdateSpec(w, obj, f).0.error;
      var key := obj.Key();
      && (Call(Get, key) in w.faults && !w.faults[Call(Get, key)].NotFound? ==> e == w.faults[Call(Get, key)])
      && (Call(Get, key) !in w.faults && key in w.objects ==>
            || (Mutate(f, key, w.objects[key]).Failure? && e == Mutate(f, key, w.objects[key]).error)
            || (Call(Update, key) in w.faults && e == w.faults[Call(Update, key)]))
      && (Call(Get, key) !in w.faults && key !in w.objects ==>
            || (Mutate(f, key, obj).Failure? && e == Mutate(f, key, obj).error)
            || (Call(Create, key) in w.faults && e == w.faults[Call(Create, key)]))
      && (Call(Get, key) in w.faults && w.faults[Call(Get, key)].NotFound? ==>
            || (Mutate(f, key, obj).Failure? && e == Mutate(f, key, obj).error)
            || (Call(Create, key) in w.faults && e == w.faults[Call(Create, key)])
            || (key in w.objects && e == AlreadyExists(key)))
  {
  }

  /** The calls CreateOrUpdate makes stay on its key, and other keys keep their objects. */
  lemma CreateOrUpdateTouches(w: World, obj: Object, f: MutateFn)
    requires WellFormed(w) && AppliesTo(f, obj.Kind())
    ensures Touches(w, CreateOrUpdateSpec(w, obj, f).1, obj.Key())
  {
    CreateOrUpdateLog(w, obj, f);
  }

  /** Whatever CreateOrUpdate returns, it made one round of calls on the key. */
  lemma CreateOrUpdateLog(w: World, obj: Object, f: MutateFn)
    requires WellFormed(w) && AppliesTo(f, obj.Kind())
    ensures var w' := CreateOrUpdateSpec(w, obj, f).1;
      || w'.journal == w.journal + [Call(Get, obj.Key())]
      || w'.journal == w.journal + [Call(Get, obj.Key()), Call(Create, obj.Key())]
      || w'.journal == w.journal + [Call(Get, obj.Key()), Call(Update, obj.Key())]
  {
    var key := obj.Key();
    var w1 := Log(w, Call(Get, key));
    if Call(Get, key) !in w.faults && key in w.objects {
      var m := Mutate(f, key, w.objects[key]);
      if m.Success? && m.value != w.objects[key] {
        assert UpdateStep(w1, m.value).1.journal == w.journal + [Call(Get, key), Call(Update, key)];
      }
    } else if Call(Get, key) in w.faults && !w.faults[Call(Get, key)].NotFound? {
    } else {
      var m := Mutate(f, key, obj);
      if m.Success? {
        assert CreateStep(w1, m.value).1.journal == w.journal + [Call(Get, key), Call(Create, key)];
      }
    }
  }

  /** CreateOrUpdate succeeds when the store answers every call on the key and the callback succeeds. */
  lemma CreateOrUpdateReliable(w: World, obj: Object, f: MutateFn)
    requires WellFormed(w) && AppliesTo(f, obj.Kind())
    requires Reliable(w, obj.Key()) && Mutate(f, obj.Key(), Base(w, obj)).Success?
    ensures CreateOrUpdateSpec(w, obj, f).0.Success?
  {
  }

  /**
   * Once CreateOrUpdate has succeeded, running it again with a callback that
   * leaves its own output alone reads the key and writes nothing.
   */
  lemma CreateOrUpdateSettles(w: World, obj: Object, f: MutateFn)
    requires WellFormed(w) && AppliesTo(f, obj.Kind())
    requires Call(Get, obj.Key()) !in w.faults
    requires CreateOrUpdateSpec(w, obj, f).0.Success?
    requires var m := Mutate(f, obj.Key(), Base(w, obj));
      m.Success? ==> Mutate(f, obj.Key(), m.value) == m
    ensures var w1 := CreateOrUpdateSpec(w, obj, f).1;
      CreateOrUpdateSpec(w1, obj, f) == (Success(Unchanged), Log(w1, Call(Get, obj.Key())))
  {
  }

  /** When the callback returns the live object as it is, CreateOrUpdate reads the key and writes nothing. */
  lemma CreateOrUpdateUnchanged(w: World, obj: Object, f: MutateFn)
    requires WellFormed(w) && AppliesTo(f, obj.Kind())
    requires Call(Get, obj.Key()) !in w.faults && obj.Key() in w.objects
    requires Mutate(f, obj.Key(), w.objects[obj.Key()]) == Success(w.objects[obj.Key()])
    ensures CreateOrUpdateSpec(w, obj, f) == (Success(Unchanged), Log(w, Call(Get, obj.Key())))
  {
  }
}
