/**
 * The object store the reconciler talks to through its embedded client: a
 * map from (kind, namespace, name) to objects, with get, create and update.
 * Which calls fail for reasons of the store itself (the network, the API
 * server) is an input: `faults` names the calls that fail and the error each
 * reports. Every call is appended to `journal`, so that what the reconciler
 * read and wrote, and in which order, can be stated.
 */
module Store {
  import opened Wrappers
  import opened Api

  datatype Verb = Get | Create | Update

  datatype Call = Call(verb: Verb, key: StoreKey)

  /** The store's state as a value. */
  datatype World = World(objects: map<StoreKey, Object>, faults: map<Call, ApiError>, journal: seq<Call>)

  /** Every object is filed under its own key. */
  predicate WellFormed(w: World)
  {
    forall k | k in w.objects :: w.objects[k].Key() == k
  }

  /** Record `call` in the journal. */
  function Log(w: World, call: Call): World
  {
    w.(journal := w.journal + [call])
  }

  /** `client.Get`: the object under `key`, or the call's fault, or NotFound. */
  function Fetch(w: World, key: StoreKey): (r: (Result<Object, ApiError>, World))
    ensures r.1 == Log(w, Call(Get, key))
    ensures r.0.Success? <==> key in w.objects && Call(Get, key) !in w.faults
    ensures r.0.Success? ==> r.0.value == w.objects[key]
    ensures Call(Get, key) in w.faults ==> r.0 == Failure(w.faults[Call(Get, key)])
    ensures r.0.Failure? && Call(Get, key) !in w.faults ==> r.0.error == NotFound(key)
  {
    var call := Call(Get, key);
    if call in w.faults then (Failure(w.faults[call]), Log(w, call))
    else if key in w.objects then (Success(w.objects[key]), Log(w, call))
    else (Failure(NotFound(key)), Log(w, call))
  }

  /** `client.Create`: file `obj` under its key unless something is already there. */
  function CreateStep(w: World, obj: Object): (r: (Outcome<ApiError>, World))
    ensures r.1.faults == w.faults && r.1.journal == w.journal + [Call(Create, obj.Key())]
    ensures r.0.Pass? <==> obj.Key() !in w.objects && Call(Create, obj.Key()) !in w.faults
    // a faulted call reports its fault; otherwise the only failure is a key already taken
    ensures r.0.Fail? ==>
      r.0.error == (if Call(Create, obj.Key()) in w.faults then w.faults[Call(Create, obj.Key())] else AlreadyExists(obj.Key()))
    ensures r.0.Pass? ==> r.1.objects == w.objects[obj.Key() := obj]
    ensures r.0.Fail? ==> r.1.objects == w.objects
    ensures WellFormed(w) ==> WellFormed(r.1)
  {
    var key := obj.Key();
    var call := Call(Create, key);
    if call in w.faults then (Fail(w.faults[call]), Log(w, call))
    else if key in w.objects then (Fail(AlreadyExists(key)), Log(w, call))
    else (Pass, Log(w, call).(objects := w.objects[key := obj]))
  }

  /** `client.Update`: replace the object filed under `obj`'s key, which must exist. */
  function UpdateStep(w: World, obj: Object): (r: (Outcome<ApiError>, World))
    ensures r.1.faults == w.faults && r.1.journal == w.journal + [Call(Update, obj.Key())]
    ensures r.0.Pass? <==> obj.Key() in w.objects && Call(Update, obj.Key()) !in w.faults
    // a faulted call reports its fault; otherwise the only failure is a key with nothing filed
    ensures r.0.Fail? ==>
      r.0.error == (if Call(Update, obj.Key()) in w.faults then w.faults[Call(Update, obj.Key())] else NotFound(obj.Key()))
    ensures r.0.Pass? ==> r.1.objects == w.objects[obj.Key() := obj]
    ensures r.0.Fail? ==> r.1.objects == w.objects
    ensures WellFormed(w) ==> WellFormed(r.1)
  {
    var key := obj.Key();
    var call := Call(Update, key);
    if call in w.faults then (Fail(w.faults[call]), Log(w, call))
    else if key !in w.objects then (Fail(NotFound(key)), Log(w, call))
    else (Pass, Log(w, call).(objects := w.objects[key := obj]))
  }

  /** The client the reconciler embeds; its methods change the store in place. */
  class Client {
    var objects: map<StoreKey, Object>
    var faults: map<Call, ApiError>
    var journal: seq<Call>

    function State(): World
      reads this
    {
      World(objects, faults, journal)
    }

    ghost predicate Valid()
      reads this
    {
      WellFormed(State())
    }

    constructor (objects: map<StoreKey, Object>, faults: map<Call, ApiError>)
      requires WellFormed(World(objects, faults, []))
      ensures Valid() && State() == World(objects, faults, [])
    {
      this.objects := objects;
      this.faults := faults;
      this.journal := [];
    }

    method Get(key: StoreKey) returns (r: Result<Object, ApiError>)
      requires Valid()
      modifies this
      ensures Valid()
      ensures (r, State()) == Fetch(old(State()), key)
    {
      var call := Call(Verb.Get, key);
      journal := journal + [call];
      if call in faults {
        r := Failure(faults[call]);
      } else if key in objects {
        r := Success(objects[key]);
      } else {
        r := Failure(NotFound(key));
      }
    }

    method Create(obj: Object) returns (r: Outcome<ApiError>)
      requires Valid()
      modifies this
      ensures Valid()
      ensures (r, State()) == CreateStep(old(State()), obj)
    {
      var call := Call(Verb.Create, obj.Key());
      journal := journal + [call];
      if call in faults {
        r := Fail(faults[call]);
      } else if obj.Key() in objects {
        r := Fail(AlreadyExists(obj.Key()));
      } else {
        objects := objects[obj.Key() := obj];
        r := Pass;
      }
    }

    method Update(obj: Object) returns (r: Outcome<ApiError>)
      requires Valid()
      modifies this
      ensures Valid()
      ensures (r, State()) == UpdateStep(old(State()), obj)
    {
      var call := Call(Verb.Update, obj.Key());
      journal := journal + [call];
      if call in faults {
        r := Fail(faults[call]);
      } else if obj.Key() !in objects {
        r := Fail(NotFound(obj.Key()));
      } else {
        objects := objects[obj.Key() := obj];
        r := Pass;
      }
    }
  }
}
