/** `EngineContainer` (GLAbstractions/EngineContainer.cs): a registry of one instance per service
    type, which also tracks the registered instances that are disposable. */
module Services {
  import opened Values

  /** `typeof(T)`: types are told apart by their full name; messages use the short `Name`. */
  datatype ServiceType = ServiceType(fullName: string, name: string)

  /** A registered instance: its identity and whether it implements `IDisposable`. */
  datatype Service = Service(id: nat, disposable: bool)

  /** One successful `RegisterSingleton<T>(instance)`. */
  datatype Registration = Registration(key: ServiceType, instance: Service)

  /** The registry that a sequence of registrations leaves: each type maps to the instance of
      its latest registration. */
  function Registry(log: seq<Registration>): map<ServiceType, Service>
    decreases |log|
  {
    if log == [] then map[]
    else
      var last := log[|log| - 1];
      Registry(log[..|log| - 1])[last.key := last.instance]
  }

  /** The disposables list that a sequence of registrations leaves: every disposable instance,
      once per registration, in registration order. */
  function Tracked(log: seq<Registration>): seq<Service>
    decreases |log|
  {
    if log == [] then []
    else
      var last := log[|log| - 1];
      Tracked(log[..|log| - 1]) + (if last.instance.disposable then [last.instance] else [])
  }

  /** A type is registered exactly when some registration names it. */
  lemma {:induction false} RegisteredIffNamed(log: seq<Registration>, t: ServiceType)
    ensures t in Registry(log) <==> exists i :: 0 <= i < |log| && log[i].key == t
    decreases |log|
  {
    if log != [] {
      var front := log[..|log| - 1];
      RegisteredIffNamed(front, t);
      if exists i :: 0 <= i < |front| && front[i].key == t {
        var i :| 0 <= i < |front| && front[i].key == t;
        assert log[i] == front[i];
      }
      if exists i :: 0 <= i < |log| && log[i].key == t {
        var i :| 0 <= i < |log| && log[i].key == t;
        if i < |front| {
          assert front[i] == log[i];
        }
      }
    }
  }

  /** The last registration for a type wins: `Get` returns its instance, whatever came before. */
  lemma {:induction false} LastRegistrationWins(log: seq<Registration>, i: nat)
    requires i < |log| && forall j :: i < j < |log| ==> log[j].key != log[i].key
    ensures log[i].key in Registry(log) && Registry(log)[log[i].key] == log[i].instance
    decreases |log|
  {
    if i < |log| - 1 {
      var front := log[..|log| - 1];
      assert front[i] == log[i];
      forall j | i < j < |front| ensures front[j].key != front[i].key {
        assert front[j] == log[j];
      }
      LastRegistrationWins(front, i);
    }
  }

  /** The instances of `log`, one per registration, in order. */
  function Instances(log: seq<Registration>): (xs: seq<Service>)
    ensures |xs| == |log| && forall i :: 0 <= i < |log| ==> xs[i] == log[i].instance
  {
    seq(|log|, i requires 0 <= i < |log| => log[i].instance)
  }

  /** The disposables list holds one entry per registration of a disposable instance, even when
      the registration replaced an earlier one, and nothing else. */
  lemma {:induction false} TrackedCounts(log: seq<Registration>, x: Service)
    ensures multiset(Tracked(log))[x] == if x.disposable then multiset(Instances(log))[x] else 0
    decreases |log|
  {
    if log != [] {
      var n := |log| - 1;
      var front := log[..n];
      TrackedCounts(front, x);
      assert Instances(log) == Instances(front) + [log[n].instance];
    }
  }

  class EngineContainer {
    var services: map<ServiceType, Service>
    var disposables: seq<Service>
    /** The registrations since construction or the last `Dispose`. */
    ghost var log: seq<Registration>

    ghost predicate Valid()
      reads this
    {
      services == Registry(log) && disposables == Tracked(log)
    }

    constructor ()
      ensures Valid() && log == [] && services == map[] && disposables == []
    {
      services := map[];
      disposables := [];
      log := [];
    }

    /** `RegisterSingleton<T>(instance)`: null throws and changes nothing; otherwise the instance
        replaces any earlier one for `t`, and a disposable one is appended to the list. */
    method RegisterSingleton(t: ServiceType, instance: Option<Service>) returns (o: Outcome)
      requires Valid()
      modifies this
      ensures Valid()
      ensures instance.None? ==> && o == Fail(ArgumentNull("instance")) && log == old(log)
                                 && services == old(services) && disposables == old(disposables)
      ensures instance.Some? ==> && o == Pass && log == old(log) + [Registration(t, instance.value)]
                                 && services == old(services)[t := instance.value]
                                 && disposables == old(disposables) + (if instance.value.disposable then [instance.value] else [])
    {
      if instance.None? {
        return Fail(ArgumentNull("instance"));
      }
      var x := instance.value;
      log := log + [Registration(t, x)];
      assert log[..|log| - 1] == old(log);
      services := services[t := x];
      if x.disposable {
        disposables := disposables + [x];
      }
      o := Pass;
    }

    /** `Get<T>()`: the instance registered for `t`; an unregistered type throws. */
    method Get(t: ServiceType) returns (r: Result<Service>)
      requires Valid()
      ensures r.Success? <==> exists i :: 0 <= i < |log| && log[i].key == t
      ensures r.Success? ==> t in Registry(log) && r.value == Registry(log)[t]
      ensures r.Failure? ==> r.error == InvalidOperation(ServiceNotRegistered(t.name))
    {
      RegisteredIffNamed(log, t);
      if t !in services {
        return Failure(InvalidOperation(ServiceNotRegistered(t.name)));
      }
      return Success(services[t]);
    }

    /** `TryGet<T>(out service)`: true with the instance when `t` is registered, false with the
        default value otherwise. */
    method TryGet(t: ServiceType) returns (found: bool, service: Option<Service>)
      requires Valid()
      ensures found <==> exists i :: 0 <= i < |log| && log[i].key == t
      ensures found ==> t in Registry(log) && service == Some(Registry(log)[t])
      ensures !found ==> service == None
    {
      RegisteredIffNamed(log, t);
      if t in services {
        return true, Some(services[t]);
      }
      return false, None;
    }

    /** `Dispose()`: every entry of the disposables list is disposed, in registration order (an
        instance registered twice is disposed twice); then both collections are emptied, so
        that every later `Get` throws. */
    method Dispose() returns (disposed: seq<Service>)
      requires Valid()
      modifies this
      ensures Valid() && log == [] && services == map[] && disposables == []
      ensures disposed == old(disposables)
    {
      disposed := [];
      var i := 0;
      while i < |disposables|
        invariant 0 <= i <= |disposables|
        invariant disposed == disposables[..i]
      {
        disposed := disposed + [disposables[i]];
        i := i + 1;
      }
      assert disposables[..i] == disposables;
      disposables := [];
      services := map[];
      log := [];
    }
  }
}
