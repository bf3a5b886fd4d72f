/**
 * The per-class singleton cache: one dictionary, shared by every class that
 * uses it and keyed by the class, holding the one instance of each class.
 * singleton.py hooks `__new__`, so `__init__` still runs on every
 * construction; the metaclass of models.py hooks the whole call, so the
 * arguments of later calls are ignored.
 */
module Singletons {
  /** A class, by identity. */
  type ClassId = string

  /** An object; `initArgs` are the arguments its `__init__` last ran with. */
  class Instance {
    const cls: ClassId
    var initArgs: seq<string>

    constructor(c: ClassId, args: seq<string>)
      ensures cls == c && initArgs == args
    {
      cls := c;
      initArgs := args;
    }
  }

  class InstanceCache {
    /** `_instances`. */
    var instances: map<ClassId, Instance>

    /** Each stored instance belongs to the class it is stored under. */
    ghost predicate Valid()
      reads this
    {
      forall c :: c in instances ==> instances[c].cls == c
    }

    constructor()
      ensures instances == map[] && Valid()
    {
      instances := map[];
    }

    /** `Singleton(...)` for a subclass of singleton.py's `Singleton`:
        `__new__` creates and stores the instance the first time and returns
        the stored one afterwards; `__init__` then runs on it with this call's
        arguments. */
    method Construct(cls: ClassId, args: seq<string>) returns (o: Instance)
      requires Valid()
      modifies this, if cls in instances then {instances[cls]} else {}
      ensures Valid()
      ensures cls in old(instances) ==> o == old(instances)[cls] && instances == old(instances)
      ensures cls !in old(instances) ==> fresh(o) && instances == old(instances)[cls := o]
      ensures o.cls == cls && o.initArgs == args
      ensures forall c :: c in old(instances) ==> c in instances && instances[c] == old(instances)[c]
    {
      if cls !in instances {
        var created := new Instance(cls, []);
        instances := instances[cls := created];
      }
      o := instances[cls];
      o.initArgs := args;
    }

    /** A call of a class whose metaclass is models.py's `Singleton`: the
        first call constructs and initialises the instance with its arguments;
        later calls return it untouched. */
    method MetaCall(cls: ClassId, args: seq<string>) returns (o: Instance)
      requires Valid()
      modifies this
      ensures Valid()
      ensures cls in old(instances) ==> o == old(instances)[cls] && instances == old(instances)
      ensures cls !in old(instances) ==> fresh(o) && instances == old(instances)[cls := o] && o.initArgs == args
      ensures o.cls == cls
      ensures forall c :: c in old(instances) ==> c in instances && instances[c] == old(instances)[c]
    {
      if cls !in instances {
        var created := new Instance(cls, args);
        instances := instances[cls := created];
      }
      o := instances[cls];
    }
  }

  /** Two constructions of one class give the identical object; a second class
      gets an object of its own; and the second construction re-initialises the
      shared object with its own arguments. */
  method SameClassScenario() returns (first: Instance, second: Instance, other: Instance)
    ensures first == second && first != other
    ensures first.cls == "SingletonChild" && other.cls == "AnotherSingletonChild"
    ensures first.initArgs == ["b"]
  {
    var cache := new InstanceCache();
    first := cache.Construct("SingletonChild", ["a"]);
    second := cache.Construct("SingletonChild", ["b"]);
    other := cache.Construct("AnotherSingletonChild", []);
  }

  /** Under the metaclass, only the first call's arguments initialise the
      instance. */
  method MetaCallScenario() returns (first: Instance, second: Instance)
    ensures first == second && first.initArgs == ["a"]
  {
    var cache := new InstanceCache();
    first := cache.MetaCall("GlobalSettings", ["a"]);
    second := cache.MetaCall("GlobalSettings", ["b"]);
  }
}
