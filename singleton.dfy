/** The Singleton script (singleton.py): class `A` hands out one lazily made
    instance through `get_instance` and refuses direct construction; class
    `B` gets the same behaviour from the metaclass `Singleton`. Python's
    class-level slots (`A._instance`, `B._instaance`) are modelled as the
    field of an object standing for the class itself. */
module Singletons {
  import opened Results

  /** An instance of `A`. It has no state of its own. */
  class A {
  }

  /** An instance of `B`. It has no state of its own. */
  class B {
  }

  /** The exceptions the two singletons can raise. */
  datatype SingletonError = RuntimeError(message: string) | TypeError(message: string)

  const DirectConstructionMessage: string :=
    "This class cannot be instantiated directly. Use the get_instance method."

  /** The class object `A`, holding the class attribute `_instance`. */
  class AClass {
    /** `A._instance`; `None` until the first `get_instance`. */
    var instance: Option<A>

    /** The class as defined: the slot starts empty. */
    constructor ()
      ensures instance == None
    {
      instance := None;
    }

    /** The call `A()`: `A.__init__` raises RuntimeError, whatever the slot
        holds, and the slot is left as it was. */
    method Construct() returns (r: Result<A, SingletonError>)
      ensures r == Failure(RuntimeError(DirectConstructionMessage))
    {
      // `__new__` allocates the object; `__init__` then raises.
      var discarded := new A;
      r := Failure(RuntimeError(DirectConstructionMessage));
    }

    /** `A.get_instance`: on the first call, make an instance with
        `__new__` alone (so `__init__` does not run and cannot raise) and
        store it; on every call, return the stored instance. */
    method GetInstance() returns (r: A)
      modifies this
      ensures instance == Some(r)
      ensures old(instance).Some? ==> r == old(instance).value
      ensures old(instance).None? ==> fresh(r)
    {
      if instance.None? {
        var created := new A;
        instance := Some(created);
      }
      r := instance.value;
    }
  }

  /** The module-level calls `one = A.get_instance(); two = A.get_instance()`:
      both give the same object, whatever the slot held before. */
  method TwoGetInstances(cls: AClass) returns (one: A, two: A)
    modifies cls
    ensures one == two
    ensures cls.instance == Some(one)
    ensures old(cls.instance).Some? ==> one == old(cls.instance).value
  {
    one := cls.GetInstance();
    two := cls.GetInstance();
  }

  const NoArgumentsMessage: string := "B() takes no arguments"

  /** The class `B` as built by the metaclass `Singleton`, holding the slot
      `_instaance` that `Singleton.__call__` reads and fills. */
  class BClass {
    /** `B._instaance`; `None` until the first successful `B()`. */
    var instaance: Option<B>

    /** The class as defined: the slot starts empty. */
    constructor ()
      ensures instaance == None
    {
      instaance := None;
    }

    /** `Singleton.__call__` for `B(...)` with `argCount` positional and
        keyword arguments. With the slot empty it runs the ordinary
        construction, which fails with TypeError when arguments are given
        because `B` declares no `__init__`, and otherwise stores the new
        instance. With the slot filled it returns the stored instance and
        ignores the arguments. */
    method Call(argCount: nat) returns (r: Result<B, SingletonError>)
      modifies this
      ensures old(instaance).Some? ==>
                r == Success(old(instaance).value) && instaance == old(instaance)
      ensures old(instaance).None? && argCount == 0 ==>
                r.Success? && fresh(r.value) && instaance == Some(r.value)
      ensures old(instaance).None? && argCount > 0 ==>
                r == Failure(TypeError(NoArgumentsMessage)) && instaance == None
    {
      if instaance.None? {
        if argCount > 0 {
          r := Failure(TypeError(NoArgumentsMessage));
          return;
        }
        var created := new B;
        instaance := Some(created);
      }
      r := Success(instaance.value);
    }
  }

  /** The module-level calls `three = B(); four = B()`: both give the same
      object, whatever the slot held before. */
  method TwoCalls(cls: BClass) returns (three: B, four: B)
    modifies cls
    ensures three == four
    ensures cls.instaance == Some(three)
    ensures old(cls.instaance).Some? ==> three == old(cls.instaance).value
  {
    var r3 := cls.Call(0);
    var r4 := cls.Call(0);
    three, four := r3.value, r4.value;
  }
}
