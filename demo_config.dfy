/** The demo application's shared `Config`: a process-wide single instance
    holding `bad_ratio` (bad logs per ten) and the callbacks told of every
    change. Callbacks are identified by a number, as Python compares the
    callables by identity; calling one is recorded, not performed. */
module DemoConfig {
  import opened Counting

  const DEFAULT_BAD_RATIO: int := 2
  const RATIO_ERROR := "bad_ratio must be an integer between 0 and 10"

  type Callback = nat

  /** The value handed to the setter. `bool` is a subclass of `int` in
      Python, so it passes the type check. */
  datatype PyValue = PyInt(i: int) | PyBool(b: bool) | PyOther

  function IntValue(v: PyValue): int
    requires !v.PyOther?
  {
    match v
    case PyInt(i) => i
    case PyBool(b) => if b then 1 else 0
  }

  /** `isinstance(value, int) and 0 <= value <= 10`. */
  predicate ValidRatio(v: PyValue) {
    !v.PyOther? && 0 <= IntValue(v) <= 10
  }

  datatype Call = Call(callback: Callback, value: int)

  /** What the setter does: the ValueError, or the calls it makes. */
  datatype SetOutcome = Stored(calls: seq<Call>) | ValueError(message: string)

  /** One call per registered callback, in registration order, each with the
      new value. */
  function Notifications(callbacks: seq<Callback>, value: int): (r: seq<Call>)
    ensures |r| == |callbacks|
    ensures forall k :: 0 <= k < |r| ==> r[k] == Call(callbacks[k], value)
  {
    if callbacks == [] then []
    else Notifications(callbacks[..|callbacks| - 1], value) + [Call(callbacks[|callbacks| - 1], value)]
  }

  /** Without its first occurrence of `cb`, as `list.remove` leaves it. */
  function Unregistered(callbacks: seq<Callback>, cb: Callback): seq<Callback> {
    if cb in callbacks then
      var i := FirstIndex(callbacks, cb);
      callbacks[..i] + callbacks[i + 1..]
    else callbacks
  }

  /** Registering keeps the list free of repeats and adds the callback at
      the end exactly when it was missing. */
  lemma RegisteredSpec(callbacks: seq<Callback>, cb: Callback)
    requires Distinct(callbacks)
    ensures var r := if cb in callbacks then callbacks else callbacks + [cb];
      Distinct(r) && (forall x :: x in r <==> x in callbacks || x == cb)
  {
  }

  /** Unregistering removes exactly that callback, keeps the others in order
      and does nothing when it is absent. */
  lemma {:induction false} UnregisteredSpec(callbacks: seq<Callback>, cb: Callback)
    requires Distinct(callbacks)
    ensures Distinct(Unregistered(callbacks, cb))
    ensures forall x :: x in Unregistered(callbacks, cb) <==> x in callbacks && x != cb
    ensures cb !in callbacks ==> Unregistered(callbacks, cb) == callbacks
    ensures cb in callbacks ==> |Unregistered(callbacks, cb)| == |callbacks| - 1
  {
    if cb in callbacks {
      var i := FirstIndex(callbacks, cb);
      var r := callbacks[..i] + callbacks[i + 1..];
      assert forall k :: 0 <= k < |r| ==> r[k] == callbacks[if k < i then k else k + 1];
      forall x
        ensures x in r <==> x in callbacks && x != cb
      {
        if x in callbacks && x != cb {
          var j :| 0 <= j < |callbacks| && callbacks[j] == x;
          assert j != i;
          assert r[if j < i then j else j - 1] == x;
        }
      }
    }
  }

  /** The `Config` object. */
  class Config {
    var badRatio: int
    var callbacks: seq<Callback>

    ghost predicate Valid()
      reads this
    {
      0 <= badRatio <= 10 && Distinct(callbacks)
    }

    /** The body of `__new__` run for the first instance. */
    constructor()
      ensures Valid()
      ensures badRatio == DEFAULT_BAD_RATIO && callbacks == []
    {
      badRatio := DEFAULT_BAD_RATIO;
      callbacks := [];
    }

    /** The `bad_ratio` setter: an invalid value raises and changes nothing;
        a valid one is stored, then every callback is called once with it,
        in registration order. */
    method SetBadRatio(v: PyValue) returns (r: SetOutcome)
      requires Valid()
      modifies this
      ensures Valid()
      ensures !ValidRatio(v) ==> r == ValueError(RATIO_ERROR) && badRatio == old(badRatio)
      ensures ValidRatio(v) ==> badRatio == IntValue(v) && r == Stored(Notifications(callbacks, IntValue(v)))
      ensures callbacks == old(callbacks)
    {
      if !ValidRatio(v) {
        return ValueError(RATIO_ERROR);
      }
      var value := IntValue(v);
      badRatio := value;
      var calls: seq<Call> := [];
      for k := 0 to |callbacks|
        invariant calls == Notifications(callbacks[..k], value)
      {
        assert callbacks[..k + 1][..k] == callbacks[..k];
        calls := calls + [Call(callbacks[k], value)];
      }
      assert callbacks[..|callbacks|] == callbacks;
      r := Stored(calls);
    }

    /** `register_callback`. */
    method RegisterCallback(cb: Callback)
      requires Valid()
      modifies this
      ensures Valid()
      ensures callbacks == if cb in old(callbacks) then old(callbacks) else old(callbacks) + [cb]
      ensures badRatio == old(badRatio)
    {
      RegisteredSpec(callbacks, cb);
      if cb !in callbacks {
        callbacks := callbacks + [cb];
      }
    }

    /** `unregister_callback`. */
    method UnregisterCallback(cb: Callback)
      requires Valid()
      modifies this
      ensures Valid()
      ensures callbacks == Unregistered(old(callbacks), cb)
      ensures badRatio == old(badRatio)
    {
      UnregisteredSpec(callbacks, cb);
      if cb in callbacks {
        var i := FirstIndex(callbacks, cb);
        callbacks := callbacks[..i] + callbacks[i + 1..];
      }
    }
  }

  /** The class attribute `_instance` behind `Config()`. */
  class ConfigHolder {
    var instance: Config?

    constructor()
      ensures instance == null
    {
      instance := null;
    }

    /** `Config()`: the first call creates the instance with the defaults;
        every later call returns that same object, untouched. */
    method GetConfig() returns (c: Config)
      modifies this
      ensures old(instance) != null ==> c == old(instance) && unchanged(c)
      ensures old(instance) == null ==> fresh(c) && c.Valid() && c.badRatio == DEFAULT_BAD_RATIO && c.callbacks == []
      ensures instance == c
    {
      if instance == null {
        instance := new Config();
      }
      c := instance;
    }
  }
}
