/**
 The self-action entry point: a static `run` on the host class that builds
 the host itself and calls its `handle` method. The call's arguments are
 given explicitly, in call order.
 */
module AsAction {
  import opened PhpValues
  import opened ObjectBuilder

  /** The payload the host's `run` hands to the builder: the default empty
      array for no argument, the argument itself for one, and the list of
      all arguments for more. */
  function Payload(args: seq<Value>): (data: Value)
    ensures |args| == 0 ==> data == Arr([])
    ensures |args| == 1 ==> data == args[0]
    ensures |args| >= 2 ==> data.Arr? && IsList(data.entries) && Values(data.entries) == args
  {
    if |args| > 1 then Arr(ListOf(args))
    else if |args| == 1 then args[0]
    else Arr([])
  }

  /** The static `run`: builds the host class itself and calls `handle`. */
  function Run(host: ClassDesc, args: seq<Value>): (r: Result<Invocation>)
    ensures r.Success? ==> r.value.target == host.name && r.value.meth == DefaultMethod
    ensures !HasMethod(host, DefaultMethod) ==> r == Failure(MethodMissing(DefaultMethod))
    ensures HasMethod(host, DefaultMethod) ==> (r.Success? <==> Build(host, Payload(args)).Success?)
    ensures r.Success? ==> r.value.ctorArgs == Build(host, Payload(args)).value
    ensures HasMethod(host, DefaultMethod) && r.Failure? ==> r.error == Build(host, Payload(args)).error
  {
    ObjectBuilder.Run(host, Payload(args))
  }

  /** A call with two or more arguments gives a list payload, so it is never
      name-mapped: the arguments reach the constructor in call order, or
      all together as one array argument when the constructor's only
      parameter is an `array`. */
  lemma MultiArgumentCallIsPositional(host: ClassDesc, args: seq<Value>)
    requires |args| >= 2 && HasMethod(host, Constructor)
    ensures Classify(Payload(args)) == ListArray
    ensures TakesSingleArray(host) ==> Build(host, Payload(args)) == Success([Entry(IntKey(0), Arr(ListOf(args)))])
    ensures var ps := host.methods[Constructor];
            |ps| != 1 || (ps[0].typ.Named? && ps[0].typ.name != ArrayTypeName) ==>
              && Build(host, Payload(args)).Success?
              && Values(Build(host, Payload(args)).value) == args
  {
    UnmappedArrayIsWrappedOrPassedThrough(host, Payload(args));
  }

  /** A single falsy argument (0, false, "", "0", null or []) is treated as
      no payload at all: the host is built with no constructor arguments. */
  lemma SingleFalsyArgumentIsDropped(host: ClassDesc, v: Value)
    requires IsFalsy(v) && HasMethod(host, DefaultMethod)
    ensures Run(host, [v]) == Success(Invocation(host.name, [], DefaultMethod))
  {
  }
}
