/**
 The delegate entry point: `run` on a calling class, whose first argument
 names the feature class to build and whose remaining arguments make up the
 payload. The named class is given by its descriptor.
 */
module RunsFeatures {
  import opened PhpValues
  import opened ObjectBuilder
  import AsAction

  /** The payload handed to the builder: the default empty array when only
      the class is given, the second argument itself when there are two,
      and otherwise every argument after the class, re-indexed by
      `array_shift`. */
  function Payload(args: seq<Value>): (data: Value)
    requires |args| >= 1
    ensures |args| == 1 ==> data == Arr([])
    ensures |args| == 2 ==> data == args[1]
    ensures |args| > 2 ==> data.Arr? && IsList(data.entries) && Values(data.entries) == args[1..]
  {
    if |args| > 2 then
      var all := ListOf(args);
      ShiftOfList(all);
      assert Values(all) == args;
      Arr(Shift(all))
    else if |args| == 2 then args[1]
    else Arr([])
  }

  /** `run`: builds the class named by the first argument and calls its
      `handle` method. */
  function Run(target: ClassDesc, args: seq<Value>): (r: Result<Invocation>)
    requires |args| >= 1 && args[0] == Str(target.name)
    ensures r.Success? ==> r.value.target == target.name && r.value.meth == DefaultMethod
    ensures !HasMethod(target, DefaultMethod) ==> r == Failure(MethodMissing(DefaultMethod))
    ensures HasMethod(target, DefaultMethod) ==> (r.Success? <==> Build(target, Payload(args)).Success?)
    ensures r.Success? ==> r.value.ctorArgs == Build(target, Payload(args)).value
    ensures HasMethod(target, DefaultMethod) && r.Failure? ==> r.error == Build(target, Payload(args)).error
  {
    ObjectBuilder.Run(target, Payload(args))
  }

  /** Dropping the class argument leaves exactly the self-action payload of
      the remaining arguments. */
  lemma PayloadIsActionPayloadOfRest(args: seq<Value>)
    requires |args| >= 1
    ensures Payload(args) == AsAction.Payload(args[1..])
  {
    if |args| > 2 {
      ListOfValues(Payload(args).entries);
      ListOfValues(AsAction.Payload(args[1..]).entries);
    }
  }

  /** Calling a feature through the delegate gives the same outcome as the
      feature's own self-action `run` with the arguments after the class. */
  lemma DelegateRunMatchesSelfRun(target: ClassDesc, args: seq<Value>)
    requires |args| >= 1 && args[0] == Str(target.name)
    ensures Run(target, args) == AsAction.Run(target, args[1..])
  {
    PayloadIsActionPayloadOfRest(args);
  }

  /** A call with more than two arguments gives a list payload (the class
      argument is gone and `array_shift` has re-indexed the rest), so it is
      never name-mapped: the remaining arguments reach the constructor in
      order, or together as one array when it takes a lone `array`. */
  lemma VariadicCallIsPositional(target: ClassDesc, args: seq<Value>)
    requires |args| > 2 && HasMethod(target, Constructor)
    ensures Classify(Payload(args)) == ListArray
    ensures TakesSingleArray(target) ==>
              Build(target, Payload(args)) == Success([Entry(IntKey(0), Arr(ListOf(args[1..])))])
    ensures var ps := target.methods[Constructor];
            |ps| != 1 || (ps[0].typ.Named? && ps[0].typ.name != ArrayTypeName) ==>
              && Build(target, Payload(args)).Success?
              && Values(Build(target, Payload(args)).value) == args[1..]
  {
    PayloadIsActionPayloadOfRest(args);
    AsAction.MultiArgumentCallIsPositional(target, args[1..]);
  }
}
