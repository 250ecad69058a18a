/**
 The argument-shaping core of the object builder. The class being built is
 described explicitly instead of being inspected by reflection; `Build`
 turns a loosely typed payload into the argument array the constructor
 would receive, and `Run` adds the check that the method to invoke exists.
 */
module ObjectBuilder {
  import opened PhpValues

  const Constructor := "__construct"
  const DefaultMethod := "handle"
  const ArrayTypeName := "array"

  /** The declared type of a parameter: none, a single named type, or a
      union/intersection type (which has no single name). */
  datatype TypeTag = Untyped | Named(name: string) | Composite

  /** A declared parameter; `default` is its default value, if it has one. */
  datatype Param = Param(name: string, typ: TypeTag, default: Option<Value>)

  /** What reflection reveals about a class: its name and, for every method
      it has, the method's parameters in declaration order. The class has a
      constructor exactly when `Constructor` is one of its methods. */
  datatype ClassDesc = ClassDesc(name: string, methods: map<string, seq<Param>>)

  datatype BuildError =
    | MethodMissing(meth: string)
    | RequiredAttributeMissing(param: string, meth: string)
      // PHP's own error when a lone constructor parameter has no single type name
    | ParamTypeHasNoName(param: string)

  datatype Result<+T> = Success(value: T) | Failure(error: BuildError)

  /** The four payload shapes the builder distinguishes. */
  datatype Shape = Falsy | NonArray | ListArray | KeyedArray

  /** What a successful run amounts to: which class is built, with which
      constructor arguments, and which method is then called. */
  datatype Invocation = Invocation(target: string, ctorArgs: PhpArray, meth: string)

  function Classify(data: Value): (s: Shape)
    ensures s == Falsy <==> IsFalsy(data)
    ensures s == NonArray <==> !IsFalsy(data) && !data.Arr?
    ensures s == ListArray <==> data.Arr? && data.entries != [] && IsList(data.entries)
    ensures s == KeyedArray <==> data.Arr? && !IsList(data.entries)
  {
    if IsFalsy(data) then Falsy
    else if !data.Arr? then NonArray
    else if IsList(data.entries) then ListArray
    else KeyedArray
  }

  /** Reflection's `hasMethod`. */
  predicate HasMethod(c: ClassDesc, meth: string) {
    meth in c.methods
  }

  /** A payload key denotes a parameter when it is that parameter's name. */
  predicate NamesParam(k: Key, ps: seq<Param>) {
    exists j :: 0 <= j < |ps| && k == StrKey(ps[j].name)
  }

  /** Every key of the payload is the name of one of the parameters. */
  predicate KeysWithinParams(data: PhpArray, ps: seq<Param>) {
    forall i :: 0 <= i < |data| ==> NamesParam(data[i].key, ps)
  }

  /** A parameter can be bound: the payload has its key or it has a default. */
  predicate Bindable(p: Param, data: PhpArray) {
    Lookup(data, StrKey(p.name)).Some? || p.default.Some?
  }

  /** The lone constructor parameter is declared with the type `array`. */
  predicate TakesSingleArray(c: ClassDesc) {
    && Constructor in c.methods
    && |c.methods[Constructor]| == 1
    && c.methods[Constructor][0].typ == Named(ArrayTypeName)
  }

  /** `ensureReflectionHasMethod`: MethodMissing unless the class has the method. */
  function EnsureHasMethod(c: ClassDesc, meth: string): (r: Result<()>)
    ensures r.Success? <==> HasMethod(c, meth)
    ensures r.Failure? ==> r.error == MethodMissing(meth)
  {
    if meth in c.methods then Success(()) else Failure(MethodMissing(meth))
  }

  /** `array_diff($keys, $names)`: the keys, in order, that equal no name. */
  function ArrayDiff(keys: seq<Key>, ps: seq<Param>): (r: seq<Key>)
    ensures forall k :: k in r <==> k in keys && !NamesParam(k, ps)
  {
    if keys == [] then []
    else if NamesParam(keys[0], ps) then ArrayDiff(keys[1..], ps)
    else [keys[0]] + ArrayDiff(keys[1..], ps)
  }

  /** The parameter names in declaration order (`getConstructorParams`). */
  function ParamNames(ps: seq<Param>): (ns: seq<string>)
    ensures |ns| == |ps| && forall i :: 0 <= i < |ps| ==> ns[i] == ps[i].name
  {
    seq(|ps|, i requires 0 <= i < |ps| => ps[i].name)
  }

  /** Whether a key names a parameter depends only on the multiset of names. */
  lemma NamesParamIgnoresOrder(k: Key, ps1: seq<Param>, ps2: seq<Param>)
    requires multiset(ParamNames(ps1)) == multiset(ParamNames(ps2))
    ensures NamesParam(k, ps1) ==> NamesParam(k, ps2)
  {
    if NamesParam(k, ps1) {
      var j :| 0 <= j < |ps1| && k == StrKey(ps1[j].name);
      assert ParamNames(ps1)[j] in multiset(ParamNames(ps2));
      var j2 :| 0 <= j2 < |ps2| && ParamNames(ps2)[j2] == ps1[j].name;
      assert k == StrKey(ps2[j2].name);
    }
  }

  /** Sorting the keys and the names first, as the source does, cannot change
      whether any key is left over: emptiness of the difference ignores the
      order of both the keys and the names. */
  lemma ArrayDiffIgnoresOrder(xs: seq<Key>, ys: seq<Key>, ps1: seq<Param>, ps2: seq<Param>)
    requires multiset(xs) == multiset(ys)
    requires multiset(ParamNames(ps1)) == multiset(ParamNames(ps2))
    ensures ArrayDiff(xs, ps1) == [] <==> ArrayDiff(ys, ps2) == []
  {
    var dx, dy := ArrayDiff(xs, ps1), ArrayDiff(ys, ps2);
    if dx != [] {
      var k := dx[0];
      assert k in dx && k in multiset(xs);
      NamesParamIgnoresOrder(k, ps2, ps1);
      assert k in ys && k in dy;
    }
    if dy != [] {
      var k := dy[0];
      assert k in dy && k in multiset(ys);
      NamesParamIgnoresOrder(k, ps1, ps2);
      assert k in xs && k in dx;
    }
  }

  /** The test on the constructor's parameter names, including the
      constructor-existence check that precedes it. */
  function DataEqualsToConstructorParams(c: ClassDesc, data: PhpArray): (r: Result<bool>)
    ensures r.Failure? <==> !HasMethod(c, Constructor)
    ensures r.Failure? ==> r.error == MethodMissing(Constructor)
    ensures r.Success? ==> (r.value <==> KeysWithinParams(data, c.methods[Constructor]))
  {
    match EnsureHasMethod(c, Constructor)
    case Failure(e) => Failure(e)
    case Success(_) =>
      var ps := c.methods[Constructor];
      var diff := ArrayDiff(Keys(data), ps);
      assert forall i :: 0 <= i < |data| ==> Keys(data)[i] == data[i].key;
      assert diff != [] ==> diff[0] in Keys(data);
      Success(diff == [])
  }

  /** Name-mapping applies only to a payload that is not a list. */
  function DataFitsIntoConstructorParams(c: ClassDesc, data: PhpArray): (r: Result<bool>)
    ensures IsList(data) ==> r == Success(false)
    ensures r.Failure? <==> !IsList(data) && !HasMethod(c, Constructor)
    ensures r.Failure? ==> r.error == MethodMissing(Constructor)
    ensures r == Success(true) <==>
              !IsList(data) && HasMethod(c, Constructor) && KeysWithinParams(data, c.methods[Constructor])
  {
    if IsList(data) then Success(false) else DataEqualsToConstructorParams(c, data)
  }

  /** The value a bindable parameter receives. */
  function BoundValue(p: Param, data: PhpArray): Value
    requires Bindable(p, data)
  {
    match Lookup(data, StrKey(p.name))
    case Some(v) => v
    case None => p.default.value
  }

  /** The value bound to one parameter: the payload's value under its name,
      else its default, else a RequiredAttributeMissing error. */
  function ParamValueOrDefault(p: Param, data: PhpArray, meth: string): (r: Result<Value>)
    ensures r.Success? <==> Bindable(p, data)
    ensures Lookup(data, StrKey(p.name)).Some? ==> r == Success(Lookup(data, StrKey(p.name)).value)
    ensures Lookup(data, StrKey(p.name)).None? && p.default.Some? ==> r == Success(p.default.value)
    ensures r.Failure? ==> r.error == RequiredAttributeMissing(p.name, meth)
  {
    if Bindable(p, data) then Success(BoundValue(p, data))
    else Failure(RequiredAttributeMissing(p.name, meth))
  }

  /** Binding every parameter in declaration order; the first parameter that
      cannot be bound stops the mapping with its error. */
  function MapParams(ps: seq<Param>, data: PhpArray, meth: string): (r: Result<seq<Value>>)
    ensures r.Success? <==> forall i :: 0 <= i < |ps| ==> Bindable(ps[i], data)
    ensures r.Success? ==> |r.value| == |ps|
    ensures r.Success? ==> forall i :: 0 <= i < |ps| ==> r.value[i] == BoundValue(ps[i], data)
    ensures r.Failure? ==> exists i :: 0 <= i < |ps|
                              && !Bindable(ps[i], data)
                              && (forall j :: 0 <= j < i ==> Bindable(ps[j], data))
                              && r.error == RequiredAttributeMissing(ps[i].name, meth)
  {
    if ps == [] then Success([])
    else
      match ParamValueOrDefault(ps[0], data, meth)
      case Failure(e) => Failure(e)
      case Success(v) =>
        match MapParams(ps[1..], data, meth)
        case Failure(e) =>
          assert forall i :: 1 <= i < |ps| ==> ps[i] == ps[1..][i - 1];
          Failure(e)
        case Success(vs) =>
          assert forall i :: 1 <= i < |ps| ==> ps[i] == ps[1..][i - 1];
          Success([v] + vs)
  }

  /** `mapDataWithMethodParams`: the payload reordered into the positional
      arguments of `meth`. */
  function MapDataWithMethodParams(c: ClassDesc, meth: string, data: PhpArray): (r: Result<PhpArray>)
    ensures !HasMethod(c, meth) ==> r == Failure(MethodMissing(meth))
    ensures r.Success? <==>
              HasMethod(c, meth) && forall i :: 0 <= i < |c.methods[meth]| ==> Bindable(c.methods[meth][i], data)
    ensures r.Success? ==> IsList(r.value) && |r.value| == |c.methods[meth]|
    ensures r.Success? ==> forall i :: 0 <= i < |r.value| ==>
                             r.value[i].val == BoundValue(c.methods[meth][i], data)
  {
    match EnsureHasMethod(c, meth)
    case Failure(e) => Failure(e)
    case Success(_) =>
      match MapParams(c.methods[meth], data, meth)
      case Failure(e) => Failure(e)
      case Success(vs) => Success(ListOf(vs))
  }

  /** Whether the whole payload becomes the single constructor argument. */
  function DataShouldBeWrappedIntoArray(c: ClassDesc): (r: Result<bool>)
    ensures !HasMethod(c, Constructor) ==> r == Failure(MethodMissing(Constructor))
    ensures r == Success(true) <==> TakesSingleArray(c)
    ensures HasMethod(c, Constructor) && |c.methods[Constructor]| != 1 ==> r == Success(false)
    ensures HasMethod(c, Constructor) && |c.methods[Constructor]| == 1 && !c.methods[Constructor][0].typ.Named? ==>
              r == Failure(ParamTypeHasNoName(c.methods[Constructor][0].name))
    ensures r.Failure? && HasMethod(c, Constructor) ==>
              && |c.methods[Constructor]| == 1
              && !c.methods[Constructor][0].typ.Named?
              && r.error == ParamTypeHasNoName(c.methods[Constructor][0].name)
  {
    match EnsureHasMethod(c, Constructor)
    case Failure(e) => Failure(e)
    case Success(_) =>
      var ps := c.methods[Constructor];
      if |ps| == 0 || |ps| > 1 then Success(false)
      else
        match ps[0].typ
        case Named(n) => Success(n == ArrayTypeName)
        case _ => Failure(ParamTypeHasNoName(ps[0].name))
  }

  /** `build`: the argument array the constructor is called with. A falsy
      payload means a call with no arguments. */
  function Build(c: ClassDesc, data: Value): (r: Result<PhpArray>)
    ensures r.Failure? ==>
              || r.error == MethodMissing(Constructor)
              || (r.error.RequiredAttributeMissing? && r.error.meth == Constructor)
              || r.error.ParamTypeHasNoName?
    ensures r.Failure? ==> data.Arr? && data.entries != []
  {
    var shape := Classify(data);
    if shape == Falsy then Success([])
    else if shape == NonArray then Success(ListOf([data]))
    else
      match DataFitsIntoConstructorParams(c, data.entries)
      case Failure(e) => Failure(e)
      case Success(fits) =>
        if fits then MapDataWithMethodParams(c, Constructor, data.entries)
        else
          match DataShouldBeWrappedIntoArray(c)
          case Failure(e) => Failure(e)
          case Success(wrap) =>
            if wrap then Success(ListOf([data])) else Success(data.entries)
  }

  /** `run` up to the call itself: the method must exist before anything is
      built; the outcome records the built class, its arguments and the method. */
  function Run(c: ClassDesc, data: Value, meth: string := DefaultMethod): (r: Result<Invocation>)
    ensures !HasMethod(c, meth) ==> r == Failure(MethodMissing(meth))
    ensures HasMethod(c, meth) ==> (r.Success? <==> Build(c, data).Success?)
    ensures HasMethod(c, meth) && r.Failure? ==> r.error == Build(c, data).error
    ensures r.Success? ==> r.value == Invocation(c.name, Build(c, data).value, meth)
  {
    match EnsureHasMethod(c, meth)
    case Failure(e) => Failure(e)
    case Success(_) =>
      match Build(c, data)
      case Failure(e) => Failure(e)
      case Success(args) => Success(Invocation(c.name, args, meth))
  }

  /** A falsy payload is built with no arguments whatever the class looks
      like: the constructor is never consulted, so even a class without one
      is built. */
  lemma FalsyPayloadIgnoresConstructor(c1: ClassDesc, c2: ClassDesc, data: Value)
    requires IsFalsy(data)
    ensures Build(c1, data) == Build(c2, data) == Success([])
  {
  }

  /** A truthy value that is not an array becomes the one and only
      positional argument, whatever the class looks like. */
  lemma ScalarPayloadIsSoleArgument(c: ClassDesc, data: Value)
    requires !IsFalsy(data) && !data.Arr?
    ensures Build(c, data) == Success([Entry(IntKey(0), data)])
  {
    ListOfOne(data);
  }

  /** A keyed payload whose keys all name constructor parameters is mapped
      by name: one argument per parameter, in declaration order, each the
      payload's value under its name or else its default; the first
      parameter with neither makes the build fail naming it. */
  lemma KeyedPayloadIsMappedByName(c: ClassDesc, data: Value)
    requires data.Arr? && !IsList(data.entries)
    requires HasMethod(c, Constructor) && KeysWithinParams(data.entries, c.methods[Constructor])
    ensures var ps := c.methods[Constructor];
            Build(c, data).Success? <==> forall i :: 0 <= i < |ps| ==> Bindable(ps[i], data.entries)
    ensures var ps, r := c.methods[Constructor], Build(c, data);
            r.Success? ==>
              && IsList(r.value) && |r.value| == |ps|
              && forall i :: 0 <= i < |ps| ==> r.value[i].val == BoundValue(ps[i], data.entries)
    ensures var ps, r := c.methods[Constructor], Build(c, data);
            r.Failure? ==> exists i :: 0 <= i < |ps|
                             && !Bindable(ps[i], data.entries)
                             && (forall j :: 0 <= j < i ==> Bindable(ps[j], data.entries))
                             && r.error == RequiredAttributeMissing(ps[i].name, Constructor)
  {
  }

  /** The arguments produced by name-mapping depend only on what each
      parameter name looks up to in the payload. */
  lemma {:induction false} MapParamsDependsOnLookups(ps: seq<Param>, d1: PhpArray, d2: PhpArray, meth: string)
    requires forall i :: 0 <= i < |ps| ==> Lookup(d1, StrKey(ps[i].name)) == Lookup(d2, StrKey(ps[i].name))
    ensures MapParams(ps, d1, meth) == MapParams(ps, d2, meth)
  {
    if ps != [] {
      MapParamsDependsOnLookups(ps[1..], d1, d2, meth);
    }
  }

  /** A non-list payload whose keys all name constructor parameters takes
      the name-mapping branch. */
  lemma FittingPayloadIsMapped(c: ClassDesc, data: Value)
    requires data.Arr? && !IsList(data.entries)
    requires HasMethod(c, Constructor) && KeysWithinParams(data.entries, c.methods[Constructor])
    ensures Build(c, data) == MapDataWithMethodParams(c, Constructor, data.entries)
  {
  }

  /** The same entries in another order still all name parameters. */
  lemma PermutationKeepsKeysWithinParams(e1: PhpArray, e2: PhpArray, ps: seq<Param>)
    requires multiset(e1) == multiset(e2) && KeysWithinParams(e1, ps)
    ensures KeysWithinParams(e2, ps)
  {
    forall j | 0 <= j < |e2|
      ensures NamesParam(e2[j].key, ps)
    {
      assert e2[j] in multiset(e1);
      var i :| 0 <= i < |e1| && e1[i] == e2[j];
    }
  }

  /** Name-mapping a reordered payload binds every parameter to the same
      value, or fails on the same parameter. */
  lemma MappingIgnoresKeyOrder(ps: seq<Param>, e1: PhpArray, e2: PhpArray, meth: string)
    requires DistinctKeys(e1) && DistinctKeys(e2) && multiset(e1) == multiset(e2)
    ensures MapParams(ps, e1, meth) == MapParams(ps, e2, meth)
  {
    forall i | 0 <= i < |ps|
      ensures Lookup(e1, StrKey(ps[i].name)) == Lookup(e2, StrKey(ps[i].name))
    {
      PermutationPreservesLookup(e1, e2, StrKey(ps[i].name));
    }
    MapParamsDependsOnLookups(ps, e1, e2, meth);
  }

  /** Reordering the entries of a payload whose keys all name constructor
      parameters does not change what is built. */
  lemma KeyOrderDoesNotMatter(c: ClassDesc, e1: PhpArray, e2: PhpArray)
    requires DistinctKeys(e1) && DistinctKeys(e2) && multiset(e1) == multiset(e2)
    requires e1 != []
    requires HasMethod(c, Constructor) && KeysWithinParams(e1, c.methods[Constructor])
    ensures Build(c, Arr(e1)) == Build(c, Arr(e2))
  {
    var ps := c.methods[Constructor];
    PermutationKeepsKeysWithinParams(e1, e2, ps);
    assert |e2| == |multiset(e2)| == |multiset(e1)| == |e1|;
    assert NamesParam(e1[0].key, ps) && NamesParam(e2[0].key, ps);
    assert !IsList(e1) && !IsList(e2);
    FittingPayloadIsMapped(c, Arr(e1));
    FittingPayloadIsMapped(c, Arr(e2));
    MappingIgnoresKeyOrder(ps, e1, e2, Constructor);
  }

  /** A payload that is not name-mapped -- a list, or a keyed array with a
      key that names no constructor parameter -- becomes the single argument
      when the constructor's only parameter is an `array`, and is otherwise
      passed through unchanged as the argument array. */
  lemma UnmappedArrayIsWrappedOrPassedThrough(c: ClassDesc, data: Value)
    requires data.Arr? && data.entries != [] && HasMethod(c, Constructor)
    requires IsList(data.entries) || !KeysWithinParams(data.entries, c.methods[Constructor])
    ensures TakesSingleArray(c) ==> Build(c, data) == Success([Entry(IntKey(0), data)])
    ensures var ps := c.methods[Constructor];
            |ps| != 1 || (ps[0].typ.Named? && ps[0].typ.name != ArrayTypeName) ==>
              Build(c, data) == Success(data.entries)
    ensures var ps := c.methods[Constructor];
            |ps| == 1 && !ps[0].typ.Named? ==> Build(c, data) == Failure(ParamTypeHasNoName(ps[0].name))
  {
    ListOfOne(data);
  }

  /** Name-mapping comes before wrapping: for a constructor taking one
      `array` parameter, a payload keyed by that parameter's name passes the
      value under that key, not the payload itself. */
  lemma NameMappingTakesPriority(c: ClassDesc, v: Value)
    requires TakesSingleArray(c)
    ensures var data := Arr([Entry(StrKey(c.methods[Constructor][0].name), v)]);
            Build(c, data) == Success([Entry(IntKey(0), v)])
  {
    var ps := c.methods[Constructor];
    var data := [Entry(StrKey(ps[0].name), v)];
    assert NamesParam(data[0].key, ps);
    assert Lookup(data, StrKey(ps[0].name)) == Some(v);
    assert !IsList(data);
    FittingPayloadIsMapped(c, Arr(data));
    var m := MapDataWithMethodParams(c, Constructor, data);
    assert Bindable(ps[0], data) && BoundValue(ps[0], data) == v;
    assert m.Success? && |m.value| == 1 && m.value[0] == Entry(IntKey(0), v);
    assert m.value == [Entry(IntKey(0), v)];
    assert Build(c, Arr(data)) == m;
  }

  /** A non-empty array payload for a class without a constructor fails
      with MethodMissing, whichever branch test asks first. */
  lemma ArrayPayloadNeedsConstructor(c: ClassDesc, data: Value)
    requires !HasMethod(c, Constructor) && data.Arr? && data.entries != []
    ensures Build(c, data) == Failure(MethodMissing(Constructor))
  {
  }

  /** The constructor `(name, age = 0)` of the worked examples. */
  const PersonParams := [Param("name", Untyped, None), Param("age", Named("int"), Some(Int(0)))]
  const Person := ClassDesc("Person", map[Constructor := PersonParams])

  /** Keys given in the other order are put back in declaration order. */
  lemma PersonExampleReordered()
    ensures Build(Person, Arr([Entry(StrKey("age"), Int(5)), Entry(StrKey("name"), Str("x"))]))
            == Success([Entry(IntKey(0), Str("x")), Entry(IntKey(1), Int(5))])
  {
    var data := [Entry(StrKey("age"), Int(5)), Entry(StrKey("name"), Str("x"))];
    var ps := PersonParams;
    assert data[0].key == StrKey(ps[1].name) && data[1].key == StrKey(ps[0].name);
    assert !IsList(data);
    FittingPayloadIsMapped(Person, Arr(data));
    assert BoundValue(ps[0], data) == Str("x");
    assert BoundValue(ps[1], data) == Int(5);
    var m := MapDataWithMethodParams(Person, Constructor, data);
    assert m.Success? && |m.value| == 2;
    assert m.value[0] == Entry(IntKey(0), Str("x")) && m.value[1] == Entry(IntKey(1), Int(5));
    assert m.value == [Entry(IntKey(0), Str("x")), Entry(IntKey(1), Int(5))];
  }

  /** The key test is one-sided: a payload naming only some parameters is
      still name-mapped, and the missing one takes its default. */
  lemma PersonExampleDefaulted()
    ensures Build(Person, Arr([Entry(StrKey("name"), Str("x"))]))
            == Success([Entry(IntKey(0), Str("x")), Entry(IntKey(1), Int(0))])
  {
    var data := [Entry(StrKey("name"), Str("x"))];
    var ps := PersonParams;
    assert data[0].key == StrKey(ps[0].name);
    assert !IsList(data);
    FittingPayloadIsMapped(Person, Arr(data));
    assert BoundValue(ps[0], data) == Str("x");
    assert Lookup(data, StrKey("age")) == None;
    assert BoundValue(ps[1], data) == Int(0);
    var m := MapDataWithMethodParams(Person, Constructor, data);
    assert m.Success? && |m.value| == 2;
    assert m.value[0] == Entry(IntKey(0), Str("x")) && m.value[1] == Entry(IntKey(1), Int(0));
    assert m.value == [Entry(IntKey(0), Str("x")), Entry(IntKey(1), Int(0))];
  }

  /** A required parameter absent from the payload is reported by name. */
  lemma PersonExampleMissingName()
    ensures Build(Person, Arr([Entry(StrKey("age"), Int(5))]))
            == Failure(RequiredAttributeMissing("name", Constructor))
  {
    var data := [Entry(StrKey("age"), Int(5))];
    var ps := PersonParams;
    assert data[0].key == StrKey(ps[1].name);
    assert !IsList(data);
    FittingPayloadIsMapped(Person, Arr(data));
    assert Lookup(data, StrKey("name")) == None;
    assert !Bindable(ps[0], data);
  }

  /** A keyed payload that does not name the lone `array` parameter becomes
      that parameter's value as a whole. */
  lemma ItemsExampleWrapped()
    ensures var c := ClassDesc("Basket", map[Constructor := [Param("items", Named(ArrayTypeName), None)]]);
            var data := Arr([Entry(StrKey("a"), Int(1)), Entry(StrKey("b"), Int(2))]);
            Build(c, data) == Success([Entry(IntKey(0), data)])
  {
    var c := ClassDesc("Basket", map[Constructor := [Param("items", Named(ArrayTypeName), None)]]);
    var data := Arr([Entry(StrKey("a"), Int(1)), Entry(StrKey("b"), Int(2))]);
    assert !NamesParam(data.entries[0].key, c.methods[Constructor]);
    UnmappedArrayIsWrappedOrPassedThrough(c, data);
  }
}
