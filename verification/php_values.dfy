/**
 A small model of the PHP values the object builder handles: scalars,
 objects and ordered arrays (PHP's ordered maps from int-or-string keys to
 values), together with the few array primitives the builder relies on:
 truthiness, `array_is_list`, key lookup, `array_keys` and `array_shift`.
 */
module PhpValues {

  datatype Option<+T> = None | Some(value: T)

  /** An array key: PHP keys are integers or strings. */
  datatype Key = IntKey(i: int) | StrKey(s: string)

  /** A PHP value. Floating-point numbers and resources are not modelled;
      an object is identified by its class name and an identity. */
  datatype Value =
    | Null
    | Bool(b: bool)
    | Int(i: int)
    | Str(s: string)
    | Arr(entries: seq<Entry>)
    | Obj(cls: string, id: nat)

  /** One key/value slot of a PHP array, in insertion order. */
  datatype Entry = Entry(key: Key, val: Value)

  type PhpArray = seq<Entry>

  /** PHP's `!$v`: the values that convert to boolean false. */
  predicate IsFalsy(v: Value) {
    match v
    case Null => true
    case Bool(b) => !b
    case Int(i) => i == 0
    case Str(s) => s == "" || s == "0"
    case Arr(e) => e == []
    case Obj(_, _) => false
  }

  /** `array_is_list`: the keys are exactly 0, 1, ..., n-1 in this order. */
  predicate IsList(a: PhpArray) {
    forall i :: 0 <= i < |a| ==> a[i].key == IntKey(i)
  }

  /** Every PHP array has pairwise distinct keys. */
  predicate DistinctKeys(a: PhpArray) {
    forall i, j :: 0 <= i < j < |a| ==> a[i].key != a[j].key
  }

  /** The list array `[v0, v1, ...]` whose keys are the positions. */
  function ListOf(vs: seq<Value>): (a: PhpArray)
    ensures |a| == |vs| && IsList(a) && DistinctKeys(a)
    ensures forall i :: 0 <= i < |a| ==> a[i].val == vs[i]
  {
    seq(|vs|, i requires 0 <= i < |vs| => Entry(IntKey(i), vs[i]))
  }

  /** `array_values`: the values of an array in order. */
  function Values(a: PhpArray): (vs: seq<Value>)
    ensures |vs| == |a|
  {
    seq(|a|, i requires 0 <= i < |a| => a[i].val)
  }

  /** `array_keys`: the keys of an array in order. */
  function Keys(a: PhpArray): (ks: seq<Key>)
    ensures |ks| == |a|
  {
    seq(|a|, i requires 0 <= i < |a| => a[i].key)
  }

  /** `$a[$k]` guarded by `array_key_exists($k, $a)`: the value stored
      under key `k`, if any. */
  function Lookup(a: PhpArray, k: Key): (r: Option<Value>)
    ensures r.None? <==> forall i :: 0 <= i < |a| ==> a[i].key != k
    ensures r.Some? ==> Entry(k, r.value) in a
  {
    if a == [] then None
    else if a[0].key == k then Some(a[0].val)
    else Lookup(a[1..], k)
  }

  /** The `array_shift` renumbering: integer keys are counted afresh from
      `next`, string keys are kept as they are. */
  function Renumber(a: PhpArray, next: int): (r: PhpArray)
    ensures |r| == |a|
    decreases |a|
  {
    if a == [] then []
    else if a[0].key.IntKey? then [Entry(IntKey(next), a[0].val)] + Renumber(a[1..], next + 1)
    else [a[0]] + Renumber(a[1..], next)
  }

  /** The array left behind by `array_shift`: the first element is
      removed and the integer keys of the rest are renumbered from zero. */
  function Shift(a: PhpArray): (r: PhpArray)
    requires |a| >= 1
  {
    Renumber(a[1..], 0)
  }

  /** The one-element list `[v]`. */
  lemma ListOfOne(v: Value)
    ensures ListOf([v]) == [Entry(IntKey(0), v)]
  {
  }

  /** A list array is rebuilt from its values. */
  lemma ListOfValues(a: PhpArray)
    requires IsList(a)
    ensures ListOf(Values(a)) == a
  {
  }

  /** Renumbering an array whose keys are all integers gives consecutive
      integer keys from `next`, with the values in their original order. */
  lemma {:induction false} RenumberIntKeys(a: PhpArray, next: int)
    requires forall i :: 0 <= i < |a| ==> a[i].key.IntKey?
    ensures forall i :: 0 <= i < |a| ==> Renumber(a, next)[i] == Entry(IntKey(next + i), a[i].val)
    decreases |a|
  {
    if a != [] {
      RenumberIntKeys(a[1..], next + 1);
    }
  }

  /** `array_shift` on a list drops the first value and re-indexes the
      rest, so the outcome is again a list, one shorter, in the same order. */
  lemma ShiftOfList(a: PhpArray)
    requires |a| >= 1 && IsList(a)
    ensures Shift(a) == ListOf(Values(a)[1..])
    ensures IsList(Shift(a)) && |Shift(a)| == |a| - 1
  {
    RenumberIntKeys(a[1..], 0);
  }

  /** In an array with distinct keys the lookup of a stored key finds the
      value stored beside it. */
  lemma LookupFindsEntry(a: PhpArray, k: Key, v: Value)
    requires DistinctKeys(a) && Entry(k, v) in a
    ensures Lookup(a, k) == Some(v)
  {
  }

  /** Reordering the slots of an array (the same slots, in any order)
      does not change what any key looks up to. */
  lemma {:induction false} PermutationPreservesLookup(a: PhpArray, b: PhpArray, k: Key)
    requires DistinctKeys(a) && DistinctKeys(b)
    requires multiset(a) == multiset(b)
    ensures Lookup(a, k) == Lookup(b, k)
  {
    match Lookup(a, k)
    case Some(v) =>
      assert Entry(k, v) in multiset(b);
      LookupFindsEntry(b, k, v);
    case None =>
      forall j | 0 <= j < |b|
        ensures b[j].key != k
      {
        assert b[j] in multiset(a);
      }
  }
}
