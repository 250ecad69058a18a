# Argument shaping of the fraction object builder, in Dafny

This project models the core of `pixelcone/fraction`, a PHP helper that builds
an object of some class from a loosely typed payload and then calls one method
on it (`handle` by default). It covers three parts:

- `ObjectBuilder` (`object_builder.dfy`) decides how a payload becomes
  constructor arguments. The payload takes one of four shapes: falsy, a truthy
  non-array, a list-shaped array or a keyed array. A keyed array whose keys all
  name constructor parameters is reordered by name into declaration order.
  Missing parameters take their defaults, or the build fails with
  `RequiredAttributeMissing`. Any other array becomes the single argument when
  the constructor's only parameter is declared `array`; otherwise it is passed
  through unchanged. A missing constructor or method gives `MethodMissing`.
- `AsAction` (`as_action.dfy`) is the static `run` of a self-running action
  class. It derives the payload from how many arguments the call has.
- `RunsFeatures` (`runs_features.dfy`) is the delegate `run`. Its first
  argument names the feature class; the payload comes from the rest of the
  arguments.

`php_values.dfy` models the PHP values and array primitives involved:
truthiness, `array_is_list`, `array_keys`, keyed lookup and `array_shift`.

Reflection is replaced by an explicit class descriptor, `ClassDesc`. It holds
the class name and a map from each method name to that method's ordered
parameters. Each parameter has a name, a type tag and an optional default. The
class has a constructor exactly when `__construct` is a key of that map.
`Build` returns the argument array the constructor would receive; a
falsy payload yields the empty array, which is what `newInstance()` amounts to.
`Run` returns an `Invocation` naming the class, the constructor arguments and
the method to call.

The key test follows the code, not its comment. A one-sided `array_diff` asks
whether every payload key is a parameter name (a subset test), not whether the
two sets are equal. So a payload naming only some parameters is still mapped by
name, and defaults fill the gaps (`PersonExampleDefaulted`). The source's comment
above the test speaks of equality; the model follows the code.

A single falsy argument such as `run(0)` is treated like no argument at all:
the class is built with no constructor arguments
(`AsAction.SingleFalsyArgumentIsDropped`).

## Model

| member | source | states |
|---|---|---|
| PhpValues.Lookup | src/ObjectBuilder.php:128-130 | the lookup of a key finds nothing exactly when no slot carries that key, and what it finds is a value stored under that key |
| PhpValues.PermutationPreservesLookup | src/ObjectBuilder.php:128-129 | looking a parameter name up in the payload gives the same answer however the payload's slots are ordered |
| PhpValues.RenumberIntKeys | src/RunsFeatures.php:54 | the re-indexing done by `array_shift` gives integer keys consecutive numbers from the start value and keeps the values in order |
| PhpValues.ShiftOfList | src/RunsFeatures.php:52-54 | shifting the first element off a list array leaves a list one shorter holding the remaining values in their original order |
| ObjectBuilder.Classify | src/ObjectBuilder.php:23-39 | a payload is falsy, a truthy non-array, a non-empty list array or a non-list array; each shape is characterised by truthiness, `is_array` and `array_is_list`, and the four are exclusive |
| ObjectBuilder.EnsureHasMethod | src/ObjectBuilder.php:166-172 | the method-existence test passes exactly when the class has the method, and otherwise fails with MethodMissing naming that method |
| ObjectBuilder.ArrayDiff | src/ObjectBuilder.php:94 | the difference contains exactly the payload keys that name no constructor parameter |
| ObjectBuilder.NamesParamIgnoresOrder | src/ObjectBuilder.php:89 | whether a key names a constructor parameter depends only on the multiset of parameter names, not their order |
| ObjectBuilder.ArrayDiffIgnoresOrder | src/ObjectBuilder.php:88-94 | reordering the keys, the parameter names, or both (as the two sorts do) cannot change whether any key is left over |
| ObjectBuilder.DataEqualsToConstructorParams | src/ObjectBuilder.php:77-107 | fails with MethodMissing for `__construct` exactly when there is no constructor; otherwise true exactly when every payload key names a constructor parameter (a subset test, not set equality) |
| ObjectBuilder.DataFitsIntoConstructorParams | src/ObjectBuilder.php:72-75 | a list payload never fits, whatever the class; the test fails, with MethodMissing for `__construct`, exactly when the payload is not a list and there is no constructor; it answers true exactly when the payload is not a list, the constructor exists and every key names one of its parameters |
| ObjectBuilder.ParamValueOrDefault | src/ObjectBuilder.php:125-137 | a parameter takes the payload value under its name if present, else its default; with neither it fails with RequiredAttributeMissing naming the parameter and the method |
| ObjectBuilder.MapParams | src/ObjectBuilder.php:118-122 | succeeds exactly when every parameter is bindable, giving one value per parameter in declaration order; otherwise fails naming the first parameter, in declaration order, that has neither a key nor a default |
| ObjectBuilder.MapDataWithMethodParams | src/ObjectBuilder.php:114-123 | fails with MethodMissing for an absent method; succeeds exactly when all its parameters are bindable, giving a list array as long as the parameter list with each parameter's bound value at its position |
| ObjectBuilder.DataShouldBeWrappedIntoArray | src/ObjectBuilder.php:139-164 | fails with MethodMissing without a constructor; answers true exactly when the constructor has one parameter of type `array`, false for any other parameter count, and fails for a lone parameter whose type has no single name |
| ObjectBuilder.Build | src/ObjectBuilder.php:21-42 | a build can only fail for a non-empty array payload, and then only with MethodMissing for `__construct`, RequiredAttributeMissing for `__construct`, or the lone parameter's unnamed type |
| ObjectBuilder.Run | src/ObjectBuilder.php:44-48 | an absent method fails with MethodMissing before anything is built, whatever the build would have done; otherwise the run succeeds exactly when the build does, and targets the described class with the built arguments and the requested method |
| ObjectBuilder.FalsyPayloadIgnoresConstructor | src/ObjectBuilder.php:23-25 | a falsy payload gives no arguments for every class, so the constructor is not consulted and a class without one is still built |
| ObjectBuilder.ScalarPayloadIsSoleArgument | src/ObjectBuilder.php:33-34 | a truthy non-array payload becomes exactly the one-element argument list `[0 => payload]` for every class |
| ObjectBuilder.KeyedPayloadIsMappedByName | src/ObjectBuilder.php:35-36 | a non-list payload whose keys all name constructor parameters gives a list with one argument per parameter in declaration order, each the payload value or default; the first parameter with neither yields RequiredAttributeMissing naming it and `__construct` |
| ObjectBuilder.MapParamsDependsOnLookups | src/ObjectBuilder.php:120-130 | name-mapping depends only on what each parameter name looks up to, not on anything else about the payload |
| ObjectBuilder.FittingPayloadIsMapped | src/ObjectBuilder.php:35-36 | a fitting payload takes the name-mapping branch |
| ObjectBuilder.PermutationKeepsKeysWithinParams | src/ObjectBuilder.php:82-94 | the key-name test passes for a reordered payload whenever it passes for the original |
| ObjectBuilder.MappingIgnoresKeyOrder | src/ObjectBuilder.php:118-130 | name-mapping a payload whose slots are reordered binds every parameter to the same value, or fails naming the same parameter |
| ObjectBuilder.KeyOrderDoesNotMatter | src/ObjectBuilder.php:72-137 | two payloads with the same slots in different orders, all keys naming constructor parameters, build the same arguments or the same error |
| ObjectBuilder.UnmappedArrayIsWrappedOrPassedThrough | src/ObjectBuilder.php:35-41 | a list payload, or a keyed one with a key naming no parameter, is never name-mapped; it becomes the single argument when the lone constructor parameter is `array`, and is otherwise passed through unchanged, except that a lone parameter with no type name fails |
| ObjectBuilder.NameMappingTakesPriority | src/ObjectBuilder.php:35-38 | for a constructor taking one `array` parameter, a payload keyed by that parameter's name passes the value under the key, not the whole payload |
| ObjectBuilder.ArrayPayloadNeedsConstructor | src/ObjectBuilder.php:35-37 | a non-empty array payload for a class without a constructor fails with MethodMissing for `__construct`, through the key-name test or the wrap test |
| ObjectBuilder.PersonExampleReordered | src/ObjectBuilder.php:114-130 | for the constructor `(name, age = 0)`, the payload `{age: 5, name: "x"}` gives the arguments `("x", 5)` |
| ObjectBuilder.PersonExampleDefaulted | src/ObjectBuilder.php:94 | for the same constructor, `{name: "x"}` passes the one-sided key test and gives `("x", 0)` |
| ObjectBuilder.PersonExampleMissingName | src/ObjectBuilder.php:131-135 | for the same constructor, `{age: 5}` fails with RequiredAttributeMissing for `name` in `__construct` |
| ObjectBuilder.ItemsExampleWrapped | src/ObjectBuilder.php:152-163 | for the constructor `(array $items)`, the payload `{a: 1, b: 2}` becomes the single argument |
| AsAction.Payload | src/AsAction.php:40-44 | no argument gives the default empty array; one argument is the payload unchanged; two or more give a list array of all the arguments, in call order and of the same length |
| AsAction.Run | src/AsAction.php:46 | a successful run always targets the host class, calls `handle`, and hands the constructor the arguments built from the derived payload; a host without `handle` fails with MethodMissing; otherwise the run succeeds exactly when that build does and fails with the build's own error |
| AsAction.MultiArgumentCallIsPositional | src/AsAction.php:42-43 | a call with two or more arguments yields a list payload that is never name-mapped: the arguments reach the constructor in call order, or together as one argument when the lone parameter is `array` |
| AsAction.SingleFalsyArgumentIsDropped | src/AsAction.php:40-46 | a single falsy argument builds the host with no constructor arguments and calls `handle` |
| RunsFeatures.Payload | src/RunsFeatures.php:49-55 | only the class gives the default empty array; two arguments give the second unchanged; more give a list of every argument after the first, in order, one shorter than the call |
| RunsFeatures.Run | src/RunsFeatures.php:57 | a successful run targets the class named by the first argument, calls `handle`, and hands the constructor the arguments built from the payload of the remaining arguments; a target without `handle` fails with MethodMissing; otherwise the run succeeds exactly when that build does and fails with the build's own error |
| RunsFeatures.PayloadIsActionPayloadOfRest | src/RunsFeatures.php:51-54 | the delegate payload is the self-action payload of the arguments after the class, so the class argument is never part of it |
| RunsFeatures.DelegateRunMatchesSelfRun | src/RunsFeatures.php:49-57 | running a feature through the delegate gives the same outcome as the feature's own self-action run with the arguments after the class |
| RunsFeatures.VariadicCallIsPositional | src/RunsFeatures.php:52-54 | a call with more than two arguments yields a re-indexed list payload that is never name-mapped: the arguments after the class reach the constructor in order, or together as one `array` argument |

## Left out

- Laravel container lookup (src/ObjectBuilder.php:51-54, 59-70): it calls an external dependency container only in some environments. `Run` ends once the method check and the build are done.
- The method call itself via `call_user_func` (src/ObjectBuilder.php:56): it runs arbitrary user code. `Run` returns the `Invocation` describing the call instead.
- PHP reflection, `newInstance` and `newInstanceArgs`: replaced by `ClassDesc`. `Build` returns the argument array rather than an object, so PHP's own arity and type errors during construction are not modelled. That includes string keys of a passed-through array, which PHP would treat as named arguments.
- `new ReflectionClass($class)` on a name that is not a class: `RunsFeatures.Run` takes the named class's descriptor and requires the first argument to be its name.
- Exception message texts (src/ObjectBuilder.php:133-134, 170): only the error kind, the parameter name and the method name are kept.
- ObjectBuilder.DataShouldBeWrappedIntoArray: a lone untyped or union/intersection-typed parameter makes PHP throw an engine error at src/ObjectBuilder.php:157. It is modelled as the error `ParamTypeHasNoName`, not as PHP's own error value.
- ObjectBuilder.ArrayDiff: `array_diff` compares by string cast; a key matches a parameter only when it is the string key of that name. PHP parameter names never look like integers, so integer keys never match.
- Key normalisation: PHP turns decimal-string keys into integer keys. Payload keys are taken as already normalised.
- Method names are compared exactly; PHP's case-insensitive lookup of method names is not modelled.
- Floats, resources and the truthiness of exotic objects are not modelled. Falsy values are `null`, `false`, `0`, `""`, `"0"` and `[]`.
- `func_num_args` and `func_get_args`: the call's arguments are an explicit sequence. PHP named arguments to `run` are not modelled.
- Payload arrays are assumed to have distinct keys, as every PHP array does; the lemmas that need it require it.
- `sort` (src/ObjectBuilder.php:88-89) is not modelled as an operation; `ArrayDiffIgnoresOrder` shows it cannot affect the outcome.
