# Dependency injection container, modelled in Dafny

This project models the core of the Comely dependency injection container (PHP).
The **container** (`DependencyInjectionContainer`) normalises keys. It sends objects to an **instance repository** (`Repository`) and class names to a **registry of construction plans** (`Services`, holding `Service` objects). `get` answers from the repository first and falls back to building an object from the plan.

A plan records three things:

- the class to instantiate;
- a constructor call specification and named method call specifications (`ServiceInjectMethod`), each an argument list;
- property injections (`ServiceInjectProps`).

Each argument or property value may itself be a plan, which is built when it is used.

The Dafny files follow the PHP classes:

| file | module | models |
|---|---|---|
| `wrappers.dfy` | `Wrappers` | `Option` and `Result` (a thrown exception is a `Failure`) |
| `errors.dfy` | `Errors` | the exceptions the core throws, one constructor per throw site |
| `patterns.dfy` | `Patterns` | the three `preg_match` patterns and `strtolower` |
| `keys.dfy` | `KeyProcessing` | `DependencyInjectionContainer::ProcessKey` |
| `php_arrays.dfy` | `PhpArrays` | PHP's ordered string-keyed arrays (`$a[$k] = $v`) |
| `plans.dfy` | `Plans` | `Service`, `ServiceInjectMethod`, `ServiceInjectProps` and `createInstance` |
| `plan_properties.dfy` | `PlanProperties` | what `createInstance` does, step by step |
| `services_registry.dfy` | `ServiceRegistry` | `Services` |
| `repository.dfy` | `InstanceRepository` | `Repository` |
| `container.dfy` | `DependencyInjection` | `DependencyInjectionContainer`, and client scenarios |

## How the PHP runtime is represented

- **Values.** A PHP value is a `Value`: null, a boolean, an integer, a string, an array, an ordinary object (identity and class), or a `Service` object.
- **Arrays.** A PHP array with string keys is an insertion-ordered sequence of pairs, `Entries<V>`. `Assign` is `$a[$k] = $v`: it overwrites in place, or appends a new key at the end.
- **Regular expressions.** The patterns are anchored with `^…$` and have no `D` modifier. In PCRE, `$` therefore also matches just before one final `"\n"`. `Subject` drops such a newline before the characters are checked, so `"ab\n"` is a valid key.
  - For a valid key with a final newline, `ProcessKey` returns the lowercased string, newline included, exactly as `strtolower($in)` does.
- **Reflection.** `class_exists` becomes membership in a parameter `known`, a set of class names. `new $className(...)`, `call_user_func_array` and `$object->$name = …` are not performed. They are recorded as `Action`s in a `Log`, whose `nextId` numbers the objects in the order they are built. `createInstance` returns the `Obj` value of the object it built.
- **Termination.** A plan can contain itself, directly or through other plans. In PHP that recurses until the stack runs out. Here the recursion is bounded by a `fuel` parameter: when it is exhausted, a nested plan fails with `DepthExceeded`.
- **State.** The classes keep the PHP classes' fields and update them in place.
  - `createInstance` and its helpers change no field of any plan, so those methods have no `modifies` clause.
  - Each such method is proved equal to a ghost function over the heap (`Instantiate`, `CallAll`, `AssignAll`, `ProcessFrom`, `ProcessArgValue`). The properties are proved about those functions.

## Where the code is taken as written

- **`class()` stores nothing.** `Service::class` (Services/Service.php:52-59) validates the class name and returns the plan. It never assigns `$this->class`. A plan's class therefore always stays null, and `createInstance` always throws "class does not exist". The model keeps the field (`className`) and proves it stays `None` in every registered plan (`DependencyInjectionContainer.Valid`). `PlanIsNeverBuilt` shows that `add($key, "SomeClass")` followed by `get($key)` fails even when the class exists. The docblock of `add` (DependencyInjectionContainer.php:60-66) says a class name is added as a service, which suggests the class is meant to be used when the service is built; the code never stores it.
- **`processArgs` wraps its argument.** `processArgs(...$args)` is variadic but is called with a single array. It therefore returns an array whose only element is that array, with nothing inside it resolved. The constructor receives one array argument, and each method receives one array.
  - A plan given directly as a constructor or method argument is never built. Only plans given as property values are built.
  - `ProcessArgsAsCalled` states this, and `InstantiateSteps` and `OwnSteps` use it.
- **Overwrites count.** `Repository::push` increments `count` even when it overwrites an existing key, so `count` is the number of pushes, not the number of instances.

## Model

| member | source | states |
|---|---|---|
| `KeyProcessing.ProcessKey` | DependencyInjectionContainer.php:117-124 | succeeds exactly for keys of 2 to 64 characters from `[a-zA-Z0-9.\-_+\\]` (one final newline allowed); otherwise throws `InvalidKey` naming the caller; on success the key is lowercased character by character |
| `KeyProcessing.ProcessKeyIdempotent` | DependencyInjectionContainer.php:117-124 | a processed key is normal, and processing it again, under any caller, returns it unchanged; this is why the repository's own `processKey` never throws on keys the container passes it |
| `KeyProcessing.NormalKeyIsFixedPoint` | DependencyInjectionContainer.php:117-124 | processing returns a key unchanged if and only if it is a valid lower-case key |
| `KeyProcessing.ProcessKeyCaseInsensitive` | DependencyInjectionContainer.php:123 | keys differing only in letter case are processed to the same result |
| `KeyProcessing.IsKeyOfLower` | DependencyInjectionContainer.php:119-123 | lowercasing a string does not change whether it is a valid key |
| `KeyProcessing.ToLowerIdempotent` | DependencyInjectionContainer.php:123 | `strtolower` applied twice equals applied once |
| `KeyProcessing.SubjectOfLower` | DependencyInjectionContainer.php:119 | dropping the final newline that `$` allows commutes with lowercasing |
| `KeyProcessing.LowerCharProperties` | DependencyInjectionContainer.php:119-123 | lowercasing a character is idempotent and keeps it in or out of the key class and the newline |
| `Patterns.Subject` | DependencyInjectionContainer.php:119 | the part of a string the anchored pattern checks is the string itself or the string minus one final newline |
| `Patterns.ToLower` | DependencyInjectionContainer.php:123 | the result has the input's length and lowercases each character in place |
| `PhpArrays.AssignKeys` | Services.php:60 | array assignment leaves the key order unchanged for an existing key and appends a new key at the end |
| `PhpArrays.AssignNewKeyAppends` | Repository.php:75 | assigning under a new key appends the pair at the end |
| `PhpArrays.AssignExistingKeyInPlace` | Services/Service.php:80 | assigning under an existing key replaces that entry's value in place and moves nothing |
| `PhpArrays.AssignKeepsMap` | Services/ServiceInjectProps.php:47 | assignment keeps keys unique |
| `PhpArrays.AssignGet` | Repository.php:75 | after assignment, the key reads the new value and every other key reads its old value |
| `PhpArrays.GetAppend` | Services.php:60 | appending entries does not change the value read for a key already present |
| `PhpArrays.AssignEntriesFrom` | Services.php:60 | every entry after an assignment is the new pair or was there before |
| `PhpArrays.GetIsEntry` | Services.php:56 | reading a key returns a value stored under it |
| `Plans.ServiceInjectMethod.New` | Services/ServiceInjectMethod.php:34-42 | succeeds exactly for names matching `[a-zA-Z0-9_]{2,}`, giving a fresh specification with that name and no arguments; otherwise throws `InvalidMethodName` |
| `Plans.ServiceInjectMethod.Args` | Services/ServiceInjectMethod.php:48-52 | replaces the argument list as a whole and returns the same specification |
| `Plans.ServiceInjectMethod.GetName` | Services/ServiceInjectMethod.php:57-60 | the name the specification was created with, which never changes |
| `Plans.ServiceInjectMethod.GetArgs` | Services/ServiceInjectMethod.php:65-68 | the argument list last given to `args`, empty before |
| `Plans.ServiceInjectProps.constructor` | Services/ServiceInjectProps.php:31-34 | starts with no properties |
| `Plans.ServiceInjectProps.Add` | Services/ServiceInjectProps.php:41-49 | succeeds exactly for valid property names, assigning the value under the name (replacing an earlier one in place) and returning the same object; otherwise throws `InvalidPropertyName` and changes nothing; names stay unique and valid |
| `Plans.ServiceInjectProps.GetAll` | Services/ServiceInjectProps.php:54-57 | the properties in insertion order; each name occurs once and passed `add`'s validation |
| `Plans.Service.constructor` | Services/Service.php:41-45 | a new plan has its key, no class, no methods, no constructor and no properties |
| `Plans.Service.Class` | Services/Service.php:52-59 | succeeds exactly for class names matching `[a-zA-Z0-9_\\]{4,}` and returns the same plan; otherwise throws `InvalidClassName` for the plan's key; stores nothing |
| `Plans.Service.Constructor` | Services/Service.php:64-71 | returns the constructor specification, creating a `__construct` one with no arguments on first use and the same one afterwards; nothing else changes |
| `Plans.Service.Method` | Services/Service.php:77-82 | a valid name gets a fresh specification stored under it, replacing an earlier one in its place; an invalid name throws and changes nothing; nothing else changes |
| `Plans.Service.Props` | Services/Service.php:87-94 | returns the property injections, created empty on first use and the same object afterwards; nothing else changes |
| `Plans.Service.CreateInstance` | Services/Service.php:101-142 | equals `Instantiate`; without a usable class it throws `ClassNotFound` (key and class, "" for none) before any step |
| `Plans.Service.CallMethods` | Services/Service.php:122-130 | the method loop equals `CallAll` over the plan's methods in map order |
| `Plans.Service.InjectProps` | Services/Service.php:132-138 | the property loop equals `AssignAll` over the properties in map order |
| `Plans.Service.ProcessArgs` | Services/Service.php:149-158 | the loop equals `ProcessFrom`: each argument processed in order, results in order, first failure stops it |
| `Plans.Service.ProcessArg` | Services/Service.php:165-172 | a value that is not a plan comes back unchanged with no step; a plan is built with no call-time arguments |
| `PlanProperties.ProcessArgsAsCalled` | Services/Service.php:117 | as called, `processArgs` returns the argument array as its only element, unresolved, with no step |
| `PlanProperties.CallAllEmitsCalls` | Services/Service.php:124-130 | the method loop makes exactly one call per specification, in map order, each with its argument list wrapped in one array, and builds nothing |
| `PlanProperties.AssignAllPlain` | Services/Service.php:133-138 | with no plan among the property values, each property is assigned its value once, in map order |
| `PlanProperties.InstantiateSteps` | Services/Service.php:101-142 | with a usable class and plain property values, the build is exactly: construct with one array (call-time arguments then stored constructor arguments), the method calls, the property assignments; it returns the new object |
| `PlanProperties.UnusableClassTakesNoStep` | Services/Service.php:104-108 | without a usable class, the build throws `ClassNotFound` and records nothing |
| `PlanProperties.InstantiateGrows` | Services/Service.php:101-142 | a build only appends steps, on objects numbered from the one it builds onward; on success it returns an object built in that range |
| `PlanProperties.ProcessArgGrows` | Services/Service.php:165-172 | processing a value only appends steps on objects it builds; a built plan yields the next object |
| `PlanProperties.ProcessFromGrows` | Services/Service.php:149-158 | processing an argument list only appends steps on objects it builds |
| `PlanProperties.CallAllGrows` | Services/Service.php:124-130 | the method loop only appends steps on the target object or objects built after it |
| `PlanProperties.AssignAllGrows` | Services/Service.php:133-138 | the property loop only appends steps on the target object or objects built after it |
| `PlanProperties.ProcessArgLeavesObject` | Services/Service.php:136 | building a property's plan value adds no step on the object being set up |
| `PlanProperties.AssignAllOwnSteps` | Services/Service.php:133-138 | the steps the property loop takes on the target are one assignment per property, in map order, of the value or of an object built after the target |
| `PlanProperties.OwnSteps` | Services/Service.php:101-142 | however plans nest, a successful build acts on its own new object exactly so: construct first, then one call per method in map order, then one assignment per property in map order |
| `PlanProperties.SuccessiveBuildsDiffer` | Services/Service.php:120 | resolution is not cached: two successive builds return different objects |
| `ServiceRegistry.Services.constructor` | Services.php:34-38 | starts with no plans |
| `ServiceRegistry.Services.Has` | Services.php:44-47 | whether some registered plan is stored under the key exactly as given (not normalised) |
| `ServiceRegistry.Services.Service` | Services.php:53-62 | returns the plan stored under the key exactly as given, or creates a plan with that key, appends it and returns it; registered plans are never replaced |
| `InstanceRepository.Repository.constructor` | Repository.php:34-38 | starts with no instances and a count of 0 |
| `InstanceRepository.Repository.Count` | Repository.php:43-46 | the push counter, never below the number of stored instances |
| `InstanceRepository.Repository.List` | Repository.php:51-59 | each stored key, in storage order, paired with the class of its instance |
| `InstanceRepository.Repository.Push` | Repository.php:67-79 | throws `NotAnObject` for a non-object; keys it by the given key or else the base class name; throws `InvalidKey` for an invalid key; otherwise stores under the normalised key (replacing in place), increments the count and returns it |
| `InstanceRepository.Repository.Has` | Repository.php:85-89 | throws `InvalidKey` for an invalid key; else whether the normalised key is stored |
| `InstanceRepository.Repository.Pull` | Repository.php:96-104 | succeeds exactly for a valid, stored key and returns its instance, which is an object; otherwise throws `InvalidKey` or `NoInstance` with the normalised key |
| `InstanceRepository.StoreKeepsInvariant` | Repository.php:73-76 | storing an object under a normal key keeps keys unique, normal and holding objects, and adds at most one entry |
| `InstanceRepository.StoredGet` | Repository.php:103 | what the repository holds is an object |
| `DependencyInjection.DependencyInjectionContainer.constructor` | DependencyInjectionContainer.php:35-39 | a new container has a new, empty registry and repository |
| `DependencyInjection.DependencyInjectionContainer.Service` | DependencyInjectionContainer.php:46-50 | throws `InvalidKey` for an invalid key; otherwise returns the plan registered under the normalised key, with that key and no class; if there was none, a fresh plan with no methods, constructor or properties is appended |
| `DependencyInjection.DependencyInjectionContainer.Add` | DependencyInjectionContainer.php:75-90 | invalid key: throws and changes nothing. Object: pushed under the normalised key, returns `true`, plans untouched. String: the plan under the key (if absent, a fresh empty plan is appended, and it stays even when the name is invalid) is returned if the class name is valid, else `InvalidClassName`. Anything else: `CannotStore` with its type name, nothing changes |
| `DependencyInjection.DependencyInjectionContainer.AddInstance` | DependencyInjectionContainer.php:80-82 | the object branch of `add` always succeeds once the key is valid |
| `DependencyInjection.DependencyInjectionContainer.AddPlan` | DependencyInjectionContainer.php:83-84 | the string branch of `add`: the plan (a fresh empty one if the key had none) is registered before the class name is checked |
| `DependencyInjection.DependencyInjectionContainer.Get` | DependencyInjectionContainer.php:100-109 | throws `InvalidKey` for an invalid key; a stored instance is returned with no step; otherwise the plan under the key (a fresh empty one appended if absent) is built, which always throws `ClassNotFound` with class "" |
| `DependencyInjection.DependencyInjectionContainer.Build` | DependencyInjectionContainer.php:106-108 | the `else` branch of `get`: the plan under the key (a fresh empty one appended if absent) is built, and the build throws `ClassNotFound` with class "" and records nothing |
| `DependencyInjection.LookupIsCaseInsensitive` | DependencyInjectionContainer.php:75-109 | in any valid container, an object added under one key is returned, with no step, by `get` under any spelling of that key differing only in case |
| `DependencyInjection.InstanceShadowsPlan` | DependencyInjectionContainer.php:100-109 | in any valid container, an instance stored under a key wins over a plan registered under it earlier |
| `DependencyInjection.PlanIsNeverBuilt` | Services/Service.php:52-59 | in any valid container, `add` of a valid class name returns a plan with no class, and a later `get` of that key throws `ClassNotFound` whatever classes exist, unless an instance is stored under the key |

## Left out

- Reflection: classes are not loaded and user code is not run. `class_exists` is the set `known`, and construction, method calls and property writes are recorded in the trace.
- Exceptions thrown by user constructors, by user methods (including a missing method or `__call`) and by property writes are not modelled. Every recorded step succeeds.
- `createInstance` on a cyclic plan overflows the stack in PHP. The model stops after `fuel` nested builds with `DepthExceeded`, which has no PHP counterpart.
- `Repository.Push`: `Comely::baseClassName` belongs to another package, so it is the parameter `baseClassName`. Push is proved only for what that function returns.
- `ComponentInterface`, which the container implements, is a marker interface from another package and is not part of this model.
- `Services::$diContainer`, the registry's back-reference to the container, is never read by the core and is not modelled.
- `DependencyInjection.DependencyInjectionContainer.Repo`: the `repo()` accessor returns the repository. It has no contract because `repository` is a constant field.
- Exception messages are not modelled, only the exception kind and the key or class it names.
- PHP turns numeric-string array keys such as `"12"` into integers. This does not change the order of keys or the results of lookups here, so keys stay strings.
- `Arr` keeps only the values of a PHP array, in order, not its keys. The core never looks inside an array it is given, so no result depends on this, but a string-keyed array recorded in a step loses its keys.
- Floats, resources and closures are not among the `Value`s. `gettype` names are given for the values modelled.
- `Plans.ServiceInjectMethod.constructor`: its guard, which throws `InvalidMethodName`, is modelled by the static method `New`. The constructor itself requires a valid name.
- `Plans.Service.CallMethods`, `Plans.Service.InjectProps`: the two loops of `createInstance` are separate methods. This does not change the order of steps.
- Aliasing of argument arrays: PHP arrays are values, and so are Dafny sequences. Objects shared between plans are shared by reference in both.
