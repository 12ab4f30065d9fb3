# easy-menu: start-up resolver, navigation context and menu display

This project models the core of easy-menu, a Java library for console menus.
A program marks classes as menu levels or as injectable components. At start-up
the library instantiates them, resolving constructor dependencies. It then
registers every level in a navigation context and shows each level's annotated
actions as a numbered menu.

The modules follow the Java sources:

- `ClassScanner` (`org.easy.menu.application.ClassScanner`, imperative). This is
  the resolver. A class holds the pending set `deps` and the map
  `instantiatedObjects`, and `InstantiateClasses` runs the do-while of passes.
  - The discovered classes are given as a map from class id to descriptor. A
    descriptor holds the parameter types of each constructor, in declaration
    order, and whether the class is a menu level (with its label, methods and
    home flag).
  - The iteration order of the `HashSet` is a given duplicate-free sequence.
  - Whether `newInstance` throws is a given set of `(pass, class, constructor)`
    attempts.
  - `Resolve` is an independent reference definition of the whole loop. The
    method is proved to agree with it whenever no level conflict (a rejected
    level or a second home) aborts the run.
- `Navigation` (`org.easy.menu.application.Context`, imperative). The navigation
  context is a class with the fields `levels`, `groupedOptions`, `currentLevel`,
  `home` and `quitAction`. The process-wide singleton becomes an explicit,
  freshly allocated object.
- `LegacyNavigation` (`com.chamis.andre.application.Context`). This is the
  earlier context, without options and without a quit check.
- `MenuLevel` holds `getActions`, the action filter shared by both `MenuLevel`
  classes, and the search inside `navigate`. `LegacyMenuLevel` models
  `navigate` of `com.chamis.andre.domain.MenuLevel`.
- `MenuExecutor` (`org.easy.menu.application.MenuExecutor`) models three
  methods:
  - `generateDisplayActions`: filter, stable sort by `order`, dense keys;
  - `selectAction`, over a given sequence of integer inputs;
  - the frame built by `displayLabel`.
- `StringUtil` models `padRight`.
- `Common` holds the shared types: class ids, `Option`, the pass/fail
  `Outcome`, and sequence helpers.

In these points the model follows the code:

- The resolver registers only menu levels. It never calls `setQuitAction` or
  `addOption`.
- `postInit` of the newer context sets the current level to home before it
  checks the quit action, so a `MissingQuit` failure leaves `currentLevel == home`.
- `levels` is a list, and the same level can be added twice.
- When `newInstance` throws, the exception is caught outside the constructor
  loop. The class stays pending for the next pass, and no later constructor is
  tried in the same pass.

## Model

| member | source | states |
|---|---|---|
| `MenuLevel.GetActions` | src/main/java/org/easy/menu/domain/MenuLevel.java:22-24 | the result holds exactly the annotated methods (nothing else, none omitted) and is no longer than the method list |
| `MenuLevel.GetActionsKeepsOrder` | src/main/java/com/chamis/andre/domain/MenuLevel.java:52-56 | the annotated methods keep their discovery order: the result is a subsequence of the method list |
| `MenuLevel.FirstIndexOfType` | src/main/java/org/easy/menu/application/Context.java:140 | `filter(...).findFirst()`: the index of the first level of the target class; none exactly when no level has that class |
| `Navigation.Context.constructor` | src/main/java/org/easy/menu/application/Context.java:35-61 | a new context has no levels, no options, and no current level, home or quit action |
| `Navigation.Context.AddLevel` | src/main/java/org/easy/menu/application/Context.java:88-90 | appends exactly one level; options, current level, home and quit action are unchanged |
| `Navigation.Context.PostInit` | src/main/java/org/easy/menu/application/Context.java:100-110 | without a home it fails with MissingHome and the current level is untouched; otherwise the current level becomes home, and then it fails with MissingQuit if no quit action is set |
| `Navigation.Context.SetHome` | src/main/java/org/easy/menu/application/Context.java:121-127 | write-once: a second call fails with MultipleHome naming the existing and the incoming class, and home is unchanged; nothing else changes |
| `Navigation.Context.Navigate` | src/main/java/org/easy/menu/application/Context.java:139-141 | the current level becomes the first registered level of the target class, and it is then in `levels`; without one it fails with UnknownLevel and the current level is unchanged; levels, options, home and quit action never change |
| `Navigation.Context.AddOption` | src/main/java/org/easy/menu/application/Context.java:150-157 | a null option fails and changes nothing; otherwise the option is appended to its level's list, which is created if absent, and every other list is unchanged |
| `Navigation.Context.GetOptionsFor` | src/main/java/org/easy/menu/application/Context.java:166-168 | definition of the lookup that `AddOption` updates: the stored list of the level class, or the empty list when there is none |
| `Navigation.Context.GetOptions` | src/main/java/org/easy/menu/application/Context.java:176-178 | definition: `GetOptionsFor` of the current level's class; undefined (the NullPointerException) exactly when there is no current level |
| `Navigation.Context.SetQuitAction` | src/main/java/org/easy/menu/application/Context.java:189-195 | write-once: a second call fails with MultipleQuit naming both actions, and the quit action is unchanged |
| `Navigation.RegisterTwoHomes` | src/main/java/org/easy/menu/application/Context.java:121-124 | registering two home levels fails with MultipleHome naming the first and the second |
| `Navigation.RegisterTwoQuits` | src/main/java/org/easy/menu/application/Context.java:189-192 | two quit actions fail with MultipleQuit naming both |
| `Navigation.NavigateHomeAndBack` | src/main/java/org/easy/menu/application/Context.java:100-141 | home plus sub level plus quit action: `postInit` passes and the current level is home, then sub, then home again; navigating to an unregistered class fails with UnknownLevel and the current level stays home |
| `LegacyNavigation.Context.constructor` | src/main/java/com/chamis/andre/application/Context.java:36-51 | a new context has no levels, no current level and no home |
| `LegacyNavigation.Context.AddLevel` | src/main/java/com/chamis/andre/application/Context.java:80-82 | appends exactly one level and changes nothing else |
| `LegacyNavigation.Context.PostInit` | src/main/java/com/chamis/andre/application/Context.java:92-98 | fails with MissingHome and leaves the current level alone when there is no home; otherwise passes with the current level set to home (no quit check) |
| `LegacyNavigation.Context.SetHome` | src/main/java/com/chamis/andre/application/Context.java:109-115 | write-once: a second call fails with MultipleHome naming both classes and keeps the first home |
| `LegacyNavigation.Context.Navigate` | src/main/java/com/chamis/andre/application/Context.java:129-134 | the first registered level of the target class becomes current and is in `levels`; otherwise UnknownLevel with the current level unchanged; levels and home never change |
| `LegacyNavigation.StartWithHomeOnly` | src/main/java/com/chamis/andre/application/Context.java:92-98 | with one home level and no quit action, `postInit` passes and the current level is home |
| `LegacyMenuLevel.Navigate` | src/main/java/com/chamis/andre/domain/MenuLevel.java:69-71 | a level's `navigate` has exactly the effect and the errors of the context's `navigate` |
| `LegacyMenuLevel.NavigateToUnregistered` | src/main/java/com/chamis/andre/domain/MenuLevel.java:69-71 | navigating from home to an unregistered class fails with UnknownLevel naming it, and home stays current |
| `StringUtil.PadRight` | src/main/java/com/chamis/andre/util/StringUtil.java:13-27 | null is read as ""; the result starts with the text, is `max(|text|, padding)` long, is spaces after the text, and is the text itself when it is already long enough |
| `StringUtil.PadRightAsWritten` | src/main/java/com/chamis/andre/util/StringUtil.java:22-27 | `padRight` as written: it throws exactly when the width is zero or negative, and a formatted result is at least the width long |
| `StringUtil.PadRightAsWrittenAgrees` | src/main/java/com/chamis/andre/util/StringUtil.java:22-27 | for a positive width the `String.format` pattern gives exactly the documented result; for a width of zero or less it throws |
| `StringUtil.PadRightZeroWidthThrows` | src/main/java/com/chamis/andre/util/StringUtil.java:26 | `padRight("a", 0)` throws MissingFormatWidth where the documentation promises "a" |
| `MenuExecutor.Insert` | src/main/java/org/easy/menu/application/MenuExecutor.java:68 | definition: one step of the stable sort, which adds exactly one element; `InsertPermutes`, `InsertSorted` and `InsertKeepsTies` state what it does |
| `MenuExecutor.SortByOrder` | src/main/java/org/easy/menu/application/MenuExecutor.java:68 | definition of `sorted(Comparator.comparing(order))`, which keeps the length; `SortByOrderSorted`, `SortByOrderPermutes` and `SortByOrderIsStable` state what it does |
| `MenuExecutor.InsertPermutes` | src/main/java/org/easy/menu/application/MenuExecutor.java:68 | inserting an action into the sorted list adds exactly that action |
| `MenuExecutor.InsertSorted` | src/main/java/org/easy/menu/application/MenuExecutor.java:68 | inserting into a list sorted by `order` keeps it sorted |
| `MenuExecutor.SortByOrderSorted` | src/main/java/org/easy/menu/application/MenuExecutor.java:68 | the sorted actions are non-decreasing in `order` |
| `MenuExecutor.SortByOrderPermutes` | src/main/java/org/easy/menu/application/MenuExecutor.java:68 | the sorted actions are a permutation of the annotated actions |
| `MenuExecutor.InsertKeepsTies` | src/main/java/org/easy/menu/application/MenuExecutor.java:68 | insertion puts the new action before all actions of its own `order` and does not reorder them |
| `MenuExecutor.SortByOrderIsStable` | src/main/java/org/easy/menu/application/MenuExecutor.java:68 | the sort is stable: for every `order` value, the actions with it keep their discovery order |
| `MenuExecutor.Keyed` | src/main/java/org/easy/menu/application/MenuExecutor.java:71-77 | definition used by `GenerateDisplayActions`: the `i`-th display action has key `i`, the annotation's label and the `i`-th method |
| `MenuExecutor.DisplayList` | src/main/java/org/easy/menu/application/MenuExecutor.java:65-80 | one display action per annotated method |
| `MenuExecutor.GenerateDisplayActions` | src/main/java/org/easy/menu/application/MenuExecutor.java:65-80 | keys are dense (`value == i`), labels come from the annotation, the methods are a permutation of the annotated ones, sorted by `order` |
| `MenuExecutor.DisplayOrderExample` | src/main/java/org/easy/menu/application/MenuExecutor.java:66-77 | actions A (order 2) and B (order 1) found in that order are shown as B, A; two actions of equal order keep their discovery order |
| `MenuExecutor.SelectAction` | src/main/java/org/easy/menu/application/MenuExecutor.java:90-108 | returns exactly when some input is a key; it returns at the first input that is a key, and the chosen action is the display action at that key and carries it as its value; every earlier input was re-prompted |
| `MenuExecutor.DisplayLabel` | src/main/java/org/easy/menu/application/MenuExecutor.java:129-150 | nothing for an empty label; otherwise an empty line, then `╔══`+L×`═`+`══╗`, `║  `+label+`  ║` and `╚══`+L×`═`+`══╝`, each of length L+6 with the label at columns 3 to L+2 |
| `ClassScanner.FirstSatisfiable` | src/main/java/org/easy/menu/application/ClassScanner.java:126-145 | the first constructor in array order whose parameter types are all available: it is satisfiable, no earlier one is, and there is none exactly when none is satisfiable |
| `ClassScanner.Stuck` | src/main/java/org/easy/menu/application/ClassScanner.java:126-145 | a class is not stuck exactly when some constructor is satisfiable, it is the first satisfiable one in array order, and its `newInstance` does not throw in this pass |
| `ClassScanner.FirstWithArguments` | src/main/java/org/easy/menu/application/ClassScanner.java:211-216 | the first action with parameters, none exactly when every action takes none |
| `ClassScanner.PendingInOrder` | src/main/java/org/easy/menu/application/ClassScanner.java:119-122 | the iterator visits exactly the pending classes |
| `ClassScanner.PendingInOrderDistinct` | src/main/java/org/easy/menu/application/ClassScanner.java:119-122 | the iterator visits each pending class once |
| `ClassScanner.FindActionWithArguments` | src/main/java/org/easy/menu/application/ClassScanner.java:211-216 | the validation loop stops at the first action with parameters |
| `ClassScanner.HandleMenuLevel` | src/main/java/org/easy/menu/application/ClassScanner.java:210-224 | a level with an action that takes arguments is rejected (naming that action) before anything is registered; otherwise it is appended to the levels and, only when flagged home, set as home, failing with MultipleHome when a home exists; options, current level and quit action are untouched |
| `ClassScanner.PassResult` | src/main/java/org/easy/menu/application/ClassScanner.java:119-149 | reference definition of one pass; it instantiates only classes that were visited |
| `ClassScanner.Resolve` | src/main/java/org/easy/menu/application/ClassScanner.java:117-150 | reference definition of the whole do-while: what is left is a subset of the pending classes, what was instantiated is exactly the rest, and the last pass is not before the first |
| `ClassScanner.PassResultStep` | src/main/java/org/easy/menu/application/ClassScanner.java:121-145 | one visit of the reference pass: the class is instantiated unless stuck, with those instantiated before it in the pass available |
| `ClassScanner.EmptyPassAllStuck` | src/main/java/org/easy/menu/application/ClassScanner.java:146-150 | a pass that instantiates nothing leaves every visited class stuck: no satisfiable constructor, or the first one raises |
| `ClassScanner.PassResultNonEmpty` | src/main/java/org/easy/menu/application/ClassScanner.java:119-146 | a pass that visits a class which is not stuck instantiates something |
| `ClassScanner.ResolveComplete` | src/main/java/org/easy/menu/application/ClassScanner.java:117-150 | completeness: with no throwing constructor and dependencies layered by a rank (every class has a constructor whose parameter types are discovered classes of lower rank), the resolution leaves nothing pending |
| `ClassScanner.AcyclicResolves` | src/main/java/org/easy/menu/application/ClassScanner.java:115-156 | the same, started from the state after scanning: every discovered class is instantiated |
| `ClassScanner.ResolveAfterPass` | src/main/java/org/easy/menu/application/ClassScanner.java:117-150 | the reference resolution unfolds one pass: it goes on exactly while the pass made progress and something is pending |
| `ClassScanner.RegisteredHomeSource` | src/main/java/org/easy/menu/application/ClassScanner.java:221-223 | a home set during resolution comes from a class annotated home |
| `ClassScanner.HomeClash` | src/main/java/org/easy/menu/application/ClassScanner.java:221-223 | a home class that finds a home already set means two home classes, or a home before resolution |
| `ClassScanner.AcceptedAll` | src/main/java/org/easy/menu/application/ClassScanner.java:211-216 | the classes of a sequence all passed the argument check exactly when none of them is a rejected level |
| `ClassScanner.Announce` | src/main/java/org/easy/menu/application/ClassScanner.java:140-142 | only level instances reach `handleMenuLevel`; on success the class is not a rejected level and the context gains exactly its level (and home); a failure implies a level conflict |
| `ClassScanner.InstantiatedOnce` | src/main/java/org/easy/menu/application/ClassScanner.java:134-136 | each class is instantiated at most once |
| `ClassScanner.ClassScanner.constructor` | src/main/java/org/easy/menu/application/ClassScanner.java:29-30 | after scanning every discovered class is pending and nothing is instantiated |
| `ClassScanner.ClassScanner.AllDependenciesAvailable` | src/main/java/org/easy/menu/application/ClassScanner.java:165-172 | true exactly when every parameter type is a key of `instantiatedObjects` |
| `ClassScanner.ClassScanner.GetDependencies` | src/main/java/org/easy/menu/application/ClassScanner.java:181-187 | as many arguments as parameter types, the `i`-th being the instance stored for the `i`-th type |
| `ClassScanner.ClassScanner.RemoveDependenciesFromSet` | src/main/java/org/easy/menu/application/ClassScanner.java:195-199 | removes exactly the parameter types from the pending set |
| `ClassScanner.ClassScanner.Record` | src/main/java/org/easy/menu/application/ClassScanner.java:134-136 | the class leaves the pending set, `removeDependenciesFromSet` changes nothing, and the instance is stored; pending and instantiated classes stay disjoint |
| `ClassScanner.ClassScanner.Store` | src/main/java/org/easy/menu/application/ClassScanner.java:134-142 | after `newInstance`: record the instance, then register a level |
| `ClassScanner.ClassScanner.TryInstantiate` | src/main/java/org/easy/menu/application/ClassScanner.java:123-148 | the class is instantiated exactly when it is not stuck, through the first satisfiable constructor; when that constructor raises, the class stays pending and nothing changes |
| `ClassScanner.ClassScanner.Visit` | src/main/java/org/easy/menu/application/ClassScanner.java:121-148 | one iteration of the iterator loop agrees with the reference pass and keeps the classes still to visit pending |
| `ClassScanner.ClassScanner.RunPass` | src/main/java/org/easy/menu/application/ClassScanner.java:118-149 | a pass instantiates exactly what the reference pass does; progress means the pending set shrank; without progress every pending class is stuck |
| `ClassScanner.ClassScanner.NextPass` | src/main/java/org/easy/menu/application/ClassScanner.java:117-150 | one turn of the do-while; when the loop goes on, the pending set strictly shrank (termination) |
| `ClassScanner.ClassScanner.RunPasses` | src/main/java/org/easy/menu/application/ClassScanner.java:117-150 | the do-while ends; its result is the reference resolution, or an abort on a level conflict |
| `ClassScanner.ClassScanner.InstantiateClasses` | src/main/java/org/easy/menu/application/ClassScanner.java:115-156 | fails naming exactly the classes still pending, each stuck in the last pass; otherwise passes with nothing pending; when it passes or reports unresolved classes, no instantiated class is a level with an action that takes arguments, and after a pass no discovered class is; without a level conflict its outcome and instantiation order are those of `Resolve`, and the context holds exactly the levels (and home) of the instantiated level classes |
| `ClassScanner.MutualPairIsStuck` | src/main/java/org/easy/menu/application/ClassScanner.java:146-155 | two classes that need each other: the first pass instantiates nothing and resolution stops |
| `ClassScanner.CycleIsReported` | src/main/java/org/easy/menu/application/ClassScanner.java:152-155 | with such a pair, `instantiateClasses` fails naming both classes |
| `ClassScanner.ThrowingConstructorIsStuck` | src/main/java/org/easy/menu/application/ClassScanner.java:126-148 | when the first satisfiable constructor throws, the second is not tried and the pass makes no progress |
| `ClassScanner.ThrowingConstructorIsReported` | src/main/java/org/easy/menu/application/ClassScanner.java:146-155 | then `instantiateClasses` fails naming the class |
| `ClassScanner.RejectedMenuResolves` | src/main/java/org/easy/menu/application/ClassScanner.java:117-150 | a dependency-free level whose one action takes an argument is instantiated in the first pass, and it is a rejected level |
| `ClassScanner.RejectedLevelAborts` | src/main/java/org/easy/menu/application/ClassScanner.java:210-216 | with that class `instantiateClasses` fails with the exception of `handleMenuLevel`, not with unresolved classes |
| `ClassScanner.ChainResolves` | src/main/java/org/easy/menu/application/ClassScanner.java:117-150 | a level needing an injectable: visiting the level first takes two passes, visiting the injectable first takes one, because a class instantiated earlier in a pass is available at once |
| `ClassScanner.ChainResolution` | src/main/java/org/easy/menu/application/ClassScanner.java:117-150 | whichever order, the reference resolution instantiates the injectable and then the level, leaving nothing pending |
| `ClassScanner.ChainInstances` | src/main/java/org/easy/menu/application/ClassScanner.java:130-136 | the level's instance receives the injectable's instance as its argument |
| `ClassScanner.ChainRegisters` | src/main/java/org/easy/menu/application/ClassScanner.java:218-223 | the level is registered once and becomes home |
| `ClassScanner.LevelAfterItsDependency` | src/main/java/org/easy/menu/application/ClassScanner.java:115-156 | end to end: `instantiateClasses` passes, the stored instances, the registered levels and the home are as above, in one or two passes depending on the order |

## Left out

- Classpath and directory scanning (`findSubclasses`, `scanDirectory`) is left out. The discovered classes are the map given to the `ClassScanner` constructor.
- Reflection is left out: constructor and method lists are given sequences, and annotations are flags on the descriptors.
- `Constructor.newInstance` is a given set of attempts that throw. Constructor bodies with side effects of their own are not modelled.
- Instances are values. `getDependencies` builds an `Object[]`, modelled as a sequence.
- Console I/O is left out: the printing in `instantiateClasses`, `displayMenu` and `displayLabel`, and `InputUtil.getIntInput`. `selectAction` reads a given finite sequence of inputs, and `DisplayLabel` returns the lines it would print.
- The interactive `MenuExecutor.run` loop and `Method.invoke` are left out: the loop has no exit and calls into user code.
- The `Menu.start` bootstrap files are left out, since they only wire scan, `postInit` and run together. The newer resolver never sets a quit action. So in the newer `Menu.start`, `postInit` ends in MissingHome when no class is annotated home. Otherwise it ends in MissingQuit, unless the host called `setQuitAction` on `Context.getContext()` before `start`. `Navigation.Context.PostInit` states both cases.
- The singletons (`Context.getContext` and the static `deps`/`instantiatedObjects` of the resolver) become explicit objects.
- The exception classes are constructors of the error datatypes, carrying the classes their messages name.
- The `handleMenuLevel` exceptions (IllegalArgumentException, MultipleHomeException) are not caught by `instantiateClasses`, so they abort resolution. The model reports them as a failure and does not model the stack unwinding.
- `ClassScanner.ClassScanner.RunPasses`: after such an abort it states the level conflict and which classes were pending and instantiated by then. It does not state what the context holds at that point. `ClassScanner.ClassScanner.InstantiateClasses` inherits this.
- A null level or home is not modelled. `home` and `currentLevel` are `Option`s, and null is `None`.
- `removeDependenciesFromSet` calls `deps.remove` while the pass iterator is open. The model proves the call removes nothing, so the `ConcurrentModificationException` it could raise never arises.
- `ClassScanner.ClassScanner.GetDependencies`: requires every parameter type to be instantiated, which is how `instantiateClasses` calls it. The null that `HashMap.get` would put in the array for a missing type is not modelled.
- `Navigation.Context.GetOptions`: the NullPointerException before `postInit` is the `None` result.
- Option and quit-action classification in the resolver is not modelled, because the code has none.
- Strings are sequences of characters. Java's UTF-16 length and the console width of the box characters are not modelled.
- The `getActions` of `com.chamis.andre.domain.MenuLevel` is the same filter as `MenuLevel.GetActions` and is modelled once.
- `MenuLevel.GetActions`: in src/main/java/org/easy/menu/domain/MenuLevel.java:22-24 the unqualified `Action.class` is not imported, so it names the `Action` interface of the same package, not the action annotation. That interface is not an annotation type, so the call does not fit `isAnnotationPresent`. The model reads it as the annotation, which is what `MenuExecutor` filters on (MenuExecutor.java:67).
- `LegacyMenuLevel.Navigate` does not take the calling level as a parameter, because the source's `navigate` does not use it.

## Findings

| source | as written | input that shows it | evidently intended | confidence | as-written member | corrected member |
|---|---|---|---|---|---|---|
| src/main/java/com/chamis/andre/util/StringUtil.java:26 | `String.format("%-" + padding + "s", s)` throws for `padding <= 0`: "%-0s" has no width (MissingFormatWidthException), "%--1s" repeats a flag (DuplicateFormatFlagsException) | `padRight("a", 0)` | the documented result (lines 13-19): the string unchanged when it is already at least `padding` long | not executed | `StringUtil.PadRightZeroWidthThrows` | `StringUtil.PadRight` |
