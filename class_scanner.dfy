/**
 * The start-up resolver of `org.easy.menu.application.ClassScanner`: given the
 * discovered classes, instantiate each through the first constructor whose
 * parameter types are all instantiated already, pass after pass, and register
 * every menu level with the navigation context.
 */
module ClassScanner {
  import opened Common
  import opened MenuLevel
  import opened Navigation

  /** What instantiation does with an instance: register it as a level, or nothing. */
  datatype Kind =
    | Injectable                                                 // any other discovered class
    | LevelClass(caption: string, methods: seq<Method>, isHome: bool)  // a MenuLevel; isHome: annotated home

  /** A discovered class: the parameter types of its declared constructors, in array order. */
  datatype TypeDescriptor = TypeDescriptor(ctors: seq<seq<TypeId>>, kind: Kind)

  /** The `k`-th constructor of `typ`, tried in pass `pass` (counted from 0). */
  datatype Attempt = Attempt(pass: nat, typ: TypeId, ctor: nat)

  /** An instance: its class, the index of the constructor used and the arguments passed. */
  datatype Instance = Instance(typ: TypeId, ctor: nat, args: seq<Instance>)

  /** How resolution aborts. */
  datatype ResolveError =
    | UnresolvedDependencies(remaining: set<TypeId>)   // the RuntimeException after the last pass
    | ActionHasArguments(action: string)               // IllegalArgumentException of handleMenuLevel
    | ContextFailure(cause: ContextError)              // MultipleHomeException of setHome

  /** Every parameter type is available. */
  predicate AllAvailable(parameterTypes: seq<TypeId>, available: set<TypeId>)
  {
    forall p :: p in parameterTypes ==> p in available
  }

  /** The first constructor, in array order, whose parameter types are all available. */
  function FirstSatisfiable(ctors: seq<seq<TypeId>>, available: set<TypeId>): (r: Option<nat>)
    ensures r.Some? ==> r.value < |ctors| && AllAvailable(ctors[r.value], available)
    ensures r.Some? ==> forall k :: 0 <= k < r.value ==> !AllAvailable(ctors[k], available)
    ensures r.None? <==> forall k :: 0 <= k < |ctors| ==> !AllAvailable(ctors[k], available)
  {
    if ctors == [] then None
    else if AllAvailable(ctors[0], available) then Some(0)
    else match FirstSatisfiable(ctors[1..], available)
      case None => None
      case Some(k) => Some(k + 1)
  }

  /** The index of the first action that takes arguments. */
  function FirstWithArguments(actions: seq<Method>): (r: Option<nat>)
    ensures r.Some? ==> r.value < |actions| && actions[r.value].paramCount > 0
    ensures r.Some? ==> forall j :: 0 <= j < r.value ==> actions[j].paramCount == 0
    ensures r.None? <==> forall j :: 0 <= j < |actions| ==> actions[j].paramCount == 0
  {
    if actions == [] then None
    else if actions[0].paramCount > 0 then Some(0)
    else match FirstWithArguments(actions[1..])
      case None => None
      case Some(j) => Some(j + 1)
  }

  /** The pending classes in the iteration order of the pending set. */
  function PendingInOrder(order: seq<TypeId>, pending: set<TypeId>): (r: seq<TypeId>)
    ensures forall t :: t in r <==> t in order && t in pending
  {
    if order == [] then []
    else if order[0] in pending then [order[0]] + PendingInOrder(order[1..], pending)
    else PendingInOrder(order[1..], pending)
  }

  /** Visiting the pending set visits each class once. */
  lemma {:induction false} PendingInOrderDistinct(order: seq<TypeId>, pending: set<TypeId>)
    requires NoDuplicates(order)
    ensures NoDuplicates(PendingInOrder(order, pending))
  {
    if order != [] {
      PendingInOrderDistinct(order[1..], pending);
      var rest := PendingInOrder(order[1..], pending);
      if order[0] in pending {
        var r := [order[0]] + rest;
        assert r[0] == order[0] && r[1..] == rest;
      }
    }
  }

  /** The level a class registers when instantiated, if it is a level class. */
  function LevelsOf(types: map<TypeId, TypeDescriptor>, t: TypeId): seq<Level>
  {
    if t in types && types[t].kind.LevelClass? then
      [Level(t, types[t].kind.caption, types[t].kind.methods)]
    else []
  }

  /** The same, restricted to level classes annotated home. */
  function HomesOf(types: map<TypeId, TypeDescriptor>, t: TypeId): seq<Level>
  {
    if t in types && types[t].kind.LevelClass? && types[t].kind.isHome then LevelsOf(types, t) else []
  }

  /** The levels registered by instantiating the classes of `h`, in that order. */
  function RegisteredLevels(types: map<TypeId, TypeDescriptor>, h: seq<TypeId>): seq<Level>
  {
    if h == [] then [] else RegisteredLevels(types, h[..|h| - 1]) + LevelsOf(types, h[|h| - 1])
  }

  /** `levels` are `base` followed by the levels registered by the classes of `h`. */
  ghost predicate LevelsAfter(levels: seq<Level>, base: seq<Level>, types: map<TypeId, TypeDescriptor>, h: seq<TypeId>)
  {
    levels == base + RegisteredLevels(types, h)
  }

  /** The home levels among them. */
  function RegisteredHomes(types: map<TypeId, TypeDescriptor>, h: seq<TypeId>): seq<Level>
  {
    if h == [] then [] else RegisteredHomes(types, h[..|h| - 1]) + HomesOf(types, h[|h| - 1])
  }

  function OptionalLevel(o: Option<Level>): seq<Level>
  {
    if o.None? then [] else [o.value]
  }

  /** The fields of a navigation context, as a value. */
  datatype ContextState = ContextState(
    levels: seq<Level>,
    groupedOptions: map<TypeId, seq<MenuOption>>,
    currentLevel: Option<Level>,
    home: Option<Level>,
    quitAction: Option<QuitAction>)

  function StateOf(ctx: Context): ContextState
    reads ctx
  {
    ContextState(ctx.levels, ctx.groupedOptions, ctx.currentLevel, ctx.home, ctx.quitAction)
  }

  /** `t` is a level class one of whose actions takes arguments. */
  predicate RejectedLevel(types: map<TypeId, TypeDescriptor>, t: TypeId)
  {
    t in types && types[t].kind.LevelClass? && FirstWithArguments(GetActions(types[t].kind.methods)).Some?
  }

  /** No class of `h` is a level that `handleMenuLevel` rejects. */
  predicate Accepted(types: map<TypeId, TypeDescriptor>, h: seq<TypeId>)
  {
    h == [] || (Accepted(types, h[..|h| - 1]) && !RejectedLevel(types, h[|h| - 1]))
  }

  /** `Accepted` holds of exactly the sequences none of whose classes is rejected. */
  lemma {:induction false} AcceptedAll(types: map<TypeId, TypeDescriptor>, h: seq<TypeId>)
    ensures Accepted(types, h) <==> forall t :: t in h ==> !RejectedLevel(types, t)
  {
    if h != [] {
      var init, last := h[..|h| - 1], h[|h| - 1];
      AcceptedAll(types, init);
      assert h == init + [last];
      assert forall t :: t in h <==> t in init || t == last;
    }
  }

  /**
   * The context `s` is `base` plus what registering the levels of `h` adds:
   * each level appended once, in instantiation order, and the home set by the
   * only home level among them (there is at most one, counting `base`'s own home).
   * Every level among them passed the argument check.
   */
  ghost predicate RegisteredIn(s: ContextState, base: ContextState, types: map<TypeId, TypeDescriptor>, h: seq<TypeId>)
  {
    && Accepted(types, h)
    && LevelsAfter(s.levels, base.levels, types, h)
    && OptionalLevel(s.home) == OptionalLevel(base.home) + RegisteredHomes(types, h)
    && s.groupedOptions == base.groupedOptions
    && s.currentLevel == base.currentLevel
    && s.quitAction == base.quitAction
  }

  /** `RegisteredIn`, of the context object's current fields. */
  ghost predicate Registers(ctx: Context, base: ContextState, types: map<TypeId, TypeDescriptor>, h: seq<TypeId>)
    reads ctx
  {
    RegisteredIn(StateOf(ctx), base, types, h)
  }

  lemma RegisteredAppend(types: map<TypeId, TypeDescriptor>, h: seq<TypeId>, t: TypeId)
    ensures RegisteredLevels(types, h + [t]) == RegisteredLevels(types, h) + LevelsOf(types, t)
    ensures RegisteredHomes(types, h + [t]) == RegisteredHomes(types, h) + HomesOf(types, t)
    ensures Accepted(types, h + [t]) <==> Accepted(types, h) && !RejectedLevel(types, t)
  {
    assert (h + [t])[..|h|] == h;
  }

  /** The validation loop of `handleMenuLevel`: the first action that takes arguments. */
  method FindActionWithArguments(actions: seq<Method>) returns (bad: Option<nat>)
    ensures bad == FirstWithArguments(actions)
  {
    for i := 0 to |actions|
      invariant forall j :: 0 <= j < i ==> actions[j].paramCount == 0
    {
      if actions[i].paramCount > 0 {
        return Some(i);
      }
    }
    return None;
  }

  /**
   * `handleMenuLevel`: rejects the level if one of its actions takes
   * arguments; otherwise registers it, and sets it as home when annotated so.
   */
  method HandleMenuLevel(ctx: Context, level: Level, isHome: bool) returns (failure: Option<ResolveError>)
    modifies ctx
    ensures var actions := GetActions(level.methods);
      FirstWithArguments(actions).Some? ==>
        && failure == Some(ActionHasArguments(actions[FirstWithArguments(actions).value].name))
        && StateOf(ctx) == old(StateOf(ctx))
    ensures FirstWithArguments(GetActions(level.methods)).None? ==>
      && ctx.levels == old(ctx.levels) + [level]
      && (!isHome ==> failure == None && ctx.home == old(ctx.home))
      && (isHome && old(ctx.home).None? ==> failure == None && ctx.home == Some(level))
      && (isHome && old(ctx.home).Some? ==>
            failure == Some(ContextFailure(MultipleHome(old(ctx.home).value.typ, level.typ))) && ctx.home == old(ctx.home))
    ensures ctx.groupedOptions == old(ctx.groupedOptions) && ctx.currentLevel == old(ctx.currentLevel)
    ensures ctx.quitAction == old(ctx.quitAction)
  {
    var actions := GetActions(level.methods);
    var bad := FindActionWithArguments(actions);
    if bad.Some? {
      return Some(ActionHasArguments(actions[bad.value].name));
    }
    ctx.AddLevel(level);
    failure := None;
    if isHome {
      var r := ctx.SetHome(level);
      if r.Fail? {
        failure := Some(ContextFailure(r.error));
      }
    }
  }

  /**
   * `t` cannot be instantiated in pass `pass` from the classes in `available`:
   * no constructor is satisfiable, or the first satisfiable one raises.
   */
  predicate Stuck(types: map<TypeId, TypeDescriptor>, available: set<TypeId>, t: TypeId,
                  pass: nat, raises: set<Attempt>): (r: bool)
    requires t in types
    ensures !r <==> exists k :: 0 <= k < |types[t].ctors| && AllAvailable(types[t].ctors[k], available)
                                && (forall j :: 0 <= j < k ==> !AllAvailable(types[t].ctors[j], available))
                                && Attempt(pass, t, k) !in raises
  {
    match FirstSatisfiable(types[t].ctors, available)
    case None => true
    case Some(k) => Attempt(pass, t, k) in raises
  }

  /** `t` is a level class annotated home. */
  predicate HomeClass(types: map<TypeId, TypeDescriptor>, t: TypeId)
  {
    t in types && types[t].kind.LevelClass? && types[t].kind.isHome
  }

  /**
   * What can make `handleMenuLevel` throw: a rejected level, two home
   * classes, or a home class when the context already has a home.
   */
  predicate LevelConflict(types: map<TypeId, TypeDescriptor>, base: ContextState)
  {
    || (exists t :: t in types && RejectedLevel(types, t))
    || (exists t, u :: t in types && u in types && t != u && HomeClass(types, t) && HomeClass(types, u))
    || (base.home.Some? && exists t :: t in types && HomeClass(types, t))
  }

  /**
   * Reference definition of one pass: the classes instantiated while visiting
   * `pending` in order, each one that is not stuck when visited, with those
   * instantiated before it in the same pass already available.
   */
  function PassResult(types: map<TypeId, TypeDescriptor>, pending: seq<TypeId>, available: set<TypeId>,
                      pass: nat, raises: set<Attempt>): (r: seq<TypeId>)
    ensures forall t :: t in r ==> t in pending
  {
    if pending == [] then []
    else if pending[0] in types && !Stuck(types, available, pending[0], pass, raises) then
      [pending[0]] + PassResult(types, pending[1..], available + {pending[0]}, pass, raises)
    else PassResult(types, pending[1..], available, pass, raises)
  }

  lemma PassResultStep(types: map<TypeId, TypeDescriptor>, pending: seq<TypeId>, i: nat, available: set<TypeId>,
                       pass: nat, raises: set<Attempt>)
    requires i < |pending|
    ensures PassResult(types, pending[i..], available, pass, raises) ==
      if pending[i] in types && !Stuck(types, available, pending[i], pass, raises)
      then [pending[i]] + PassResult(types, pending[i + 1..], available + {pending[i]}, pass, raises)
      else PassResult(types, pending[i + 1..], available, pass, raises)
  {
    assert pending[i..][0] == pending[i];
    assert pending[i..][1..] == pending[i + 1..];
  }

  /** A pass that instantiates nothing leaves every visited class stuck. */
  lemma {:induction false} EmptyPassAllStuck(types: map<TypeId, TypeDescriptor>, pending: seq<TypeId>,
                                             available: set<TypeId>, pass: nat, raises: set<Attempt>)
    requires PassResult(types, pending, available, pass, raises) == []
    ensures forall t :: t in pending && t in types ==> Stuck(types, available, t, pass, raises)
  {
    if pending != [] {
      EmptyPassAllStuck(types, pending[1..], available, pass, raises);
      assert forall t :: t in pending ==> t == pending[0] || t in pending[1..];
    }
  }

  /** A pass over a sequence holding a class that is not stuck instantiates something. */
  lemma {:induction false} PassResultNonEmpty(types: map<TypeId, TypeDescriptor>, pending: seq<TypeId>,
                                              available: set<TypeId>, pass: nat, raises: set<Attempt>, t: TypeId)
    requires t in pending && t in types && !Stuck(types, available, t, pass, raises)
    ensures PassResult(types, pending, available, pass, raises) != []
  {
    if !(pending[0] in types && !Stuck(types, available, pending[0], pass, raises)) {
      assert t in pending[1..];
      PassResultNonEmpty(types, pending[1..], available, pass, raises, t);
    }
  }

  /**
   * The classes can be layered by `rank`: every discovered class has a
   * constructor whose parameter types are all discovered classes of lower rank.
   * This is what it means for the dependencies to have no cycle.
   */
  ghost predicate Layered(types: map<TypeId, TypeDescriptor>, rank: TypeId -> nat)
  {
    forall t :: t in types ==> exists k :: 0 <= k < |types[t].ctors| && BelowRank(types, rank, types[t].ctors[k], rank(t))
  }

  ghost predicate BelowRank(types: map<TypeId, TypeDescriptor>, rank: TypeId -> nat, parameterTypes: seq<TypeId>, r: nat)
  {
    forall p :: p in parameterTypes ==> p in types && rank(p) < r
  }

  /** A non-empty set of classes has one of least rank. */
  lemma LeastRanked(s: set<TypeId>, rank: TypeId -> nat) returns (t: TypeId)
    requires s != {}
    ensures t in s && forall u :: u in s ==> rank(t) <= rank(u)
    decreases |s|
  {
    var x :| x in s;
    if s == {x} {
      t := x;
    } else {
      SubsetSmaller(s - {x}, s);
      var y := LeastRanked(s - {x}, rank);
      t := if rank(x) <= rank(y) then x else y;
    }
  }

  /** The outcome of resolution: what was instantiated, what is left, and the index of the last pass. */
  datatype Resolution = Resolution(instantiated: seq<TypeId>, remaining: set<TypeId>, lastPass: nat)

  function Then(earlier: seq<TypeId>, later: Resolution): Resolution
  {
    Resolution(earlier + later.instantiated, later.remaining, later.lastPass)
  }

  /**
   * Reference definition of the do-while loop: run pass `pass` over the
   * pending set in the given order, and go on while the pass instantiated
   * something and something is still pending.
   */
  function Resolve(types: map<TypeId, TypeDescriptor>, order: seq<TypeId>, pending: set<TypeId>,
                   available: set<TypeId>, pass: nat, raises: set<Attempt>): (r: Resolution)
    ensures r.remaining <= pending && Elements(r.instantiated) == pending - r.remaining
    ensures r.lastPass >= pass
    decreases |pending|
  {
    var added := PassResult(types, PendingInOrder(order, pending), available, pass, raises);
    var rest := pending - Elements(added);
    if added == [] || rest == {} then Resolution(added, rest, pass)
    else
      assert added[0] in pending && added[0] !in rest;
      SubsetSmaller(rest, pending);
      var later := Resolve(types, order, rest, available + Elements(added), pass + 1, raises);
      ElementsAppend(added, later.instantiated);
      Then(added, later)
  }

  /**
   * Completeness: when no constructor throws and the dependencies are layered,
   * the reference resolution leaves nothing pending, provided every
   * discovered class is pending or available and is visited.
   */
  lemma {:induction false} ResolveComplete(types: map<TypeId, TypeDescriptor>, order: seq<TypeId>, pending: set<TypeId>,
                                           available: set<TypeId>, pass: nat, rank: TypeId -> nat)
    requires Layered(types, rank)
    requires pending <= types.Keys && types.Keys <= pending + available
    requires forall t :: t in pending ==> t in order
    ensures Resolve(types, order, pending, available, pass, {}).remaining == {}
    decreases |pending|
  {
    var visited := PendingInOrder(order, pending);
    var added := PassResult(types, visited, available, pass, {});
    var rest := pending - Elements(added);
    if pending != {} {
      var t := LeastRanked(pending, rank);
      var k :| 0 <= k < |types[t].ctors| && BelowRank(types, rank, types[t].ctors[k], rank(t));
      assert AllAvailable(types[t].ctors[k], available);
      assert !Stuck(types, available, t, pass, {});
      PassResultNonEmpty(types, visited, available, pass, {}, t);
      if rest != {} {
        assert added[0] in pending && added[0] !in rest;
        SubsetSmaller(rest, pending);
        ResolveComplete(types, order, rest, available + Elements(added), pass + 1, rank);
      }
    }
  }

  /**
   * So `instantiateClasses` run from the state after scanning, with every
   * class visited, no constructor throwing and layered dependencies,
   * instantiates every discovered class.
   */
  lemma AcyclicResolves(types: map<TypeId, TypeDescriptor>, order: seq<TypeId>, rank: TypeId -> nat)
    requires Layered(types, rank)
    requires forall t :: t in types ==> t in order
    ensures Resolve(types, order, types.Keys, {}, 0, {}).remaining == {}
  {
    ResolveComplete(types, order, types.Keys, {}, 0, rank);
  }

  /** How the reference resolution goes on after one pass that instantiated `more`. */
  lemma ResolveAfterPass(types: map<TypeId, TypeDescriptor>, order: seq<TypeId>, pending: set<TypeId>,
                         available: set<TypeId>, pass: nat, raises: set<Attempt>,
                         earlier: seq<TypeId>, more: seq<TypeId>, rest: set<TypeId>, now: set<TypeId>)
    requires more == PassResult(types, PendingInOrder(order, pending), available, pass, raises)
    requires rest == pending - Elements(more) && now == available + Elements(more)
    ensures Then(earlier, Resolve(types, order, pending, available, pass, raises)) ==
      if more != [] && rest != {}
      then Then(earlier + more, Resolve(types, order, rest, now, pass + 1, raises))
      else Resolution(earlier + more, rest, pass)
  {
    if more != [] && rest != {} {
      AppendAssociative(earlier, more, Resolve(types, order, rest, now, pass + 1, raises).instantiated);
    }
  }

  /** A home registered by the classes of `h` comes from a home class among them. */
  lemma {:induction false} RegisteredHomeSource(types: map<TypeId, TypeDescriptor>, h: seq<TypeId>)
    requires RegisteredHomes(types, h) != []
    ensures exists u :: u in h && HomeClass(types, u)
  {
    var last := h[|h| - 1];
    if HomesOf(types, last) == [] {
      RegisteredHomeSource(types, h[..|h| - 1]);
      var u :| u in h[..|h| - 1] && HomeClass(types, u);
      assert u in h;
    } else {
      assert last in h;
    }
  }

  /** A home class that finds a home already set conflicts with the home of `base` or an earlier home class. */
  lemma HomeClash(types: map<TypeId, TypeDescriptor>, base: ContextState, h: seq<TypeId>, clazz: TypeId,
                  home: Option<Level>)
    requires clazz !in h && HomeClass(types, clazz) && home.Some?
    requires OptionalLevel(home) == OptionalLevel(base.home) + RegisteredHomes(types, h)
    ensures LevelConflict(types, base)
  {
    if base.home.None? {
      RegisteredHomeSource(types, h);
      var u :| u in h && HomeClass(types, u);
      assert clazz != u;
    }
  }

  /**
   * What instantiating `clazz` does to the context: nothing for an injectable
   * class, `handleMenuLevel` for a level.
   */
  method Announce(ctx: Context, types: map<TypeId, TypeDescriptor>, clazz: TypeId,
                  ghost base: ContextState, ghost h: seq<TypeId>)
    returns (failure: Option<ResolveError>)
    requires clazz in types && clazz !in h
    requires Registers(ctx, base, types, h)
    modifies ctx
    ensures failure.Some? ==> LevelConflict(types, base) && !failure.value.UnresolvedDependencies?
    ensures failure.None? ==> !RejectedLevel(types, clazz) && Registers(ctx, base, types, h + [clazz])
  {
    RegisteredAppend(types, h, clazz);
    match types[clazz].kind
    case Injectable =>
      assert RegisteredLevels(types, h) + [] == RegisteredLevels(types, h);
      assert RegisteredHomes(types, h) + [] == RegisteredHomes(types, h);
      failure := None;
    case LevelClass(caption, methods, isHome) =>
      var level := Level(clazz, caption, methods);
      assert LevelsOf(types, clazz) == [level];
      assert HomesOf(types, clazz) == if isHome then [level] else [];
      ghost var pre := StateOf(ctx);
      failure := HandleMenuLevel(ctx, level, isHome);
      if failure.Some? {
        if FirstWithArguments(GetActions(methods)).Some? {
          assert RejectedLevel(types, clazz);
        } else {
          HomeClash(types, base, h, clazz, pre.home);
        }
      }
      if failure.None? {
        AppendAssociative(base.levels, RegisteredLevels(types, h), LevelsOf(types, clazz));
        AppendAssociative(OptionalLevel(base.home), RegisteredHomes(types, h), HomesOf(types, clazz));
      }
  }

  lemma AppendAssociative<T>(a: seq<T>, b: seq<T>, c: seq<T>)
    ensures a + b + c == a + (b + c)
  {
  }

  lemma ElementsOfOne(t: TypeId)
    ensures Elements([]) == {} && Elements([t]) == {t}
  {
    assert forall x :: x in [t] <==> x == t;
  }

  lemma ElementsAppend(a: seq<TypeId>, b: seq<TypeId>)
    ensures Elements(a + b) == Elements(a) + Elements(b)
  {
  }

  lemma SubsetSmaller(a: set<TypeId>, b: set<TypeId>)
    requires a <= b
    ensures |a| <= |b|
    ensures a != b ==> |a| < |b|
  {
    assert a * b == a && a + b == b && a - b == {};
    if a != b {
      StrictSubsetSmaller(a, b);
    }
  }

  lemma StrictSubsetSmaller(a: set<TypeId>, b: set<TypeId>)
    requires a < b
    ensures |a| < |b|
  {
    assert b - a != {};
    var x :| x in b - a;
    assert a * b == a && a + b == b && a - b == {};
    assert |b - a| >= |{x}| by { assert {x} <= b - a; }
  }

  /** Two passes remove from the pending set what they instantiated, one after the other. */
  lemma PendingAfterPasses(d0: set<TypeId>, a: seq<TypeId>, d1: set<TypeId>, m: seq<TypeId>, d2: set<TypeId>)
    requires d1 == d0 - Elements(a) && Elements(a) <= d0
    requires d2 == d1 - Elements(m) && Elements(m) <= d1
    ensures d2 == d0 - Elements(a + m) && Elements(a + m) <= d0
  {
    ElementsAppend(a, m);
  }

  /** And add it to the instantiated classes. */
  lemma InstantiatedAfterPasses(k0: set<TypeId>, a: seq<TypeId>, k1: set<TypeId>, m: seq<TypeId>, k2: set<TypeId>)
    requires k1 == k0 + Elements(a) && k2 == k1 + Elements(m)
    ensures k2 == k0 + Elements(a + m)
  {
    ElementsAppend(a, m);
  }

  /** What the passes observe and change: the pending and instantiated classes, and the context. */
  datatype ScanState = ScanState(deps: set<TypeId>, keys: set<TypeId>, context: ContextState)

  /**
   * The state `now` that the passes run so far leave, relative to the state
   * `base` of the context, the pending set `deps0` and the instantiated
   * classes `keys0` at the start: `added` were instantiated and registered,
   * and the reference resolution from the start is `added` followed by the
   * resolution from here (`continuing`), or is what has been reached.
   */
  ghost predicate PassesSoFar(types: map<TypeId, TypeDescriptor>, order: seq<TypeId>, raises: set<Attempt>,
                              base: ContextState, deps0: set<TypeId>, keys0: set<TypeId>,
                              added: seq<TypeId>, pass: nat, lastPass: nat, continuing: bool, now: ScanState)
  {
    && now.deps == deps0 - Elements(added) && Elements(added) <= deps0
    && now.keys == keys0 + Elements(added)
    && RegisteredIn(now.context, base, types, added)
    && (!continuing ==> forall t :: t in now.deps ==> t in types && Stuck(types, now.keys, t, lastPass, raises))
    && Resolve(types, order, deps0, keys0, 0, raises) ==
         if continuing then Then(added, Resolve(types, order, now.deps, now.keys, pass, raises))
         else Resolution(added, now.deps, lastPass)
  }

  /** Before the first pass nothing is added and the reference resolution is still to run. */
  lemma PassesSoFarAtStart(types: map<TypeId, TypeDescriptor>, order: seq<TypeId>, raises: set<Attempt>,
                           base: ContextState, now: ScanState)
    requires now.context == base
    ensures PassesSoFar(types, order, raises, base, now.deps, now.keys, [], 0, 0, true, now)
  {
    var r := Resolve(types, order, now.deps, now.keys, 0, raises);
    assert Elements([]) == {};
    assert [] + r.instantiated == r.instantiated;
    assert base.levels + [] == base.levels;
    assert OptionalLevel(base.home) + [] == OptionalLevel(base.home);
  }

  /**
   * What is known when `handleMenuLevel` threw during the passes: a conflict
   * among the levels, and `added` instantiated before it.
   */
  ghost predicate Aborted(types: map<TypeId, TypeDescriptor>, base: ContextState, deps0: set<TypeId>, keys0: set<TypeId>,
                          added: seq<TypeId>, failure: ResolveError, now: ScanState)
  {
    && LevelConflict(types, base) && !failure.UnresolvedDependencies?
    && now.deps == deps0 - Elements(added) && Elements(added) <= deps0
    && now.keys == keys0 + Elements(added)
  }

  /**
   * The `i`-th class of `history` was not instantiated before, and was built
   * by the first constructor that the classes instantiated before it
   * satisfied, with their instances as arguments.
   */
  ghost predicate ResolvedIn(types: map<TypeId, TypeDescriptor>, history: seq<TypeId>,
                             objects: map<TypeId, Instance>, i: nat)
    requires i < |history|
  {
    var t := history[i];
    && t in types && t in objects && t !in Elements(history[..i])
    && var inst := objects[t];
       var ctors := types[t].ctors;
       && inst.typ == t
       && FirstSatisfiable(ctors, Elements(history[..i])) == Some(inst.ctor)
       && |inst.args| == |ctors[inst.ctor]|
       && forall j :: 0 <= j < |inst.args| ==> ctors[inst.ctor][j] in objects && inst.args[j] == objects[ctors[inst.ctor][j]]
  }

  /** Each class is instantiated at most once. */
  lemma {:induction false} InstantiatedOnce(types: map<TypeId, TypeDescriptor>, history: seq<TypeId>,
                                            objects: map<TypeId, Instance>)
    requires forall i :: 0 <= i < |history| ==> ResolvedIn(types, history, objects, i)
    ensures NoDuplicates(history)
  {
    forall i, j | 0 <= i < j < |history| ensures history[i] != history[j] {
      assert ResolvedIn(types, history, objects, j);
      assert history[i] == history[..j][i];
    }
    PairwiseDistinct(history);
  }

  class ClassScanner {
    /** The descriptors of the discovered classes (what `findSubclasses` found). */
    const types: map<TypeId, TypeDescriptor>
    /** The classes still to instantiate (`deps`). */
    var deps: set<TypeId>
    /** The instance of every instantiated class (`instantiatedObjects`). */
    var instantiatedObjects: map<TypeId, Instance>
    /** The classes in the order they were instantiated. */
    ghost var history: seq<TypeId>

    /** Pending and instantiated classes stay apart, and each class is instantiated at most once. */
    ghost predicate Valid()
      reads this
    {
      && deps <= types.Keys
      && deps !! instantiatedObjects.Keys
      && instantiatedObjects.Keys == Elements(history)
      && forall i :: 0 <= i < |history| ==> ResolvedIn(types, history, instantiatedObjects, i)
    }

    /** The pending and instantiated classes and the fields of `ctx`, as a value. */
    function Now(ctx: Context): ScanState
      reads this, ctx
    {
      ScanState(deps, instantiatedObjects.Keys, StateOf(ctx))
    }

    /** The state after scanning: every discovered class pending, nothing instantiated. */
    constructor (types: map<TypeId, TypeDescriptor>)
      ensures this.types == types && deps == types.Keys
      ensures instantiatedObjects == map[] && history == []
      ensures Valid()
    {
      this.types := types;
      deps := types.Keys;
      instantiatedObjects := map[];
      history := [];
    }

    /** `allDependenciesAvailable`: every parameter type is a key of `instantiatedObjects`. */
    method AllDependenciesAvailable(parameterTypes: seq<TypeId>) returns (r: bool)
      ensures r <==> AllAvailable(parameterTypes, instantiatedObjects.Keys)
    {
      for i := 0 to |parameterTypes|
        invariant forall j :: 0 <= j < i ==> parameterTypes[j] in instantiatedObjects
      {
        if parameterTypes[i] !in instantiatedObjects {
          return false;
        }
      }
      return true;
    }

    /**
     * `getDependencies`: as many arguments as parameter types, the `i`-th the
     * instance stored for the `i`-th type. Called only once all are available.
     */
    method GetDependencies(parameterTypes: seq<TypeId>) returns (parameters: seq<Instance>)
      requires AllAvailable(parameterTypes, instantiatedObjects.Keys)
      ensures |parameters| == |parameterTypes|
      ensures forall i :: 0 <= i < |parameterTypes| ==> parameters[i] == instantiatedObjects[parameterTypes[i]]
    {
      parameters := [];
      for i := 0 to |parameterTypes|
        invariant |parameters| == i
        invariant forall j :: 0 <= j < i ==> parameters[j] == instantiatedObjects[parameterTypes[j]]
      {
        parameters := parameters + [instantiatedObjects[parameterTypes[i]]];
      }
    }

    /** `removeDependenciesFromSet`: drops the parameter types from the pending set. */
    method RemoveDependenciesFromSet(parameterTypes: seq<TypeId>)
      modifies this`deps
      ensures deps == old(deps) - Elements(parameterTypes)
    {
      for i := 0 to |parameterTypes|
        invariant deps == old(deps) - Elements(parameterTypes[..i])
      {
        assert parameterTypes[..i + 1] == parameterTypes[..i] + [parameterTypes[i]];
        deps := deps - {parameterTypes[i]};
      }
      assert parameterTypes[..|parameterTypes|] == parameterTypes;
    }

    /** Records `instance` as the instance of the pending class `clazz`. */
    method Record(clazz: TypeId, k: nat, parameterTypes: seq<TypeId>, parameters: seq<Instance>)
      requires Valid() && clazz in deps
      requires k < |types[clazz].ctors| && parameterTypes == types[clazz].ctors[k]
      requires FirstSatisfiable(types[clazz].ctors, instantiatedObjects.Keys) == Some(k)
      requires |parameters| == |parameterTypes|
      requires forall i :: 0 <= i < |parameterTypes| ==>
                 parameterTypes[i] in instantiatedObjects && parameters[i] == instantiatedObjects[parameterTypes[i]]
      modifies this
      ensures Valid()
      ensures deps == old(deps) - {clazz}
      ensures history == old(history) + [clazz]
      ensures instantiatedObjects == old(instantiatedObjects)[clazz := Instance(clazz, k, parameters)]
    {
      deps := deps - {clazz};   // iterator.remove()
      ghost var before := deps;
      RemoveDependenciesFromSet(parameterTypes);
      assert deps == before;    // the parameter types were no longer pending
      instantiatedObjects := instantiatedObjects[clazz := Instance(clazz, k, parameters)];
      history := history + [clazz];
      assert Elements(history) == Elements(old(history)) + {clazz};
      forall i | 0 <= i < |history| ensures ResolvedIn(types, history, instantiatedObjects, i) {
        assert history[..i] == if i < |old(history)| then old(history)[..i] else old(history);
        if i < |old(history)| {
          assert ResolvedIn(types, old(history), old(instantiatedObjects), i);
        }
      }
    }

    /**
     * What follows a successful `newInstance`: the class leaves the pending
     * set, its instance is stored, and a level is handed to `handleMenuLevel`.
     */
    method Store(ctx: Context, clazz: TypeId, k: nat, parameters: seq<Instance>,
                 ghost base: ContextState, ghost h: seq<TypeId>)
      returns (failure: Option<ResolveError>)
      requires Valid() && clazz in deps
      requires k < |types[clazz].ctors|
      requires FirstSatisfiable(types[clazz].ctors, instantiatedObjects.Keys) == Some(k)
      requires |parameters| == |types[clazz].ctors[k]|
      requires forall i :: 0 <= i < |parameters| ==>
                 parameters[i] == instantiatedObjects[types[clazz].ctors[k][i]]
      requires Registers(ctx, base, types, h) && Elements(h) <= instantiatedObjects.Keys
      modifies this, ctx
      ensures Valid()
      ensures deps == old(deps) - {clazz} && history == old(history) + [clazz]
      ensures instantiatedObjects == old(instantiatedObjects)[clazz := Instance(clazz, k, parameters)]
      ensures failure.Some? ==> LevelConflict(types, base) && !failure.value.UnresolvedDependencies?
      ensures failure.None? ==> Registers(ctx, base, types, h + [clazz])
    {
      Record(clazz, k, types[clazz].ctors[k], parameters);
      failure := Announce(ctx, types, clazz, base, h);
    }

    /**
     * One visit of a pending class: try its constructors in array order and take
     * the first satisfiable one. If that constructor raises, the exception is
     * logged, the class stays pending and no later constructor is tried.
     */
    method TryInstantiate(ctx: Context, clazz: TypeId, pass: nat, raises: set<Attempt>,
                          ghost base: ContextState, ghost h: seq<TypeId>)
      returns (instantiated: bool, failure: Option<ResolveError>)
      requires Valid() && clazz in deps
      requires Registers(ctx, base, types, h) && Elements(h) <= instantiatedObjects.Keys
      modifies this, ctx
      ensures Valid()
      ensures instantiated <==> !Stuck(types, old(instantiatedObjects.Keys), clazz, pass, raises)
      ensures instantiated ==> deps == old(deps) - {clazz} && history == old(history) + [clazz]
      ensures instantiated ==> instantiatedObjects.Keys == old(instantiatedObjects.Keys) + {clazz}
      ensures !instantiated ==>
        && deps == old(deps) && history == old(history) && instantiatedObjects == old(instantiatedObjects)
        && failure.None? && StateOf(ctx) == old(StateOf(ctx))
      ensures failure.Some? ==> LevelConflict(types, base) && !failure.value.UnresolvedDependencies?
      ensures failure.None? ==> Registers(ctx, base, types, if instantiated then h + [clazz] else h)
    {
      var ctors := types[clazz].ctors;
      for k := 0 to |ctors|
        invariant forall j :: 0 <= j < k ==> !AllAvailable(ctors[j], instantiatedObjects.Keys)
        invariant deps == old(deps) && history == old(history) && instantiatedObjects == old(instantiatedObjects)
        invariant Valid()
        invariant StateOf(ctx) == old(StateOf(ctx))
      {
        var parameterTypes := ctors[k];
        var available := AllDependenciesAvailable(parameterTypes);
        if available {
          var parameters := GetDependencies(parameterTypes);
          if Attempt(pass, clazz, k) in raises {
            // the constructor raised: caught and logged, the class stays pending
            return false, None;
          }
          failure := Store(ctx, clazz, k, parameters, base, h);
          return true, failure;
        }
      }
      return false, None;
    }

    /**
     * The body of a pass: visit `pending[i]`, with `added` instantiated
     * earlier in the pass; `target` is the reference result of the pass.
     */
    method Visit(ctx: Context, pending: seq<TypeId>, i: nat, pass: nat, raises: set<Attempt>,
                 ghost base: ContextState, ghost h: seq<TypeId>, ghost added: seq<TypeId>,
                 ghost deps0: set<TypeId>, ghost keys0: set<TypeId>, ghost history0: seq<TypeId>,
                 ghost target: seq<TypeId>)
      returns (instantiated: bool, failure: Option<ResolveError>, ghost added': seq<TypeId>)
      requires Valid() && NoDuplicates(pending) && i < |pending|
      requires Elements(h) <= keys0
      requires history == history0 + added
      requires deps == deps0 - Elements(added) && Elements(added) <= deps0
      requires instantiatedObjects.Keys == keys0 + Elements(added)
      requires forall j :: i <= j < |pending| ==> pending[j] in deps
      requires Registers(ctx, base, types, h + added)
      requires added + PassResult(types, pending[i..], instantiatedObjects.Keys, pass, raises) == target
      modifies this, ctx
      ensures Valid()
      ensures added' == if instantiated then added + [pending[i]] else added
      ensures history == history0 + added'
      ensures deps == deps0 - Elements(added') && Elements(added') <= deps0
      ensures instantiatedObjects.Keys == keys0 + Elements(added')
      ensures forall j :: i < j < |pending| ==> pending[j] in deps
      ensures failure.Some? ==> LevelConflict(types, base) && !failure.value.UnresolvedDependencies?
      ensures failure.None? ==> Registers(ctx, base, types, h + added')
      ensures failure.None? ==>
        added' + PassResult(types, pending[i + 1..], instantiatedObjects.Keys, pass, raises) == target
    {
      PassResultStep(types, pending, i, instantiatedObjects.Keys, pass, raises);
      forall j | i < j < |pending| ensures pending[j] != pending[i] {
        DistinctAt(pending, i, j);
      }
      var clazz := pending[i];
      ghost var pendingBefore := deps;
      ghost var keysBefore := instantiatedObjects.Keys;
      instantiated, failure := TryInstantiate(ctx, clazz, pass, raises, base, h + added);
      added' := added;
      if instantiated {
        assert Elements([clazz]) == {clazz};
        PendingAfterPasses(deps0, added, pendingBefore, [clazz], deps);
        InstantiatedAfterPasses(keys0, added, keysBefore, [clazz], instantiatedObjects.Keys);
        AppendAssociative(history0, added, [clazz]);
        AppendAssociative(h, added, [clazz]);
        AppendAssociative(added, [clazz], PassResult(types, pending[i + 1..], instantiatedObjects.Keys, pass, raises));
        added' := added + [clazz];
      }
    }

    /**
     * One pass of the do-while loop of `instantiateClasses`: visit every class
     * pending at its start, in the iteration order of the pending set. Reports
     * whether some class was instantiated; a failure of `handleMenuLevel`
     * aborts the pass. `added` are the classes it instantiated, in order.
     */
    method RunPass(ctx: Context, order: seq<TypeId>, pass: nat, raises: set<Attempt>,
                   ghost base: ContextState, ghost h: seq<TypeId>)
      returns (progress: bool, failure: Option<ResolveError>, ghost added: seq<TypeId>)
      requires Valid() && NoDuplicates(order) && forall t :: t in deps ==> t in order
      requires Registers(ctx, base, types, h) && Elements(h) <= instantiatedObjects.Keys
      modifies this, ctx
      ensures Valid()
      ensures history == old(history) + added
      ensures deps == old(deps) - Elements(added) && Elements(added) <= old(deps)
      ensures instantiatedObjects.Keys == old(instantiatedObjects.Keys) + Elements(added)
      ensures failure.Some? ==> LevelConflict(types, base) && !failure.value.UnresolvedDependencies?
      ensures failure.None? ==> Registers(ctx, base, types, h + added)
      ensures failure.None? ==> (progress <==> deps != old(deps)) && (progress <==> added != [])
      ensures failure.None? ==>
        added == PassResult(types, PendingInOrder(order, old(deps)), old(instantiatedObjects.Keys), pass, raises)
      ensures failure.None? && !progress ==>
        forall t :: t in deps ==> Stuck(types, instantiatedObjects.Keys, t, pass, raises)
    {
      var pending := PendingInOrder(order, deps);
      PendingInOrderDistinct(order, deps);
      progress := false;
      added := [];
      assert h + added == h;
      assert added + PassResult(types, pending[0..], instantiatedObjects.Keys, pass, raises)
             == PassResult(types, pending, instantiatedObjects.Keys, pass, raises) by {
        assert pending[0..] == pending;
      }
      for i := 0 to |pending|
        invariant Valid()
        invariant history == old(history) + added
        invariant deps == old(deps) - Elements(added) && Elements(added) <= old(deps)
        invariant instantiatedObjects.Keys == old(instantiatedObjects.Keys) + Elements(added)
        invariant forall j :: i <= j < |pending| ==> pending[j] in deps
        invariant progress <==> added != []
        invariant Registers(ctx, base, types, h + added)
        invariant added + PassResult(types, pending[i..], instantiatedObjects.Keys, pass, raises)
                  == PassResult(types, pending, old(instantiatedObjects.Keys), pass, raises)
      {
        var instantiated, f;
        instantiated, f, added := Visit(ctx, pending, i, pass, raises, base, h, added,
                                        old(deps), old(instantiatedObjects.Keys), old(history),
                                        PassResult(types, pending, old(instantiatedObjects.Keys), pass, raises));
        progress := progress || instantiated;
        if f.Some? {
          return progress, f, added;
        }
      }
      assert pending[|pending|..] == [];
      assert added + [] == added;
      if progress {
        assert added[0] in old(deps) && added[0] !in deps;
      } else {
        assert instantiatedObjects.Keys == old(instantiatedObjects.Keys);
        EmptyPassAllStuck(types, pending, instantiatedObjects.Keys, pass, raises);
      }
      return progress, None, added;
    }

    /**
     * One iteration of the do-while loop: a pass, and whether the loop goes
     * on (something was instantiated and something is still pending).
     * `added` grows by the classes the pass instantiated.
     */
    method NextPass(ctx: Context, order: seq<TypeId>, raises: set<Attempt>, pass: nat,
                    ghost base: ContextState, ghost deps0: set<TypeId>, ghost keys0: set<TypeId>,
                    ghost history0: seq<TypeId>, ghost added: seq<TypeId>, ghost lastPass: nat)
      returns (continuing: bool, failure: Option<ResolveError>, ghost added': seq<TypeId>)
      requires Valid() && NoDuplicates(order) && forall t :: t in deps ==> t in order
      requires history == history0 + added
      requires PassesSoFar(types, order, raises, base, deps0, keys0, added, pass, lastPass, true, Now(ctx))
      modifies this, ctx
      ensures Valid() && forall t :: t in deps ==> t in order
      ensures history == history0 + added'
      ensures continuing ==> failure.None? && |deps| < |old(deps)|
      ensures |deps| <= |old(deps)|
      ensures failure.Some? ==> Aborted(types, base, deps0, keys0, added', failure.value, Now(ctx))
      ensures failure.None? ==>
        PassesSoFar(types, order, raises, base, deps0, keys0, added', pass + 1, pass, continuing, Now(ctx))
    {
      ghost var pendingBefore := deps;
      ghost var keysBefore := instantiatedObjects.Keys;
      var progress;
      ghost var more;
      progress, failure, more := RunPass(ctx, order, pass, raises, base, added);
      if failure.None? {
        ResolveAfterPass(types, order, pendingBefore, keysBefore, pass, raises, added, more, deps, instantiatedObjects.Keys);
      }
      PendingAfterPasses(deps0, added, pendingBefore, more, deps);
      InstantiatedAfterPasses(keys0, added, keysBefore, more, instantiatedObjects.Keys);
      SubsetSmaller(deps, pendingBefore);
      AppendAssociative(history0, added, more);
      added' := added + more;
      continuing := failure.None? && progress && deps != {};
    }

    /**
     * The do-while loop of `instantiateClasses`: passes until one instantiates
     * nothing or nothing is pending, or `handleMenuLevel` throws. `added` are
     * the classes instantiated, in order; `lastPass` is the index of the last
     * pass run.
     */
    method RunPasses(ctx: Context, order: seq<TypeId>, raises: set<Attempt>)
      returns (failure: Option<ResolveError>, ghost lastPass: nat, ghost added: seq<TypeId>)
      requires Valid() && NoDuplicates(order) && forall t :: t in deps ==> t in order
      modifies this, ctx
      ensures Valid()
      ensures history == old(history) + added
      ensures failure.Some? ==>
        Aborted(types, old(StateOf(ctx)), old(deps), old(instantiatedObjects.Keys), added, failure.value, Now(ctx))
      ensures failure.None? ==> PassesSoFar(types, order, raises, old(StateOf(ctx)), old(deps), old(instantiatedObjects.Keys),
                                            added, lastPass + 1, lastPass, false, Now(ctx))
    {
      ghost var base := StateOf(ctx);
      ghost var deps0, keys0, history0 := deps, instantiatedObjects.Keys, history;
      failure := None;
      var pass := 0;
      lastPass := 0;
      added := [];
      assert history == history0 + added;
      PassesSoFarAtStart(types, order, raises, base, Now(ctx));
      // do { one pass } while (instantiatedAtLeastOneClass && !deps.isEmpty())
      var continuing := true;
      while continuing
        invariant Valid() && forall t :: t in deps ==> t in order
        invariant history == history0 + added
        invariant pass == 0 ==> continuing
        invariant pass > 0 ==> lastPass + 1 == pass
        invariant continuing ==> failure.None?
        invariant failure.Some? ==> Aborted(types, base, deps0, keys0, added, failure.value, Now(ctx))
        invariant failure.None? ==>
          PassesSoFar(types, order, raises, base, deps0, keys0, added, pass, lastPass, continuing, Now(ctx))
        decreases |deps| + (if continuing then 1 else 0)
      {
        continuing, failure, added := NextPass(ctx, order, raises, pass, base, deps0, keys0, history0, added, lastPass);
        lastPass := pass;
        pass := pass + 1;
      }
    }

    /**
     * `instantiateClasses`: run the passes, then fail naming whatever is
     * still pending. `order` is the iteration order of the pending set;
     * `raises` holds the attempts whose constructor throws (`newInstance`
     * failing with an exception it wraps). `added` are the classes
     * instantiated, in order; `lastPass` is the index of the last pass run.
     */
    method InstantiateClasses(ctx: Context, order: seq<TypeId>, raises: set<Attempt>)
      returns (r: Outcome<ResolveError>, ghost lastPass: nat, ghost added: seq<TypeId>)
      requires Valid() && NoDuplicates(order) && forall t :: t in deps ==> t in order
      modifies this, ctx
      ensures Valid()
      ensures history == old(history) + added
      ensures deps == old(deps) - Elements(added) && Elements(added) <= old(deps)
      ensures instantiatedObjects.Keys == old(instantiatedObjects.Keys) + Elements(added)
      ensures r.Pass? ==> deps == {}
      ensures r.Pass? || r.error.UnresolvedDependencies? ==> Registers(ctx, old(StateOf(ctx)), types, added)
      ensures r.Pass? || r.error.UnresolvedDependencies? ==> forall t :: t in added ==> !RejectedLevel(types, t)
      ensures r.Pass? ==> forall t :: t in old(deps) ==> !RejectedLevel(types, t)
      ensures r.Fail? && r.error.UnresolvedDependencies? ==>
        && r.error.remaining == deps && deps != {}
        && forall t :: t in deps ==> Stuck(types, instantiatedObjects.Keys, t, lastPass, raises)
      ensures !LevelConflict(types, old(StateOf(ctx))) ==> r.Pass? || r.error.UnresolvedDependencies?
      ensures r.Pass? || r.error.UnresolvedDependencies? ==>
        Resolve(types, order, old(deps), old(instantiatedObjects.Keys), 0, raises) == Resolution(added, deps, lastPass)
    {
      var failure;
      failure, lastPass, added := RunPasses(ctx, order, raises);
      assert failure.Some? ==> deps == old(deps) - Elements(added);
      if failure.Some? {
        return Fail(failure.value), lastPass, added;
      }
      AcceptedAll(types, added);
      if deps != {} {
        return Fail(UnresolvedDependencies(deps)), lastPass, added;
      }
      return Pass, lastPass, added;
    }
  }

  /** Two injectable classes that each need the other. */
  const MutualPair: map<TypeId, TypeDescriptor> :=
    map[1 := TypeDescriptor([[2]], Injectable), 2 := TypeDescriptor([[1]], Injectable)]

  /** No pass instantiates either class of the pair: resolution stops after the first. */
  lemma MutualPairIsStuck(order: seq<TypeId>)
    requires order == [1, 2]
    ensures Resolve(MutualPair, order, {1, 2}, {}, 0, {}) == Resolution([], {1, 2}, 0)
  {
    assert PendingInOrder(order, {1, 2}) == [1, 2];
    assert Stuck(MutualPair, {}, 1, 0, {}) && Stuck(MutualPair, {}, 2, 0, {});
    assert PassResult(MutualPair, [1, 2], {}, 0, {}) == [];
  }

  /** With the pair, `instantiateClasses` fails naming both classes. */
  method CycleIsReported() returns (r: Outcome<ResolveError>)
    ensures r == Fail(UnresolvedDependencies({1, 2}))
  {
    var scanner := new ClassScanner(MutualPair);
    var ctx := new Context();
    assert !LevelConflict(MutualPair, StateOf(ctx));
    MutualPairIsStuck([1, 2]);
    assert scanner.deps == {1, 2} && scanner.instantiatedObjects.Keys == {};
    ghost var lastPass, added;
    r, lastPass, added := scanner.InstantiateClasses(ctx, [1, 2], {});
    assert Resolution(added, scanner.deps, lastPass) == Resolution([], {1, 2}, 0);
  }

  /** An injectable class with two constructors, neither taking arguments. */
  const TwoConstructors: map<TypeId, TypeDescriptor> := map[1 := TypeDescriptor([[], []], Injectable)]

  /**
   * When the first satisfiable constructor throws, the second one is not
   * tried: the class stays pending and no pass makes progress.
   */
  lemma ThrowingConstructorIsStuck(order: seq<TypeId>)
    requires order == [1]
    ensures Resolve(TwoConstructors, order, {1}, {}, 0, {Attempt(0, 1, 0)}) == Resolution([], {1}, 0)
  {
    assert PendingInOrder(order, {1}) == [1];
    assert Stuck(TwoConstructors, {}, 1, 0, {Attempt(0, 1, 0)});
    assert PassResult(TwoConstructors, [1], {}, 0, {Attempt(0, 1, 0)}) == [];
  }

  /** With the first constructor throwing, `instantiateClasses` fails naming the class. */
  method ThrowingConstructorIsReported() returns (r: Outcome<ResolveError>)
    ensures r == Fail(UnresolvedDependencies({1}))
  {
    var scanner := new ClassScanner(TwoConstructors);
    var ctx := new Context();
    assert !LevelConflict(TwoConstructors, StateOf(ctx));
    ThrowingConstructorIsStuck([1]);
    assert scanner.deps == {1} && scanner.instantiatedObjects.Keys == {};
    ghost var lastPass, added;
    r, lastPass, added := scanner.InstantiateClasses(ctx, [1], {Attempt(0, 1, 0)});
    assert Resolution(added, scanner.deps, lastPass) == Resolution([], {1}, 0);
  }

  /** A level class without dependencies whose one action takes an argument. */
  const RejectedMenu: map<TypeId, TypeDescriptor> :=
    map[1 := TypeDescriptor([[]], LevelClass("Main", [Method("pick", true, "Pick", 0, 1)], false))]

  /** Without the argument check the level would be instantiated in the first pass. */
  lemma RejectedMenuResolves(order: seq<TypeId>)
    requires order == [1]
    ensures Resolve(RejectedMenu, order, {1}, {}, 0, {}) == Resolution([1], {}, 0)
    ensures RejectedLevel(RejectedMenu, 1)
  {
    assert PendingInOrder(order, {1}) == [1];
    assert !Stuck(RejectedMenu, {}, 1, 0, {});
    assert PassResult(RejectedMenu, [1], {}, 0, {}) == [1];
    assert {1} - Elements([1]) == {};
    assert GetActions(RejectedMenu[1].kind.methods) == RejectedMenu[1].kind.methods;
  }

  /** `instantiateClasses` aborts with the exception of `handleMenuLevel`, not with unresolved classes. */
  method RejectedLevelAborts() returns (r: Outcome<ResolveError>)
    ensures r.Fail? && !r.error.UnresolvedDependencies?
  {
    var scanner := new ClassScanner(RejectedMenu);
    var ctx := new Context();
    RejectedMenuResolves([1]);
    assert scanner.deps == {1} && scanner.instantiatedObjects.Keys == {};
    ghost var lastPass, added;
    r, lastPass, added := scanner.InstantiateClasses(ctx, [1], {});
  }

  /** An injectable class 1 and a home level 2 ("Main", no methods) whose only constructor takes a 1. */
  const Chain: map<TypeId, TypeDescriptor> :=
    map[1 := TypeDescriptor([[]], Injectable), 2 := TypeDescriptor([[1]], LevelClass("Main", [], true))]

  /**
   * Visiting the level first, the first pass instantiates only 1 and a second
   * pass instantiates 2; visiting 1 first, one pass does both, since 1 is
   * available to the classes visited after it in the same pass.
   */
  lemma ChainResolves(order: seq<TypeId>)
    requires order == [2, 1] || order == [1, 2]
    ensures Resolve(Chain, order, {1, 2}, {}, 0, {}) == Resolution([1, 2], {}, if order == [2, 1] then 1 else 0)
  {
    assert PendingInOrder(order, {1, 2}) == order;
    assert !Stuck(Chain, {}, 1, 0, {}) && Stuck(Chain, {}, 2, 0, {});
    if order == [2, 1] {
      assert PassResult(Chain, [1], {}, 0, {}) == [1];
      assert PassResult(Chain, [2, 1], {}, 0, {}) == [1];
      assert PendingInOrder(order, {2}) == [2];
      assert !Stuck(Chain, {1}, 2, 1, {});
      assert PassResult(Chain, [2], {1}, 1, {}) == [2];
      assert {1, 2} - Elements([1]) == {2} && {} + Elements([1]) == {1};
      assert Resolve(Chain, order, {2}, {1}, 1, {}) == Resolution([2], {}, 1);
    } else {
      assert !Stuck(Chain, {1}, 2, 0, {});
      assert PassResult(Chain, [2], {1}, 0, {}) == [2];
      assert PassResult(Chain, [1, 2], {}, 0, {}) == [1, 2];
      assert {1, 2} - Elements([1, 2]) == {};
    }
  }

  /** Whatever resolution of the chain is reported, it instantiates 1 and then 2. */
  lemma ChainResolution(order: seq<TypeId>, added: seq<TypeId>, remaining: set<TypeId>, lastPass: nat)
    requires order == [2, 1] || order == [1, 2]
    requires Resolve(Chain, order, {1, 2}, {}, 0, {}) == Resolution(added, remaining, lastPass)
    ensures added == [1, 2] && remaining == {} && lastPass == if order == [2, 1] then 1 else 0
  {
    ChainResolves(order);
  }

  /** Instantiated in the order 1, 2, the chain's instances are determined. */
  lemma ChainInstances(history: seq<TypeId>, objects: map<TypeId, Instance>)
    requires history == [1, 2] && objects.Keys == Elements(history)
    requires forall i :: 0 <= i < |history| ==> ResolvedIn(Chain, history, objects, i)
    ensures objects == map[1 := Instance(1, 0, []), 2 := Instance(2, 0, [Instance(1, 0, [])])]
  {
    assert ResolvedIn(Chain, history, objects, 0) && ResolvedIn(Chain, history, objects, 1);
    assert [1, 2][..0] == [] && [1, 2][..1] == [1];
    ElementsOfOne(1);
    var first, second := objects[1], objects[2];
    assert first.ctor == 0 && first.args == [];
    assert second.ctor == 0 && second.args == [first];
    assert Elements([1, 2]) == {1, 2};
  }

  /** Registering the chain into a fresh context adds the level and makes it home. */
  lemma ChainRegisters(s: ContextState, base: ContextState, h: seq<TypeId>)
    requires base.levels == [] && base.home == None
    requires h == [1, 2] && RegisteredIn(s, base, Chain, h)
    ensures s.levels == [Level(2, "Main", [])] && s.home == Some(Level(2, "Main", []))
  {
    var main := Level(2, "Main", []);
    assert [1, 2][..1] == [1] && [1][..0] == [];
    assert RegisteredLevels(Chain, [1, 2]) == [main] && RegisteredHomes(Chain, [1, 2]) == [main];
    assert OptionalLevel(s.home) == [main];
  }

  /**
   * The chain through `instantiateClasses`: 2 gets the instance of 1, the
   * level is registered and becomes home, in either visiting order.
   */
  method LevelAfterItsDependency(levelFirst: bool)
    returns (r: Outcome<ResolveError>, objects: map<TypeId, Instance>, levels: seq<Level>, home: Option<Level>,
             ghost lastPass: nat)
    ensures r == Pass
    ensures objects == map[1 := Instance(1, 0, []), 2 := Instance(2, 0, [Instance(1, 0, [])])]
    ensures levels == [Level(2, "Main", [])] && home == Some(Level(2, "Main", []))
    ensures lastPass == if levelFirst then 1 else 0
  {
    var scanner := new ClassScanner(Chain);
    var ctx := new Context();
    var order := if levelFirst then [2, 1] else [1, 2];
    ghost var base := StateOf(ctx);
    assert !LevelConflict(Chain, base);
    assert scanner.deps == {1, 2} && scanner.instantiatedObjects.Keys == {};
    ghost var added;
    r, lastPass, added := scanner.InstantiateClasses(ctx, order, {});
    ChainResolution(order, added, scanner.deps, lastPass);
    assert scanner.history == added;
    ChainRegisters(StateOf(ctx), base, added);
    ChainInstances(scanner.history, scanner.instantiatedObjects);
    objects, levels, home := scanner.instantiatedObjects, ctx.levels, ctx.home;
  }
}
