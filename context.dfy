/**
 * The navigation context of `org.easy.menu.application.Context`: the registered
 * levels, the options grouped by level class, the current level and the
 * write-once home level and quit action. The process-wide singleton becomes an
 * explicitly allocated object.
 */
module Navigation {
  import opened Common
  import opened MenuLevel

  /** A `MenuOption` instance: its own class and the level class `getLevel()` names. */
  datatype MenuOption = MenuOption(typ: TypeId, level: TypeId)

  /** A `QuitAction` instance, identified by its class. */
  datatype QuitAction = QuitAction(typ: TypeId)

  /** The exceptions the context throws, carrying the classes their messages name. */
  datatype ContextError =
    | MultipleHome(existing: TypeId, incoming: TypeId)   // MultipleHomeException
    | MultipleQuit(existing: TypeId, incoming: TypeId)   // MultipleQuitException
    | MissingHome                                        // MissingHomeMenuException
    | MissingQuit                                        // MissingQuitActionException
    | UnknownLevel(target: TypeId)                       // UnknownLevelException
    | NullOption                                         // NullPointerException of requireNonNull

  class Context {
    var levels: seq<Level>
    var groupedOptions: map<TypeId, seq<MenuOption>>
    var currentLevel: Option<Level>
    var home: Option<Level>
    var quitAction: Option<QuitAction>

    /** Every level the context points at is a registered one. */
    ghost predicate Registered()
      reads this
    {
      && (home.Some? ==> home.value in levels)
      && (currentLevel.Some? ==> currentLevel.value in levels)
    }

    constructor ()
      ensures levels == [] && groupedOptions == map[]
      ensures currentLevel == None && home == None && quitAction == None
      ensures Registered()
    {
      levels := [];
      groupedOptions := map[];
      currentLevel := None;
      home := None;
      quitAction := None;
    }

    /** `addLevel`: appends the level; no uniqueness check. */
    method AddLevel(level: Level)
      modifies this
      ensures levels == old(levels) + [level]
      ensures groupedOptions == old(groupedOptions) && currentLevel == old(currentLevel)
      ensures home == old(home) && quitAction == old(quitAction)
      ensures old(Registered()) ==> Registered()
    {
      levels := levels + [level];
    }

    /**
     * `postInit`: without a home it fails and leaves the current level alone;
     * otherwise the current level becomes home, and only then is the quit
     * action checked.
     */
    method PostInit() returns (r: Outcome<ContextError>)
      modifies this
      ensures old(home).None? ==> r == Fail(MissingHome) && currentLevel == old(currentLevel)
      ensures old(home).Some? ==> currentLevel == old(home)
      ensures old(home).Some? ==> (r == if old(quitAction).None? then Fail(MissingQuit) else Pass)
      ensures levels == old(levels) && groupedOptions == old(groupedOptions)
      ensures home == old(home) && quitAction == old(quitAction)
      ensures old(Registered()) ==> Registered()
    {
      if home.None? {
        return Fail(MissingHome);
      }
      currentLevel := home;
      if quitAction.None? {
        return Fail(MissingQuit);
      }
      return Pass;
    }

    /** `setHome`: write-once; a second call names the existing and the incoming level class. */
    method SetHome(level: Level) returns (r: Outcome<ContextError>)
      modifies this
      ensures old(home).Some? ==> r == Fail(MultipleHome(old(home).value.typ, level.typ)) && home == old(home)
      ensures old(home).None? ==> r == Pass && home == Some(level)
      ensures levels == old(levels) && groupedOptions == old(groupedOptions)
      ensures currentLevel == old(currentLevel) && quitAction == old(quitAction)
      ensures old(Registered()) && level in levels ==> Registered()
    {
      if home.Some? {
        return Fail(MultipleHome(home.value.typ, level.typ));
      }
      home := Some(level);
      return Pass;
    }

    /**
     * `navigate`: the current level becomes the first registered level of
     * class `target`; without one it fails and nothing changes.
     */
    method Navigate(target: TypeId) returns (r: Outcome<ContextError>)
      modifies this
      ensures FirstIndexOfType(old(levels), target).None? ==>
                r == Fail(UnknownLevel(target)) && currentLevel == old(currentLevel)
      ensures FirstIndexOfType(old(levels), target).Some? ==>
                r == Pass && currentLevel == Some(old(levels)[FirstIndexOfType(old(levels), target).value])
      ensures r.Pass? ==> currentLevel.Some? && currentLevel.value in levels && currentLevel.value.typ == target
      ensures levels == old(levels) && groupedOptions == old(groupedOptions)
      ensures home == old(home) && quitAction == old(quitAction)
      ensures old(Registered()) ==> Registered()
    {
      var found := FirstIndexOfType(levels, target);
      match found {
        case None =>
          return Fail(UnknownLevel(target));
        case Some(i) =>
          currentLevel := Some(levels[i]);
          return Pass;
      }
    }

    /**
     * `addOption`: rejects a null option; otherwise appends it to the list of
     * its level class, creating that list if needed. Other lists are untouched.
     */
    method AddOption(option: Option<MenuOption>) returns (r: Outcome<ContextError>)
      modifies this
      ensures option.None? ==> r == Fail(NullOption) && groupedOptions == old(groupedOptions)
      ensures option.Some? ==> r == Pass
      ensures option.Some? ==>
                var k := option.value.level;
                && groupedOptions.Keys == old(groupedOptions.Keys) + {k}
                && groupedOptions[k] == old(GetOptionsFor(k)) + [option.value]
                && forall j :: j in old(groupedOptions) && j != k ==> groupedOptions[j] == old(groupedOptions)[j]
      ensures levels == old(levels) && currentLevel == old(currentLevel)
      ensures home == old(home) && quitAction == old(quitAction)
      ensures old(Registered()) ==> Registered()
    {
      if option.None? {
        return Fail(NullOption);
      }
      var k := option.value.level;
      if k !in groupedOptions {
        groupedOptions := groupedOptions[k := []];
      }
      groupedOptions := groupedOptions[k := groupedOptions[k] + [option.value]];
      return Pass;
    }

    /** `getOptions(level)`: the options registered for the level class, or an empty list. */
    function GetOptionsFor(level: TypeId): (r: seq<MenuOption>)
      reads this
      ensures level in groupedOptions ==> r == groupedOptions[level]
      ensures level !in groupedOptions ==> r == []
    {
      if level in groupedOptions then groupedOptions[level] else []
    }

    /**
     * `getOptions()`: the options of the current level's class; `None` stands
     * for the NullPointerException thrown before `postInit` succeeded.
     */
    function GetOptions(): (r: Option<seq<MenuOption>>)
      reads this
      ensures currentLevel.None? <==> r.None?
      ensures currentLevel.Some? ==> r == Some(GetOptionsFor(currentLevel.value.typ))
    {
      if currentLevel.None? then None else Some(GetOptionsFor(currentLevel.value.typ))
    }

    /** `setQuitAction`: write-once, like `setHome`. */
    method SetQuitAction(action: QuitAction) returns (r: Outcome<ContextError>)
      modifies this
      ensures old(quitAction).Some? ==>
                r == Fail(MultipleQuit(old(quitAction).value.typ, action.typ)) && quitAction == old(quitAction)
      ensures old(quitAction).None? ==> r == Pass && quitAction == Some(action)
      ensures levels == old(levels) && groupedOptions == old(groupedOptions)
      ensures currentLevel == old(currentLevel) && home == old(home)
      ensures old(Registered()) ==> Registered()
    {
      if quitAction.Some? {
        return Fail(MultipleQuit(quitAction.value.typ, action.typ));
      }
      quitAction := Some(action);
      return Pass;
    }
  }

  /** Two levels flagged home, registered as the resolver does: the second `setHome` names both. */
  method RegisterTwoHomes(first: Level, second: Level) returns (r: Outcome<ContextError>)
    ensures r == Fail(MultipleHome(first.typ, second.typ))
  {
    var ctx := new Context();
    ctx.AddLevel(first);
    r := ctx.SetHome(first);
    ctx.AddLevel(second);
    r := ctx.SetHome(second);
  }

  /** Two quit actions: the second `setQuitAction` names both. */
  method RegisterTwoQuits(first: QuitAction, second: QuitAction) returns (r: Outcome<ContextError>)
    ensures r == Fail(MultipleQuit(first.typ, second.typ))
  {
    var ctx := new Context();
    r := ctx.SetQuitAction(first);
    r := ctx.SetQuitAction(second);
  }

  /**
   * A home level and a sub level, a quit action, then `postInit` and three
   * navigations: to the sub level, back home, and to an unregistered class.
   * The last fails and leaves the current level at home.
   */
  method NavigateHomeAndBack(homeLevel: Level, sub: Level, quit: QuitAction, unknown: TypeId)
    returns (init: Outcome<ContextError>, visited: seq<Option<Level>>, last: Outcome<ContextError>)
    requires homeLevel.typ != sub.typ && unknown != homeLevel.typ && unknown != sub.typ
    ensures init == Pass
    ensures visited == [Some(homeLevel), Some(sub), Some(homeLevel), Some(homeLevel)]
    ensures last == Fail(UnknownLevel(unknown))
  {
    var ctx := new Context();
    ctx.AddLevel(homeLevel);
    var r := ctx.SetHome(homeLevel);
    ctx.AddLevel(sub);
    r := ctx.SetQuitAction(quit);
    init := ctx.PostInit();
    visited := [ctx.currentLevel];
    assert [homeLevel, sub][1..] == [sub];
    assert FirstIndexOfType([homeLevel, sub], sub.typ) == Some(1);
    r := ctx.Navigate(sub.typ);
    visited := visited + [ctx.currentLevel];
    r := ctx.Navigate(homeLevel.typ);
    visited := visited + [ctx.currentLevel];
    last := ctx.Navigate(unknown);
    visited := visited + [ctx.currentLevel];
  }
}
