/**
 * The earlier navigation context, `com.chamis.andre.application.Context`:
 * registered levels, the current level and a write-once home level. It has
 * no options, no quit action, and `postInit` checks only the home level.
 */
module LegacyNavigation {
  import opened Common
  import opened MenuLevel

  /** The exceptions this context throws. */
  datatype LegacyError =
    | MultipleHome(existing: TypeId, incoming: TypeId)   // MultipleHomeException
    | MissingHome                                        // MissingHomeMenuException
    | UnknownLevel(target: TypeId)                       // UnknownLevelException

  class Context {
    var levels: seq<Level>
    var currentLevel: Option<Level>
    var home: Option<Level>

    constructor ()
      ensures levels == [] && currentLevel == None && home == None
    {
      levels := [];
      currentLevel := None;
      home := None;
    }

    /** `addLevel`: appends the level and changes nothing else. */
    method AddLevel(level: Level)
      modifies this
      ensures levels == old(levels) + [level]
      ensures currentLevel == old(currentLevel) && home == old(home)
    {
      levels := levels + [level];
    }

    /** `postInit`: fails without a home, otherwise the current level becomes home. */
    method PostInit() returns (r: Outcome<LegacyError>)
      modifies this
      ensures old(home).None? ==> r == Fail(MissingHome) && currentLevel == old(currentLevel)
      ensures old(home).Some? ==> r == Pass && currentLevel == old(home)
      ensures levels == old(levels) && home == old(home)
    {
      if home.None? {
        return Fail(MissingHome);
      }
      currentLevel := home;
      return Pass;
    }

    /** `setHome`: write-once; a second call names both level classes and keeps the first. */
    method SetHome(level: Level) returns (r: Outcome<LegacyError>)
      modifies this
      ensures old(home).Some? ==> r == Fail(MultipleHome(old(home).value.typ, level.typ)) && home == old(home)
      ensures old(home).None? ==> r == Pass && home == Some(level)
      ensures levels == old(levels) && currentLevel == old(currentLevel)
    {
      if home.Some? {
        return Fail(MultipleHome(home.value.typ, level.typ));
      }
      home := Some(level);
      return Pass;
    }

    /** `navigate`: the first registered level of class `target`, or UnknownLevel with nothing changed. */
    method Navigate(target: TypeId) returns (r: Outcome<LegacyError>)
      modifies this
      ensures FirstIndexOfType(old(levels), target).None? ==>
                r == Fail(UnknownLevel(target)) && currentLevel == old(currentLevel)
      ensures FirstIndexOfType(old(levels), target).Some? ==>
                r == Pass && currentLevel == Some(old(levels)[FirstIndexOfType(old(levels), target).value])
      ensures r.Pass? ==> currentLevel.Some? && currentLevel.value in levels && currentLevel.value.typ == target
      ensures levels == old(levels) && home == old(home)
    {
      var found := FirstIndexOfType(levels, target);
      match found {
        case None =>
          return Fail(UnknownLevel(target));
        case Some(i) =>
          currentLevel := Some(levels[i]);
          return Pass;
      }
    }
  }

  /** With no quit check, `postInit` succeeds as soon as one home level is registered. */
  method StartWithHomeOnly(homeLevel: Level) returns (r: Outcome<LegacyError>, current: Option<Level>)
    ensures r == Pass && current == Some(homeLevel)
  {
    var ctx := new Context();
    ctx.AddLevel(homeLevel);
    var h := ctx.SetHome(homeLevel);
    r := ctx.PostInit();
    current := ctx.currentLevel;
  }
}
