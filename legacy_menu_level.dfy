/**
 * `com.chamis.andre.domain.MenuLevel`: its `getActions` is the same filter as
 * `MenuLevel.GetActions`; what it adds is `navigate`, which hands the target
 * class to the context.
 */
module LegacyMenuLevel {
  import opened Common
  import opened MenuLevel
  import opened LegacyNavigation

  /**
   * `navigate(target)` of a level: exactly the context's `navigate`, including
   * UnknownLevel for an unregistered class. The calling level itself plays no
   * part, so it is not a parameter.
   */
  method Navigate(ctx: Context, target: TypeId) returns (r: Outcome<LegacyError>)
    modifies ctx
    ensures FirstIndexOfType(old(ctx.levels), target).None? ==>
              r == Fail(UnknownLevel(target)) && ctx.currentLevel == old(ctx.currentLevel)
    ensures FirstIndexOfType(old(ctx.levels), target).Some? ==>
              r == Pass && ctx.currentLevel == Some(old(ctx.levels)[FirstIndexOfType(old(ctx.levels), target).value])
    ensures ctx.levels == old(ctx.levels) && ctx.home == old(ctx.home)
  {
    r := ctx.Navigate(target);
  }

  /** A level's action that navigates to an unregistered class fails and leaves the current level as it was. */
  method NavigateToUnregistered(homeLevel: Level, target: TypeId) returns (r: Outcome<LegacyError>, current: Option<Level>)
    requires target != homeLevel.typ
    ensures r == Fail(UnknownLevel(target)) && current == Some(homeLevel)
  {
    var ctx := new Context();
    ctx.AddLevel(homeLevel);
    var h := ctx.SetHome(homeLevel);
    var p := ctx.PostInit();
    r := Navigate(ctx, target);
    current := ctx.currentLevel;
  }
}
