/**
 * A menu level (`org.easy.menu.domain.MenuLevel`, and the identical filter in
 * `com.chamis.andre.domain.MenuLevel`): a label and the public methods that
 * reflection reports for its class, in discovery order.
 */
module MenuLevel {
  import opened Common

  /** One public method of a level class, as reflection reports it. */
  datatype Method = Method(
    name: string,
    annotated: bool,   // carries the action annotation
    caption: string,   // the annotation's `label()` (meaningful only when annotated)
    order: int,        // the annotation's `order()` (meaningful only when annotated)
    paramCount: nat)   // `getParameterCount()`

  /** A registered level instance; `typ` is its runtime class, `caption` its `getLabel()`
      (`label` is a reserved word in Dafny). */
  datatype Level = Level(typ: TypeId, caption: string, methods: seq<Method>)

  /** `s` can be obtained from `t` by deleting elements. */
  ghost predicate IsSubsequence<T>(s: seq<T>, t: seq<T>)
    decreases |t|
  {
    if s == [] then true
    else if t == [] then false
    else (s[0] == t[0] && IsSubsequence(s[1..], t[1..])) || IsSubsequence(s, t[1..])
  }

  /** `getActions`: the methods that carry the action annotation, in discovery order. */
  function GetActions(methods: seq<Method>): (r: seq<Method>)
    ensures forall m :: m in r ==> m in methods && m.annotated
    ensures forall m :: m in methods && m.annotated ==> m in r
    ensures |r| <= |methods|
  {
    if methods == [] then []
    else if methods[0].annotated then [methods[0]] + GetActions(methods[1..])
    else GetActions(methods[1..])
  }

  /** `getActions` keeps the discovery order: its result is a subsequence of the method list. */
  lemma {:induction false} GetActionsKeepsOrder(methods: seq<Method>)
    ensures IsSubsequence(GetActions(methods), methods)
  {
    if methods != [] {
      GetActionsKeepsOrder(methods[1..]);
    }
  }

  /**
   * The search inside `Context.navigate`: the index of the first level whose
   * class is `target`, if any (`filter(...).findFirst()`).
   */
  function FirstIndexOfType(levels: seq<Level>, target: TypeId): (r: Option<nat>)
    ensures r.Some? ==> r.value < |levels| && levels[r.value].typ == target
    ensures r.Some? ==> forall j :: 0 <= j < r.value ==> levels[j].typ != target
    ensures r.None? <==> forall j :: 0 <= j < |levels| ==> levels[j].typ != target
  {
    if levels == [] then None
    else if levels[0].typ == target then Some(0)
    else match FirstIndexOfType(levels[1..], target)
      case None => None
      case Some(i) => Some(i + 1)
  }
}
