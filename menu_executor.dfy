/**
 * The pure parts of `org.easy.menu.application.MenuExecutor`: building the
 * keyed display list of a level, picking the action for the first valid key
 * in a stream of integer inputs, and the frame drawn around a level's label.
 */
module MenuExecutor {
  import opened Common
  import opened MenuLevel

  /** `DisplayAction`: the menu key `value`, the annotation's label and the method. */
  datatype DisplayAction = DisplayAction(value: int, caption: string, action: Method)

  /** For every `i < j`, the `i`-th action's `order` is at most the `j`-th's. */
  ghost predicate SortedByOrder(s: seq<Method>)
  {
    forall i, j :: 0 <= i < j < |s| ==> s[i].order <= s[j].order
  }

  /** The actions of a given `order`, in sequence order. */
  function WithOrder(s: seq<Method>, k: int): (r: seq<Method>)
  {
    if s == [] then []
    else if s[0].order == k then [s[0]] + WithOrder(s[1..], k)
    else WithOrder(s[1..], k)
  }

  /** Puts `m` in front of the first element whose `order` is not smaller. */
  function Insert(m: Method, s: seq<Method>): (r: seq<Method>)
    ensures |r| == |s| + 1
  {
    if s == [] || m.order <= s[0].order then [m] + s
    else [s[0]] + Insert(m, s[1..])
  }

  /**
   * `sorted(Comparator.comparing(order))` on an ordered stream: a stable sort
   * by `order` (an insertion sort).
   */
  function SortByOrder(s: seq<Method>): (r: seq<Method>)
    ensures |r| == |s|
  {
    if s == [] then [] else Insert(s[0], SortByOrder(s[1..]))
  }

  lemma {:induction false} InsertPermutes(m: Method, s: seq<Method>)
    ensures multiset(Insert(m, s)) == multiset(s) + multiset{m}
    ensures |Insert(m, s)| == |s| + 1
  {
    if s != [] && s[0].order < m.order {
      InsertPermutes(m, s[1..]);
      assert s == [s[0]] + s[1..];
    }
  }

  lemma {:induction false} InsertSorted(m: Method, s: seq<Method>)
    requires SortedByOrder(s)
    ensures SortedByOrder(Insert(m, s))
  {
    if s == [] || m.order <= s[0].order {
      assert forall j :: 0 <= j < |s| ==> s[0].order <= s[j].order;
    } else {
      var rest := Insert(m, s[1..]);
      InsertSorted(m, s[1..]);
      InsertPermutes(m, s[1..]);
      forall k | 0 <= k < |rest| ensures s[0].order <= rest[k].order {
        assert rest[k] in multiset(s[1..]) + multiset{m};
        if rest[k] != m {
          assert rest[k] in s[1..];
          var i :| 0 <= i < |s[1..]| && s[1..][i] == rest[k];
          assert s[i + 1] == rest[k];
        }
      }
    }
  }

  /** The display order is sorted by `order`. */
  lemma {:induction false} SortByOrderSorted(s: seq<Method>)
    ensures SortedByOrder(SortByOrder(s))
  {
    if s != [] {
      SortByOrderSorted(s[1..]);
      InsertSorted(s[0], SortByOrder(s[1..]));
    }
  }

  /** The display order is a permutation of the annotated actions. */
  lemma {:induction false} SortByOrderPermutes(s: seq<Method>)
    ensures multiset(SortByOrder(s)) == multiset(s)
    ensures |SortByOrder(s)| == |s|
  {
    if s != [] {
      SortByOrderPermutes(s[1..]);
      InsertPermutes(s[0], SortByOrder(s[1..]));
      assert s == [s[0]] + s[1..];
    }
  }

  lemma {:induction false} InsertKeepsTies(m: Method, s: seq<Method>, k: int)
    ensures WithOrder(Insert(m, s), k) == if m.order == k then [m] + WithOrder(s, k) else WithOrder(s, k)
  {
    if s == [] || m.order <= s[0].order {
      assert ([m] + s)[1..] == s;
    } else {
      InsertKeepsTies(m, s[1..], k);
      assert ([s[0]] + Insert(m, s[1..]))[1..] == Insert(m, s[1..]);
    }
  }

  /**
   * The sort is stable: for every `order` value, the actions with that value
   * keep their discovery order.
   */
  lemma {:induction false} SortByOrderIsStable(s: seq<Method>, k: int)
    ensures WithOrder(SortByOrder(s), k) == WithOrder(s, k)
  {
    if s != [] {
      SortByOrderIsStable(s[1..], k);
      InsertKeepsTies(s[0], SortByOrder(s[1..]), k);
    }
  }

  /** The methods of a display list. */
  function ActionsOf(d: seq<DisplayAction>): (r: seq<Method>)
    ensures |r| == |d| && forall i :: 0 <= i < |d| ==> r[i] == d[i].action
  {
    seq(|d|, i requires 0 <= i < |d| => d[i].action)
  }

  /** Keys the actions densely: the `i`-th becomes `DisplayAction(i, label, method)`. */
  function Keyed(actions: seq<Method>): (r: seq<DisplayAction>)
    ensures |r| == |actions|
    ensures forall i :: 0 <= i < |r| ==> r[i] == DisplayAction(i, actions[i].caption, actions[i])
  {
    seq(|actions|, i requires 0 <= i < |actions| => DisplayAction(i, actions[i].caption, actions[i]))
  }

  /** The display list of a level: its annotated methods, sorted by `order`, keyed densely. */
  function DisplayList(level: Level): (r: seq<DisplayAction>)
    ensures |r| == |GetActions(level.methods)|
  {
    SortByOrderPermutes(GetActions(level.methods));
    Keyed(SortByOrder(GetActions(level.methods)))
  }

  /**
   * `generateDisplayActions`: one display action per annotated method,
   * labelled by its annotation, in `order` order and keyed `0 .. n-1`.
   */
  method GenerateDisplayActions(level: Level) returns (displayActions: seq<DisplayAction>)
    ensures displayActions == DisplayList(level)
    ensures |displayActions| == |GetActions(level.methods)|
    ensures forall i :: 0 <= i < |displayActions| ==>
              displayActions[i].value == i && displayActions[i].caption == displayActions[i].action.caption
    ensures multiset(ActionsOf(displayActions)) == multiset(GetActions(level.methods))
    ensures SortedByOrder(ActionsOf(displayActions))
  {
    var actions := SortByOrder(GetActions(level.methods));
    displayActions := [];
    var i := 0;
    while i < |actions|
      invariant 0 <= i <= |actions|
      invariant |displayActions| == i
      invariant forall j :: 0 <= j < i ==> displayActions[j] == DisplayAction(j, actions[j].caption, actions[j])
    {
      var m := actions[i];
      displayActions := displayActions + [DisplayAction(i, m.caption, m)];
      i := i + 1;
    }
    assert ActionsOf(displayActions) == actions;
    SortByOrderSorted(GetActions(level.methods));
    SortByOrderPermutes(GetActions(level.methods));
  }

  /**
   * Actions "A" (order 2) and "B" (order 1), discovered in that order, are
   * shown as B then A; two actions of equal order keep their discovery order.
   */
  method DisplayOrderExample() returns (byOrder: seq<DisplayAction>, tied: seq<DisplayAction>)
    ensures |byOrder| == 2 && byOrder[0].caption == "B" && byOrder[1].caption == "A"
    ensures |tied| == 2 && tied[0].caption == "A" && tied[1].caption == "B"
  {
    var a := Method("a", true, "A", 2, 0);
    var b := Method("b", true, "B", 1, 0);
    var toString := Method("toString", false, "", 0, 0);
    assert [a, toString, b][1..] == [toString, b] && [toString, b][1..] == [b];
    assert GetActions([b]) == [b];
    assert GetActions([a, toString, b]) == [a] + GetActions([toString, b]) == [a, b];
    assert [a, b][1..] == [b];
    assert SortByOrder([b]) == [b];
    assert Insert(a, [b]) == [b] + Insert(a, []) == [b, a];
    assert SortByOrder([a, b]) == [b, a];
    byOrder := GenerateDisplayActions(Level(1, "Main", [a, toString, b]));
    var a1 := Method("a", true, "A", 1, 0);
    var b1 := Method("b", true, "B", 1, 0);
    tied := GenerateDisplayActions(Level(1, "Main", [a1, b1]));
  }

  /** The outcome of `selectAction` over a finite stream of inputs. */
  datatype Selection =
    | Selected(choice: DisplayAction, consumed: nat)   // returned after reading `consumed` inputs
    | InputsExhausted                                   // every input was re-prompted

  /** A key of the display map built from `n` display actions. */
  predicate IsKey(option: int, n: nat)
  {
    0 <= option < n
  }

  /**
   * `selectAction`: builds the key map of the level's display actions, then
   * reads inputs until one is a key, and returns the display action at that
   * index. Every other input is re-prompted and changes nothing.
   */
  method SelectAction(level: Level, inputs: seq<int>) returns (s: Selection)
    ensures var n := |GetActions(level.methods)|;
      s.Selected? <==> exists m :: 0 <= m < |inputs| && IsKey(inputs[m], n)
    ensures s.Selected? ==>
      var n := |GetActions(level.methods)|;
      var last := s.consumed - 1;
      && 1 <= s.consumed <= |inputs|
      && IsKey(inputs[last], n)
      && (forall m :: 0 <= m < last ==> !IsKey(inputs[m], n))
      && s.choice == DisplayList(level)[inputs[last]]
      && s.choice.value == inputs[last]
  {
    var displayActions := GenerateDisplayActions(level);
    var displayActionMap: map<int, DisplayAction> := map[];
    var j := 0;
    while j < |displayActions|
      invariant 0 <= j <= |displayActions|
      invariant forall k :: k in displayActionMap <==> 0 <= k < j
    {
      displayActionMap := displayActionMap[displayActions[j].value := displayActions[j]];
      j := j + 1;
    }
    var n := 0;
    while n < |inputs|
      invariant 0 <= n <= |inputs|
      invariant forall m :: 0 <= m < n ==> !IsKey(inputs[m], |displayActions|)
    {
      var option := inputs[n];
      n := n + 1;
      if option in displayActionMap {
        assert IsKey(inputs[n - 1], |displayActions|);
        return Selected(displayActions[option], n);
      }
    }
    return InputsExhausted;
  }

  /** `n` copies of `c`. */
  function Repeat(c: char, n: nat): (r: string)
    ensures |r| == n
    ensures forall i :: 0 <= i < n ==> r[i] == c
  {
    if n == 0 then "" else Repeat(c, n - 1) + [c]
  }

  /**
   * `displayLabel`: the lines printed for a level's label: nothing for an empty
   * label, otherwise an empty line and a double-lined box whose three lines
   * are all six characters wider than the label.
   */
  method DisplayLabel(caption: string) returns (lines: seq<string>)
    ensures caption == [] ==> lines == []
    ensures caption != [] ==>
      var w := |caption|;
      && |lines| == 4 && lines[0] == ""
      && lines[1] == "╔══" + Repeat('═', w) + "══╗"
      && lines[2] == "║  " + caption + "  ║"
      && lines[3] == "╚══" + Repeat('═', w) + "══╝"
      && |lines[1]| == w + 6 && |lines[2]| == w + 6 && |lines[3]| == w + 6
      && lines[2][3..w + 3] == caption
  {
    if caption == [] {
      return [];
    }
    var upperBorder := "╔══";
    var lowerBorder := "╚══";
    var i := 0;
    while i < |caption|
      invariant 0 <= i <= |caption|
      invariant upperBorder == "╔══" + Repeat('═', i)
      invariant lowerBorder == "╚══" + Repeat('═', i)
    {
      upperBorder := upperBorder + "═";
      lowerBorder := lowerBorder + "═";
      i := i + 1;
    }
    upperBorder := upperBorder + "══╗";
    lowerBorder := lowerBorder + "══╝";
    var middle := "║  " + caption + "  ║";
    assert middle[3..|caption| + 3] == caption;
    lines := ["", upperBorder, middle, lowerBorder];
  }
}
