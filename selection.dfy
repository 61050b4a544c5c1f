/**
 * Which checkbox, radio button or dropdown option the form generator marks
 * as checked or selected, and which checkbox values it records as the
 * field's old value. Comparisons are string equality (the PHP code uses
 * loose `==` on values that are strings).
 */
module Selection {
  import opened PhpArray

  /** The `tocheck` argument of a checkbox group: a single value or an array of values. */
  datatype ToCheck = One(value: string) | Many(values: seq<string>)

  /** `(array) $tocheck` */
  function ToCheckList(t: ToCheck): seq<string> {
    match t
    case One(v) => [v]
    case Many(vs) => vs
  }

  /**
   * The checkbox rule as the code branches: a non-empty array is searched,
   * anything else is compared with `==` (a string never equals an empty array).
   */
  predicate CheckboxChecked(value: string, t: ToCheck) {
    match t
    case Many(vs) => vs != [] && value in vs
    case One(v) => value == v
  }

  /**
   * The option values of `checkboxes` (value/label pairs) that `in_array`
   * finds in `(array) $tocheck`, in option order.
   */
  function CheckedValues(checkboxes: seq<(string, string)>, t: ToCheck): seq<string>
    decreases |checkboxes|
  {
    if checkboxes == [] then []
    else
      var last := checkboxes[|checkboxes| - 1].0;
      CheckedValues(checkboxes[..|checkboxes| - 1], t) + (if last in ToCheckList(t) then [last] else [])
  }

  /** A checkbox is rendered checked exactly when its value is in the list of values to check. */
  lemma CheckboxCheckedMeansListed(value: string, t: ToCheck)
    ensures CheckboxChecked(value, t) <==> value in ToCheckList(t)
  {
  }

  /**
   * The recorded old value holds exactly the option values that are checked,
   * and no more entries than there are options.
   */
  lemma {:induction false} CheckedValuesAreCheckedOptions(checkboxes: seq<(string, string)>, t: ToCheck)
    ensures |CheckedValues(checkboxes, t)| <= |checkboxes|
    ensures forall v :: v in CheckedValues(checkboxes, t) <==> v in Keys(checkboxes) && CheckboxChecked(v, t)
    decreases |checkboxes|
  {
    if checkboxes != [] {
      var init := checkboxes[..|checkboxes| - 1];
      CheckedValuesAreCheckedOptions(init, t);
      assert Keys(checkboxes) == Keys(init) + [checkboxes[|checkboxes| - 1].0];
    }
  }

  /** Recording a list of values that are all distinct gives a list without repeats. */
  lemma {:induction false} CheckedValuesDistinct(checkboxes: seq<(string, string)>, t: ToCheck)
    requires UniqueKeys(checkboxes)
    ensures forall i, j :: 0 <= i < j < |CheckedValues(checkboxes, t)| ==>
      CheckedValues(checkboxes, t)[i] != CheckedValues(checkboxes, t)[j]
    decreases |checkboxes|
  {
    if checkboxes != [] {
      var init := checkboxes[..|checkboxes| - 1];
      var last := checkboxes[|checkboxes| - 1].0;
      assert UniqueKeys(init);
      CheckedValuesDistinct(init, t);
      CheckedValuesAreCheckedOptions(init, t);
      forall k | 0 <= k < |init| ensures Keys(init)[k] != last {
        assert checkboxes[k].0 != checkboxes[|checkboxes| - 1].0;
      }
      assert last !in CheckedValues(init, t);
      var r := CheckedValues(checkboxes, t);
      forall i, j | 0 <= i < j < |r| ensures r[i] != r[j] {
        if j == |CheckedValues(init, t)| {
          assert r[i] in CheckedValues(init, t);
        }
      }
    }
  }

  /** A radio button or dropdown option is checked or selected when its value equals `tocheck`. */
  predicate Selected(value: string, tocheck: string) {
    value == tocheck
  }

  /** How many of `options` (value first) are marked selected. */
  function CountSelected(options: seq<(string, string)>, tocheck: string): nat
    decreases |options|
  {
    if options == [] then 0
    else (if Selected(options[0].0, tocheck) then 1 else 0) + CountSelected(options[1..], tocheck)
  }

  /**
   * With distinct option values, at most one option is selected: exactly one
   * when `tocheck` is among the values, none otherwise.
   */
  lemma {:induction false} SelectedAtMostOnce(options: seq<(string, string)>, tocheck: string)
    requires UniqueKeys(options)
    ensures CountSelected(options, tocheck) == if tocheck in Keys(options) then 1 else 0
    decreases |options|
  {
    if options != [] {
      assert UniqueKeys(options[1..]);
      SelectedAtMostOnce(options[1..], tocheck);
      assert Keys(options) == [options[0].0] + Keys(options[1..]);
      if options[0].0 == tocheck {
        forall k | 0 <= k < |options[1..]| ensures Keys(options[1..])[k] != tocheck {
          assert options[k + 1].0 != options[0].0;
        }
      }
    }
  }

  /** The two worked examples: checking ["b"] among {a, b}; selecting "y" among {x, y}. */
  lemma SelectionExamples()
    ensures !CheckboxChecked("a", Many(["b"])) && CheckboxChecked("b", Many(["b"]))
    ensures CheckedValues([("a", "Label A"), ("b", "Label B")], Many(["b"])) == ["b"]
    ensures CountSelected([("x", "X"), ("y", "Y")], "y") == 1 && Selected("y", "y") && !Selected("x", "y")
  {
    var opts := [("a", "Label A"), ("b", "Label B")];
    assert opts[..1] == [("a", "Label A")];
    assert opts[..1][..0] == [];
  }
}
