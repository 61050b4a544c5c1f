/**
 * `Wolbusinessdesk_Form_Generator`: one builder object per form. Each
 * element call checks its arguments, gives back either the joined error
 * messages or the element's HTML, advances the shared tab-index counter,
 * and may record the submitted value in the old-value table; date pickers
 * are registered and flushed by `close_form`.
 *
 * Every element call returns its fragment (`Outcome`); whether PHP echoes
 * it or returns it is not modelled.
 */
module FormGenerator {
  import opened Php
  import opened PhpArray
  import opened Ksort
  import opened Selection
  import opened Fields
  import opened Datepickers

  /** The tab-index step a new builder starts with. */
  const DefaultTabindexIncrement := 10

  /** The name of the hidden field that carries the old-value table. */
  const OldValuesField := "fields_old_values"

  /** The provinces `input_dropdown_prov` offers, as listed; each is its own value and label. */
  function ProvinceTable(): seq<string> {
    [
    "Torino", "Vercelli", "Novara", "Cuneo", "Asti", "Alessandria", "Biella",
    "Verbano-Cusio-Ossola", "Valle d'Aosta", "Varese", "Como", "Sondrio", "Milano", "Bergamo",
    "Brescia", "Pavia", "Cremona", "Mantova", "Lecco", "Lodi", "Monza Brianza", "Bolzano",
    "Trento", "Verona", "Vicenza", "Belluno", "Treviso", "Venezia", "Padova", "Rovigo", "Udine",
    "Gorizia", "Trieste", "Pordenone", "Imperia", "Savona", "Genova", "La Spezia", "Piacenza",
    "Parma", "Reggio Emilia", "Modena", "Bologna", "Ferrara", "Ravenna", "Forlì", "Rimini",
    "Massa Carrara", "Lucca", "Pistoia", "Firenze", "Livorno", "Pisa", "Arezzo", "Siena",
    "Grosseto", "Prato", "Perugia", "Terni", "Pesaro e Urbino", "Ancona", "Macerata",
    "Ascoli Piceno", "Fermo", "Viterbo", "Rieti", "Roma", "Latina", "Frosinone", "L'Aquila",
    "Teramo", "Pescara", "Chieti", "Campobasso", "Isernia", "Caserta", "Benevento", "Napoli",
    "Avellino", "Salerno", "Foggia", "Bari", "Taranto", "Brindisi", "Lecce",
    "Barletta-Andria-Trani", "Potenza", "Matera", "Cosenza", "Catanzaro", "Reggio Calabria",
    "Crotone", "Vibo Valentia", "Trapani", "Palermo", "Messina", "Agrigento", "Caltanissetta",
    "Enna", "Catania", "Ragusa", "Siracusa", "Sassari", "Nuoro", "Cagliari", "Oristano",
    "Olbia-Tempio", "Ogliastra", "Medio Campidano", "Carbonia-Iglesias"]
  }

  /** What `close_form` prints on its echo path: the script comes before the closing tag. */
  function EchoedClosing(altFields: string, hiddenValues: string, formName: string, reg: Registry): string {
    altFields + hiddenValues + ScriptsHtml(reg) + CloseFormHtml(formName)
  }

  /**
   * The echo path does not print what the return path gives: the printed
   * text ends with the closing tag, the returned text with the script.
   */
  lemma EchoedClosingScriptFirst(altFields: string, hiddenValues: string, formName: string, reg: Registry)
    ensures EchoedClosing(altFields, hiddenValues, formName, reg)
      != altFields + hiddenValues + CloseFormHtml(formName) + ScriptsHtml(reg)
  {
    var closing := CloseFormHtml(formName);
    var printed := EchoedClosing(altFields, hiddenValues, formName, reg);
    var returned := altFields + hiddenValues + closing + ScriptsHtml(reg);
    var params := ScriptParams(reg, |reg|);
    assert printed == (altFields + hiddenValues + ScriptsHtml(reg)) + closing;
    assert printed[|printed| - 2] == closing[|closing| - 2] == '-';
    assert returned == (altFields + hiddenValues + closing + ScriptOpen + PickerScripts(params, |params|)) + ScriptClose;
    assert returned[|returned| - 2] == ScriptClose[|ScriptClose| - 2] == 't';
  }

  /** What `get_old_data_array` gives: `FALSE`, `null` or the decoded table. */
  datatype OldData = NothingPassed | Undecodable | Table(entries: seq<(string, OldValue)>)

  /** `strtoupper( $method )` is one of the two methods `open_form` accepts. */
  predicate IsFormMethod(formMethod: string) {
    ToUpper(formMethod) == "POST" || ToUpper(formMethod) == "GET"
  }

  /** The old-value table after `maybe_add_old_value( $name, $value )`. */
  function RecordOldValue(table: seq<(string, OldValue)>, keep: bool, name: string, value: OldValue): seq<(string, OldValue)> {
    if keep then Put(table, name, value) else table
  }

  /**
   * With tracking on, the field's entry becomes the value given (the last
   * write wins), every other field keeps its entry, and a field seen for
   * the first time goes last. With tracking off the table is untouched.
   */
  lemma RecordOldValueSpec(table: seq<(string, OldValue)>, keep: bool, name: string, value: OldValue, other: string)
    ensures keep ==> Get(RecordOldValue(table, keep, name, value), name) == Some(value)
    ensures keep && other != name ==> Get(RecordOldValue(table, keep, name, value), other) == Get(table, other)
    ensures keep ==> (Keys(RecordOldValue(table, keep, name, value)) ==
      if name in Keys(table) then Keys(table) else Keys(table) + [name])
    ensures !keep ==> RecordOldValue(table, keep, name, value) == table
  {
    if keep {
      PutGet(table, name, value);
      if other != name {
        PutGetOther(table, name, value, other);
      }
      PutKeys(table, name, value);
    }
  }

  /** `esc_attr` applied to each value. */
  function Escaped(esc: string -> string, values: seq<string>): (r: seq<string>)
    ensures |r| == |values|
    decreases |values|
  {
    if values == [] then [] else Escaped(esc, values[..|values| - 1]) + [esc(values[|values| - 1])]
  }

  lemma EscapedAppend(esc: string -> string, values: seq<string>, v: string)
    ensures Escaped(esc, values + [v]) == Escaped(esc, values) + [esc(v)]
  {
    assert (values + [v])[..|values|] == values;
  }

  /** One more checkbox adds its escaped value to the recorded old value exactly when it is listed in `tocheck`. */
  lemma CheckedOldValuesStep(esc: string -> string, checkboxes: seq<(string, string)>, i: nat, t: ToCheck)
    requires i < |checkboxes|
    ensures Escaped(esc, CheckedValues(checkboxes[..i + 1], t))
      == Escaped(esc, CheckedValues(checkboxes[..i], t))
         + (if checkboxes[i].0 in ToCheckList(t) then [esc(checkboxes[i].0)] else [])
  {
    var prefix := checkboxes[..i + 1];
    assert prefix[..|prefix| - 1] == checkboxes[..i];
    assert prefix[|prefix| - 1] == checkboxes[i];
    var before := CheckedValues(checkboxes[..i], t);
    if checkboxes[i].0 in ToCheckList(t) {
      assert CheckedValues(prefix, t) == before + [checkboxes[i].0];
      EscapedAppend(esc, before, checkboxes[i].0);
    } else {
      assert CheckedValues(prefix, t) == before + [] == before;
      assert Escaped(esc, before) + [] == Escaped(esc, before);
    }
  }

  /**
   * `ksort` of an array in which every key is its own value: the pairs come
   * out in ascending key order, holding exactly the keys given.
   */
  function KsortOptions(keys: seq<string>): (r: seq<(string, string)>)
    ensures |r| == |keys|
    ensures Sorted(Keys(r))
    ensures multiset(Keys(r)) == multiset(keys)
    ensures forall i :: 0 <= i < |r| ==> r[i].0 == r[i].1
  {
    var sorted := KeySort(keys);
    KeySortSorted(keys);
    KeySortPermutes(keys);
    assert |sorted| == |multiset(sorted)| == |multiset(keys)| == |keys|;
    var r := seq(|sorted|, i requires 0 <= i < |sorted| => (sorted[i], sorted[i]));
    assert Keys(r) == sorted;
    r
  }

  /**
   * `checked="checked"` for a checkbox whose value is to be checked, else
   * nothing: a non-empty array is searched up to the first match, anything
   * else is compared with the value.
   */
  method CheckedMark(value: string, tocheck: ToCheck) returns (checked: string)
    ensures checked == CheckedAttr(CheckboxChecked(value, tocheck))
  {
    checked := "";
    if tocheck.Many? && tocheck.values != [] {
      var list := tocheck.values;
      var j := 0;
      while j < |list|
        invariant 0 <= j <= |list|
        invariant value !in list[..j]
      {
        if value == list[j] {
          checked := CheckedAttr(true);
          return;
        }
        j := j + 1;
      }
      assert list[..|list|] == list;
    } else {
      checked := if tocheck == One(value) then CheckedAttr(true) else "";
    }
  }

  class FormGenerator {
    /** The library calls the builder makes. */
    const env: Collaborators
    /** `keep_old_values`, fixed when the builder is made. */
    const keepOldValues: bool
    /** The tab index the last element was given. */
    var tabindexCounter: int
    /** The province names `input_dropdown_prov` lists. */
    const provinces: seq<string>
    /** What each element adds to the tab index. */
    var tabindexIncrement: int
    /** The name of the form opened last. */
    var formName: string
    /** Whether the open form asked for its old values. */
    var formOldValues: bool
    /** Field name to the value it was given, in first-seen order. */
    var fieldsOldValues: seq<(string, OldValue)>
    /** The date pickers created so far. */
    var datepickerData: Registry

    /** What every PHP array satisfies: no key twice. */
    ghost predicate Valid()
      reads this
    {
      UniqueKeys(fieldsOldValues) && UniqueKeys(datepickerData)
    }

    constructor(env: Collaborators, keepOldValues: bool := false)
      ensures Valid()
      ensures this.env == env && this.keepOldValues == keepOldValues && provinces == ProvinceTable()
      ensures tabindexCounter == 0 && tabindexIncrement == DefaultTabindexIncrement
      ensures formName == "" && !formOldValues
      ensures fieldsOldValues == [] && datepickerData == []
    {
      this.env := env;
      this.keepOldValues := keepOldValues;
      provinces := ProvinceTable();
      tabindexCounter := 0;
      tabindexIncrement := DefaultTabindexIncrement;
      formName := "";
      formOldValues := false;
      fieldsOldValues := [];
      datepickerData := [];
    }

    /**
     * Fails exactly when the id or the name is missing or the method is not
     * POST or GET in any case, reporting every failed check; on success
     * adopts a non-zero increment, remembers the form and writes the tag.
     */
    method OpenForm(a: OpenFormArgs) returns (r: Outcome)
      modifies this`tabindexIncrement, this`formName, this`formOldValues
      ensures r.Error? <==> a.id == "" || a.name == "" || !IsFormMethod(a.formMethod)
      ensures (a.id == "" || a.name == "") && !IsFormMethod(a.formMethod) ==>
        r.msg == env.translate(MsgOpenFormIdName) + ErrorSeparator + env.translate(MsgOpenFormMethod)
      ensures (a.id == "" || a.name == "") && IsFormMethod(a.formMethod) ==> r.msg == env.translate(MsgOpenFormIdName)
      ensures a.id != "" && a.name != "" && !IsFormMethod(a.formMethod) ==> r.msg == env.translate(MsgOpenFormMethod)
      ensures r.Error? ==> unchanged(this)
      ensures r.Ok? ==>
        && tabindexIncrement == (if a.tabindexIncrement != 0 then a.tabindexIncrement else old(tabindexIncrement))
        && formName == a.name
        && formOldValues == (match a.oldValue case Some(b) => b case None => keepOldValues)
        && r.html == OpenFormHtml(a.id, a.name, ToUpper(a.formMethod), a.action, a.cssClass, a.enctype)
    {
      var errors: seq<string> := [];
      if a.id == "" || a.name == "" {
        errors := errors + [env.translate(MsgOpenFormIdName)];
      }
      var formMethod := ToUpper(a.formMethod);
      if formMethod != "POST" && formMethod != "GET" {
        errors := errors + [env.translate(MsgOpenFormMethod)];
      }
      if errors != [] {
        if |errors| == 2 {
          assert errors == [errors[0], errors[1]];
          ImplodeTwo(ErrorSeparator, errors[0], errors[1]);
        }
        return Error(Implode(ErrorSeparator, errors));
      }
      if a.tabindexIncrement != 0 {
        tabindexIncrement := a.tabindexIncrement;
      }
      formName := a.name;
      formOldValues := match a.oldValue case Some(b) => b case None => keepOldValues;
      r := Ok(OpenFormHtml(a.id, a.name, formMethod, a.action, a.cssClass, a.enctype));
    }

    /** `maybe_add_old_value`: records the value only when the builder keeps old values. */
    method MaybeAddOldValue(fieldName: string, oldValue: OldValue)
      requires Valid()
      modifies this`fieldsOldValues
      ensures Valid()
      ensures fieldsOldValues == RecordOldValue(old(fieldsOldValues), keepOldValues, fieldName, oldValue)
    {
      if keepOldValues {
        PutUniqueKeys(fieldsOldValues, fieldName, oldValue);
        fieldsOldValues := Put(fieldsOldValues, fieldName, oldValue);
      }
    }

    /**
     * Fails exactly when the id or the name is missing, changing nothing;
     * otherwise takes the next tab index and records the value.
     */
    method InputText(a: TextArgs) returns (r: Outcome)
      requires Valid()
      modifies this`tabindexCounter, this`fieldsOldValues
      ensures Valid()
      ensures r.Error? <==> a.id == "" || a.name == ""
      ensures r.Error? ==> r.msg == env.translate(MsgTextIdName) && unchanged(this)
      ensures r.Ok? ==>
        && tabindexCounter == old(tabindexCounter) + tabindexIncrement
        && r.html == TextInputHtml(env.escAttr, a, tabindexCounter)
        && fieldsOldValues == RecordOldValue(old(fieldsOldValues), keepOldValues, a.name, Scalar(a.value))
    {
      var errors: seq<string> := [];
      if a.id == "" || a.name == "" {
        errors := errors + [env.translate(MsgTextIdName)];
      }
      if errors != [] {
        return Error(Implode(ErrorSeparator, errors));
      }
      tabindexCounter := tabindexCounter + tabindexIncrement;
      var html := TextInputTag(env.escAttr, a, tabindexCounter);
      if a.labelText != "" {
        html := LabelHtml(env.escAttr, a.name, a.labelText, a.mandatory) + html;
      }
      MaybeAddOldValue(a.name, Scalar(a.value));
      r := Ok(html);
    }

    /** As `InputText`, for a textarea. */
    method InputTextarea(a: TextareaArgs) returns (r: Outcome)
      requires Valid()
      modifies this`tabindexCounter, this`fieldsOldValues
      ensures Valid()
      ensures r.Error? <==> a.id == "" || a.name == ""
      ensures r.Error? ==> r.msg == env.translate(MsgTextareaIdName) && unchanged(this)
      ensures r.Ok? ==>
        && tabindexCounter == old(tabindexCounter) + tabindexIncrement
        && r.html == TextareaHtml(env.escAttr, a, tabindexCounter)
        && fieldsOldValues == RecordOldValue(old(fieldsOldValues), keepOldValues, a.name, Scalar(a.value))
    {
      var errors: seq<string> := [];
      if a.id == "" || a.name == "" {
        errors := errors + [env.translate(MsgTextareaIdName)];
      }
      if errors != [] {
        return Error(Implode(ErrorSeparator, errors));
      }
      tabindexCounter := tabindexCounter + tabindexIncrement;
      var html := TextareaTag(env.escAttr, a, tabindexCounter);
      if a.labelText != "" {
        html := LabelHtml(env.escAttr, a.name, a.labelText, a.mandatory) + html;
      }
      MaybeAddOldValue(a.name, Scalar(a.value));
      r := Ok(html);
    }

    /**
     * Fails when the id or the name is missing or there are no checkboxes,
     * reporting both; otherwise every checkbox takes the next tab index in
     * turn, and the old value is the list of escaped checked values.
     */
    method InputCheckbox(a: CheckboxArgs) returns (r: Outcome)
      requires Valid()
      modifies this`tabindexCounter, this`fieldsOldValues
      ensures Valid()
      ensures r.Error? <==> a.id == "" || a.name == "" || a.checkboxes == []
      ensures (a.id == "" || a.name == "") && a.checkboxes == [] ==>
        r.msg == env.translate(MsgCheckboxIdName) + ErrorSeparator + env.translate(MsgCheckboxNone)
      ensures (a.id == "" || a.name == "") && a.checkboxes != [] ==> r.msg == env.translate(MsgCheckboxIdName)
      ensures a.id != "" && a.name != "" && a.checkboxes == [] ==> r.msg == env.translate(MsgCheckboxNone)
      ensures r.Error? ==> unchanged(this)
      ensures r.Ok? ==>
        && tabindexCounter == old(tabindexCounter) + |a.checkboxes| * tabindexIncrement
        && r.html == CheckboxGroupHtml(env.escAttr, a, old(tabindexCounter), tabindexIncrement)
        && fieldsOldValues == RecordOldValue(old(fieldsOldValues), keepOldValues, a.name,
             List(Escaped(env.escAttr, CheckedValues(a.checkboxes, a.tocheck))))
    {
      var errors: seq<string> := [];
      if a.id == "" || a.name == "" {
        errors := errors + [env.translate(MsgCheckboxIdName)];
      }
      if |a.checkboxes| == 0 {
        errors := errors + [env.translate(MsgCheckboxNone)];
      }
      if errors != [] {
        if |errors| == 2 {
          assert errors == [errors[0], errors[1]];
          ImplodeTwo(ErrorSeparator, errors[0], errors[1]);
        }
        return Error(Implode(ErrorSeparator, errors));
      }
      var esc := env.escAttr;
      ghost var start := tabindexCounter;
      var html, oldValues := CheckboxFields(a);
      TabindexAfterLinear(start, tabindexIncrement, |a.checkboxes|);
      if a.legend != "" {
        html := LegendHtml(esc, a.legend) + html;
      }
      html := "<fieldset>" + html + "</fieldset>";
      MaybeAddOldValue(a.name, List(oldValues));
      r := Ok(html);
    }

    /**
     * The checkboxes of a group, each taking the next tab index in turn, and
     * the escaped values of those that are checked.
     */
    method CheckboxFields(a: CheckboxArgs) returns (html: string, oldValues: seq<string>)
      modifies this`tabindexCounter
      ensures tabindexCounter == TabindexAfter(old(tabindexCounter), tabindexIncrement, |a.checkboxes|)
      ensures html == CheckboxesHtml(env.escAttr, a, old(tabindexCounter), tabindexIncrement, |a.checkboxes|)
      ensures oldValues == Escaped(env.escAttr, CheckedValues(a.checkboxes, a.tocheck))
    {
      var esc := env.escAttr;
      ghost var start := tabindexCounter;
      // After the first checkbox the PHP code casts `tocheck` to an array.
      var tocheck := a.tocheck;
      var hiddenIdCounter := 0;
      html := "";
      oldValues := [];
      var i := 0;
      while i < |a.checkboxes|
        invariant 0 <= i <= |a.checkboxes|
        invariant hiddenIdCounter == i
        invariant tocheck == a.tocheck || tocheck == Many(ToCheckList(a.tocheck))
        invariant tabindexCounter == TabindexAfter(start, tabindexIncrement, i)
        invariant html == CheckboxesHtml(esc, a, start, tabindexIncrement, i)
        invariant oldValues == Escaped(esc, CheckedValues(a.checkboxes[..i], a.tocheck))
      {
        html, oldValues, tocheck := CheckboxStep(a, hiddenIdCounter, tocheck, html, oldValues, start);
        hiddenIdCounter := hiddenIdCounter + 1;
        i := i + 1;
      }
      assert a.checkboxes[..|a.checkboxes|] == a.checkboxes;
    }

    /**
     * One pass of the checkbox loop: checkbox `k` is appended, `tocheck` is
     * cast to an array, and the checkbox's escaped value is recorded when
     * it is listed.
     */
    method CheckboxStep(a: CheckboxArgs, k: nat, tocheck: ToCheck, html: string, oldValues: seq<string>,
                        ghost start: int)
        returns (html': string, oldValues': seq<string>, tocheck': ToCheck)
      requires k < |a.checkboxes|
      requires tocheck == a.tocheck || tocheck == Many(ToCheckList(a.tocheck))
      requires tabindexCounter == TabindexAfter(start, tabindexIncrement, k)
      requires html == CheckboxesHtml(env.escAttr, a, start, tabindexIncrement, k)
      requires oldValues == Escaped(env.escAttr, CheckedValues(a.checkboxes[..k], a.tocheck))
      modifies this`tabindexCounter
      ensures tocheck' == Many(ToCheckList(a.tocheck))
      ensures tabindexCounter == TabindexAfter(start, tabindexIncrement, k + 1)
      ensures html' == CheckboxesHtml(env.escAttr, a, start, tabindexIncrement, k + 1)
      ensures oldValues' == Escaped(env.escAttr, CheckedValues(a.checkboxes[..k + 1], a.tocheck))
    {
      var esc := env.escAttr;
      assert CheckboxesHtml(esc, a, start, tabindexIncrement, k + 1)
        == CheckboxesHtml(esc, a, start, tabindexIncrement, k) + CheckboxHtml(esc, a, k, TabindexAfter(start, tabindexIncrement, k + 1));
      var field := CheckboxField(a, k, tocheck);
      html' := html + field;
      tocheck' := tocheck;
      if !tocheck'.Many? {
        tocheck' := Many(ToCheckList(tocheck'));
      }
      var value := a.checkboxes[k].0;
      CheckedOldValuesStep(esc, a.checkboxes, k, a.tocheck);
      oldValues' := oldValues;
      if value in ToCheckList(tocheck') {
        oldValues' := oldValues' + [esc(value)];
      }
    }

    /** Checkbox number `k`: it takes the next tab index and is checked as `tocheck` says. */
    method CheckboxField(a: CheckboxArgs, k: nat, tocheck: ToCheck) returns (field: string)
      requires k < |a.checkboxes|
      requires tocheck == a.tocheck || tocheck == Many(ToCheckList(a.tocheck))
      modifies this`tabindexCounter
      ensures tabindexCounter == old(tabindexCounter) + tabindexIncrement
      ensures field == CheckboxHtml(env.escAttr, a, k, tabindexCounter)
    {
      var (value, caption) := a.checkboxes[k];
      var checked := CheckedMark(value, tocheck);
      assert CheckboxChecked(value, tocheck) == CheckboxChecked(value, a.tocheck);
      tabindexCounter := tabindexCounter + tabindexIncrement;
      field := CheckboxFieldHtml(env.escAttr, a, k, value, caption, checked, tabindexCounter);
      field := Wrap(a.wrapper, field);
    }

    /**
     * Fails when the name is missing or there are no buttons, reporting
     * both; otherwise every button takes the next tab index in turn and the
     * old value is `tocheck`.
     */
    method InputRadio(a: RadioArgs) returns (r: Outcome)
      requires Valid()
      modifies this`tabindexCounter, this`fieldsOldValues
      ensures Valid()
      ensures r.Error? <==> a.name == "" || a.radiobuttons == []
      ensures a.name == "" && a.radiobuttons == [] ==>
        r.msg == env.translate(MsgRadioName) + ErrorSeparator + env.translate(MsgRadioNone)
      ensures a.name == "" && a.radiobuttons != [] ==> r.msg == env.translate(MsgRadioName)
      ensures a.name != "" && a.radiobuttons == [] ==> r.msg == env.translate(MsgRadioNone)
      ensures r.Error? ==> unchanged(this)
      ensures r.Ok? ==>
        && tabindexCounter == old(tabindexCounter) + |a.radiobuttons| * tabindexIncrement
        && r.html == RadiosHtml(env.escAttr, a, old(tabindexCounter), tabindexIncrement, |a.radiobuttons|)
        && fieldsOldValues == RecordOldValue(old(fieldsOldValues), keepOldValues, a.name, Scalar(a.tocheck))
    {
      var errors: seq<string> := [];
      if a.name == "" {
        errors := errors + [env.translate(MsgRadioName)];
      }
      if |a.radiobuttons| == 0 {
        errors := errors + [env.translate(MsgRadioNone)];
      }
      if errors != [] {
        if |errors| == 2 {
          assert errors == [errors[0], errors[1]];
          ImplodeTwo(ErrorSeparator, errors[0], errors[1]);
        }
        return Error(Implode(ErrorSeparator, errors));
      }
      ghost var start := tabindexCounter;
      var html := RadioButtons(a);
      TabindexAfterLinear(start, tabindexIncrement, |a.radiobuttons|);
      MaybeAddOldValue(a.name, Scalar(a.tocheck));
      r := Ok(html);
    }

    /** The buttons of a radio group, each taking the next tab index in turn. */
    method RadioButtons(a: RadioArgs) returns (html: string)
      modifies this`tabindexCounter
      ensures tabindexCounter == TabindexAfter(old(tabindexCounter), tabindexIncrement, |a.radiobuttons|)
      ensures html == RadiosHtml(env.escAttr, a, old(tabindexCounter), tabindexIncrement, |a.radiobuttons|)
    {
      ghost var start := tabindexCounter;
      html := "";
      var i := 0;
      while i < |a.radiobuttons|
        invariant 0 <= i <= |a.radiobuttons|
        invariant tabindexCounter == TabindexAfter(start, tabindexIncrement, i)
        invariant html == RadiosHtml(env.escAttr, a, start, tabindexIncrement, i)
      {
        assert TabindexAfter(start, tabindexIncrement, i + 1) == TabindexAfter(start, tabindexIncrement, i) + tabindexIncrement;
        var field := RadioButton(a, i);
        html := html + field;
        i := i + 1;
      }
    }

    /** Radio button number `k`: it takes the next tab index and is checked when its value is `tocheck`. */
    method RadioButton(a: RadioArgs, k: nat) returns (field: string)
      requires k < |a.radiobuttons|
      modifies this`tabindexCounter
      ensures tabindexCounter == old(tabindexCounter) + tabindexIncrement
      ensures field == RadioHtml(env.escAttr, a, k, tabindexCounter)
    {
      var (caption, value) := a.radiobuttons[k];
      var checked := if value == a.tocheck then CheckedAttr(true) else "";
      assert checked == CheckedAttr(Selected(value, a.tocheck));
      tabindexCounter := tabindexCounter + tabindexIncrement;
      field := RadioFieldHtml(env.escAttr, a, value, caption, checked, tabindexCounter);
      field := Wrap(a.wrapper, field);
    }

    /** The `<option>` tags of a dropdown, in order, marking the ones whose value is `tocheck`. */
    method OptionTags(options: seq<(string, string)>, tocheck: string) returns (html: string)
      ensures html == OptionsHtml(env.escAttr, options, tocheck, |options|)
    {
      html := "";
      var i := 0;
      while i < |options|
        invariant 0 <= i <= |options|
        invariant html == OptionsHtml(env.escAttr, options, tocheck, i)
      {
        var (value, caption) := options[i];
        var select := if value == tocheck then "selected" else "";
        html := html + OptionTag(env.escAttr, value, select, caption);
        i := i + 1;
      }
    }

    /**
     * Only the first failed check is reported (a missing id or name, else an
     * empty option list), and only when its translated message is not a
     * false string; otherwise the select takes the next tab index.
     */
    method InputDropdown(a: DropdownArgs) returns (r: Outcome)
      requires Valid()
      modifies this`tabindexCounter, this`fieldsOldValues
      ensures Valid()
      ensures a.id == "" || a.name == "" ==>
        (r.Error? <==> Truthy(env.translate(MsgDropdownIdName))) && (r.Error? ==> r.msg == env.translate(MsgDropdownIdName))
      ensures a.id != "" && a.name != "" && a.values == [] ==>
        (r.Error? <==> Truthy(env.translate(MsgDropdownNone))) && (r.Error? ==> r.msg == env.translate(MsgDropdownNone))
      ensures a.id != "" && a.name != "" && a.values != [] ==> r.Ok?
      ensures r.Error? ==> unchanged(this)
      ensures r.Ok? ==>
        && tabindexCounter == old(tabindexCounter) + tabindexIncrement
        && r.html == DropdownHtml(env.escAttr, a.id, a.name, a.cssClass, a.labelText, a.mandatory, a.tocheck, a.values,
                                  a.noCheckLabel, tabindexCounter)
        && fieldsOldValues == RecordOldValue(old(fieldsOldValues), keepOldValues, a.name, Scalar(a.tocheck))
    {
      // `$errors` starts as an empty array, which is false like "".
      var errors := "";
      if a.id == "" || a.name == "" {
        errors := env.translate(MsgDropdownIdName);
      } else if |a.values| == 0 {
        errors := env.translate(MsgDropdownNone);
      }
      if Truthy(errors) {
        return Error(errors);
      }
      r := Select(a.id, a.name, a.cssClass, a.labelText, a.mandatory, a.tocheck, a.values, a.noCheckLabel);
    }

    /**
     * The province dropdown: only the id and the name are checked; the
     * options are the province names sorted by `ksort`.
     */
    method InputDropdownProv(a: ProvinceArgs) returns (r: Outcome)
      requires Valid()
      modifies this`tabindexCounter, this`fieldsOldValues
      ensures Valid()
      ensures a.id == "" || a.name == "" ==>
        (r.Error? <==> Truthy(env.translate(MsgDropdownIdName))) && (r.Error? ==> r.msg == env.translate(MsgDropdownIdName))
      ensures a.id != "" && a.name != "" ==> r.Ok?
      ensures r.Error? ==> unchanged(this)
      ensures r.Ok? ==>
        && tabindexCounter == old(tabindexCounter) + tabindexIncrement
        && r.html == DropdownHtml(env.escAttr, a.id, a.name, a.cssClass, a.labelText, a.mandatory, a.tocheck,
                                  KsortOptions(provinces), a.noCheckLabel, tabindexCounter)
        && fieldsOldValues == RecordOldValue(old(fieldsOldValues), keepOldValues, a.name, Scalar(a.tocheck))
    {
      var errors := "";
      if a.id == "" || a.name == "" {
        errors := env.translate(MsgDropdownIdName);
      }
      if Truthy(errors) {
        return Error(errors);
      }
      var values := KsortOptions(provinces);
      r := Select(a.id, a.name, a.cssClass, a.labelText, a.mandatory, a.tocheck, values, a.noCheckLabel);
    }

    /** The part `input_dropdown` and `input_dropdown_prov` share once the checks pass. */
    method Select(id: string, name: string, cssClass: string, labelText: string, mandatory: string, tocheck: string,
                  values: seq<(string, string)>, noCheckLabel: string) returns (r: Outcome)
      requires Valid()
      modifies this`tabindexCounter, this`fieldsOldValues
      ensures Valid()
      ensures tabindexCounter == old(tabindexCounter) + tabindexIncrement
      ensures r == Ok(DropdownHtml(env.escAttr, id, name, cssClass, labelText, mandatory, tocheck, values, noCheckLabel,
                                   tabindexCounter))
      ensures fieldsOldValues == RecordOldValue(old(fieldsOldValues), keepOldValues, name, Scalar(tocheck))
    {
      var esc := env.escAttr;
      var html := "";
      if labelText != "" {
        html := LabelHtml(esc, name, labelText, mandatory) + html;
      }
      tabindexCounter := tabindexCounter + tabindexIncrement;
      html := html + SelectOpenHtml(esc, id, name, cssClass, tabindexCounter);
      if noCheckLabel != "" {
        html := html + ("<option selected disabled>" + noCheckLabel + "</option>");
      }
      var options := OptionTags(values, tocheck);
      html := html + options + "</select>";
      MaybeAddOldValue(name, Scalar(tocheck));
      r := Ok(html);
    }

    /**
     * Fails exactly when the id or the name is missing, changing nothing;
     * otherwise takes the next tab index, records the value and registers
     * the picker's alternate field and script options, each when given.
     */
    method InputDatepicker(a: DatepickerArgs) returns (r: Outcome)
      requires Valid()
      modifies this`tabindexCounter, this`fieldsOldValues, this`datepickerData
      ensures Valid()
      ensures r.Error? <==> a.id == "" || a.name == ""
      ensures r.Error? ==> r.msg == env.translate(MsgDatepickerIdName) && unchanged(this)
      ensures r.Ok? ==>
        && tabindexCounter == old(tabindexCounter) + tabindexIncrement
        && r.html == DatepickerInputHtml(env.escAttr, a, tabindexCounter)
        && fieldsOldValues == RecordOldValue(old(fieldsOldValues), keepOldValues, a.name, Scalar(a.value))
        && datepickerData == Register(old(datepickerData), a.id, a.altField, a.scriptParam)
    {
      var errors: seq<string> := [];
      if a.id == "" || a.name == "" {
        errors := errors + [env.translate(MsgDatepickerIdName)];
      }
      if errors != [] {
        return Error(Implode(ErrorSeparator, errors));
      }
      tabindexCounter := tabindexCounter + tabindexIncrement;
      var html := DatepickerInputTag(env.escAttr, a, tabindexCounter);
      if a.labelText != "" {
        html := LabelHtml(env.escAttr, a.name, a.labelText, a.mandatory) + html;
      }
      MaybeAddOldValue(a.name, Scalar(a.value));
      RegisterDatepicker(a.id, a.altField, a.scriptParam);
      r := Ok(html);
    }

    /** Stores the alternate field and the script options given for picker `id`, each only when given. */
    method RegisterDatepicker(id: string, altField: Option<AltField>, scriptParam: Option<Options>)
      requires Valid()
      modifies this`datepickerData
      ensures Valid()
      ensures datepickerData == Register(old(datepickerData), id, altField, scriptParam)
    {
      RegisterKeys(datepickerData, id, altField, scriptParam);
      RegisterUniqueKeys(datepickerData, id, altField, scriptParam);
      var datum := match Get(datepickerData, id) case Some(d) => d case None => Datum(None, None);
      if altField.Some? {
        datum := datum.(altField := altField);
        datepickerData := Put(datepickerData, id, datum);
      }
      if scriptParam.Some? {
        datum := datum.(scriptParam := scriptParam);
        datepickerData := Put(datepickerData, id, datum);
      }
    }

    /** Fails exactly when the id or the name is missing, changing nothing; otherwise takes the next tab index. */
    method SubmitButton(a: SubmitArgs) returns (r: Outcome)
      modifies this`tabindexCounter
      ensures r.Error? <==> a.id == "" || a.name == ""
      ensures r.Error? ==> r.msg == env.translate(MsgSubmitIdName) && unchanged(this)
      ensures r.Ok? ==>
        && tabindexCounter == old(tabindexCounter) + tabindexIncrement
        && r.html == SubmitHtml(env.escAttr, a, tabindexCounter)
    {
      var errors: seq<string> := [];
      if a.id == "" || a.name == "" {
        errors := errors + [env.translate(MsgSubmitIdName)];
      }
      if errors != [] {
        return Error(Implode(ErrorSeparator, errors));
      }
      tabindexCounter := tabindexCounter + tabindexIncrement;
      r := Ok(SubmitHtml(env.escAttr, a, tabindexCounter));
    }

    /**
     * Fails exactly when no field is given; otherwise one hidden input per
     * field, numbered from 0, without touching the tab index.
     */
    method HiddenFields(fields: seq<(string, string)>) returns (r: Outcome)
      ensures r.Error? <==> fields == []
      ensures r.Error? ==> r.msg == env.translate(MsgHiddenNone)
      ensures r.Ok? ==> r.html == HiddenFieldsHtml(env.escAttr, fields, |fields|)
    {
      var errors: seq<string> := [];
      if |fields| == 0 {
        errors := errors + [env.translate(MsgHiddenNone)];
      }
      if errors != [] {
        return Error(Implode(ErrorSeparator, errors));
      }
      var html := HiddenInputs(fields);
      r := Ok(html);
    }

    /** The loop of `hidden_fields`: one hidden input per pair, numbered from 0. */
    method HiddenInputs(fields: seq<(string, string)>) returns (html: string)
      ensures html == HiddenFieldsHtml(env.escAttr, fields, |fields|)
    {
      var hiddenIdCounter := 0;
      html := "";
      while hiddenIdCounter < |fields|
        invariant 0 <= hiddenIdCounter <= |fields|
        invariant html == HiddenFieldsHtml(env.escAttr, fields, hiddenIdCounter)
      {
        var (name, value) := fields[hiddenIdCounter];
        assert HiddenFieldsHtml(env.escAttr, fields, hiddenIdCounter + 1)
          == HiddenFieldsHtml(env.escAttr, fields, hiddenIdCounter) + HiddenFieldHtml(env.escAttr, hiddenIdCounter, name, value);
        html := html + HiddenFieldHtml(env.escAttr, hiddenIdCounter, name, value);
        hiddenIdCounter := hiddenIdCounter + 1;
      }
    }

    /** Advances the counter by one step and gives the new value, for an element made by hand. */
    method GetNewTabindexValue() returns (v: int)
      modifies this`tabindexCounter
      ensures tabindexCounter == old(tabindexCounter) + tabindexIncrement
      ensures v == tabindexCounter
    {
      tabindexCounter := tabindexCounter + tabindexIncrement;
      v := tabindexCounter;
    }

    /** Sets the counter to the absolute value of the argument. */
    method SetNewTabindexValue(newTabindex: int := 0)
      modifies this`tabindexCounter
      ensures tabindexCounter == AbsInt(newTabindex) && tabindexCounter >= 0
    {
      tabindexCounter := AbsInt(newTabindex);
    }

    /**
     * `FALSE` for an empty string; otherwise what decoding gives, `null` for
     * text that is not an encoded table.
     */
    function GetOldDataArray(data: string := ""): (r: OldData)
      ensures r.NothingPassed? <==> data == ""
      ensures data != "" ==> (r.Undecodable? <==> env.decodeOldValues(data).None?)
      ensures r.Table? ==> env.decodeOldValues(data) == Some(r.entries)
    {
      if data == "" then NothingPassed
      else match env.decodeOldValues(data)
        case None => Undecodable
        case Some(entries) => Table(entries)
    }

    /** The hidden field carrying the encoded old-value table; nothing when old values are not kept. */
    method AddOldDataToForm() returns (html: string)
      ensures keepOldValues ==> html == HiddenNamedHtml(OldValuesField, env.encodeOldValues(fieldsOldValues))
      ensures !keepOldValues ==> html == ""
    {
      if !keepOldValues {
        return "";
      }
      var serializedValues := env.encodeOldValues(fieldsOldValues);
      html := HiddenNamedHtml(OldValuesField, serializedValues);
    }

    /** One hidden input for every registered picker with an alternate field, in registration order. */
    method DatepickersAlternateFields() returns (html: string)
      ensures html == AltFieldsHtml(datepickerData, |datepickerData|)
    {
      html := "";
      var i := 0;
      while i < |datepickerData|
        invariant 0 <= i <= |datepickerData|
        invariant html == AltFieldsHtml(datepickerData, i)
      {
        var (_, datum) := datepickerData[i];
        if datum.altField.Some? {
          var alt := datum.altField.value;
          html := html + HiddenInputHtml(alt.id, alt.name, alt.value);
        }
        i := i + 1;
      }
    }

    /** `$datepicker_param`: the finished options of every registered picker with script options. */
    method CollectScriptParams() returns (params: seq<(string, Options)>)
      ensures params == ScriptParams(datepickerData, |datepickerData|)
    {
      params := [];
      var i := 0;
      while i < |datepickerData|
        invariant 0 <= i <= |datepickerData|
        invariant params == ScriptParams(datepickerData, i)
      {
        var (id, datum) := datepickerData[i];
        if datum.scriptParam.Some? {
          var given := datum.scriptParam.value;
          var values: Options := [];
          var j := 0;
          while j < |given|
            invariant 0 <= j <= |given|
            invariant values == PutAll([], given[..j])
          {
            assert given[..j + 1][..j] == given[..j];
            values := Put(values, given[j].0, given[j].1);
            j := j + 1;
          }
          assert given[..|given|] == given;
          values := Put(values, "dateFormat", GetOr(values, "dateFormat", DefaultDateFormat));
          if datum.altField.Some? {
            values := Put(values, "altField", "#" + datum.altField.value.id);
            values := Put(values, "altFormat", GetOr(values, "altFormat", DefaultAltFormat));
          }
          params := Put(params, id, values);
        }
        i := i + 1;
      }
    }

    /**
     * The script that initialises every registered picker with script
     * options, each once and in registration order, leaving out `setDate`.
     */
    method CreateDatepickersScripts() returns (html: string)
      requires Valid()
      ensures html == ScriptsHtml(datepickerData)
      ensures html == ScriptOpen + PickerScripts(PickersWithScript(datepickerData), |PickersWithScript(datepickerData)|) + ScriptClose
    {
      ScriptsHtmlInOrder(datepickerData);
      html := ScriptOpen;
      var params := CollectScriptParams();
      var script := "";
      var i := 0;
      while i < |params|
        invariant 0 <= i <= |params|
        invariant script == PickerScripts(params, i)
      {
        var (id, values) := params[i];
        assert PickerScripts(params, i + 1) == PickerScripts(params, i) + PickerScript(id, values);
        var fragment := "$(\"#" + id + "\").datepicker({";
        var texts := PickerOptionTexts(values);
        fragment := fragment + Implode(",", texts) + "});";
        script := script + fragment;
        i := i + 1;
      }
      html := html + script + ScriptClose;
    }

    /** The `"name": "value"` texts of one picker's options, in order, with `setDate` set aside. */
    method PickerOptionTexts(values: Options) returns (texts: seq<string>)
      ensures texts == OptionTexts(EmittedOptions(values))
    {
      texts := [];
      ghost var emitted: Options := [];
      var j := 0;
      while j < |values|
        invariant 0 <= j <= |values|
        invariant emitted == EmittedOptions(values[..j])
        invariant texts == OptionTexts(emitted)
      {
        assert values[..j + 1][..j] == values[..j];
        var (param, value) := values[j];
        // A `setDate` value is set aside for a script that is never written.
        if param != SetDate {
          texts := texts + [OptionText((param, value))];
          emitted := emitted + [(param, value)];
        }
        j := j + 1;
      }
      assert values[..|values|] == values;
    }

    /**
     * The alternate fields, then the old-value field when both the form and
     * the builder keep old values, then the closing tag, then the picker
     * script, which initialises each picker with script options once, in
     * registration order; the builder's state is left as it was.
     */
    method CloseForm() returns (html: string)
      requires Valid()
      ensures html == AltFieldsHtml(datepickerData, |datepickerData|)
        + (if formOldValues && keepOldValues then HiddenNamedHtml(OldValuesField, env.encodeOldValues(fieldsOldValues)) else "")
        + CloseFormHtml(formName) + ScriptsHtml(datepickerData)
      ensures ScriptsHtml(datepickerData)
        == ScriptOpen + PickerScripts(PickersWithScript(datepickerData), |PickersWithScript(datepickerData)|) + ScriptClose
    {
      var alternateFields := DatepickersAlternateFields();
      var hiddenValues := "";
      if formOldValues && keepOldValues {
        hiddenValues := AddOldDataToForm();
      }
      var scripts := CreateDatepickersScripts();
      html := alternateFields + hiddenValues;
      html := html + CloseFormHtml(formName);
      html := html + scripts;
    }

    /**
     * `close_form` on its default echo path: each helper prints its part as
     * it runs and gives back `FALSE`, which joins as empty text, so what is
     * printed is the alternate fields, the old-value field, the script, and
     * only then the closing tag.
     */
    method CloseFormEchoed() returns (printed: string)
      requires Valid()
      ensures printed == EchoedClosing(AltFieldsHtml(datepickerData, |datepickerData|),
        if formOldValues && keepOldValues then HiddenNamedHtml(OldValuesField, env.encodeOldValues(fieldsOldValues)) else "",
        formName, datepickerData)
    {
      var alternateFields := DatepickersAlternateFields();
      printed := alternateFields;
      if formOldValues && keepOldValues {
        var hiddenValues := AddOldDataToForm();
        printed := printed + hiddenValues;
      }
      var scripts := CreateDatepickersScripts();
      printed := printed + scripts;
      var html := CloseFormHtml(formName);
      printed := printed + html;
    }
  }
}
