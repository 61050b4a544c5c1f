/**
 * The date-picker registry (`datepicker_data`) that `input_datepicker`
 * fills and `close_form` flushes: the hidden alternate fields and the
 * jQuery UI initialisation script, with the option defaults filled in.
 */
module Datepickers {
  import opened Php
  import opened PhpArray
  import opened Fields

  /** A picker's script options, in the order given: option name to value. */
  type Options = seq<(string, string)>

  /** What the registry holds for one picker id. */
  datatype Datum = Datum(altField: Option<AltField>, scriptParam: Option<Options>)

  /** `datepicker_data`: picker id to its datum, in registration order. */
  type Registry = seq<(string, Datum)>

  const DefaultDateFormat := "dd/mm/yy"
  const DefaultAltFormat := "yy-mm-dd"
  const SetDate := "setDate"

  /**
   * `$this->datepicker_data[$id]['alt_field'] = ...` then
   * `$this->datepicker_data[$id]['script_param'] = ...`, each only when the
   * argument is set.
   */
  function Register(reg: Registry, id: string, alt: Option<AltField>, params: Option<Options>): Registry {
    var d0 := match Get(reg, id) case Some(d) => d case None => Datum(None, None);
    var d1 := if alt.Some? then d0.(altField := alt) else d0;
    var reg1 := if alt.Some? then Put(reg, id, d1) else reg;
    if params.Some? then Put(reg1, id, d1.(scriptParam := params)) else reg1
  }

  /** The datum an id holds afterwards: each part that was given replaces the old one. */
  lemma RegisterGet(reg: Registry, id: string, alt: Option<AltField>, params: Option<Options>)
    ensures Get(Register(reg, id, alt, params), id) ==
      if alt.None? && params.None? then Get(reg, id)
      else
        var old_ := match Get(reg, id) case Some(d) => d case None => Datum(None, None);
        Some(Datum(if alt.Some? then alt else old_.altField, if params.Some? then params else old_.scriptParam))
  {
    var d0 := match Get(reg, id) case Some(d) => d case None => Datum(None, None);
    var d1 := if alt.Some? then d0.(altField := alt) else d0;
    var reg1 := if alt.Some? then Put(reg, id, d1) else reg;
    if alt.Some? { PutGet(reg, id, d1); }
    if params.Some? { PutGet(reg1, id, d1.(scriptParam := params)); }
  }

  /** Registering one id leaves every other id's datum as it was. */
  lemma RegisterGetOther(reg: Registry, id: string, alt: Option<AltField>, params: Option<Options>, other: string)
    requires other != id
    ensures Get(Register(reg, id, alt, params), other) == Get(reg, other)
  {
    var d0 := match Get(reg, id) case Some(d) => d case None => Datum(None, None);
    var d1 := if alt.Some? then d0.(altField := alt) else d0;
    var reg1 := if alt.Some? then Put(reg, id, d1) else reg;
    if alt.Some? { PutGetOther(reg, id, d1, other); }
    if params.Some? { PutGetOther(reg1, id, d1.(scriptParam := params), other); }
  }

  /** Re-registering an id keeps its place; a new id goes last. */
  lemma RegisterKeys(reg: Registry, id: string, alt: Option<AltField>, params: Option<Options>)
    ensures Keys(Register(reg, id, alt, params)) ==
      if id in Keys(reg) || (alt.None? && params.None?) then Keys(reg) else Keys(reg) + [id]
  {
    var d0 := match Get(reg, id) case Some(d) => d case None => Datum(None, None);
    var d1 := if alt.Some? then d0.(altField := alt) else d0;
    var reg1 := if alt.Some? then Put(reg, id, d1) else reg;
    if alt.Some? {
      PutKeys(reg, id, d1);
    }
    if params.Some? {
      PutKeys(reg1, id, d1.(scriptParam := params));
    }
  }

  /** Registering keeps the ids distinct. */
  lemma RegisterUniqueKeys(reg: Registry, id: string, alt: Option<AltField>, params: Option<Options>)
    requires UniqueKeys(reg)
    ensures UniqueKeys(Register(reg, id, alt, params))
  {
    var d0 := match Get(reg, id) case Some(d) => d case None => Datum(None, None);
    var d1 := if alt.Some? then d0.(altField := alt) else d0;
    var reg1 := if alt.Some? then Put(reg, id, d1) else reg;
    if alt.Some? {
      PutUniqueKeys(reg, id, d1);
    }
    if params.Some? {
      PutUniqueKeys(reg1, id, d1.(scriptParam := params));
    }
  }

  // The hidden alternate fields.

  function AltFieldHtml(d: Datum): string {
    match d.altField
    case Some(a) => HiddenInputHtml(a.id, a.name, a.value)
    case None => ""
  }

  /** One hidden input for each of the first `n` entries that has an alternate field, in order. */
  function AltFieldsHtml(reg: Registry, n: nat): string
    requires n <= |reg|
  {
    if n == 0 then "" else AltFieldsHtml(reg, n - 1) + AltFieldHtml(reg[n - 1].1)
  }

  /** A hidden input is never empty text. */
  lemma HiddenInputNonEmpty(id: string, name: string, value: string)
    ensures HiddenInputHtml(id, name, value) != ""
  {
    var pieces := ["<input type=\"hidden\" ", Attribute("id", id), " ", Attribute("name", name), " ", Attribute("value", value), " />"];
    assert HiddenInputHtml(id, name, value) == Concat(pieces[..|pieces| - 1]) + " />";
  }

  /** No hidden alternate field is written exactly when no picker among the first `n` has an alternate field. */
  lemma {:induction false} AltFieldsHtmlEmpty(reg: Registry, n: nat)
    requires n <= |reg|
    ensures AltFieldsHtml(reg, n) == "" <==> forall i :: 0 <= i < n ==> reg[i].1.altField.None?
  {
    if n > 0 {
      AltFieldsHtmlEmpty(reg, n - 1);
      match reg[n - 1].1.altField
      case None =>
      case Some(a) =>
        HiddenInputNonEmpty(a.id, a.name, a.value);
        assert |AltFieldsHtml(reg, n)| >= |AltFieldHtml(reg[n - 1].1)| > 0;
    }
  }

  // The script options.

  /** The value of the last pair with key `k`: what PHP keeps when a key repeats. */
  function LastValue(opts: Options, k: string): Option<string>
    decreases |opts|
  {
    if opts == [] then None
    else if opts[|opts| - 1].0 == k then Some(opts[|opts| - 1].1)
    else LastValue(opts[..|opts| - 1], k)
  }

  /** `foreach ( $opts as $option => $value ) $m[ $option ] = $value;` */
  function PutAll(m: Options, opts: Options): Options
    decreases |opts|
  {
    if opts == [] then m
    else Put(PutAll(m, opts[..|opts| - 1]), opts[|opts| - 1].0, opts[|opts| - 1].1)
  }

  lemma {:induction false} PutAllGet(m: Options, opts: Options, k: string)
    ensures Get(PutAll(m, opts), k) == match LastValue(opts, k) case Some(v) => Some(v) case None => Get(m, k)
    decreases |opts|
  {
    if opts != [] {
      var init := opts[..|opts| - 1];
      PutAllGet(m, init, k);
      if opts[|opts| - 1].0 == k {
        PutGet(PutAll(m, init), k, opts[|opts| - 1].1);
      } else {
        PutGetOther(PutAll(m, init), opts[|opts| - 1].0, opts[|opts| - 1].1, k);
      }
    }
  }

  /**
   * `$datepicker_param[ $id ]`: the caller's options, then `dateFormat`
   * unless given, then, with an alternate field, `altField` pointing at it
   * and `altFormat` unless given. None when the picker has no script options.
   */
  function PickerOptions(d: Datum): Option<Options> {
    match d.scriptParam
    case None => None
    case Some(sp) =>
      var p0 := PutAll([], sp);
      var p1 := Put(p0, "dateFormat", GetOr(p0, "dateFormat", DefaultDateFormat));
      Some(
        match d.altField
        case None => p1
        case Some(a) =>
          var p2 := Put(p1, "altField", "#" + a.id);
          Put(p2, "altFormat", GetOr(p2, "altFormat", DefaultAltFormat)))
  }

  /** The caller's value for option `k`, or `default`. */
  function GivenOr(sp: Options, k: string, default: string): string {
    match LastValue(sp, k) case Some(v) => v case None => default
  }

  /**
   * Every picker with script options gets a `dateFormat`: the caller's, or
   * dd/mm/yy. With an alternate field it also gets `altField` = "#" + the
   * alternate field's id and an `altFormat`: the caller's, or yy-mm-dd.
   * Without one, `altField` and `altFormat` are whatever the caller gave.
   * Every other option is the caller's last value for it.
   */
  lemma PickerOptionsDefaults(d: Datum, k: string)
    requires d.scriptParam.Some?
    ensures PickerOptions(d).Some?
    ensures Get(PickerOptions(d).value, "dateFormat") == Some(GivenOr(d.scriptParam.value, "dateFormat", DefaultDateFormat))
    ensures d.altField.Some? ==>
      Get(PickerOptions(d).value, "altField") == Some("#" + d.altField.value.id)
      && Get(PickerOptions(d).value, "altFormat") == Some(GivenOr(d.scriptParam.value, "altFormat", DefaultAltFormat))
    ensures d.altField.None? && k != "dateFormat" ==> Get(PickerOptions(d).value, k) == LastValue(d.scriptParam.value, k)
    ensures k != "dateFormat" && k != "altField" && k != "altFormat" ==>
      Get(PickerOptions(d).value, k) == LastValue(d.scriptParam.value, k)
  {
    var sp := d.scriptParam.value;
    var p0 := PutAll([], sp);
    PutAllGet([], sp, "dateFormat");
    PutAllGet([], sp, "altFormat");
    PutAllGet([], sp, k);
    var p1 := Put(p0, "dateFormat", GetOr(p0, "dateFormat", DefaultDateFormat));
    PutGet(p0, "dateFormat", GetOr(p0, "dateFormat", DefaultDateFormat));
    if k != "dateFormat" {
      PutGetOther(p0, "dateFormat", GetOr(p0, "dateFormat", DefaultDateFormat), k);
    }
    PutGetOther(p0, "dateFormat", GetOr(p0, "dateFormat", DefaultDateFormat), "altFormat");
    if d.altField.Some? {
      var a := d.altField.value;
      var p2 := Put(p1, "altField", "#" + a.id);
      PutGet(p1, "altField", "#" + a.id);
      PutGetOther(p1, "altField", "#" + a.id, "dateFormat");
      PutGetOther(p1, "altField", "#" + a.id, "altFormat");
      var v := GetOr(p2, "altFormat", DefaultAltFormat);
      PutGet(p2, "altFormat", v);
      PutGetOther(p2, "altFormat", v, "dateFormat");
      PutGetOther(p2, "altFormat", v, "altField");
      if k != "dateFormat" && k != "altField" && k != "altFormat" {
        PutGetOther(p1, "altField", "#" + a.id, k);
        PutGetOther(p2, "altFormat", v, k);
      }
    }
  }

  /**
   * `$datepicker_param` over the first `n` registry entries: each entry with
   * script options stores its options under its id.
   */
  function ScriptParams(reg: Registry, n: nat): seq<(string, Options)>
    requires n <= |reg|
  {
    if n == 0 then []
    else
      var acc := ScriptParams(reg, n - 1);
      match PickerOptions(reg[n - 1].1)
      case None => acc
      case Some(o) => Put(acc, reg[n - 1].0, o)
  }

  /** The entries with script options, in registration order, with their finished options. */
  function PickersWithScript(reg: Registry): seq<(string, Options)>
    decreases |reg|
  {
    if reg == [] then []
    else
      var init := PickersWithScript(reg[..|reg| - 1]);
      match PickerOptions(reg[|reg| - 1].1)
      case None => init
      case Some(o) => init + [(reg[|reg| - 1].0, o)]
  }

  /** Only registered ids get script options. */
  lemma {:induction false} ScriptParamsKeys(reg: Registry, n: nat)
    requires n <= |reg|
    ensures forall k :: k in Keys(ScriptParams(reg, n)) ==> k in Keys(reg[..n])
  {
    if n > 0 {
      ScriptParamsKeys(reg, n - 1);
      assert Keys(reg[..n]) == Keys(reg[..n - 1]) + [reg[n - 1].0];
      match PickerOptions(reg[n - 1].1)
      case None =>
      case Some(o) => PutKeys(ScriptParams(reg, n - 1), reg[n - 1].0, o);
    }
  }

  /**
   * With distinct picker ids (as the registry always has), the script
   * initialises every picker that has script options exactly once, in
   * registration order.
   */
  lemma {:induction false} ScriptParamsInOrder(reg: Registry, n: nat)
    requires n <= |reg|
    requires UniqueKeys(reg)
    ensures ScriptParams(reg, n) == PickersWithScript(reg[..n])
  {
    if n > 0 {
      ScriptParamsInOrder(reg, n - 1);
      assert reg[..n][..n - 1] == reg[..n - 1];
      match PickerOptions(reg[n - 1].1)
      case None =>
      case Some(o) =>
        ScriptParamsKeys(reg, n - 1);
        var before := reg[..n - 1];
        forall j | 0 <= j < |before| ensures Keys(before)[j] != reg[n - 1].0 {
          assert reg[j].0 != reg[n - 1].0;
        }
        PutAbsent(ScriptParams(reg, n - 1), reg[n - 1].0, o);
    }
  }

  // The script text.

  /** The options the script writes: every option but `setDate`, in order. */
  function EmittedOptions(o: Options): Options
    decreases |o|
  {
    if o == [] then []
    else EmittedOptions(o[..|o| - 1]) + (if o[|o| - 1].0 == SetDate then [] else [o[|o| - 1]])
  }

  /** `setDate` is never written, and every other option is written with its value. */
  lemma {:induction false} EmittedOptionsDropSetDate(o: Options, k: string)
    ensures forall i :: 0 <= i < |EmittedOptions(o)| ==> EmittedOptions(o)[i].0 != SetDate
    ensures k != SetDate ==> Get(EmittedOptions(o), k) == Get(o, k)
    decreases |o|
  {
    if o != [] {
      var init := o[..|o| - 1];
      var last := o[|o| - 1];
      EmittedOptionsDropSetDate(init, k);
      assert o == init + [last];
      GetAppend(init, last, k);
      if last.0 == SetDate {
        assert EmittedOptions(o) == EmittedOptions(init) + [] == EmittedOptions(init);
        if k != SetDate {
          assert Get(o, k) == Get(init, k) by {
            if Get(init, k).None? {
              assert last.0 != k;
            }
          }
        }
      } else {
        assert EmittedOptions(o) == EmittedOptions(init) + [last];
        GetAppend(EmittedOptions(init), last, k);
      }
    }
  }

  /** Looking up a key after appending a pair. */
  lemma {:induction false} GetAppend(a: Options, p: (string, string), k: string)
    ensures Get(a + [p], k) == match Get(a, k) case Some(v) => Some(v) case None => (if p.0 == k then Some(p.1) else None)
  {
    if a != [] {
      GetAppend(a[1..], p, k);
      assert (a + [p])[1..] == a[1..] + [p];
    }
  }

  /** `"name": "value"` */
  function OptionText(p: (string, string)): string {
    Quote + p.0 + Quote + ": " + Quote + p.1 + Quote
  }

  function OptionTexts(o: Options): (r: seq<string>)
    ensures |r| == |o|
  {
    seq(|o|, i requires 0 <= i < |o| => OptionText(o[i]))
  }

  /** `$("#id").datepicker({...});` for one picker. */
  function PickerScript(id: string, o: Options): string {
    "$(\"#" + id + "\").datepicker({" + Implode(",", OptionTexts(EmittedOptions(o))) + "});"
  }

  /** The calls for the first `n` pickers. */
  function PickerScripts(params: seq<(string, Options)>, n: nat): string
    requires n <= |params|
  {
    if n == 0 then "" else PickerScripts(params, n - 1) + PickerScript(params[n - 1].0, params[n - 1].1)
  }

  const ScriptOpen := "<script>jQuery(document).ready( function ($) {;"
  const ScriptClose := "});</script>"

  function ScriptsHtml(reg: Registry): string {
    var params := ScriptParams(reg, |reg|);
    ScriptOpen + PickerScripts(params, |params|) + ScriptClose
  }

  /**
   * With distinct picker ids, the script holds one initialisation per
   * picker with script options, in registration order.
   */
  lemma ScriptsHtmlInOrder(reg: Registry)
    requires UniqueKeys(reg)
    ensures ScriptsHtml(reg) == ScriptOpen + PickerScripts(PickersWithScript(reg), |PickersWithScript(reg)|) + ScriptClose
  {
    ScriptParamsInOrder(reg, |reg|);
    assert reg[..|reg|] == reg;
  }
}
