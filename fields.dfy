/**
 * The per-call configuration records of the form generator (each field's
 * default is the default its PHP `$defaults` array gives), the values it
 * keeps across calls, its error messages and the HTML templates it fills.
 *
 * Escaping (`esc_attr`) is a parameter `esc` of the templates: the model
 * fixes where it is applied, not what it does.
 */
module Fields {
  import opened Php
  import opened Selection

  /** A value kept in the old-value table: a scalar, or a list for a checkbox group. */
  datatype OldValue = Scalar(text: string) | List(items: seq<string>)

  /**
   * The WordPress and PHP library calls the generator makes and this model
   * does not define: `esc_attr`, `__( $text, 'wpit-formgen' )`,
   * `base64_encode( json_encode( $table ) )` and
   * `json_decode( base64_decode( $data ), 1 )`. The decoder gives None
   * where `json_decode` gives `null` (text that is not an encoded table).
   */
  datatype Collaborators = Collaborators(
    escAttr: string -> string,
    translate: string -> string,
    encodeOldValues: seq<(string, OldValue)> -> string,
    decodeOldValues: string -> Option<seq<(string, OldValue)>>)

  /** What every element call gives back: the joined error text, or the fragment. */
  datatype Outcome = Error(msg: string) | Ok(html: string)

  /** The `wrapper` argument when it is a non-empty array. */
  datatype Wrapper = Wrapper(before: string, after: string)

  /** The `alt_field` argument of a date picker. */
  datatype AltField = AltField(id: string, name: string, value: string, format: string)

  datatype OpenFormArgs = OpenFormArgs(
    id: string := "",
    name: string := "",
    formMethod: string := "POST",
    action: string := "",
    cssClass: string := "",
    enctype: string := "multipart/form-data",
    tabindexIncrement: int := 0,
    oldValue: Option<bool> := None)  // None: the builder's keep_old_values

  datatype TextArgs = TextArgs(
    id: string := "",
    name: string := "",
    labelText: string := "",
    mandatory: string := "",
    placeholder: string := "",
    cssClass: string := "",
    value: string := "")

  datatype TextareaArgs = TextareaArgs(
    id: string := "",
    name: string := "",
    rows: int := 5,
    cols: int := 50,
    labelText: string := "",
    mandatory: string := "",
    cssClass: string := "",
    value: string := "")

  /** `checkboxes` maps each checkbox's value to its label. */
  datatype CheckboxArgs = CheckboxArgs(
    id: string := "",
    name: string := "",
    cssClass: string := "",
    tocheck: ToCheck := Many([]),
    checkboxes: seq<(string, string)> := [],
    separator: string := "",
    wrapper: Option<Wrapper> := None,
    legend: string := "")

  /** `radiobuttons` maps each button's label to its value. */
  datatype RadioArgs = RadioArgs(
    name: string := "",
    cssClass: string := "",
    tocheck: string := "",
    radiobuttons: seq<(string, string)> := [],
    separator: string := "<br>",
    wrapper: Option<Wrapper> := None)

  /** `values` maps each option's value to its label. */
  datatype DropdownArgs = DropdownArgs(
    id: string := "",
    name: string := "",
    cssClass: string := "",
    labelText: string := "",
    mandatory: string := "",
    tocheck: string := "",
    values: seq<(string, string)> := [],
    noCheckLabel: string := "")

  /** The province dropdown takes no option list: it always uses its own table. */
  datatype ProvinceArgs = ProvinceArgs(
    id: string := "",
    name: string := "",
    cssClass: string := "",
    labelText: string := "",
    mandatory: string := "",
    tocheck: string := "",
    noCheckLabel: string := "Seleziona la provincia")

  /** `altField` and `scriptParam` are None when the caller passes null for them. */
  datatype DatepickerArgs = DatepickerArgs(
    id: string := "",
    name: string := "",
    labelText: string := "",
    mandatory: string := "",
    placeholder: string := "",
    cssClass: string := "",
    value: string := "",
    altField: Option<AltField> := Some(AltField("", "", "", "")),
    scriptParam: Option<seq<(string, string)>> := Some([]))

  datatype SubmitArgs = SubmitArgs(
    id: string := "",
    name: string := "",
    cssClass: string := "",
    value: string := "")

  // Error messages, before translation.
  const MsgOpenFormIdName := "Missing the id or the name for the open form tag"
  const MsgOpenFormMethod := "Wrong method tye should be POST or GET"
  const MsgTextIdName := "Missing the id or the name for the input text tag"
  const MsgTextareaIdName := "Missing the id or the name for the input textarea tag"
  const MsgCheckboxIdName := "Missing the id or the name for the checkboxes"
  const MsgCheckboxNone := "No checkboxes defined"
  const MsgRadioName := "Missing the name for the radio buttons"
  const MsgRadioNone := "No radio buttons defined"
  const MsgDropdownIdName := "Missing the id or the name for the dropdown element"
  const MsgDropdownNone := "No values for the dropdown defined"
  const MsgDatepickerIdName := "Missing the id or the name for the datepicker element"
  const MsgSubmitIdName := "Missing the id or the name submit button"
  const MsgHiddenNone := "No hidden fields defined"

  /** The separator `implode` puts between error messages. */
  const ErrorSeparator := "<br>"

  const Quote := "\""

  /** `name="value"` */
  function Attribute(name: string, value: string): string {
    name + "=" + Quote + value + Quote
  }

  // Templates shared by several elements.

  function MandatorySpan(esc: string -> string, mandatory: string): string {
    if Truthy(mandatory) then "<span class=\"wol-mandatory\">" + esc(mandatory) + "</span>" else ""
  }

  function LabelHtml(esc: string -> string, name: string, labelText: string, mandatory: string): string {
    Concat(["<label ", Attribute("for", esc(name)), ">", esc(labelText), " ", MandatorySpan(esc, mandatory), "</label>"])
  }

  /** The label put before an element when the label text is not empty. */
  function WithLabel(esc: string -> string, name: string, labelText: string, mandatory: string, element: string): string {
    if labelText != "" then LabelHtml(esc, name, labelText, mandatory) + element else element
  }

  function RequiredAttr(mandatory: string): string {
    if Truthy(mandatory) then "required" else ""
  }

  function Wrap(wrapper: Option<Wrapper>, field: string): string {
    match wrapper
    case Some(w) => w.before + " " + field + " " + w.after
    case None => field
  }

  function CheckedAttr(checked: bool): string {
    if checked then Attribute("checked", "checked") else ""
  }

  /** The tab index after `n` elements from `start`, each adding `step`. */
  function TabindexAfter(start: int, step: int, n: nat): int {
    if n == 0 then start else TabindexAfter(start, step, n - 1) + step
  }

  /** `n` elements advance the tab index by `n` steps. */
  lemma {:induction false} TabindexAfterLinear(start: int, step: int, n: nat)
    ensures TabindexAfter(start, step, n) == start + n * step
  {
    if n > 0 {
      TabindexAfterLinear(start, step, n - 1);
      assert (n - 1) * step + step == n * step;
    }
  }

  // One template per element.

  function OpenFormHtml(id: string, name: string, formMethod: string, action: string, cssClass: string, enctype: string): string {
    Concat([
      "<!-- Opening ", id, " form --><form ", Attribute("id", id), " ", Attribute("name", name), " ",
      Attribute("method", formMethod), " ", Attribute("action", action), " ", Attribute("class", cssClass), " ",
      Attribute("enctype", enctype), ">"])
  }

  function CloseFormHtml(formName: string): string {
    "</form><!-- Closing " + formName + " form -->"
  }

  function TextInputTag(esc: string -> string, a: TextArgs, tabindex: int): string {
    Concat([
      "<input type=\"text\" ", Attribute("id", a.id), " ", Attribute("name", esc(a.name)), " ",
      Attribute("tabindex", IntToString(tabindex)), " ", Attribute("class", a.cssClass), " ",
      Attribute("placeholder", a.placeholder), " ", Attribute("value", esc(a.value)), " ",
      esc(RequiredAttr(a.mandatory)), "/>"])
  }

  function TextInputHtml(esc: string -> string, a: TextArgs, tabindex: int): string {
    WithLabel(esc, a.name, a.labelText, a.mandatory, TextInputTag(esc, a, tabindex))
  }

  function TextareaTag(esc: string -> string, a: TextareaArgs, tabindex: int): string {
    Concat([
      "<textarea ", Attribute("id", a.id), " ", Attribute("name", esc(a.name)), " ",
      Attribute("rows", IntToString(AbsInt(a.rows))), " ", Attribute("cols", IntToString(AbsInt(a.cols))), " ",
      Attribute("tabindex", IntToString(tabindex)), " ", Attribute("class", a.cssClass), " ",
      esc(RequiredAttr(a.mandatory)), ">", esc(a.value), "</textarea>"])
  }

  function TextareaHtml(esc: string -> string, a: TextareaArgs, tabindex: int): string {
    WithLabel(esc, a.name, a.labelText, a.mandatory, TextareaTag(esc, a, tabindex))
  }

  /** The id of checkbox number `k` of a group, which its label's `for` repeats. */
  function CheckboxId(esc: string -> string, name: string, k: nat): string {
    "check_" + esc(name) + "_" + IntToString(k)
  }

  /** The id of hidden field number `k` of a `hidden_fields` call. */
  function HiddenFieldId(k: nat): string {
    "hiddend_id_" + IntToString(k)
  }

  /** Two numbered ids with the same prefix are equal only for the same number. */
  lemma NumberedIdsDistinct(prefix: string, j: nat, k: nat)
    ensures prefix + IntToString(j) == prefix + IntToString(k) ==> j == k
  {
    if prefix + IntToString(j) == prefix + IntToString(k) {
      assert (prefix + IntToString(j))[|prefix|..] == IntToString(j);
      assert (prefix + IntToString(k))[|prefix|..] == IntToString(k);
      NatToStringInjective(j, k);
    }
  }

  /** Within a group, different checkboxes get different ids. */
  lemma CheckboxIdsDistinct(esc: string -> string, name: string, j: nat, k: nat)
    ensures CheckboxId(esc, name, j) == CheckboxId(esc, name, k) <==> j == k
  {
    NumberedIdsDistinct("check_" + esc(name) + "_", j, k);
  }

  /** Within one `hidden_fields` call, different fields get different ids. */
  lemma HiddenFieldIdsDistinct(j: nat, k: nat)
    ensures HiddenFieldId(j) == HiddenFieldId(k) <==> j == k
  {
    NumberedIdsDistinct("hiddend_id_", j, k);
  }

  /** One checkbox with its label, before wrapping; `k` numbers its id. */
  function CheckboxFieldHtml(esc: string -> string, a: CheckboxArgs, k: nat, value: string, caption: string,
                             checked: string, tabindex: int): string
  {
    var boxId := CheckboxId(esc, a.name, k);
    Concat([
      "<input ", Attribute("id", boxId), " ", Attribute("name", esc(a.name) + "[]"), " ",
      Attribute("class", esc(a.cssClass)), " type=\"checkbox\" ", Attribute("value", esc(value)), " ",
      Attribute("tabindex", IntToString(tabindex)), " ", checked,
      " > <label ", Attribute("for", boxId), ">", esc(caption), "</label> ", a.separator])
  }

  /** Checkbox number `k` of a group, with the tab index it was given. */
  function CheckboxHtml(esc: string -> string, a: CheckboxArgs, k: nat, tabindex: int): string
    requires k < |a.checkboxes|
  {
    var (value, caption) := a.checkboxes[k];
    Wrap(a.wrapper, CheckboxFieldHtml(esc, a, k, value, caption, CheckedAttr(CheckboxChecked(value, a.tocheck)), tabindex))
  }

  /** The first `n` checkboxes of a group, numbered from 0, whose tab indexes follow `start` in steps of `step`. */
  function CheckboxesHtml(esc: string -> string, a: CheckboxArgs, start: int, step: int, n: nat): string
    requires n <= |a.checkboxes|
  {
    if n == 0 then "" else CheckboxesHtml(esc, a, start, step, n - 1) + CheckboxHtml(esc, a, n - 1, TabindexAfter(start, step, n))
  }

  function LegendHtml(esc: string -> string, legend: string): string {
    "<legend>" + esc(legend) + "</legend>"
  }

  /** The checkboxes in a fieldset, after a legend when the legend text is not empty. */
  function CheckboxGroupHtml(esc: string -> string, a: CheckboxArgs, start: int, step: int): string {
    var boxes := CheckboxesHtml(esc, a, start, step, |a.checkboxes|);
    "<fieldset>" + (if a.legend != "" then LegendHtml(esc, a.legend) + boxes else boxes) + "</fieldset>"
  }

  /** Radio button number `k` of a group, with the tab index it was given. */
  function RadioHtml(esc: string -> string, a: RadioArgs, k: nat, tabindex: int): string
    requires k < |a.radiobuttons|
  {
    var (caption, value) := a.radiobuttons[k];
    Wrap(a.wrapper, RadioFieldHtml(esc, a, value, caption, CheckedAttr(Selected(value, a.tocheck)), tabindex))
  }

  /** One radio button inside its label, before wrapping. */
  function RadioFieldHtml(esc: string -> string, a: RadioArgs, value: string, caption: string, checked: string,
                          tabindex: int): string
  {
    Concat([
      "<label><input ", Attribute("name", esc(a.name)), " type=\"radio\" ", Attribute("class", a.cssClass), " ",
      Attribute("value", esc(value)), " ", Attribute("tabindex", IntToString(tabindex)), " ",
      checked, ">", esc(caption), "</label>", a.separator])
  }

  function RadiosHtml(esc: string -> string, a: RadioArgs, start: int, step: int, n: nat): string
    requires n <= |a.radiobuttons|
  {
    if n == 0 then "" else RadiosHtml(esc, a, start, step, n - 1) + RadioHtml(esc, a, n - 1, TabindexAfter(start, step, n))
  }

  function SelectOpenHtml(esc: string -> string, id: string, name: string, cssClass: string, tabindex: int): string {
    Concat([
      "<select ", Attribute("id", esc(id)), " ", Attribute("name", esc(name)), " ", Attribute("class", cssClass), " ",
      Attribute("tabindex", IntToString(tabindex)), ">"])
  }

  function NoCheckOptionHtml(noCheckLabel: string): string {
    if noCheckLabel != "" then "<option selected disabled>" + noCheckLabel + "</option>" else ""
  }

  function OptionTag(esc: string -> string, value: string, select: string, caption: string): string {
    Concat(["<option ", Attribute("value", esc(value)), " ", select, " >", esc(caption), "</option>"])
  }

  function OptionHtml(esc: string -> string, value: string, caption: string, tocheck: string): string {
    OptionTag(esc, value, if Selected(value, tocheck) then "selected" else "", caption)
  }

  /** The first `n` options (value/label pairs). */
  function OptionsHtml(esc: string -> string, options: seq<(string, string)>, tocheck: string, n: nat): string
    requires n <= |options|
  {
    if n == 0 then "" else OptionsHtml(esc, options, tocheck, n - 1) + OptionHtml(esc, options[n - 1].0, options[n - 1].1, tocheck)
  }

  /** A whole dropdown: label, opening tag, placeholder option, options, closing tag. */
  function DropdownHtml(esc: string -> string, id: string, name: string, cssClass: string, labelText: string,
                        mandatory: string, tocheck: string, options: seq<(string, string)>, noCheckLabel: string,
                        tabindex: int): string
  {
    WithLabel(esc, name, labelText, mandatory, "")
    + SelectOpenHtml(esc, id, name, cssClass, tabindex) + NoCheckOptionHtml(noCheckLabel)
    + OptionsHtml(esc, options, tocheck, |options|) + "</select>"
  }

  function DatepickerInputTag(esc: string -> string, a: DatepickerArgs, tabindex: int): string {
    Concat([
      "<input type=\"text\" ", Attribute("id", a.id), " ", Attribute("name", esc(a.name)), " ",
      Attribute("tabindex", IntToString(tabindex)), " ", Attribute("class", a.cssClass), " ",
      Attribute("placeholder", a.placeholder), " ", Attribute("value", esc(a.value)), " />"])
  }

  function DatepickerInputHtml(esc: string -> string, a: DatepickerArgs, tabindex: int): string {
    WithLabel(esc, a.name, a.labelText, a.mandatory, DatepickerInputTag(esc, a, tabindex))
  }

  function SubmitHtml(esc: string -> string, a: SubmitArgs, tabindex: int): string {
    Concat([
      "<input type=\"submit\" ", Attribute("id", a.id), " ", Attribute("name", esc(a.name)), " ",
      Attribute("tabindex", IntToString(tabindex)), " ", Attribute("class", a.cssClass), " ",
      Attribute("value", esc(a.value)), " />"])
  }

  /** A hidden input with no id: the old-value field. */
  function HiddenNamedHtml(name: string, value: string): string {
    Concat(["<input type=\"hidden\" ", Attribute("name", name), " ", Attribute("value", value), " />"])
  }

  /** A hidden input with an id, name and value written as given. */
  function HiddenInputHtml(id: string, name: string, value: string): string {
    Concat(["<input type=\"hidden\" ", Attribute("id", id), " ", Attribute("name", name), " ", Attribute("value", value), " />"])
  }

  /** Hidden field number `k` of a `hidden_fields` call. */
  function HiddenFieldHtml(esc: string -> string, k: nat, name: string, value: string): string {
    HiddenInputHtml(HiddenFieldId(k), name, esc(value))
  }

  /** The first `n` entries (name/value pairs) of a `hidden_fields` call. */
  function HiddenFieldsHtml(esc: string -> string, fields: seq<(string, string)>, n: nat): string
    requires n <= |fields|
  {
    if n == 0 then "" else HiddenFieldsHtml(esc, fields, n - 1) + HiddenFieldHtml(esc, n - 1, fields[n - 1].0, fields[n - 1].1)
  }
}
