# Form generator model

A Dafny model of `Wolbusinessdesk_Form_Generator` (`class-form-generator.php`), a
WordPress HTML form builder. One builder object is made per form. The calls between
`open_form` and `close_form` (`input_text`, `input_checkbox`, ... `hidden_fields`) work as
follows:

- each checks its arguments;
- each gives back either the `<br>`-joined error messages or the element's HTML;
- every element that takes focus advances a shared tab-index counter by a configurable
  step (`hidden_fields` does not);
- each may record the submitted value in an old-value table.

`close_form` checks nothing and changes nothing.

Date pickers are registered in a table keyed by picker id. `close_form` flushes that
table into hidden alternate fields and a jQuery UI initialisation script.

The model has seven modules:

- `FormGenerator` holds the builder as a class, `FormGenerator.FormGenerator`.
  - Its fields are the PHP object's fields: `tabindexCounter`, `tabindexIncrement`,
    `formName`, `formOldValues`, `fieldsOldValues` and `datepickerData`.
  - `keepOldValues` and the library calls are constants fixed at construction.
  - Every public PHP method is a method that updates those fields in place. It returns
    `Outcome`, which is `Error(msg)` or `Ok(html)`.
  - Each loop of the source is a `while` loop. It is proved against a recursive
    specification function over the first `i` items.
- `Fields` holds:
  - the per-call argument records, whose defaults are those of each method's `$defaults`;
  - the error messages;
  - one HTML template function per `sprintf` of the source;
  - the id numbering.
- `Datepickers` holds:
  - the registry and its update rule;
  - the option defaults;
  - the script and the hidden alternate fields.
- `Selection` holds the checked and selected rules, and which checkbox values are
  recorded.
- `PhpArray` models a PHP ordered array as a sequence of pairs. `$a[$k] = $v`
  overwrites a present key in place and appends a new one.
- `Ksort` models `ksort` on non-numeric string keys, as an insertion sort by character
  code.
- `Php` holds the bits of the runtime used:
  - truthiness of strings, `absint` and ASCII `strtoupper`;
  - integer-to-text conversion and `implode`.

The library calls are fields of a `Collaborators` record given to the constructor:
`esc_attr`, `__()`, and the `base64_encode(json_encode(...))` pair and its inverse. The
contracts therefore fix where escaping and translation are applied, not what they
produce.

## Model

| member | source | states |
|---|---|---|
| FormGenerator.FormGenerator.constructor | class-form-generator.php:101-126 | A new builder has counter 0, step 10, an empty old-value table and an empty date-picker registry, and keeps the `keep_old_values` it was given (default false). |
| FormGenerator.FormGenerator.OpenForm | class-form-generator.php:213-289 | Fails if and only if the id or the name is empty, or the upper-cased method is neither POST nor GET. Both messages are joined by `<br>` when both checks fail. On failure nothing changes. On success the step is replaced only by a non-zero `tabindex_increment`, the form name and its old-value flag are stored, and the tag carries the upper-cased method. |
| Php.ToUpper | class-form-generator.php:241 | `strtoupper` keeps the length and upper-cases each ASCII letter, position by position. |
| Php.ImplodeTwo | class-form-generator.php:249 | Two error messages are joined with the separator between them and nothing else. |
| FormGenerator.FormGenerator.MaybeAddOldValue | class-form-generator.php:1666-1675 | With tracking on, the table becomes `table[name] := value`. With it off, the table is untouched. |
| FormGenerator.RecordOldValueSpec | class-form-generator.php:1666-1675 | Recording makes the field's entry the value given (the last write wins) and leaves every other field's entry as it was. A field seen for the first time goes last. With tracking off the table is unchanged. |
| FormGenerator.FormGenerator.InputText | class-form-generator.php:312-391 | Fails exactly when the id or the name is empty, with that message, changing nothing. Otherwise the counter advances by exactly one step, the new counter is written as the tab index, the label comes first only when the label text is not empty, and the value is recorded. |
| FormGenerator.FormGenerator.InputTextarea | class-form-generator.php:415-497 | As `input_text`, for a textarea with `absint` rows and columns. |
| FormGenerator.FormGenerator.InputCheckbox | class-form-generator.php:526-654 | The checks accumulate: a missing id or name and an empty option set give both messages, joined by `<br>`. It fails exactly when either holds, changing nothing. Otherwise the counter advances by step × number of checkboxes, the boxes sit in a fieldset after an optional legend, and the recorded old value is the escaped checked values, in option order. |
| FormGenerator.FormGenerator.CheckboxFields | class-form-generator.php:572-627 | The loop gives checkbox `k` the tab index start + (k+1) × step and numbers it `k`. It collects exactly the escaped values listed in `tocheck`, in option order. |
| FormGenerator.FormGenerator.CheckboxStep | class-form-generator.php:578-627 | One pass of the checkbox loop: it appends checkbox `k`, casts `tocheck` to an array, and appends the escaped value when it is listed. |
| FormGenerator.FormGenerator.CheckboxField | class-form-generator.php:580-613 | One checkbox takes the next tab index and is checked as `tocheck` says, before or after the cast to an array. |
| FormGenerator.CheckedMark | class-form-generator.php:580-590 | The search of a non-empty `tocheck` array, and the comparison otherwise, give `checked="checked"` exactly when the checkbox rule holds. |
| FormGenerator.CheckedOldValuesStep | class-form-generator.php:624-626 | One more checkbox adds its escaped value to the recorded list exactly when its value is in `(array) tocheck`. |
| Selection.CheckboxCheckedMeansListed | class-form-generator.php:581-590 | A checkbox is rendered checked if and only if its value is in the list of values to check (a scalar `tocheck` is a one-element list). |
| Selection.CheckedValuesAreCheckedOptions | class-form-generator.php:621-626 | The recorded values are exactly the option values that are rendered checked, and there are no more of them than options. |
| Selection.CheckedValuesDistinct | class-form-generator.php:578-626 | Option values are distinct (keys of a PHP array), so the recorded list has no repeats. |
| FormGenerator.FormGenerator.InputRadio | class-form-generator.php:682-772 | The checks accumulate, as for checkboxes, and failure changes nothing. Otherwise the counter advances by step × number of buttons and `tocheck` is recorded verbatim. |
| FormGenerator.FormGenerator.RadioButtons | class-form-generator.php:730-758 | The loop gives button `k` the tab index start + (k+1) × step. |
| FormGenerator.FormGenerator.RadioButton | class-form-generator.php:730-754 | One button (label first, value second) is checked exactly when its value equals `tocheck`, and takes the next tab index. |
| FormGenerator.FormGenerator.InputDropdown | class-form-generator.php:798-912 | Only the first failed check is reported (`elseif`): a missing id or name, else an empty option list. It fails only when that translated message is a true string, and then changes nothing. Otherwise the counter advances by exactly one step and `tocheck` is recorded. |
| FormGenerator.FormGenerator.InputDropdownProv | class-form-generator.php:988-1216 | Only the id and the name are checked, so it never fails on values. On success the options are the province list after `ksort`, and the counter advances by one step. |
| FormGenerator.FormGenerator.Select | class-form-generator.php:845-902 | What both dropdowns do once the checks pass: an optional label, the select with the next tab index, the optional disabled placeholder, the options, and `tocheck` recorded. |
| FormGenerator.FormGenerator.OptionTags | class-form-generator.php:882-896 | One option per entry, in order, each marked `selected` exactly when its value equals `tocheck`. |
| Selection.SelectedAtMostOnce | class-form-generator.php:882-884 | With distinct option values, exactly one of the value options is selected when `tocheck` is among them, and none otherwise. The disabled placeholder option, when written, carries `selected` as well. |
| Selection.SelectionExamples | class-form-generator.php:578-629 | Checking `["b"]` among options a and b checks and records only b. Selecting y among x and y selects only y. |
| FormGenerator.KsortOptions | class-form-generator.php:1029-1142 | The province options come out in ascending key order and are exactly the keys given. Each key is its own value. |
| Ksort.Insert | class-form-generator.php:1142 | Inserting a key adds exactly that key. |
| Ksort.InsertSorted | class-form-generator.php:1142 | Inserting into an ascending list keeps it ascending. |
| Ksort.KeySortSorted | class-form-generator.php:1142 | `ksort` leaves the keys in ascending order. |
| Ksort.KeySortPermutes | class-form-generator.php:1142 | `ksort` keeps every key, each as often as given. |
| Ksort.StrLeqTotal | class-form-generator.php:1142 | Any two keys are ordered one way or the other. |
| Ksort.StrLeqTransitive | class-form-generator.php:1142 | The key order is transitive. |
| Ksort.StrLeqAntisymmetric | class-form-generator.php:1142 | Two keys ordered both ways are equal. |
| FormGenerator.FormGenerator.InputDatepicker | class-form-generator.php:1248-1341 | Fails exactly when the id or the name is empty, changing nothing, the registry included. Otherwise the counter advances by one step, the value is recorded, and the picker is registered. |
| FormGenerator.FormGenerator.RegisterDatepicker | class-form-generator.php:1325-1331 | The alternate field, then the script options, are stored under the picker id, each only when given. Registry ids stay distinct. |
| Datepickers.RegisterGet | class-form-generator.php:1325-1331 | Re-registering an id overwrites each part that is given and keeps the part that is not. |
| Datepickers.RegisterGetOther | class-form-generator.php:1325-1331 | Registering one id leaves every other id's entry as it was. |
| Datepickers.RegisterKeys | class-form-generator.php:1325-1331 | A re-registered id keeps its place, a new id goes last, and registering nothing adds no id. |
| Datepickers.RegisterUniqueKeys | class-form-generator.php:1325-1331 | Registering keeps the picker ids distinct. |
| FormGenerator.FormGenerator.SubmitButton | class-form-generator.php:1361-1416 | Fails exactly when the id or the name is empty, changing nothing. Otherwise the counter advances by exactly one step. |
| FormGenerator.FormGenerator.HiddenFields | class-form-generator.php:1435-1495 | Fails exactly when no field is given. Otherwise it writes one hidden input per field, numbered from 0, and leaves the tab index alone. |
| FormGenerator.FormGenerator.HiddenInputs | class-form-generator.php:1470-1485 | The loop writes hidden input `k` for the `k`-th pair, with id number `k` and the escaped value. |
| Fields.HiddenFieldIdsDistinct | class-form-generator.php:1470-1479 | Within one call, different hidden fields get different ids. |
| Fields.CheckboxIdsDistinct | class-form-generator.php:573-595 | Within a group, different checkboxes get different ids (and labels pointing at them). |
| Fields.NumberedIdsDistinct | class-form-generator.php:1479 | Ids that share a prefix and end in a number differ when the numbers differ. |
| Php.NatToStringInjective | class-form-generator.php:1479 | Different numbers are written as different decimal texts. |
| Php.NatToStringLength | class-form-generator.php:1479 | Numbers below ten take one digit, all others more. |
| Php.DigitValue | class-form-generator.php:1479 | The decimal digits are the ten consecutive characters from `0`. |
| Fields.TabindexAfterLinear | class-form-generator.php:600 | Advancing `n` times by the step from `start` gives start + n × step. |
| FormGenerator.FormGenerator.GetNewTabindexValue | class-form-generator.php:1571-1577 | Stores and returns exactly the old counter plus the step. |
| FormGenerator.FormGenerator.SetNewTabindexValue | class-form-generator.php:1590-1594 | Sets the counter to `absint` of the argument, so it is never negative. |
| Php.AbsInt | class-form-generator.php:1592 | `absint` gives the argument or its negation, and never a negative number. |
| FormGenerator.FormGenerator.GetOldDataArray | class-form-generator.php:1641-1652 | Gives `FALSE` exactly for the empty string. Any other input gives `null` exactly when it does not decode to a table, and otherwise the decoded table. |
| FormGenerator.FormGenerator.AddOldDataToForm | class-form-generator.php:1606-1629 | Without tracking, nothing. With it, the hidden `fields_old_values` input carries the encoded table. |
| FormGenerator.FormGenerator.DatepickersAlternateFields | class-form-generator.php:1687-1717 | One hidden input per registered picker with an alternate field, in registration order. |
| Datepickers.AltFieldsHtmlEmpty | class-form-generator.php:1689-1706 | No alternate field is written exactly when no registered picker has one. |
| Datepickers.HiddenInputNonEmpty | class-form-generator.php:1696-1701 | Every alternate field writes a non-empty hidden input. |
| FormGenerator.FormGenerator.CollectScriptParams | class-form-generator.php:1738-1760 | The finished options of every picker with script options, in registration order. |
| Datepickers.PutAllGet | class-form-generator.php:1746-1748 | Copying the options one by one leaves each option with the last value given for it. |
| Datepickers.PickerOptionsDefaults | class-form-generator.php:1750-1758 | `dateFormat` is the caller's, else `dd/mm/yy`. With an alternate field, `altField` is `#` followed by its id, and `altFormat` is the caller's, else `yy-mm-dd`. Every other option keeps the caller's last value. |
| Datepickers.ScriptParamsKeys | class-form-generator.php:1740-1760 | Only registered ids get script options. |
| Datepickers.ScriptParamsInOrder | class-form-generator.php:1740-1766 | Every picker with script options is initialised exactly once, in registration order. |
| Datepickers.ScriptsHtmlInOrder | class-form-generator.php:1729-1810 | With distinct picker ids, the script is the opening, one initialisation per picker with script options in registration order, and the closing. |
| FormGenerator.FormGenerator.CreateDatepickersScripts | class-form-generator.php:1729-1819 | The script opens, holds one `datepicker({...})` call per picker with script options, each once and in registration order, and closes, with `setDate` left out. |
| FormGenerator.FormGenerator.PickerOptionTexts | class-form-generator.php:1774-1788 | One `"name": "value"` text per option other than `setDate`, in order. |
| Datepickers.EmittedOptionsDropSetDate | class-form-generator.php:1776-1786 | `setDate` is never written, and every other option is written with its value. |
| FormGenerator.FormGenerator.CloseForm | class-form-generator.php:142-189 | Gives back the alternate fields, then the old-value field only when both the form and the builder keep old values, then the closing tag, then the script, which initialises each picker with script options once, in registration order. The builder's state is not changed. |
| FormGenerator.FormGenerator.CloseFormEchoed | class-form-generator.php:142-180 | On the echo path, prints the alternate fields, then the old-value field under the same condition, then the script, and the closing tag last. |
| FormGenerator.EchoedClosingScriptFirst | class-form-generator.php:150-180 | What the echo path prints never equals what the return path gives back: the printed text ends with the closing tag, the returned text with the script. |
| PhpArray.PutGet | class-form-generator.php:1670 | After `$a[$k] = $v`, reading `$a[$k]` gives `$v`. |
| PhpArray.PutGetOther | class-form-generator.php:1670 | `$a[$k] = $v` changes no other key's value. |
| PhpArray.PutKeys | class-form-generator.php:1670 | `$a[$k] = $v` keeps the key order, and a new key goes last. |
| PhpArray.PutUniqueKeys | class-form-generator.php:1670 | Keys stay distinct. |
| PhpArray.PutAbsent | class-form-generator.php:1747 | Storing under a new key appends the pair. |

## Left out

- Echo versus return: every element method returns its fragment, and the `echo` argument and `default_echo` are not modelled. For the element methods echoing prints the same fragment that would be returned. `close_form` is the exception, modelled on both paths.
- FormGenerator.FormGenerator.CloseForm: models the return path (`echo` false). On the default echo path (`default_echo` is TRUE) the source prints the alternate fields, the old-value field, the script and then the closing tag. `FormGenerator.FormGenerator.CloseFormEchoed` models that order; see Findings.
- `nonce_field` and `input_dropdown_wp_tax` are not modelled. They wrap `wp_nonce_field` and `wp_dropdown_categories`, which are WordPress calls outside this file. `input_dropdown_wp_tax` also advances the tab counter, which the model therefore never does for it.
- `esc_attr`, `__()`, `base64_encode(json_encode(...))` and `json_decode(base64_decode(...), 1)` are parameters of the builder (`Collaborators`), not definitions. No round trip between the encoder and the decoder is claimed.
- FormGenerator.FormGenerator.GetOldDataArray: the decoder is a parameter, so for non-empty input the model fixes only how its answer is passed on. Its `None` stands for every result that is not an array: the `null` that `json_decode` gives on bad input, and the scalar it gives for JSON text such as `5`.
- `wp_parse_args` is modelled as argument records with the source's defaults. Keys a caller leaves out of a nested array, such as `alt_field['id']` or `wrapper['before']`, are not modelled: nested records are always complete.
- PHP loose `==` is modelled as string equality: option keys, `tocheck` and ids are strings.
- The `form_textdomain` constructor argument is not modelled. The source never reads it.
- The `alt_field['format']` entry is carried in `AltField` but never read, as in the source: the script's `altFormat` comes from `script_param` only.
- The script's whitespace is not modelled exactly. The opening `<script>` and the closing `});</script>` are written without the line break and indentation the source puts inside the literals.
- The `setDate` script is not modelled. It is guarded by `1 != 1` and never written, so the model also drops the `$set_date` table that only that script reads.
- `fields_old_values` starts as PHP `null` and becomes an array on the first write; the model starts from the empty table. This matters only to the encoder's output when nothing was recorded.
- PHP integers are 64-bit and the model's are unbounded. A tab counter near `PHP_INT_MAX` would become a float in PHP, which is not modelled.
- `strtoupper` is modelled for ASCII letters only, as PHP does from version 8.2. Earlier versions follow the locale, which is not modelled.
- `input_textarea` writes `absint( esc_attr( $args['rows'] ) )` (and the same for `cols`). The model writes `absint` of the integer and leaves out `esc_attr`, which does not change the decimal text of an integer.
- The province table is built once, by the constructor, into a constant field, rather than on every `input_dropdown_prov` call. The table is a constant, so every call sees the same list. The source iterates it as `label => value` where the plain dropdown uses `value => label`; every province key equals its value, so both read the same.
- `ksort` is modelled for non-numeric string keys (byte order, which on UTF-8 text is character-code order), which is what the province table holds.

## Findings

| source | as written | input that shows it | evidently intended | confidence | as-written member | corrected member |
|---|---|---|---|---|---|---|
| class-form-generator.php:150-180 | On the echo path the helpers print the alternate fields, the old-value field and the script as they run, and `close_form` prints the closing tag last. | Any form closed with the default `echo` (TRUE): the `<script>` block is printed before `</form><!-- Closing … form -->`. | The closing tag before the script, as the return path gives and as the comment at line 161 says (the script goes after the closing tag). | high (not executed) | FormGenerator.EchoedClosingScriptFirst | FormGenerator.FormGenerator.CloseForm |
