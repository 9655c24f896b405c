# vaeylron web components: a Dafny model

This project models the state rules under the vaeylron custom elements: the
listbar's batch queue and end-of-list watcher, the button's toggle and form
actions, the checkbox, the dropdown's parallel choice arrays, the text input's
sub-label and form sync, and the registered tag names. The DOM is abstracted to
plain fields: an attribute is an `Option<string>` (absent or its text), a
property or setter argument is a `Dom.Value` (undefined, null, boolean, integer
or string), and the form is the last value handed to `setFormValue`. Each
component is a class whose methods are the source's callbacks and setters, with
`modifies` clauses naming the fields they change and `ensures` clauses stating
the whole new state.

Files: `wrappers.dfy` (Option), `dom.dfy` (JavaScript truthiness, loose
comparison with `undefined`, the string conversions of `setAttribute`,
`textContent` and `input.value`, and array indexing by a number or a string key),
`casing.dfy` (the kebab-to-camel rewrite of attribute names, with a reference
inverse), `names.dfy`, `listbar.dfy`, `button.dfy`, `checkbox.dfy`,
`dropdown.dfy`, `text_input.dfy`.

Behaviour worth knowing, all proved of the model as the code is written:

- `sendBatch(minSize)` flushes whenever the batch holds at least `minSize`
  items, so three queued items are sent by `sendBatch(2)`.
- Sending a non-empty batch before the first connect appends the items and
  clears the batch, then throws at `scrollObserver.disconnect()`
  (`SendOutcome.SentWithoutObserver`).
- The listbar has no disconnect callback, so each connect creates a new
  observer and leaves the earlier one running (`abandoned`).
- `endreach` fires on every observer callback whose first entry intersects.
  It is never de-duplicated.
- A toggle button that becomes a toggle while it has no `theme` attribute
  records a null base theme. Unchecking it then writes the string "null" into
  the `theme` attribute (`Button.ToggleWithoutThemeScenario`).
- A dropdown whose `selected` attribute arrives before its choices are
  recorded hands `undefined` to the form and shows "".
  `Dropdown.MarkupSelectedScenario` shows this. The key "length" reads the
  arrays' own length instead (`Dropdown.LengthKeyScenario`).
- A text input resized to "long" after it was connected keeps its `input`
  listener on the replaced node. Typing into the new textarea then no longer
  reaches the form (`TextInput.LongSizeAfterConnectScenario`).

## Model

| member | source | states |
|---|---|---|
| Dom.Truthy | web-components/button.js:159 | `if (v)`: the falsy values are exactly undefined, null, false, 0 and "" |
| Dom.IsNullish | web-components/dropdown.js:124 | loose `!= undefined` fails exactly for undefined and null, both of them falsy |
| Dom.ToString | web-components/button.js:160 | `String(v)` as `setAttribute` applies it: empty only for the empty string, a string unchanged, a non-negative number in decimal |
| Dom.ToNullableString | web-components/listbar.js:146 | assignment to `textContent`: undefined and null become "", anything else `String(v)`; "" exactly for those two and the empty string |
| Dom.ToLegacyNullString | web-components/text-input.js:105 | assignment to `input.value`: only null becomes "", undefined becomes "undefined" |
| Dom.IndexOf | web-components/dropdown.js:160 | a key denotes an index only as a non-negative number or that number's decimal spelling; booleans, null and undefined denote none |
| Dom.Read | web-components/dropdown.js:160 | `arr[key]`: the element at an index key, the length for "length", undefined for any other own key |
| Dom.ReflectFlag | web-components/button.js:158-164 | the `if (v) setAttribute else removeAttribute` idiom: the attribute is present exactly for truthy values and a present one is `String(v)`, never empty |
| Dom.FromAttribute | web-components/button.js:150 | `getAttribute` yields null exactly when the attribute is absent and its text otherwise |
| Dom.At | web-components/dropdown.js:125 | `arr[key]` yields an element exactly when the key denotes an index below the length, and then the element at that index |
| Dom.IndexKeyIsDecimalSpelling | web-components/dropdown.js:160 | a string key denotes index n if and only if it is the decimal spelling of n ("2" reads entry 2, "02" reads nothing) |
| Dom.AtStringKey | web-components/dropdown.js:160 | reading `values["i"]` is reading `values[i]`, so a `selected` attribute selects the same entry as the numeric index |
| Dom.DigitsOfNatToString | web-components/dropdown.js:160 | the decimal spelling of every index is a canonical index string that parses back to it |
| Dom.NatToStringOfDigits | web-components/dropdown.js:160 | every canonical index string is the decimal spelling of the index it parses to |
| Casing.ToUpper | web-components/button.js:107 | `toUpperCase` on the character after a dash: a lower-case ASCII letter becomes its upper-case counterpart (32 code points lower), any other character is kept |
| Casing.KebabToCamel | web-components/button.js:107 | the `-.` rewrite never lengthens a name and leaves it unchanged when nothing matched |
| Casing.NoDashUnchanged | web-components/button.js:107 | a name without a dash is its own property name |
| Casing.KebabGivesCamel | web-components/button.js:107 | a kebab-case name becomes a camel-case name with no dash left |
| Casing.KebabRoundTrip | web-components/button.js:107 | turning the camel-case result back into kebab case gives the attribute name again |
| Casing.CamelRoundTrip | web-components/button.js:107 | every camel-case property name comes from a kebab-case attribute name, its kebab spelling, which rewrites back to it |
| Casing.KebabNamesDistinct | web-components/button.js:107 | with `KebabRoundTrip`, two kebab-case attribute names that assign the same property are the same name, so each property has exactly one attribute |
| Casing.TwoWordName | web-components/button.js:107 | `p-w` becomes `p` followed by `w` with its first letter upper-cased |
| Casing.ButtonAttributeProperties | web-components/button.js:7-10 | `button-type`, `toggle-theme` and `toggle-label` assign `buttonType`, `toggleTheme` and `toggleLabel` |
| Names.Prefixed | web-components/names.js:31-33 | prefixing the table changes values only; the key set is unchanged |
| Names.PrefixedInjective | web-components/names.js:31-33 | prefixing keeps distinct names distinct |
| Names.RegisteredNamesDistinct | web-components/names.js:10-20 | the suffixes as written are pairwise distinct, and so are the registered names |
| Names.LiteralPrefixed | web-components/names.js:4-20 | adding "vae-" once to every suffix as written gives the registered names, e.g. `filePicker` to "vae-file-picker" |
| Names.ComponentNames.constructor | web-components/names.js:10-20 | the object literal, with its keys in insertion order |
| Names.ComponentNames.AddPrefix | web-components/names.js:31-33 | the in-place loop over `Object.keys` leaves every value "vae-" followed by its old value, keys unchanged |
| Names.LoadComponentNames | web-components/names.js:1-33 | after module load the table is exactly the registered names, each prefixed once (`checkBox` to "vae-checkbox") |
| Listbar.Last | web-components/listbar.js:68 | `lastElementChild` is absent exactly for an empty list and otherwise one of the children |
| Listbar.Without | web-components/listbar.js:114 | removing a node keeps every other node and drops that one; a node not present leaves the list as it was |
| Listbar.AppendChild | web-components/listbar.js:114 | `appendChild` puts the node last, keeps the other nodes, and on a fresh node is concatenation |
| Listbar.AppendEach | web-components/listbar.js:113-115 | the `forEach` of `appendChild` loses and invents no node, and a non-empty batch leaves its last item as the last child |
| Listbar.AppendEachFresh | web-components/listbar.js:113-115 | appending fresh distinct nodes one by one gives the old children followed by the batch, in batch order |
| Listbar.Targets | web-components/listbar.js:118-127 | the observer watches only nodes it was asked to observe, and, when the last call is an observe, that call's node |
| Listbar.ResubscribeWatchesOne | web-components/listbar.js:125-126 | `disconnect` before `observe` leaves exactly the new node watched, whatever was watched before |
| Listbar.VaeListbar.constructor | web-components/listbar.js:11-17 | a new listbar over its initial children has an empty batch and no observer, and numbers fresh nodes above every initial child |
| Listbar.VaeListbar.Connect | web-components/listbar.js:55-71 | connecting creates an observer that watches the last child if there is one and nothing otherwise; an earlier observer is left running |
| Listbar.VaeListbar.ScrollObserverCallback | web-components/listbar.js:88-97 | one `endreach` per callback exactly when the entries are non-empty and the first intersects |
| Listbar.VaeListbar.SendBatch | web-components/listbar.js:106-128 | below `minSize` nothing changes; otherwise children become old children plus the batch and the batch is emptied; a non-empty batch is watched at its last item after a disconnect, or throws when there is no observer yet; the invariant "a connected listbar watches its last child" is kept |
| Listbar.VaeListbar.AppendBatch | web-components/listbar.js:113-115 | the `forEach` appends every batched node in batch order |
| Listbar.VaeListbar.GetNewBatchElement | web-components/listbar.js:133-141 | a fresh node, never seen before, is queued at the tail with its click callback, children and observer untouched |
| Listbar.VaeListbar.SetTitle | web-components/listbar.js:146 | the title's text is the value, with null and undefined shown as "" |
| Listbar.VaeListbar.SetHeader | web-components/listbar.js:147 | the header's text is the value, with null and undefined shown as "" |
| Listbar.VaeListbar.AttributeChanged | web-components/listbar.js:77-79 | `title` and `header` attribute changes go to their setters, the other text untouched |
| Listbar.SendScenario | web-components/listbar.js:106-141 | three queued items stay queued under a minimum of four and are sent in order under three; the last becomes watched, and a listbar mounted over [x, y] watches y |
| Button.ThemeTables | web-components/button.js:16-21 | the button's theme table is the shared table plus `success`, which the shared table lacks |
| Button.VaeButton.constructor | web-components/button.js:31-38 | a new button is of type "button" with no base label or theme recorded |
| Button.VaeButton.SetDefaults | web-components/button.js:43-45 | the default type is "button" |
| Button.VaeButton.Connect | web-components/button.js:83-95 | connecting attaches the click listener and sets the theme to "primary" exactly when it was unset or empty |
| Button.VaeButton.Disconnect | web-components/button.js:97-99 | disconnecting removes the click listener |
| Button.VaeButton.AttributeChanged | web-components/button.js:105-109 | the camel-cased attribute name picks the property assigned; only `buttonType` goes through a setter |
| Button.VaeButton.SetButtonType | web-components/button.js:182-192 | the type is stored; becoming "toggle" records the current label and theme, and any other type records nothing |
| Button.VaeButton.SetTheme | web-components/button.js:150-151 | the theme attribute holds `String(theme)` |
| Button.VaeButton.SetDisabled | web-components/button.js:157-164 | the attribute is present exactly for truthy values |
| Button.VaeButton.ToggleSwitch | web-components/button.js:114-130 | checked: the toggle label and theme replace the current ones only where set; unchecked: the base label and theme are restored |
| Button.VaeButton.SetChecked | web-components/button.js:168-180 | the attribute is present exactly for truthy values, label and theme switch as in `toggleSwitch`, and the form value is the resulting `checked` |
| Button.VaeButton.HandleButtonClick | web-components/button.js:136-147 | submit and reset ask the form (throwing when there is none), toggle flips `checked`, writing "true" or removing the attribute, and any other type changes nothing |
| Button.ToggleTwiceRestores | web-components/button.js:183-191 | a themed button made a toggle shows its toggle label and theme when clicked and its own label and theme after a second click |
| Button.ToggleWithoutThemeScenario | web-components/button.js:127-128 | a button made a toggle before any theme is set ends up with the theme "null" after checking and unchecking |
| Checkbox.VaeCheckBox.constructor | web-components/checkbox.js:14-20 | a new checkbox keeps its initial attributes, with no form value yet |
| Checkbox.VaeCheckBox.Connect | web-components/checkbox.js:48-67 | theme "primary" and icon "✓" only where unset or empty, listener attached, and form value false whatever `checked` says |
| Checkbox.VaeCheckBox.Disconnect | web-components/checkbox.js:69-72 | disconnecting removes the click listener |
| Checkbox.VaeCheckBox.ToggleCheckbox | web-components/checkbox.js:44-46 | toggling flips `checked`, writing "true" or removing the attribute, and reports the new state to the form |
| Checkbox.VaeCheckBox.AttributeChanged | web-components/checkbox.js:79-81 | an attribute change assigns the property of exactly the attribute's name |
| Checkbox.VaeCheckBox.SetChecked | web-components/checkbox.js:88-96 | the attribute is present exactly for truthy values and the form value is the resulting `checked` |
| Checkbox.VaeCheckBox.SetTheme | web-components/checkbox.js:100 | the theme attribute holds `String(theme)` |
| Checkbox.VaeCheckBox.SetIcon | web-components/checkbox.js:103 | the inner button's `icon` attribute holds `String(value)` |
| Checkbox.VaeCheckBox.SetUnchecked | web-components/checkbox.js:117 | the inner button's `unchecked` attribute holds `String(value)` |
| Checkbox.VaeCheckBox.SetDisabled | web-components/checkbox.js:107-113 | the attribute is present exactly for truthy values |
| Checkbox.ExactNameDispatch | web-components/checkbox.js:7-9 | the observed names have no dash, so exact-name dispatch agrees with the kebab-to-camel rewrite |
| Checkbox.ToggleTwiceScenario | web-components/checkbox.js:44-46 | connecting reports false to the form; two toggles restore whether the box is checked, and the attribute text becomes "true" |
| Dropdown.DropdownText | web-components/dropdown.js:123-130 | the placeholder while nothing is selected; otherwise the selected entry's text, "" for a missing entry, and the entry count in decimal for the key "length" |
| Dropdown.VaeDropdown.constructor | web-components/dropdown.js:14-25 | the three arrays start empty, no listener is recorded and nothing is selected |
| Dropdown.VaeDropdown.Connect | web-components/dropdown.js:70-77 | the text is refreshed before the choices are recorded; each connect appends one entry per choice to all three arrays, which are never cleared |
| Dropdown.VaeDropdown.Disconnect | web-components/dropdown.js:83-92 | the dropdown's own listener and every recorded choice listener are removed |
| Dropdown.VaeDropdown.SetupDropdownChoices | web-components/dropdown.js:94-121 | entry i of this connect gets the choice's text, value and a fresh listener that selects i, in lock-step, so the arrays keep equal lengths |
| Dropdown.VaeDropdown.SetDropdownText | web-components/dropdown.js:123-130 | the shown text is `DropdownText` of the current selection, placeholder and texts |
| Dropdown.VaeDropdown.ModifyOpenState | web-components/dropdown.js:136-138 | `open` flips |
| Dropdown.VaeDropdown.SetOpen | web-components/dropdown.js:147-155 | `open` reads true exactly when the setter got a truthy value |
| Dropdown.VaeDropdown.SetSelected | web-components/dropdown.js:157-162 | the form value is `values[selected]` as JavaScript reads it (the element, the length for "length", undefined otherwise) and the shown text is refreshed |
| Dropdown.VaeDropdown.SetLabel | web-components/dropdown.js:143 | the label's text is the value |
| Dropdown.VaeDropdown.ChoiceClicked | web-components/dropdown.js:106-110 | activating a recorded choice selects its index, which is always within the arrays, shows `displayValues[i]`, hands `values[i]` to the form, and flips `open`, writing "true" or removing the attribute |
| Dropdown.VaeDropdown.AttributeChanged | web-components/dropdown.js:60-64 | the camel-cased attribute name picks the property; `label` also sets the label's text, `selected` also sets the form value and the shown text, and every other field keeps its value |
| Dropdown.ChoiceScenario | web-components/dropdown.js:98-119 | a click shows the chosen text; after a reconnect the arrays hold two copies and the new listener still shows the right text |
| Dropdown.MarkupSelectedScenario | web-components/dropdown.js:70-72 | a `selected` set before connect gives the form undefined and shows ""; set again afterwards, "1" reads entry 1 |
| Dropdown.LengthKeyScenario | web-components/dropdown.js:123-162 | `selected="length"` gives the form 0 and shows "0" once connected; set again over two choices it gives 2 and shows "2" |
| TextInput.SubLabelFor | web-components/text-input.js:157-164 | the error text exactly in the strict "error" state and the helper text in every other state; a state cannot matter when both texts agree |
| TextInput.VaeTextInput.constructor | web-components/text-input.js:27-34 | a new input has label "Label", helper and error a no-break space, that space as its sub-label, and `state_` and `type_` undefined |
| TextInput.VaeTextInput.SetDefaults | web-components/text-input.js:39-43 | the defaults go through the setters, so the labels agree with them |
| TextInput.VaeTextInput.Connect | web-components/text-input.js:78-84 | the `input` listener goes on the current field node |
| TextInput.VaeTextInput.Disconnect | web-components/text-input.js:86-88 | the listener is removed from the current field node only |
| TextInput.VaeTextInput.AttributeChanged | web-components/text-input.js:94-96 | an attribute change assigns the property of exactly its name through the setter, the sub-label still agrees with (state, helper, error), and `disabled`, the form value, the listeners and `style-state` (except for "state") keep their values |
| TextInput.VaeTextInput.SetValue | web-components/text-input.js:104-107 | the field gets the value (null as "") and the form gets it only when `name` is truthy |
| TextInput.VaeTextInput.SetState | web-components/text-input.js:119-126 | the sub-label is re-derived and `style-state` mirrors the state |
| TextInput.VaeTextInput.SetLabel | web-components/text-input.js:129 | the main label's text is the value |
| TextInput.VaeTextInput.SetHelper | web-components/text-input.js:130 | the sub-label is re-derived and shows the new helper unless the state is "error" |
| TextInput.VaeTextInput.SetError | web-components/text-input.js:131 | the sub-label is re-derived and shows the new error in the "error" state |
| TextInput.VaeTextInput.SetType | web-components/text-input.js:132 | `type_` holds the value |
| TextInput.VaeTextInput.SetSize | web-components/text-input.js:142-151 | only "long" replaces the field by a fresh empty textarea; any other size changes nothing |
| TextInput.VaeTextInput.SubLabelUpdate | web-components/text-input.js:157-164 | the sub-label is the error exactly when the state is the string "error" and the helper otherwise |
| TextInput.VaeTextInput.SetDisabled | web-components/text-input.js:168-174 | the attribute is present exactly for truthy values |
| TextInput.VaeTextInput.TextInputChanged | web-components/text-input.js:180-185 | the form value becomes the field's value exactly when `name` is truthy and is unchanged otherwise |
| TextInput.VaeTextInput.UserInput | web-components/text-input.js:82-83 | typing reaches the form only through a listener on the current field node |
| TextInput.LongSizeAfterConnectScenario | web-components/text-input.js:142-151 | after a post-connect switch to "long", typing no longer reaches the form while the `value` setter still does |
| TextInput.ErrorStateScenario | web-components/text-input.js:119-126 | the sub-label shows the error text in the "error" state and the helper text again after leaving it |

## Left out

- Shadow DOM construction (`createShadowDom`, slots, `part` attributes) and `customElements.define`: DOM building with no state rules.
- The intersection observer's own behaviour (root, `rootMargin: "0px"`, threshold 0.3): the host supplies the entries; the model keeps what the observer is asked to watch.
- Form internals: `setFormValue` is recorded as the value passed, without the browser's conversion to a string. `requestSubmit` and `requestReset` are logged as requests. `requestReset` is not a standard form method, so it is given no meaning. Whether a form exists is a constant of each button.
- Event plumbing: listeners are flags or sets of identities. Host events (a click, typing, an observer report) are method calls. The application callbacks handed to `getNewBatchElement` are only recorded, never run.
- Children that application code adds to or removes from the listbar directly: the model's child list changes only through `sendBatch`.
- The dropdown's `querySelectorAll("vae-button")` is the `choices` parameter of `Connect`. Each choice's text and `value` property are given as data.
- Button `ghost` getter and setter (button.js:153-154): nothing in the components reads them.
- The `form` getters of every component, and the getters that only return a stored field (`label`, `theme`, `selected`, ...): the fields stand in for them. The getters that test an attribute's presence are the functions `Button.VaeButton.Checked`, `Checkbox.VaeCheckBox.Checked` and `Dropdown.VaeDropdown.Open`, with no contract of their own.
- TextInput.VaeTextInput.SetType: models `type_` only. The native field's `type` is not modelled, and assigning it on a textarea would hit a read-only property.
- TextInput.VaeTextInput.SetValue: the field keeps the text as given. A single-line `input` strips newlines and a `textarea` normalises CR and CRLF, and neither sanitisation is modelled. Nor is the sanitisation the native field's `type` selects (`number`, `email`, ...), since that `type` is not modelled (see `TextInput.VaeTextInput.SetType`).
- Dom.Read, Dropdown.DropdownText, Dropdown.VaeDropdown.SetSelected, Dropdown.VaeDropdown.SetDropdownText: a `selected` key naming an inherited property (`push`, `at`, `constructor`, ...) reads a function, which `Dom.Value` does not represent. The model reads undefined there, so the form gets undefined and the button shows "", where the source hands the function to the form and shows its source text.
- Casing.ToUpper, Casing.KebabToCamel: upper-cases ASCII letters only. JavaScript's `toUpperCase` also maps other letters, some to two characters. Every observed attribute name is ASCII.
- Dom.ToString: a non-negative number is written as plain decimal digits. JavaScript writes numbers from 1e21 up in exponent notation ("1e+21"), and integers above 2^53 are not exact JavaScript numbers at all. Neither is modelled. No count or index in these components gets near that range; only a setter handed such a number directly would differ.
- Dom.Value: numbers are integers. There is no NaN, no fraction and no `-0`. `sendBatch`'s `minSize` is an integer. The source called with no argument compares with `undefined`, which is always false, so it sends: the model's `minSize` 0.
- modal.js, file-picker.js, layer.js and header.js are not part of this model.
