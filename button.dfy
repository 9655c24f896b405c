/**
 * The button: a form-associated button whose click submits, resets or toggles
 * according to its `buttonType`. A toggle button swaps its label and theme for
 * `toggleLabel` / `toggleTheme` while checked and restores the label and theme it
 * had when it became a toggle once unchecked.
 */
module Button {
  import opened Wrappers
  import opened Dom
  import Casing
  import Names

  /** The button's own `ALLOWED_THEMES`. */
  const ButtonThemes: map<string, string> := map[
    "PRIMARY" := "primary", "SECONDARY" := "secondary", "ERROR" := "error", "SUCCESS" := "success"]

  /** `ALLOWED_TYPES`. */
  const TypeButton: string := "button"
  const TypeSubmit: string := "submit"
  const TypeReset: string := "reset"
  const TypeToggle: string := "toggle"

  const ObservedAttributes: seq<string> := ["label", "button-type", "toggle-theme", "toggle-label", "value"]

  /** The button's theme table is the shared one plus `success`, which the shared one lacks. */
  lemma ThemeTables()
    ensures ButtonThemes == Names.AllowedThemes["SUCCESS" := "success"]
    ensures "success" !in Names.AllowedThemes.Values
  {
  }

  /** What a click asked of the owning form (`requestReset` is not a standard form method; only the call is recorded). */
  datatype FormRequest = RequestSubmit | RequestReset

  /** A submit or reset click on a button outside any form dereferences a null `form` and throws. */
  datatype ClickOutcome = Handled | NoForm

  class VaeButton {
    /** `buttonType_`. */
    var buttonType: Value
    /** `baseLabel_` and `baseTheme_`: recorded when the type becomes "toggle". */
    var baseLabel: Value
    var baseTheme: Value
    /** `textContent`: the label shown through the button's slot. */
    var text: string
    /** The `theme`, `checked` and `disabled` attributes. */
    var theme: Option<string>
    var checkedAttr: Option<string>
    var disabledAttr: Option<string>
    /** Plain properties the attribute callback assigns (`label`, `toggleLabel`, `toggleTheme`, `value`). */
    var labelValue: Value
    var toggleLabel: Value
    var toggleTheme: Value
    var value: Value
    /** The last value handed to `setFormValue` (null before the first). */
    var formValue: Value
    /** Whether the element belongs to a form. */
    const hasForm: bool
    var formRequests: seq<FormRequest>
    /** Whether the click listener is registered on the inner button. */
    var clickListener: bool

    /** The `checked` getter: the attribute is present. */
    function Checked(): bool
      reads this
    {
      checkedAttr.Some?
    }

    /** A button over light-DOM text `text`, with the given initial `theme` and `checked` attributes. */
    constructor (text: string, theme: Option<string>, checkedAttr: Option<string>, hasForm: bool)
      ensures this.text == text && this.theme == theme && this.checkedAttr == checkedAttr
      ensures this.hasForm == hasForm
      ensures buttonType == Str(TypeButton)
      ensures baseLabel == Undefined && baseTheme == Undefined
      ensures labelValue == Undefined && toggleLabel == Undefined && toggleTheme == Undefined && value == Undefined
      ensures disabledAttr == None && formValue == Null && formRequests == [] && !clickListener
    {
      this.text := text;
      this.theme := theme;
      this.checkedAttr := checkedAttr;
      this.hasForm := hasForm;
      baseLabel, baseTheme := Undefined, Undefined;
      labelValue, toggleLabel, toggleTheme, value := Undefined, Undefined, Undefined, Undefined;
      disabledAttr := None;
      formValue := Null;
      formRequests := [];
      clickListener := false;
      buttonType := Undefined;
      new;
      SetDefaults();
    }

    /** `setDefaults`: a new button is a plain "button". */
    method SetDefaults()
      modifies this`buttonType
      ensures buttonType == Str(TypeButton)
    {
      buttonType := Str(TypeButton);
    }

    /** `connectedCallback`: register the click listener; an unset or empty theme becomes "primary". */
    method Connect()
      modifies this`clickListener, this`theme
      ensures clickListener
      ensures Truthy(FromAttribute(old(theme))) ==> theme == old(theme)
      ensures !Truthy(FromAttribute(old(theme))) ==> theme == Some("primary")
    {
      clickListener := true;
      if !Truthy(FromAttribute(theme)) {
        SetTheme(Str(Names.AllowedThemes["PRIMARY"]));
      }
    }

    /** `disconnectedCallback`: remove the click listener. */
    method Disconnect()
      modifies this`clickListener
      ensures !clickListener
    {
      clickListener := false;
    }

    /**
     * `attributeChangedCallback`: the attribute name, camel-cased, names the property assigned
     * (`Casing.ButtonAttributeProperties` lists what each observed attribute becomes).
     */
    method AttributeChanged(name: string, newValue: Option<string>)
      requires name in ObservedAttributes
      modifies this`buttonType, this`baseLabel, this`baseTheme, this`labelValue, this`toggleTheme, this`toggleLabel, this`value
      ensures Casing.KebabToCamel(name) == "buttonType" ==>
        && buttonType == FromAttribute(newValue)
        && (newValue == Some(TypeToggle) ==> baseLabel == Str(text) && baseTheme == FromAttribute(theme))
        && (newValue != Some(TypeToggle) ==> baseLabel == old(baseLabel) && baseTheme == old(baseTheme))
      ensures Casing.KebabToCamel(name) != "buttonType" ==>
        buttonType == old(buttonType) && baseLabel == old(baseLabel) && baseTheme == old(baseTheme)
      ensures labelValue == if Casing.KebabToCamel(name) == "label" then FromAttribute(newValue) else old(labelValue)
      ensures toggleTheme == if Casing.KebabToCamel(name) == "toggleTheme" then FromAttribute(newValue) else old(toggleTheme)
      ensures toggleLabel == if Casing.KebabToCamel(name) == "toggleLabel" then FromAttribute(newValue) else old(toggleLabel)
      ensures value == if Casing.KebabToCamel(name) == "value" then FromAttribute(newValue) else old(value)
    {
      var property := Casing.KebabToCamel(name);
      var v := FromAttribute(newValue);
      if property == "buttonType" {
        SetButtonType(v);
      } else if property == "toggleTheme" {
        toggleTheme := v;
      } else if property == "toggleLabel" {
        toggleLabel := v;
      } else if property == "label" {
        labelValue := v;
      } else if property == "value" {
        value := v;
      }
    }

    /** The `buttonType` setter: becoming a toggle records the current label and theme to return to. */
    method SetButtonType(t: Value)
      modifies this`buttonType, this`baseLabel, this`baseTheme
      ensures buttonType == t
      ensures t == Str(TypeToggle) ==> baseLabel == Str(text) && baseTheme == FromAttribute(theme)
      ensures t != Str(TypeToggle) ==> baseLabel == old(baseLabel) && baseTheme == old(baseTheme)
    {
      buttonType := t;
      if t == Str(TypeToggle) {
        baseLabel := Str(text);
        baseTheme := FromAttribute(theme);
      }
    }

    /** The `theme` setter: reflected to the attribute as a string. */
    method SetTheme(t: Value)
      modifies this`theme
      ensures theme == Some(ToString(t))
    {
      theme := Some(ToString(t));
    }

    /** The `disabled` setter: the attribute is present exactly for truthy values. */
    method SetDisabled(disabled: Value)
      modifies this`disabledAttr
      ensures disabledAttr.Some? <==> Truthy(disabled)
      ensures disabledAttr == ReflectFlag(disabled)
    {
      disabledAttr := ReflectFlag(disabled);
    }

    /**
     * `toggleSwitch`: while checked, show the toggle label and theme where they are set and keep the
     * current ones otherwise; while unchecked, show the recorded base label and theme.
     */
    method ToggleSwitch()
      modifies this`text, this`theme
      ensures Checked() ==> text == (if Truthy(toggleLabel) then ToNullableString(toggleLabel) else old(text))
      ensures Checked() ==> theme == (if Truthy(toggleTheme) then Some(ToString(toggleTheme)) else old(theme))
      ensures !Checked() ==> text == ToNullableString(baseLabel) && theme == Some(ToString(baseTheme))
    {
      if Checked() {
        if Truthy(toggleLabel) {
          text := ToNullableString(toggleLabel);
        }
        if Truthy(toggleTheme) {
          SetTheme(toggleTheme);
        }
      } else {
        text := ToNullableString(baseLabel);
        SetTheme(baseTheme);
      }
    }

    /** The `checked` setter: reflect to the attribute, switch label and theme, report the new state to the form. */
    method SetChecked(checked: Value)
      modifies this`checkedAttr, this`text, this`theme, this`formValue
      ensures checkedAttr == ReflectFlag(checked)
      ensures Checked() <==> Truthy(checked)
      ensures formValue == Bool(Checked())
      ensures Checked() ==> text == (if Truthy(toggleLabel) then ToNullableString(toggleLabel) else old(text))
      ensures Checked() ==> theme == (if Truthy(toggleTheme) then Some(ToString(toggleTheme)) else old(theme))
      ensures !Checked() ==> text == ToNullableString(baseLabel) && theme == Some(ToString(baseTheme))
    {
      checkedAttr := ReflectFlag(checked);
      ToggleSwitch();
      formValue := Bool(Checked());
    }

    /** `handleButtonClick`: dispatch on the button type with strict string comparison. */
    method HandleButtonClick() returns (outcome: ClickOutcome)
      modifies this`checkedAttr, this`text, this`theme, this`formValue, this`formRequests
      ensures buttonType == Str(TypeSubmit) || buttonType == Str(TypeReset) ==>
        && outcome == (if hasForm then Handled else NoForm)
        && checkedAttr == old(checkedAttr) && text == old(text) && theme == old(theme) && formValue == old(formValue)
      ensures buttonType == Str(TypeSubmit) ==>
        formRequests == if hasForm then old(formRequests) + [RequestSubmit] else old(formRequests)
      ensures buttonType == Str(TypeReset) ==>
        formRequests == if hasForm then old(formRequests) + [RequestReset] else old(formRequests)
      ensures buttonType == Str(TypeToggle) ==>
        && outcome == Handled && formRequests == old(formRequests)
        && (Checked() <==> !old(Checked())) && formValue == Bool(Checked())
        && checkedAttr == (if old(Checked()) then None else Some("true"))
        && (Checked() ==> text == (if Truthy(toggleLabel) then ToNullableString(toggleLabel) else old(text)))
        && (Checked() ==> theme == (if Truthy(toggleTheme) then Some(ToString(toggleTheme)) else old(theme)))
        && (!Checked() ==> text == ToNullableString(baseLabel) && theme == Some(ToString(baseTheme)))
      ensures buttonType !in {Str(TypeSubmit), Str(TypeReset), Str(TypeToggle)} ==>
        && outcome == Handled && formRequests == old(formRequests)
        && checkedAttr == old(checkedAttr) && text == old(text) && theme == old(theme) && formValue == old(formValue)
    {
      outcome := Handled;
      if buttonType == Str(TypeSubmit) {
        if !hasForm {
          return NoForm;
        }
        formRequests := formRequests + [RequestSubmit];
      } else if buttonType == Str(TypeReset) {
        if !hasForm {
          return NoForm;
        }
        formRequests := formRequests + [RequestReset];
      } else if buttonType == Str(TypeToggle) {
        SetChecked(Bool(!Checked()));
      }
    }
  }

  /**
   * A button connected with a theme and then made a toggle (`button.buttonType = "toggle"`): two clicks check it, showing
   * the toggle label and theme, and uncheck it, restoring its label and theme.
   */
  method ToggleTwiceRestores(text: string, theme: string, toggleLabel: string, toggleTheme: string)
    returns (b: VaeButton, shown: string, shownTheme: Option<string>)
    requires theme != "" && toggleLabel != "" && toggleTheme != ""
    ensures shown == toggleLabel && shownTheme == Some(toggleTheme)
    ensures !b.Checked() && b.formValue == Bool(false)
    ensures b.text == text && b.theme == Some(theme)
  {
    b := new VaeButton(text, Some(theme), None, false);
    b.Connect();
    b.toggleLabel := Str(toggleLabel);
    b.toggleTheme := Str(toggleTheme);
    b.SetButtonType(Str(TypeToggle));
    assert b.baseLabel == Str(text) && b.baseTheme == Str(theme);
    var first := b.HandleButtonClick();
    assert b.Checked();
    shown, shownTheme := b.text, b.theme;
    var second := b.HandleButtonClick();
  }

  /**
   * The type is set before the element is connected and before any theme is set (as the attribute
   * callback does for markup `button-type="toggle"` without a `theme`), so the recorded base theme is null; connecting defaults the theme to "primary", but checking
   * and unchecking then leaves the theme attribute holding the string "null".
   */
  method ToggleWithoutThemeScenario(text: string, toggleTheme: string)
    returns (b: VaeButton, themeBefore: Option<string>)
    requires toggleTheme != ""
    ensures themeBefore == Some("primary")
    ensures !b.Checked() && b.theme == Some("null")
  {
    b := new VaeButton(text, None, None, false);
    b.SetButtonType(Str(TypeToggle));
    b.toggleTheme := Str(toggleTheme);
    assert b.baseTheme == Null;
    b.Connect();
    themeBefore := b.theme;
    var first := b.HandleButtonClick();
    assert b.Checked();
    var second := b.HandleButtonClick();
  }
}
