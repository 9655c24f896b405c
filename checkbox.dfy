/**
 * The checkbox: a form-associated button whose click flips its `checked`
 * attribute and reports the new state to the form.
 */
module Checkbox {
  import opened Wrappers
  import opened Dom
  import Casing
  import Names

  /** The attributes the checkbox observes; each assigns the property of exactly the same name. */
  const ObservedAttributes: seq<string> := ["name", "icon", "unchecked"]

  /** The default icon. */
  const CheckMark: string := "\U{2713}"

  class VaeCheckBox {
    /** The `checked`, `theme` and `disabled` attributes of the element. */
    var checkedAttr: Option<string>
    var theme: Option<string>
    var disabledAttr: Option<string>
    /** The `icon` and `unchecked` attributes of the inner button. */
    var icon: Option<string>
    var uncheckedIcon: Option<string>
    /** The plain `name` property. */
    var name: Value
    /** The last value handed to `setFormValue` (null before the first). */
    var formValue: Value
    /** Whether the click listener is registered on the inner button. */
    var clickListener: bool

    /** The `checked` getter: the attribute is present. */
    function Checked(): bool
      reads this
    {
      checkedAttr.Some?
    }

    constructor (checkedAttr: Option<string>, theme: Option<string>)
      ensures this.checkedAttr == checkedAttr && this.theme == theme
      ensures disabledAttr == None && icon == None && uncheckedIcon == None
      ensures name == Undefined && formValue == Null && !clickListener
    {
      this.checkedAttr := checkedAttr;
      this.theme := theme;
      disabledAttr, icon, uncheckedIcon := None, None, None;
      name := Undefined;
      formValue := Null;
      clickListener := false;
    }

    /** `connectedCallback`: listener, theme and icon defaults where unset or empty, and an unchecked form value. */
    method Connect()
      modifies this`clickListener, this`theme, this`icon, this`formValue
      ensures clickListener
      ensures theme == if Truthy(FromAttribute(old(theme))) then old(theme) else Some("primary")
      ensures icon == if Truthy(FromAttribute(old(icon))) then old(icon) else Some(CheckMark)
      ensures formValue == Bool(false)
    {
      clickListener := true;
      if !Truthy(FromAttribute(theme)) {
        SetTheme(Str(Names.AllowedThemes["PRIMARY"]));
      }
      if !Truthy(FromAttribute(icon)) {
        SetIcon(Str(CheckMark));
      }
      formValue := Bool(false);
    }

    /** `disconnectedCallback`: remove the click listener. */
    method Disconnect()
      modifies this`clickListener
      ensures !clickListener
    {
      clickListener := false;
    }

    /** `toggleCheckbox`: set `checked` to the negation of what it reads. */
    method ToggleCheckbox()
      modifies this`checkedAttr, this`formValue
      ensures Checked() <==> !old(Checked())
      ensures checkedAttr == if old(Checked()) then None else Some("true")
      ensures formValue == Bool(Checked())
    {
      SetChecked(Bool(!Checked()));
    }

    /** `attributeChangedCallback`: `this[name] = newValue`, with no case conversion. */
    method AttributeChanged(attribute: string, newValue: Option<string>)
      requires attribute in ObservedAttributes
      modifies this`name, this`icon, this`uncheckedIcon
      ensures name == if attribute == "name" then FromAttribute(newValue) else old(name)
      ensures icon == if attribute == "icon" then Some(ToString(FromAttribute(newValue))) else old(icon)
      ensures uncheckedIcon == if attribute == "unchecked" then Some(ToString(FromAttribute(newValue))) else old(uncheckedIcon)
    {
      var v := FromAttribute(newValue);
      if attribute == "name" {
        name := v;
      } else if attribute == "icon" {
        SetIcon(v);
      } else {
        SetUnchecked(v);
      }
    }

    /** The `checked` setter: the attribute is present exactly for truthy values; the form gets the resulting state. */
    method SetChecked(checked: Value)
      modifies this`checkedAttr, this`formValue
      ensures checkedAttr == ReflectFlag(checked)
      ensures Checked() <==> Truthy(checked)
      ensures formValue == Bool(Checked())
    {
      checkedAttr := ReflectFlag(checked);
      formValue := Bool(Checked());
    }

    /** The `theme` setter. */
    method SetTheme(t: Value)
      modifies this`theme
      ensures theme == Some(ToString(t))
    {
      theme := Some(ToString(t));
    }

    /** The `icon` setter: an attribute of the inner button; a null icon is written as the string "null". */
    method SetIcon(i: Value)
      modifies this`icon
      ensures icon == Some(ToString(i))
    {
      icon := Some(ToString(i));
    }

    /** The `unchecked` setter, likewise on the inner button. */
    method SetUnchecked(i: Value)
      modifies this`uncheckedIcon
      ensures uncheckedIcon == Some(ToString(i))
    {
      uncheckedIcon := Some(ToString(i));
    }

    /** The `disabled` setter: the attribute is present exactly for truthy values. */
    method SetDisabled(disabled: Value)
      modifies this`disabledAttr
      ensures disabledAttr == ReflectFlag(disabled)
      ensures disabledAttr.Some? <==> Truthy(disabled)
    {
      disabledAttr := ReflectFlag(disabled);
    }
  }

  /** The observed names contain no dash, so exact-name dispatch assigns the property the kebab-to-camel rewrite would pick. */
  lemma ExactNameDispatch(attribute: string)
    requires attribute in ObservedAttributes
    ensures Casing.KebabToCamel(attribute) == attribute
  {
    Casing.NoDashUnchanged(attribute);
  }

  /**
   * Two toggles restore whether the box is checked, though not the attribute's text: a box that
   * starts with `checked=""` ends with `checked="true"`. Connecting reports unchecked to the form
   * whatever the attribute says.
   */
  method ToggleTwiceScenario(initial: Option<string>)
    returns (c: VaeCheckBox, formAtConnect: Value)
    ensures formAtConnect == Bool(false)
    ensures c.Checked() == initial.Some?
    ensures initial.Some? ==> c.checkedAttr == Some("true")
    ensures c.formValue == Bool(initial.Some?)
    ensures c.theme == Some("primary") && c.icon == Some(CheckMark)
  {
    c := new VaeCheckBox(initial, None);
    c.Connect();
    formAtConnect := c.formValue;
    c.ToggleCheckbox();
    c.ToggleCheckbox();
  }
}
