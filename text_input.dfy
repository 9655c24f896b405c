/**
 * The text input: a form-associated text field with a main label and a sub-label
 * that shows the error text in the "error" state and the helper text otherwise.
 * The form hears the field's value only when the element has a truthy `name`.
 */
module TextInput {
  import opened Wrappers
  import opened Dom

  const ObservedAttributes: seq<string> := ["name", "state", "label", "helper", "type", "error", "size"]

  /** `ALLOWED_STATES.ERROR_STATE` and `ALLOWED_SIZES.LONG`. */
  const ErrorState: string := "error"
  const LongSize: string := "long"

  /** The default helper and error text: a single no-break space. */
  const NoBreakSpace: string := "\U{00A0}"

  /** The sub-label for a state: the error text exactly in the state "error" (strict comparison), the helper text otherwise. */
  function SubLabelFor(state: Value, helper: Value, error: Value): (r: string)
    ensures state == Str(ErrorState) ==> r == ToNullableString(error)
    ensures state != Str(ErrorState) ==> r == ToNullableString(helper)
    ensures helper == error ==> r == ToNullableString(helper)
  {
    if state == Str(ErrorState) then ToNullableString(error) else ToNullableString(helper)
  }

  class VaeTextInput {
    /** `state_`, `label_`, `helper_`, `error_`, `type_`. */
    var state: Value
    var labelValue: Value
    var helper: Value
    var error: Value
    var inputType: Value
    /** The main label's and the sub-label's `textContent`. */
    var mainLabelText: string
    var subLabelText: string
    /** The `style-state` and `disabled` attributes. */
    var styleState: Option<string>
    var disabledAttr: Option<string>
    /** The plain `name` property. */
    var name: Value
    /** The current field node (0 for the first `input`, one more per replacement) and its `value`. */
    var field: nat
    var isTextArea: bool
    var fieldValue: string
    /** The field nodes that carry the `input` listener. */
    var listening: set<nat>
    /** The last value handed to `setFormValue` (null before the first). */
    var formValue: Value

    /**
     * The sub-label and main label always agree with the current state, helper, error and label,
     * and listeners sit only on the current field node or on nodes it replaced.
     */
    ghost predicate Valid()
      reads this
    {
      && subLabelText == SubLabelFor(state, helper, error)
      && mainLabelText == ToNullableString(labelValue)
      && (forall n :: n in listening ==> n <= field)
    }

    /** A new input: shadow tree with an empty `input`, then `setDefaults`. */
    constructor ()
      ensures Valid()
      ensures labelValue == Str("Label") && helper == Str(NoBreakSpace) && error == Str(NoBreakSpace)
      ensures state == Undefined && inputType == Undefined && subLabelText == NoBreakSpace && mainLabelText == "Label"
      ensures field == 0 && !isTextArea && fieldValue == "" && listening == {}
      ensures name == Undefined && formValue == Null && styleState == None && disabledAttr == None
    {
      state, labelValue, helper, error, inputType := Undefined, Undefined, Undefined, Undefined, Undefined;
      mainLabelText, subLabelText := "", "";
      styleState, disabledAttr := None, None;
      name := Undefined;
      field, isTextArea, fieldValue := 0, false, "";
      listening := {};
      formValue := Null;
      new;
      SetDefaults();
    }

    /** `setDefaults`: label "Label", helper and error a no-break space, each through its setter. */
    method SetDefaults()
      modifies this`labelValue, this`mainLabelText, this`helper, this`error, this`subLabelText
      ensures subLabelText == SubLabelFor(state, helper, error) && mainLabelText == ToNullableString(labelValue)
      ensures labelValue == Str("Label") && helper == Str(NoBreakSpace) && error == Str(NoBreakSpace)
    {
      SetLabel(Str("Label"));
      SetHelper(Str(NoBreakSpace));
      SetError(Str(NoBreakSpace));
    }

    /** `connectedCallback`: the `input` listener goes on the current field node. */
    method Connect()
      requires Valid()
      modifies this`listening
      ensures Valid()
      ensures listening == old(listening) + {field}
    {
      listening := listening + {field};
    }

    /** `disconnectedCallback`: the listener is removed from the current field node only. */
    method Disconnect()
      requires Valid()
      modifies this`listening
      ensures Valid()
      ensures listening == old(listening) - {field}
    {
      listening := listening - {field};
    }

    /** `attributeChangedCallback`: `this[name] = newValue`, with no case conversion. */
    method AttributeChanged(attribute: string, newValue: Option<string>)
      requires Valid()
      requires attribute in ObservedAttributes
      modifies this`name, this`state, this`styleState, this`labelValue, this`mainLabelText, this`helper, this`error
      modifies this`subLabelText, this`inputType, this`field, this`isTextArea, this`fieldValue
      ensures Valid()
      ensures name == if attribute == "name" then FromAttribute(newValue) else old(name)
      ensures state == if attribute == "state" then FromAttribute(newValue) else old(state)
      ensures labelValue == if attribute == "label" then FromAttribute(newValue) else old(labelValue)
      ensures helper == if attribute == "helper" then FromAttribute(newValue) else old(helper)
      ensures error == if attribute == "error" then FromAttribute(newValue) else old(error)
      ensures inputType == if attribute == "type" then FromAttribute(newValue) else old(inputType)
      ensures styleState == if attribute == "state" then Some(ToString(FromAttribute(newValue))) else old(styleState)
      ensures attribute == "size" && newValue == Some(LongSize) ==> field == old(field) + 1 && isTextArea && fieldValue == ""
      ensures !(attribute == "size" && newValue == Some(LongSize)) ==>
        field == old(field) && isTextArea == old(isTextArea) && fieldValue == old(fieldValue)
      ensures formValue == old(formValue) && listening == old(listening) && disabledAttr == old(disabledAttr)
      ensures mainLabelText == ToNullableString(labelValue) && subLabelText == SubLabelFor(state, helper, error)
    {
      var v := FromAttribute(newValue);
      if attribute == "name" {
        name := v;
      } else if attribute == "state" {
        SetState(v);
      } else if attribute == "label" {
        SetLabel(v);
      } else if attribute == "helper" {
        SetHelper(v);
      } else if attribute == "type" {
        SetType(v);
      } else if attribute == "error" {
        SetError(v);
      } else {
        SetSize(v);
      }
    }

    /** The `value` setter: write the field, then sync the form as an `input` event would. */
    method SetValue(value: Value)
      modifies this`fieldValue, this`formValue
      ensures fieldValue == ToLegacyNullString(value)
      ensures formValue == if Truthy(name) then Str(fieldValue) else old(formValue)
    {
      fieldValue := ToLegacyNullString(value);
      TextInputChanged();
    }

    /** The `state` setter: re-derive the sub-label and mirror the state into `style-state`. */
    method SetState(newState: Value)
      requires Valid()
      modifies this`state, this`subLabelText, this`styleState
      ensures Valid()
      ensures state == newState
      ensures subLabelText == if newState == Str(ErrorState) then ToNullableString(error) else ToNullableString(helper)
      ensures styleState == Some(ToString(newState))
    {
      state := newState;
      SubLabelUpdate();
      styleState := Some(ToString(newState));
    }

    /** The `label` setter. */
    method SetLabel(newLabel: Value)
      modifies this`labelValue, this`mainLabelText
      ensures labelValue == newLabel && mainLabelText == ToNullableString(newLabel)
    {
      labelValue := newLabel;
      mainLabelText := ToNullableString(newLabel);
    }

    /** The `helper` setter: shown at once unless the state is "error". */
    method SetHelper(newHelper: Value)
      modifies this`helper, this`subLabelText
      ensures helper == newHelper
      ensures subLabelText == SubLabelFor(state, helper, error)
      ensures state != Str(ErrorState) ==> subLabelText == ToNullableString(newHelper)
    {
      helper := newHelper;
      SubLabelUpdate();
    }

    /** The `error` setter: shown at once if the state is "error". */
    method SetError(newError: Value)
      modifies this`error, this`subLabelText
      ensures error == newError
      ensures subLabelText == SubLabelFor(state, helper, error)
      ensures state == Str(ErrorState) ==> subLabelText == ToNullableString(newError)
    {
      error := newError;
      SubLabelUpdate();
    }

    /** The `type` setter, as far as `type_` goes. */
    method SetType(newType: Value)
      modifies this`inputType
      ensures inputType == newType
    {
      inputType := newType;
    }

    /** The `size` setter: only "long" replaces the field, by a fresh empty `textarea`; anything else does nothing. */
    method SetSize(size: Value)
      modifies this`field, this`isTextArea, this`fieldValue
      ensures size == Str(LongSize) ==> field == old(field) + 1 && isTextArea && fieldValue == ""
      ensures size != Str(LongSize) ==> field == old(field) && isTextArea == old(isTextArea) && fieldValue == old(fieldValue)
    {
      if size == Str(LongSize) {
        field := field + 1;
        isTextArea := true;
        fieldValue := "";
      }
    }

    /** `subLabelUpdate`. */
    method SubLabelUpdate()
      modifies this`subLabelText
      ensures subLabelText == SubLabelFor(state, helper, error)
      ensures state == Str(ErrorState) ==> subLabelText == ToNullableString(error)
      ensures state != Str(ErrorState) ==> subLabelText == ToNullableString(helper)
    {
      if state == Str(ErrorState) {
        subLabelText := ToNullableString(error);
      } else {
        subLabelText := ToNullableString(helper);
      }
    }

    /** The `disabled` setter: the attribute is present exactly for truthy values. */
    method SetDisabled(disabled: Value)
      modifies this`disabledAttr
      ensures disabledAttr == ReflectFlag(disabled)
      ensures disabledAttr.Some? <==> Truthy(disabled)
    {
      disabledAttr := ReflectFlag(disabled);
    }

    /** `textInputChanged`: the form hears the field's value only when `name` is truthy. */
    method TextInputChanged()
      modifies this`formValue
      ensures Truthy(name) ==> formValue == Str(fieldValue)
      ensures !Truthy(name) ==> formValue == old(formValue)
    {
      if Truthy(name) {
        formValue := Str(fieldValue);
      }
    }

    /** The user types `text` into the current field; its `input` event reaches the element only through a listener on that node. */
    method UserInput(text: string)
      modifies this`fieldValue, this`formValue
      ensures fieldValue == text
      ensures formValue == if field in listening && Truthy(name) then Str(text) else old(formValue)
    {
      fieldValue := text;
      if field in listening {
        TextInputChanged();
      }
    }
  }

  /**
   * A named input: typing reaches the form; after `size` becomes "long" on a connected input the
   * listener stays on the replaced node, so typing into the textarea no longer reaches the form,
   * while the `value` setter still does.
   */
  method LongSizeAfterConnectScenario(fieldName: string, typed: string, later: string, written: string)
    returns (t: VaeTextInput, formAfterTyping: Value)
    requires fieldName != ""
    ensures formAfterTyping == Str(typed)
    ensures t.isTextArea && t.fieldValue == written && t.formValue == Str(written)
  {
    t := new VaeTextInput();
    t.AttributeChanged("name", Some(fieldName));
    t.Connect();
    t.UserInput(typed);
    formAfterTyping := t.formValue;
    t.AttributeChanged("size", Some(LongSize));
    t.UserInput(later);
    assert t.formValue == Str(typed);
    t.SetValue(Str(written));
  }

  /** The sub-label follows the state: helper text, then the error text in the "error" state, then helper text again. */
  method ErrorStateScenario(helperText: string, errorText: string)
    returns (t: VaeTextInput, inError: string, cleared: string)
    ensures inError == errorText && cleared == helperText
    ensures t.styleState == Some("valid") && t.subLabelText == helperText
  {
    t := new VaeTextInput();
    t.AttributeChanged("helper", Some(helperText));
    t.AttributeChanged("error", Some(errorText));
    t.AttributeChanged("state", Some(ErrorState));
    inError := t.subLabelText;
    t.AttributeChanged("state", Some("valid"));
    cleared := t.subLabelText;
  }
}
