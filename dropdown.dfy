/**
 * The dropdown: a form-associated button that opens a list of `vae-button`
 * choices. Connecting records, for every choice, its text, its value and the
 * click listener that selects it, in three parallel arrays; clicking a choice
 * selects its index, shows its text and flips the `open` attribute.
 */
module Dropdown {
  import opened Wrappers
  import opened Dom
  import Casing

  const ObservedAttributes: seq<string> := ["label", "name", "placeholder", "selected"]

  /** A `vae-button` choice as the connect-time query finds it: its node, its `textContent` and its `value` property. */
  datatype Choice = Choice(node: nat, text: string, value: Value)

  /** A click listener on a choice: the choice's node, the index its callback captured, and the callback's identity. */
  datatype Listener = Listener(node: nat, index: nat, callback: nat)

  function Texts(choices: seq<Choice>): (r: seq<string>)
    ensures |r| == |choices|
  {
    seq(|choices|, j requires 0 <= j < |choices| => choices[j].text)
  }

  function ValuesOf(choices: seq<Choice>): (r: seq<Value>)
    ensures |r| == |choices|
  {
    seq(|choices|, j requires 0 <= j < |choices| => choices[j].value)
  }

  /** The listeners one connect registers: choice `j` selects index `j`, with a fresh callback each. */
  function ListenersFor(choices: seq<Choice>, firstCallback: nat): (r: seq<Listener>)
    ensures |r| == |choices|
  {
    seq(|choices|, j requires 0 <= j < |choices| => Listener(choices[j].node, j, firstCallback + j))
  }

  /** The recorded texts as JavaScript strings. */
  function AsValues(texts: seq<string>): (r: seq<Value>)
    ensures |r| == |texts|
    ensures forall j :: 0 <= j < |texts| ==> r[j] == Str(texts[j])
  {
    seq(|texts|, j requires 0 <= j < |texts| => Str(texts[j]))
  }

  /**
   * The text `setDropdownText` writes into the button: the placeholder while nothing is selected
   * (loosely `== undefined`), otherwise `displayValues[selected]` as `textContent` receives it, so
   * a missing entry shows "" and the key "length" shows the number of entries.
   */
  function DropdownText(selected: Value, placeholder: Value, displayValues: seq<string>): (r: string)
    ensures IsNullish(selected) ==> r == ToNullableString(placeholder)
    ensures !IsNullish(selected) && At(displayValues, selected).Some? ==> r == At(displayValues, selected).value
    ensures selected == Str(LengthKey) ==> r == NatToString(|displayValues|)
    ensures !IsNullish(selected) && At(displayValues, selected).None? && selected != Str(LengthKey) ==> r == ""
  {
    if IsNullish(selected) then ToNullableString(placeholder)
    else ToNullableString(Read(AsValues(displayValues), selected))
  }

  class VaeDropdown {
    /** `displayValues`, `values` and `eventListeners`: one entry per choice per connect. */
    var displayValues: seq<string>
    var values: seq<Value>
    var eventListeners: seq<Listener>
    /** The choice listeners currently attached. */
    var registered: set<Listener>
    /** Whether the dropdown button's own click listener is attached. */
    var ownListener: bool
    /** Numbering of fresh callbacks. */
    var nextCallback: nat
    /** `selected_`. */
    var selected: Value
    /** The `open` attribute. */
    var openAttr: Option<string>
    /** Plain properties `placeholder` and `name`; `label_` and the label's text. */
    var placeholder: Value
    var name: Value
    var labelValue: Value
    var labelText: string
    /** The dropdown button's `textContent`. */
    var shownText: string
    /** The last value handed to `setFormValue` (null before the first). */
    var formValue: Value

    ghost predicate Valid()
      reads this
    {
      && |displayValues| == |values| == |eventListeners|
      && (forall k :: 0 <= k < |eventListeners| ==> eventListeners[k].index <= k)
      && (forall k :: 0 <= k < |eventListeners| ==> eventListeners[k].callback < nextCallback)
      && (forall l :: l in registered ==> l in eventListeners)
    }

    /** The `open` getter: the attribute is present. */
    function Open(): bool
      reads this
    {
      openAttr.Some?
    }

    constructor (openAttr: Option<string>)
      ensures Valid()
      ensures displayValues == [] && values == [] && eventListeners == [] && registered == {}
      ensures this.openAttr == openAttr && selected == Undefined && !ownListener
      ensures placeholder == Undefined && name == Undefined && labelValue == Undefined
      ensures labelText == "" && shownText == "" && formValue == Null && nextCallback == 0
    {
      displayValues, values, eventListeners := [], [], [];
      registered := {};
      ownListener := false;
      nextCallback := 0;
      selected := Undefined;
      this.openAttr := openAttr;
      placeholder, name, labelValue := Undefined, Undefined, Undefined;
      labelText, shownText := "", "";
      formValue := Null;
    }

    /** `connectedCallback`: show the current text, record the choices, attach the dropdown's own listener. */
    method Connect(choices: seq<Choice>)
      requires Valid()
      modifies this`shownText, this`displayValues, this`values, this`eventListeners, this`registered, this`nextCallback, this`ownListener
      ensures Valid() && ownListener
      ensures shownText == DropdownText(selected, placeholder, old(displayValues))
      ensures displayValues == old(displayValues) + Texts(choices)
      ensures values == old(values) + ValuesOf(choices)
      ensures eventListeners == old(eventListeners) + ListenersFor(choices, old(nextCallback))
      ensures registered == old(registered) + set l | l in ListenersFor(choices, old(nextCallback))
      ensures nextCallback == old(nextCallback) + |choices|
    {
      SetDropdownText();
      SetupDropdownChoices(choices);
      ownListener := true;
    }

    /** `disconnectedCallback`: detach the dropdown's listener and every listener ever recorded. */
    method Disconnect()
      requires Valid()
      modifies this`ownListener, this`registered
      ensures Valid() && !ownListener
      ensures registered == {}
      ensures forall l :: l in eventListeners ==> l !in registered
    {
      ownListener := false;
      var i := 0;
      while i < |eventListeners|
        invariant 0 <= i <= |eventListeners|
        invariant !ownListener
        invariant registered == old(registered) - set l | l in eventListeners[..i]
      {
        assert eventListeners[..i + 1] == eventListeners[..i] + [eventListeners[i]];
        registered := registered - {eventListeners[i]};
        i := i + 1;
      }
      assert eventListeners[..i] == eventListeners;
    }

    /** `setupDropdownChoices`: push each choice's text, value and listener, in document order. */
    method SetupDropdownChoices(choices: seq<Choice>)
      requires Valid()
      modifies this`displayValues, this`values, this`eventListeners, this`registered, this`nextCallback
      ensures Valid()
      ensures displayValues == old(displayValues) + Texts(choices)
      ensures values == old(values) + ValuesOf(choices)
      ensures eventListeners == old(eventListeners) + ListenersFor(choices, old(nextCallback))
      ensures registered == old(registered) + set l | l in ListenersFor(choices, old(nextCallback))
      ensures nextCallback == old(nextCallback) + |choices|
    {
      var first := nextCallback;
      var i := 0;
      while i < |choices|
        invariant 0 <= i <= |choices|
        invariant nextCallback == first + i
        invariant displayValues == old(displayValues) + Texts(choices)[..i]
        invariant values == old(values) + ValuesOf(choices)[..i]
        invariant eventListeners == old(eventListeners) + ListenersFor(choices, first)[..i]
        invariant registered == old(registered) + set l | l in ListenersFor(choices, first)[..i]
        invariant Valid()
      {
        var choice := choices[i];
        var listener := Listener(choice.node, i, nextCallback);
        assert Texts(choices)[..i + 1] == Texts(choices)[..i] + [choice.text];
        assert ValuesOf(choices)[..i + 1] == ValuesOf(choices)[..i] + [choice.value];
        assert ListenersFor(choices, first)[..i + 1] == ListenersFor(choices, first)[..i] + [listener];
        displayValues := displayValues + [choice.text];
        values := values + [choice.value];
        eventListeners := eventListeners + [listener];
        registered := registered + {listener};
        nextCallback := nextCallback + 1;
        i := i + 1;
      }
      assert Texts(choices)[..i] == Texts(choices);
      assert ValuesOf(choices)[..i] == ValuesOf(choices);
      assert ListenersFor(choices, first)[..i] == ListenersFor(choices, first);
    }

    /** `setDropdownText`: the selected entry's text when a selection exists (loosely `!= undefined`), else the placeholder. */
    method SetDropdownText()
      modifies this`shownText
      ensures shownText == DropdownText(selected, placeholder, displayValues)
    {
      if !IsNullish(selected) {
        shownText := ToNullableString(Read(AsValues(displayValues), selected));
      } else {
        shownText := ToNullableString(placeholder);
      }
    }

    /** `modifyOpenState`: set `open` to the negation of what it reads. */
    method ModifyOpenState()
      modifies this`openAttr
      ensures Open() <==> !old(Open())
      ensures openAttr == if old(Open()) then None else Some("true")
    {
      SetOpen(Bool(!Open()));
    }

    /** The `open` setter: the attribute is present exactly for truthy values. */
    method SetOpen(open: Value)
      modifies this`openAttr
      ensures openAttr == ReflectFlag(open)
      ensures Open() <==> Truthy(open)
    {
      openAttr := ReflectFlag(open);
    }

    /** The `selected` setter: record the key, hand `values[key]` to the form, refresh the shown text. */
    method SetSelected(key: Value)
      modifies this`selected, this`formValue, this`shownText
      ensures selected == key
      ensures formValue == Read(values, key)
      ensures shownText == DropdownText(key, placeholder, displayValues)
    {
      selected := key;
      formValue := Read(values, selected);
      SetDropdownText();
    }

    /** The `label` setter. */
    method SetLabel(newLabel: Value)
      modifies this`labelValue, this`labelText
      ensures labelValue == newLabel && labelText == ToNullableString(newLabel)
    {
      labelValue := newLabel;
      labelText := ToNullableString(newLabel);
    }

    /** A choice's click callback: select its captured index, show that entry's text, flip `open`. */
    method ChoiceClicked(listener: Listener)
      requires Valid() && listener in registered
      modifies this`selected, this`formValue, this`shownText, this`openAttr
      ensures selected == Num(listener.index)
      ensures listener.index < |displayValues|
      ensures shownText == displayValues[listener.index]
      ensures formValue == values[listener.index]
      ensures Open() <==> !old(Open())
      ensures openAttr == if old(Open()) then None else Some("true")
    {
      var k :| 0 <= k < |eventListeners| && eventListeners[k] == listener;
      SetSelected(Num(listener.index));
      SetDropdownText();
      ModifyOpenState();
    }

    /** `attributeChangedCallback`: the camel-cased attribute name picks the property. */
    method AttributeChanged(attribute: string, newValue: Option<string>)
      requires attribute in ObservedAttributes
      modifies this`labelValue, this`labelText, this`name, this`placeholder, this`selected, this`formValue, this`shownText
      ensures labelValue == if Casing.KebabToCamel(attribute) == "label" then FromAttribute(newValue) else old(labelValue)
      ensures name == if Casing.KebabToCamel(attribute) == "name" then FromAttribute(newValue) else old(name)
      ensures placeholder == if Casing.KebabToCamel(attribute) == "placeholder" then FromAttribute(newValue) else old(placeholder)
      ensures selected == if Casing.KebabToCamel(attribute) == "selected" then FromAttribute(newValue) else old(selected)
      ensures labelText == if Casing.KebabToCamel(attribute) == "label" then ToNullableString(FromAttribute(newValue)) else old(labelText)
      ensures formValue == if Casing.KebabToCamel(attribute) == "selected" then Read(values, FromAttribute(newValue)) else old(formValue)
      ensures shownText == if Casing.KebabToCamel(attribute) == "selected" then DropdownText(FromAttribute(newValue), placeholder, displayValues) else old(shownText)
    {
      var property := Casing.KebabToCamel(attribute);
      var v := FromAttribute(newValue);
      if property == "label" {
        SetLabel(v);
      } else if property == "name" {
        name := v;
      } else if property == "placeholder" {
        placeholder := v;
      } else if property == "selected" {
        SetSelected(v);
      }
    }
  }

  /**
   * Two choices; clicking the second selects and shows it and opens the list. Reconnecting over the
   * same choices appends a second copy of every entry, and the new listener for the second choice
   * still shows the second choice's text, read from the first copy.
   */
  method ChoiceScenario(a: Choice, b: Choice)
    returns (d: VaeDropdown, shownFirst: string, openFirst: bool)
    ensures shownFirst == b.text && openFirst
    ensures |d.displayValues| == 4 && |d.values| == 4 && |d.eventListeners| == 4
    ensures d.shownText == b.text && d.formValue == b.value && !d.Open()
  {
    d := new VaeDropdown(None);
    d.Connect([a, b]);
    var second := d.eventListeners[1];
    assert second in d.registered;
    d.ChoiceClicked(second);
    shownFirst, openFirst := d.shownText, d.Open();
    d.Disconnect();
    d.Connect([a, b]);
    var again := d.eventListeners[3];
    assert again.index == 1 && again in d.registered;
    d.ChoiceClicked(again);
  }

  /**
   * Markup `selected="1"`: the attribute arrives before the choices are recorded, so the form gets
   * `undefined` and the button shows "" once connected. Setting `selected` to "1" afterwards reads
   * the same entry as index 1.
   */
  method MarkupSelectedScenario(a: Choice, b: Choice)
    returns (d: VaeDropdown, formAtConnect: Value, shownAtConnect: string)
    ensures formAtConnect == Undefined && shownAtConnect == ""
    ensures d.formValue == b.value && d.shownText == b.text
  {
    d := new VaeDropdown(None);
    d.SetSelected(Str("1"));
    d.Connect([a, b]);
    formAtConnect, shownAtConnect := d.formValue, d.shownText;
    d.SetSelected(Str("1"));
    AtStringKey(d.values, 1);
    AtStringKey(d.displayValues, 1);
  }

  /**
   * Markup `selected="length"`: the key names the arrays' own `length`, so the form gets 0 and the
   * button shows "0" once connected; set again over two recorded choices, the form gets 2 and the
   * button shows "2".
   */
  method LengthKeyScenario(a: Choice, b: Choice)
    returns (d: VaeDropdown, formAtConnect: Value, shownAtConnect: string)
    ensures formAtConnect == Num(0) && shownAtConnect == "0"
    ensures d.formValue == Num(2) && d.shownText == "2"
  {
    d := new VaeDropdown(None);
    d.SetSelected(Str(LengthKey));
    d.Connect([a, b]);
    formAtConnect, shownAtConnect := d.formValue, d.shownText;
    d.SetSelected(Str(LengthKey));
  }
}
