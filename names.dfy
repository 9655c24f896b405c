/**
 * The registered tag names of the components and the shared theme table.
 * At module load every entry of `componentNames` is rewritten in place to carry
 * the "vae-" prefix, walking the keys in insertion order.
 */
module Names {

  /** The prefix every registered tag name carries. */
  const BaseName: string := "vae-"

  /** `Object.keys(componentNames)`, in insertion order. */
  const ComponentKeys: seq<string> :=
    ["layer", "textInput", "button", "modal", "header", "checkBox", "listbar", "dropdown", "filePicker"]

  /** `componentNames` as written, before the prefix is added. */
  const Literal: map<string, string> := map[
    "layer" := "layer", "textInput" := "text-input", "button" := "button",
    "modal" := "modal", "header" := "header", "checkBox" := "checkbox",
    "listbar" := "listbar", "dropdown" := "dropdown", "filePicker" := "file-picker"]

  /** `componentNames` once the module has loaded: the names `customElements.define` receives. */
  const Registered: map<string, string> := map[
    "layer" := "vae-layer", "textInput" := "vae-text-input", "button" := "vae-button",
    "modal" := "vae-modal", "header" := "vae-header", "checkBox" := "vae-checkbox",
    "listbar" := "vae-listbar", "dropdown" := "vae-dropdown", "filePicker" := "vae-file-picker"]

  /** `ALLOWED_THEMES`, shared by the checkbox and the button's connect-time default. */
  const AllowedThemes: map<string, string> := map[
    "PRIMARY" := "primary", "SECONDARY" := "secondary", "ERROR" := "error"]

  predicate DistinctKeys(keys: seq<string>)
  {
    forall i, j :: 0 <= i < j < |keys| ==> keys[i] != keys[j]
  }

  /** No two keys of the table share a value. */
  predicate Injective(table: map<string, string>)
  {
    forall k1, k2 :: k1 in table && k2 in table && k1 != k2 ==> table[k1] != table[k2]
  }

  /** The table with `prefix` put in front of every value. */
  function Prefixed(prefix: string, table: map<string, string>): (r: map<string, string>)
    ensures r.Keys == table.Keys
  {
    map k | k in table :: prefix + table[k]
  }

  /** Prefixing keeps distinct names distinct, so no two components register under one tag. */
  lemma PrefixedInjective(prefix: string, table: map<string, string>)
    requires Injective(table)
    ensures Injective(Prefixed(prefix, table))
  {
    var r := Prefixed(prefix, table);
    forall k1, k2 | k1 in r && k2 in r && k1 != k2
      ensures r[k1] != r[k2]
    {
      assert r[k1][|prefix|..] == table[k1];
      assert r[k2][|prefix|..] == table[k2];
    }
  }

  /** The table as written has distinct values, so the registered names are distinct too. */
  lemma RegisteredNamesDistinct()
    ensures Injective(Literal)
    ensures Injective(Registered)
  {
    PrefixedInjective(BaseName, Literal);
    LiteralPrefixed();
  }

  /** Adding the prefix once to the table as written gives the registered names. */
  lemma LiteralPrefixed()
    ensures Prefixed(BaseName, Literal) == Registered
  {
    var r := Prefixed(BaseName, Literal);
    assert r["layer"] == "vae-layer";
    assert r["textInput"] == "vae-text-input";
    assert r["button"] == "vae-button";
    assert r["modal"] == "vae-modal";
    assert r["header"] == "vae-header";
    assert r["checkBox"] == "vae-checkbox";
    assert r["listbar"] == "vae-listbar";
    assert r["dropdown"] == "vae-dropdown";
    assert r["filePicker"] == "vae-file-picker";
  }

  /** The `componentNames` object: its keys in insertion order and its current values. */
  class ComponentNames {
    var names: map<string, string>
    const keys: seq<string>

    ghost predicate Valid()
      reads this
    {
      DistinctKeys(keys) && names.Keys == set k | k in keys
    }

    /** The object literal. */
    constructor ()
      ensures Valid()
      ensures keys == ComponentKeys && names == Literal
    {
      keys := ComponentKeys;
      names := Literal;
    }

    /** The module-level `forEach` over `Object.keys`, rewriting each value in place. */
    method AddPrefix()
      requires Valid()
      modifies this`names
      ensures Valid()
      ensures names == Prefixed(BaseName, old(names))
    {
      var i := 0;
      while i < |keys|
        invariant 0 <= i <= |keys|
        invariant names.Keys == old(names).Keys
        invariant forall j :: 0 <= j < i ==> names[keys[j]] == BaseName + old(names)[keys[j]]
        invariant forall j :: i <= j < |keys| ==> names[keys[j]] == old(names)[keys[j]]
      {
        var name := keys[i];
        names := names[name := BaseName + names[name]];
        i := i + 1;
      }
      forall k | k in names
        ensures names[k] == Prefixed(BaseName, old(names))[k]
      {
        var j :| 0 <= j < |keys| && keys[j] == k;
      }
    }
  }

  /** Loading the module: build the table and prefix it; every key gets the prefix exactly once. */
  method LoadComponentNames() returns (registered: map<string, string>)
    ensures registered == Registered
    ensures registered["filePicker"] == "vae-file-picker" && registered["checkBox"] == "vae-checkbox"
  {
    var table := new ComponentNames();
    table.AddPrefix();
    registered := table.names;
    LiteralPrefixed();
  }
}
