/**
 * The attribute-name rewrite the button and dropdown use to find the property an
 * attribute change assigns: `name.replace(/-./g, m => m[1].toUpperCase())`.
 * The regular expression matches a dash and the one character after it, left to
 * right and without overlap; `.` matches anything but a line terminator.
 */
module Casing {
  import Dom

  predicate IsLineTerminator(c: char)
  {
    c == '\n' || c == '\r' || c == '\U{2028}' || c == '\U{2029}'
  }

  predicate IsLower(c: char)
  {
    'a' <= c <= 'z'
  }

  predicate IsUpper(c: char)
  {
    'A' <= c <= 'Z'
  }

  /** Upper-casing of one character, for the ASCII letters (other characters are returned unchanged). */
  function ToUpper(c: char): (u: char)
    ensures IsLower(c) ==> IsUpper(u) && u as int == c as int - 32
    ensures !IsLower(c) ==> u == c
  {
    if IsLower(c) then (c as int - 32) as char else c
  }

  function ToLower(c: char): (l: char)
    ensures IsUpper(c) ==> IsLower(l)
    ensures !IsUpper(c) ==> l == c
  {
    if IsUpper(c) then (c as int + 32) as char else c
  }

  /** Each match of `-.` is replaced by its second character upper-cased; one character shorter per match. */
  function KebabToCamel(s: string): (r: string)
    ensures |r| <= |s|
    ensures |r| == |s| ==> r == s
    decreases |s|
  {
    if |s| >= 2 && s[0] == '-' && !IsLineTerminator(s[1]) then
      [ToUpper(s[1])] + KebabToCamel(s[2..])
    else if s == [] then
      []
    else
      [s[0]] + KebabToCamel(s[1..])
  }

  /** The reference inverse: each upper-case letter becomes a dash and its lower-case form. */
  function CamelToKebab(t: string): (r: string)
    ensures |r| >= |t|
    decreases |t|
  {
    if t == [] then []
    else (if IsUpper(t[0]) then ['-', ToLower(t[0])] else [t[0]]) + CamelToKebab(t[1..])
  }

  /** Attribute names in kebab case: lower-case letters and digits, every dash followed by a letter. */
  predicate IsKebab(s: string)
    decreases |s|
  {
    if s == [] then true
    else if s[0] == '-' then |s| >= 2 && IsLower(s[1]) && IsKebab(s[2..])
    else (IsLower(s[0]) || Dom.IsDigit(s[0])) && IsKebab(s[1..])
  }

  /** Property names in camel case: ASCII letters and digits. */
  predicate IsCamel(t: string)
  {
    forall i :: 0 <= i < |t| ==> IsLower(t[i]) || IsUpper(t[i]) || Dom.IsDigit(t[i])
  }

  /** A name without a dash is its own property name: the checkbox's and text input's exact-name dispatch agrees with the rewrite on such names. */
  lemma {:induction false} NoDashUnchanged(s: string)
    requires forall i :: 0 <= i < |s| ==> s[i] != '-'
    ensures KebabToCamel(s) == s
    decreases |s|
  {
    if s != [] {
      NoDashUnchanged(s[1..]);
    }
  }

  /** The rewrite leaves no dash behind in a kebab-case name, and the result is camel case. */
  lemma {:induction false} KebabGivesCamel(s: string)
    requires IsKebab(s)
    ensures IsCamel(KebabToCamel(s))
    decreases |s|
  {
    if s != [] {
      if s[0] == '-' {
        KebabGivesCamel(s[2..]);
      } else {
        KebabGivesCamel(s[1..]);
      }
    }
  }

  /** Kebab case round trip: camel-casing an attribute name loses nothing. */
  lemma {:induction false} KebabRoundTrip(s: string)
    requires IsKebab(s)
    ensures CamelToKebab(KebabToCamel(s)) == s
    decreases |s|
  {
    if s != [] {
      if s[0] == '-' {
        KebabRoundTrip(s[2..]);
        var r := KebabToCamel(s);
        assert r == [ToUpper(s[1])] + KebabToCamel(s[2..]);
        assert r[0] == ToUpper(s[1]) && r[1..] == KebabToCamel(s[2..]);
        assert s == ['-', s[1]] + s[2..];
      } else {
        KebabRoundTrip(s[1..]);
        var r := KebabToCamel(s);
        assert r[0] == s[0] && r[1..] == KebabToCamel(s[1..]);
        assert s == [s[0]] + s[1..];
      }
    }
  }

  /** Distinct kebab-case attribute names assign distinct properties. */
  lemma KebabNamesDistinct(a: string, b: string)
    requires IsKebab(a) && IsKebab(b)
    requires KebabToCamel(a) == KebabToCamel(b)
    ensures a == b
  {
    KebabRoundTrip(a);
    KebabRoundTrip(b);
  }

  /**
   * Camel case round trip: every camel-case property name is reached from a kebab-case attribute
   * name, its kebab spelling. Together with `KebabRoundTrip` that attribute name is the only one.
   */
  lemma {:induction false} CamelRoundTrip(t: string)
    requires IsCamel(t)
    ensures IsKebab(CamelToKebab(t))
    ensures KebabToCamel(CamelToKebab(t)) == t
    decreases |t|
  {
    if t != [] {
      CamelRoundTrip(t[1..]);
      var k := CamelToKebab(t);
      var rest := CamelToKebab(t[1..]);
      if IsUpper(t[0]) {
        assert k == ['-', ToLower(t[0])] + rest;
        assert k[0] == '-' && k[1] == ToLower(t[0]) && k[2..] == rest;
      } else {
        assert k == [t[0]] + rest;
        assert k[0] == t[0] && k[1..] == rest;
      }
      assert t == [t[0]] + t[1..];
    }
  }

  /** A two-word attribute name `p-w` becomes `p` followed by `w` with its first letter upper-cased. */
  lemma TwoWordName(p: string, w: string)
    requires forall i :: 0 <= i < |p| ==> p[i] != '-'
    requires |w| >= 1 && IsLower(w[0])
    requires forall i :: 0 <= i < |w| ==> w[i] != '-'
    ensures KebabToCamel(p + "-" + w) == p + [ToUpper(w[0])] + w[1..]
  {
    KebabAfterPrefix(p, w);
    NoDashUnchanged(p);
    NoDashUnchanged(w[1..]);
  }

  /** The dashed attributes the button observes and the properties they assign. */
  lemma ButtonAttributeProperties()
    ensures KebabToCamel("button-type") == "buttonType"
    ensures KebabToCamel("toggle-theme") == "toggleTheme"
    ensures KebabToCamel("toggle-label") == "toggleLabel"
  {
    assert "button-type" == "button" + "-" + "type";
    TwoWordName("button", "type");
    assert "button" + [ToUpper('t')] + "ype" == "buttonType";
    assert "toggle-theme" == "toggle" + "-" + "theme";
    TwoWordName("toggle", "theme");
    assert "toggle" + [ToUpper('t')] + "heme" == "toggleTheme";
    assert "toggle-label" == "toggle" + "-" + "label";
    TwoWordName("toggle", "label");
    assert "toggle" + [ToUpper('l')] + "abel" == "toggleLabel";
  }

  lemma {:induction false} KebabAfterPrefix(p: string, w: string)
    requires forall i :: 0 <= i < |p| ==> p[i] != '-'
    requires |w| >= 1 && !IsLineTerminator(w[0])
    ensures KebabToCamel(p + "-" + w) == KebabToCamel(p) + [ToUpper(w[0])] + KebabToCamel(w[1..])
    decreases |p|
  {
    var s := p + "-" + w;
    if p == [] {
      assert s == ['-', w[0]] + w[1..];
      assert s[2..] == w[1..];
    } else {
      KebabAfterPrefix(p[1..], w);
      assert s[1..] == p[1..] + "-" + w;
      assert KebabToCamel(p) == [p[0]] + KebabToCamel(p[1..]);
    }
  }
}
