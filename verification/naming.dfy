/** How a style group is named: its external attribute name and the
    qualified rule name it is looked up under (src/Prism.js
    `getStylePropertyName` and the name building inside `getStyleSheet`). */
module Naming {
  import opened Js

  const STYLE: string := "style"
  const SUFFIX: string := "Style"

  /** `/Style$/.test(name)`. */
  predicate EndsWithStyle(name: string)
  {
    |name| >= |SUFFIX| && name[|name| - |SUFFIX|..] == SUFFIX
  }

  /** A group key already in attribute form. */
  predicate IsStylePropertyName(name: string)
  {
    name == STYLE || EndsWithStyle(name)
  }

  /** `getStylePropertyName`: the group key if it is `style` or ends in
      `Style`, otherwise the key with `Style` appended (`label` is addressed
      as `labelStyle`). */
  function GetStylePropertyName(name: string): (r: string)
    ensures IsStylePropertyName(name) ==> r == name
    ensures !IsStylePropertyName(name) ==> r == name + SUFFIX
    ensures IsStylePropertyName(r)
  {
    if IsStylePropertyName(name) then name
    else
      var r := name + SUFFIX;
      assert r[|r| - |SUFFIX|..] == SUFFIX;
      r
  }

  /** Naming a group twice is naming it once. */
  lemma StylePropertyNameIdempotent(name: string)
    ensures GetStylePropertyName(GetStylePropertyName(name)) == GetStylePropertyName(name)
  {
  }

  /** `toUpperCase` on one character; only ASCII letters are mapped. */
  function UpperChar(c: char): char
  {
    if 'a' <= c <= 'z' then (c as int - 32) as char else c
  }

  /** `s.charAt(0).toUpperCase() + s.substr(1)`. */
  function Capitalize(s: string): (r: string)
    ensures |r| == |s|
    ensures |s| > 0 ==> r[0] == UpperChar(s[0]) && r[1..] == s[1..]
  {
    if s == [] then [] else [UpperChar(s[0])] + s[1..]
  }

  /** `options.className || Name`: the class name a component is styled under. */
  function ClassName(optionsClassName: Value, typeName: string): (r: string)
    ensures Truthy(optionsClassName) ==> r == ToKey(optionsClassName)
    ensures !Truthy(optionsClassName) ==> r == typeName
  {
    if Truthy(optionsClassName) then ToKey(optionsClassName) else typeName
  }

  /** A group other than the component's own style. */
  predicate IsChildGroup(attrName: string)
  {
    attrName != "" && attrName != STYLE
  }

  /** The qualified rule name a group's style is looked up under: the class
      name, prefixed with `namespace.` when there is a namespace, suffixed with
      `.` and the capitalised group key for a child group. */
  function QualifiedName(namespace: string, className: string, attrName: string): (r: string)
  {
    var base := if namespace != "" then namespace + "." + className else className;
    if IsChildGroup(attrName) then base + "." + Capitalize(attrName) else base
  }

  /** The rule name of a child group extends the component's own rule name
      by one dot-separated segment, the capitalised group key; the `style`
      group and an absent group key share the component's name. */
  lemma {:induction false} ChildNameExtendsComponentName(namespace: string, className: string, attrName: string)
    ensures var own := QualifiedName(namespace, className, STYLE);
            && own == QualifiedName(namespace, className, "")
            && (namespace != "" ==> own == namespace + "." + className)
            && (namespace == "" ==> own == className)
            && (IsChildGroup(attrName) ==>
                  QualifiedName(namespace, className, attrName) == own + "." + Capitalize(attrName))
            && (!IsChildGroup(attrName) ==> QualifiedName(namespace, className, attrName) == own)
  {
  }
}
