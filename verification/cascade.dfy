/** The per-group cascade: the ordered list of style fragments `getStyleSheet`
    builds for one style group of one component instance (src/Prism.js). */
module Cascade {
  import opened Js
  import opened Wrappers
  import opened Plugins
  import opened Naming

  /** The namespace context (`ns`) handed to every plugin. `childClassName`
      is present for a child group only. */
  datatype Names = Names(
    typeName: string,
    className: string,
    componentClassName: string,
    childClassName: Option<string>,
    namespace: string)

  /** What a plugin function is called with: the plugin itself, the instance's
      input attributes and inherited context, the namespace context and, for a
      property plugin, the attribute name and the value passed as `prop`. */
  datatype PluginCall = PluginCall(
    plugin: Plugin,
    props: Object,
    context: Object,
    ns: Names,
    propName: Option<string>,
    prop: Value)

  /** Plugin functions are opaque: this gives the value a plugin function
      returns for a call. */
  type PluginRunner = PluginCall -> Value

  /** The property plugins a style group claimed, in claim order, and the
      plugin claimed under each name (`plugins.property` in `getStyleSheet`). */
  datatype Claimed = Claimed(keys: seq<string>, byName: map<string, Plugin>)

  /** The parts of a component definition the cascade reads. */
  datatype StyleDef = StyleDef(
    typeName: string,
    namespace: string,
    className: Value,      // options.className
    defaultStyles: Value)  // options.defaultStyles

  /** The namespace context for one group. */
  function GroupNames(def: StyleDef, attrName: string): (ns: Names)
    ensures ns.componentClassName == QualifiedName(def.namespace, ns.className, attrName)
    ensures ns.childClassName.Some? <==> IsChildGroup(attrName)
  {
    var className := ClassName(def.className, def.typeName);
    Names(def.typeName, className, QualifiedName(def.namespace, className, attrName),
          if IsChildGroup(attrName) then Some(Capitalize(attrName)) else None,
          def.namespace)
  }

  /** What `sheets.concat(v)` adds for a plugin result or inline style that
      passed a truthiness test. */
  function Contribution(v: Value): (r: seq<Value>)
    ensures !Truthy(v) ==> r == []
    ensures Truthy(v) ==> forall list :: Concat(list, v) == list + r
  {
    if !Truthy(v) then [] else if v.Arr? then v.elems else [v]
  }

  /** The compiled rule for the group, or nothing when no rule has that name. */
  function ClassRule(styleSheet: Object, name: string): (r: seq<Value>)
    ensures Truthy(Get(styleSheet, name)) ==> r == [Get(styleSheet, name)]
    ensures !Truthy(Get(styleSheet, name)) ==> r == []
  {
    var rule := Get(styleSheet, name);
    if Truthy(rule) then [rule] else []
  }

  /** `defaultStyles` followed by the class rule, or only the class rule when
      there are no default styles. */
  function DefaultFragments(defaultStyles: Value, classRule: seq<Value>): (r: seq<Value>)
    ensures defaultStyles.Arr? ==> r == defaultStyles.elems + classRule
    ensures !Truthy(defaultStyles) ==> r == classRule
  {
    if defaultStyles.Arr? then defaultStyles.elems + classRule
    else if !Truthy(defaultStyles) then classRule
    else [defaultStyles]
  }

  /** The call a global plugin receives. */
  function GlobalCall(p: Plugin, props: Object, context: Object, ns: Names): PluginCall
  {
    PluginCall(p, props, context, ns, None, Undefined)
  }

  /** The outputs of the global plugins, in registration order; a falsy
      output contributes nothing. */
  function GlobalFragments(globals: seq<Plugin>, props: Object, context: Object, ns: Names, run: PluginRunner): seq<Value>
  {
    if globals == [] then []
    else
      var n := |globals| - 1;
      GlobalFragments(globals[..n], props, context, ns, run)
        + Contribution(run(GlobalCall(globals[n], props, context, ns)))
  }

  /** A property plugin runs when its attribute is defined on the instance's
      input attributes or on the inherited context. */
  predicate AttributePresent(props: Object, context: Object, name: string)
  {
    Defined(Get(props, name)) || Defined(Get(context, name))
  }

  /** The call a property plugin receives: `prop` is read from the input
      attributes even when only the context defines the attribute. */
  function PropertyCall(p: Plugin, name: string, props: Object, context: Object, ns: Names): PluginCall
  {
    PluginCall(p, props, context, ns, Some(name), Get(props, name))
  }

  /** The outputs of the claimed property plugins whose attribute is present,
      in claim order. */
  function PropertyFragments(claimed: Claimed, keys: seq<string>, props: Object, context: Object, ns: Names, run: PluginRunner): seq<Value>
    requires forall k :: k in keys ==> k in claimed.byName
  {
    if keys == [] then []
    else
      var n := |keys| - 1;
      var name := keys[n];
      PropertyFragments(claimed, keys[..n], props, context, ns, run)
        + (if AttributePresent(props, context, name)
           then Contribution(run(PropertyCall(claimed.byName[name], name, props, context, ns)))
           else [])
  }

  /** The whole cascade list for a group, in its fixed order: the previous
      sheets, the defaults and class rule, the global plugins, the claimed
      property plugins, and the group's inline style last. */
  function Cascade(props: Object, context: Object, sheets: seq<Value>, def: StyleDef,
                   attrName: string, fullAttrName: string, globals: seq<Plugin>,
                   claimed: Claimed, styleSheet: Object, run: PluginRunner): seq<Value>
    requires forall k :: k in claimed.keys ==> k in claimed.byName
  {
    var ns := GroupNames(def, attrName);
    sheets
      + DefaultFragments(def.defaultStyles, ClassRule(styleSheet, ns.componentClassName))
      + GlobalFragments(globals, props, context, ns, run)
      + PropertyFragments(claimed, claimed.keys, props, context, ns, run)
      + Contribution(Get(props, fullAttrName))
  }

  /** The `plugins.globals.forEach` loop of `getStyleSheet`. */
  method RunGlobals(globals: seq<Plugin>, props: Object, context: Object, ns: Names, run: PluginRunner)
    returns (out: seq<Value>)
    ensures out == GlobalFragments(globals, props, context, ns, run)
  {
    out := [];
    var i := 0;
    while i < |globals|
      invariant 0 <= i <= |globals|
      invariant out == GlobalFragments(globals[..i], props, context, ns, run)
    {
      var style := run(GlobalCall(globals[i], props, context, ns));
      if Truthy(style) {
        out := Concat(out, style);
      }
      assert globals[..i + 1][..i] == globals[..i];
      i := i + 1;
    }
    assert globals[..i] == globals;
  }

  /** The `keys.forEach` loop of `getStyleSheet` over the claimed property plugins. */
  method RunProperties(claimed: Claimed, props: Object, context: Object, ns: Names, run: PluginRunner)
    returns (out: seq<Value>)
    requires forall k :: k in claimed.keys ==> k in claimed.byName
    ensures out == PropertyFragments(claimed, claimed.keys, props, context, ns, run)
  {
    out := [];
    var j := 0;
    while j < |claimed.keys|
      invariant 0 <= j <= |claimed.keys|
      invariant out == PropertyFragments(claimed, claimed.keys[..j], props, context, ns, run)
    {
      var propName := claimed.keys[j];
      if AttributePresent(props, context, propName) {
        var style := run(PropertyCall(claimed.byName[propName], propName, props, context, ns));
        if Truthy(style) {
          out := Concat(out, style);
        }
      }
      assert claimed.keys[..j + 1][..j] == claimed.keys[..j];
      j := j + 1;
    }
    assert claimed.keys[..j] == claimed.keys;
  }

  /** `getStyleSheet`: appends the fragments to the previous sheets. */
  method GetStyleSheet(props: Object, context: Object, sheets: seq<Value>, def: StyleDef,
                       attrName: string, fullAttrName: string, globals: seq<Plugin>,
                       claimed: Claimed, styleSheet: Object, run: PluginRunner)
    returns (r: seq<Value>)
    requires forall k :: k in claimed.keys ==> k in claimed.byName
    ensures r == Cascade(props, context, sheets, def, attrName, fullAttrName, globals, claimed, styleSheet, run)
  {
    var style := Get(props, fullAttrName);
    var ns := GroupNames(def, attrName);
    var defaultClassStyle := ClassRule(styleSheet, ns.componentClassName);
    r := AddDefaultStyles(sheets, def.defaultStyles, defaultClassStyle);
    var globalStyles := RunGlobals(globals, props, context, ns, run);
    r := r + globalStyles;
    var propertyStyles := RunProperties(claimed, props, context, ns, run);
    r := r + propertyStyles;
    ghost var computed := r;
    if Truthy(style) {
      r := Concat(r, style);
    }
    assert r == computed + Contribution(style);
  }

  /** The default styles step of `getStyleSheet`: array defaults take the
      class rule at their end, missing defaults are replaced by it. */
  method AddDefaultStyles(sheets: seq<Value>, defaultStyles: Value, defaultClassStyle: seq<Value>)
    returns (r: seq<Value>)
    ensures r == sheets + DefaultFragments(defaultStyles, defaultClassStyle)
  {
    var styles := defaultStyles;
    if styles.Arr? {
      styles := Arr(styles.elems + defaultClassStyle);
    }
    if !Truthy(styles) {
      styles := Arr(defaultClassStyle);
    }
    r := Concat(sheets, styles);
  }

  // ---------------------------------------------------------------------
  // What the order guarantees once the list is flattened.
  // ---------------------------------------------------------------------

  /** The previous sheets are never dropped: a pass only appends. */
  lemma PreviousSheetsKept(props: Object, context: Object, sheets: seq<Value>, def: StyleDef,
                           attrName: string, fullAttrName: string, globals: seq<Plugin>,
                           claimed: Claimed, styleSheet: Object, run: PluginRunner)
    requires forall k :: k in claimed.keys ==> k in claimed.byName
    ensures var r := Cascade(props, context, sheets, def, attrName, fullAttrName, globals, claimed, styleSheet, run);
            |r| >= |sheets| && r[..|sheets|] == sheets
  {
  }

  /** The inline style has the last word: every attribute it sets keeps the
      inline value in the flattened result, whatever the defaults, the rules
      and the plugins set. */
  lemma InlineStyleWins(props: Object, context: Object, sheets: seq<Value>, def: StyleDef,
                        attrName: string, fullAttrName: string, globals: seq<Plugin>,
                        claimed: Claimed, styleSheet: Object, run: PluginRunner, k: string)
    requires forall k :: k in claimed.keys ==> k in claimed.byName
    requires Get(props, fullAttrName).Obj? && k in Get(props, fullAttrName).obj.keys
    ensures Get(Flatten(Cascade(props, context, sheets, def, attrName, fullAttrName, globals, claimed, styleSheet, run)), k)
         == Get(Get(props, fullAttrName).obj, k)
  {
    var r := Cascade(props, context, sheets, def, attrName, fullAttrName, globals, claimed, styleSheet, run);
    var inline := Get(props, fullAttrName);
    assert r[|r| - 1] == inline;
    LaterWins(r, |r| - 1, k);
  }

  /** A group's class rule overrides its default styles: an attribute the
      rule sets and no plugin output or inline style sets takes the rule's
      value. */
  lemma ClassRuleOverridesDefaults(props: Object, context: Object, sheets: seq<Value>, def: StyleDef,
                                   attrName: string, fullAttrName: string, globals: seq<Plugin>,
                                   claimed: Claimed, styleSheet: Object, run: PluginRunner, k: string)
    requires forall k :: k in claimed.keys ==> k in claimed.byName
    requires var rule := Get(styleSheet, GroupNames(def, attrName).componentClassName);
             rule.Obj? && k in rule.obj.keys
    requires def.defaultStyles.Arr? || !Truthy(def.defaultStyles)
    requires NoneProvides(GlobalFragments(globals, props, context, GroupNames(def, attrName), run)
                          + PropertyFragments(claimed, claimed.keys, props, context, GroupNames(def, attrName), run)
                          + Contribution(Get(props, fullAttrName)), k)
    ensures Get(Flatten(Cascade(props, context, sheets, def, attrName, fullAttrName, globals, claimed, styleSheet, run)), k)
         == Get(Get(styleSheet, GroupNames(def, attrName).componentClassName).obj, k)
  {
    var ns := GroupNames(def, attrName);
    var rule := Get(styleSheet, ns.componentClassName);
    var front := sheets + DefaultFragments(def.defaultStyles, ClassRule(styleSheet, ns.componentClassName));
    var later := GlobalFragments(globals, props, context, ns, run)
                 + PropertyFragments(claimed, claimed.keys, props, context, ns, run)
                 + Contribution(Get(props, fullAttrName));
    assert Cascade(props, context, sheets, def, attrName, fullAttrName, globals, claimed, styleSheet, run)
        == front + later;
    assert front[|front| - 1] == rule;
    LastProviderWins(front, later, k);
  }
}
