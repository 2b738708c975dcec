/** Component registration (src/Prism.js `Prism` and `registerComponent`):
    validating a component's style declarations, routing attributes to
    style groups, choosing the plugins it runs, and preparing its prop types
    and initial per-group style lists. */
module Registration {
  import opened Js
  import opened Wrappers
  import opened Plugins
  import opened Naming
  import opened Registry

  /** The capabilities a component may declare either as a static member of
      its type or in its style options. */
  const MapPluginNames: seq<string> := ["mapPropsToStyleObject", "mapPropsToStyleState", "mapPropsToStyle"]

  /** The type test of each capability: `mapPropsToStyleState` must be a
      function, the other two a function or a plain object. */
  predicate Accepts(name: string, v: Value)
  {
    if name == "mapPropsToStyleState" then IsFunction(v) else IsFunction(v) || IsObject(v)
  }

  /** A component type: the class being made stylable. Registration
      rewrites its prop types, default props and initial styles in place. */
  class ComponentType {
    const name: string
    /** `Type.styleOptions`. */
    const styleOptions: Value
    /** The static members registration reads (`Type[name]`). */
    const statics: Object
    var propTypes: Object
    var defaultProps: Value
    var initialStyles: Object

    constructor (name: string, styleOptions: Value, statics: Object, propTypes: Object, defaultProps: Value)
      ensures this.name == name && this.styleOptions == styleOptions && this.statics == statics
      ensures this.propTypes == propTypes && this.defaultProps == defaultProps && initialStyles == Empty
    {
      this.name, this.styleOptions, this.statics := name, styleOptions, statics;
      this.propTypes, this.defaultProps, initialStyles := propTypes, defaultProps, Empty;
    }

    /** The rewrite of a successfully registered type: the system prop
        types under the type's own, fresh initial styles, then the loop
        over the groups. */
    method Install(systemPropTypes: Object, names: seq<string>, stylePropType: Value)
      modifies this
      ensures TypeState(propTypes, defaultProps, initialStyles)
           == Prepared(TypeState(Assign(Assign(Empty, systemPropTypes), old(propTypes)), old(defaultProps), Empty),
                       names, stylePropType)
    {
      propTypes := Assign(Assign(Empty, systemPropTypes), propTypes);
      initialStyles := Empty;
      PrepareStyles(names, stylePropType);
    }

    /** The `stylePropertyNames.forEach` loop of `registerComponent`. */
    method PrepareStyles(names: seq<string>, stylePropType: Value)
      modifies this
      ensures TypeState(propTypes, defaultProps, initialStyles)
           == Prepared(old(TypeState(propTypes, defaultProps, initialStyles)), names, stylePropType)
    {
      var i := 0;
      while i < |names|
        invariant 0 <= i <= |names|
        invariant Prepared(TypeState(propTypes, defaultProps, initialStyles), names[i..], stylePropType)
               == Prepared(old(TypeState(propTypes, defaultProps, initialStyles)), names, stylePropType)
      {
        PrepareGroup(names[i], stylePropType);
        assert names[i..][1..] == names[i + 1..];
        i := i + 1;
      }
    }

    /** The body of the loop, for one group. */
    method PrepareGroup(groupName: string, stylePropType: Value)
      modifies this
      ensures TypeState(propTypes, defaultProps, initialStyles)
           == PrepareOne(old(TypeState(propTypes, defaultProps, initialStyles)), groupName, stylePropType)
    {
      var name := GetStylePropertyName(groupName);
      propTypes := Set(propTypes, name, stylePropType);
      var list := [];
      if defaultProps.Obj? && Truthy(Get(defaultProps.obj, name)) {
        list := [Get(defaultProps.obj, name)];
        defaultProps := Obj(Delete(defaultProps.obj, name));
      }
      initialStyles := Set(initialStyles, name, Arr(list));
    }
  }

  /** `Prism(Type)`: a declared `styleOptions` must be a function. */
  function CheckStyleOptions(styleOptions: Value): (r: Result<()>)
    ensures r.Err? <==> Truthy(styleOptions) && !IsFunction(styleOptions)
    ensures r.Err? ==> r.error == StyleOptionsNotFunction
  {
    if Truthy(styleOptions) && !IsFunction(styleOptions) then Err(StyleOptionsNotFunction) else Ok(())
  }

  /** The options a component starts from: `{}` without `styleOptions`,
      otherwise what `styleOptions` returned, whose `defaultStyles` must be
      an array when given. A result that is not a plain object is refused. */
  function InitialOptions(styleOptions: Value, result: Value): (r: Result<Object>)
    ensures !Truthy(styleOptions) ==> r == Ok(Empty)
    ensures Truthy(styleOptions) && result.Obj? ==>
      var d := Get(result.obj, "defaultStyles");
      (if Truthy(d) && !d.Arr? then r == Err(DefaultStylesNotArray) else r == Ok(result.obj))
  {
    if !Truthy(styleOptions) then Ok(Empty)
    else if !result.Obj? then Err(TypeError("styleOptions did not return an object"))
    else
      var d := Get(result.obj, "defaultStyles");
      if Truthy(d) && !d.Arr? then Err(DefaultStylesNotArray) else Ok(result.obj)
  }

  /** The declaration a capability ends up with: the static member when the
      type defines one, otherwise the style option. */
  function Declared(options: Object, statics: Object, name: string): Value
  {
    if Defined(Get(statics, name)) then Get(statics, name) else Get(options, name)
  }

  /** A capability is declared acceptably: not in both places, and of the
      right type when declared at all. */
  predicate DeclaredOnce(options: Object, statics: Object, name: string)
  {
    && !(Defined(Get(options, name)) && Defined(Get(statics, name)))
    && (Defined(Declared(options, statics, name)) ==> Accepts(name, Declared(options, statics, name)))
  }

  /** The `mapPluginNames.forEach` loop: static declarations are copied into
      the options, and a duplicate or ill-typed declaration is refused. */
  function Declare(options: Object, statics: Object, names: seq<string>): Result<Object>
    decreases |names|
  {
    if names == [] then Ok(options)
    else
      var name := names[0];
      if Defined(Get(options, name)) && Defined(Get(statics, name)) then Err(DeclaredTwice(name))
      else
        var opts := DeclareOne(options, statics, name);
        if Defined(Get(opts, name)) && !Accepts(name, Get(opts, name)) then Err(InvalidDeclaration(name))
        else Declare(opts, statics, names[1..])
  }

  /** One capability: a static declaration is copied into the options. */
  function DeclareOne(options: Object, statics: Object, name: string): Object
  {
    if Defined(Get(statics, name)) then Set(options, name, Get(statics, name)) else options
  }

  /** Declaration succeeds exactly when every capability is declared once
      and with the right type; the options then hold each capability's
      declaration, the static one taking the place of an absent option. */
  lemma {:induction false} DeclareEffect(options: Object, statics: Object, names: seq<string>)
    requires NoDuplicates(names)
    ensures var r := Declare(options, statics, names);
      && (r.Ok? <==> forall i :: 0 <= i < |names| ==> DeclaredOnce(options, statics, names[i]))
      && (r.Ok? ==> forall k :: Get(r.value, k) == if k in names then Declared(options, statics, k) else Get(options, k))
      && (r.Ok? && Valid(options) ==> Valid(r.value))
  {
    DeclareOutcome(options, statics, names);
    var r := Declare(options, statics, names);
    forall k | r.Ok?
      ensures Get(r.value, k) == if k in names then Declared(options, statics, k) else Get(options, k)
    {
      DeclareValueAt(options, statics, names, k);
    }
    DeclareValid(options, statics, names);
  }

  /** Helper of DeclareEffect: copying one capability leaves the others'
      declarations as they were. */
  lemma DeclareOneOthers(options: Object, statics: Object, name: string, n: string)
    requires n != name
    ensures Get(DeclareOne(options, statics, name), n) == Get(options, n)
    ensures DeclaredOnce(DeclareOne(options, statics, name), statics, n) == DeclaredOnce(options, statics, n)
    ensures Declared(DeclareOne(options, statics, name), statics, n) == Declared(options, statics, n)
  {
  }

  /** Helper of DeclareEffect: when declaration succeeds. */
  lemma {:induction false} DeclareOutcome(options: Object, statics: Object, names: seq<string>)
    requires NoDuplicates(names)
    ensures Declare(options, statics, names).Ok? <==> forall i :: 0 <= i < |names| ==> DeclaredOnce(options, statics, names[i])
    decreases |names|
  {
    if names != [] {
      var name := names[0];
      assert NoDuplicates(names[1..]) && name !in names[1..];
      var opts := DeclareOne(options, statics, name);
      DeclareOutcome(opts, statics, names[1..]);
      forall i | 0 <= i < |names[1..]|
        ensures DeclaredOnce(opts, statics, names[1..][i]) == DeclaredOnce(options, statics, names[i + 1])
      {
        assert names[1..][i] == names[i + 1];
        DeclareOneOthers(options, statics, name, names[i + 1]);
      }
      if forall i :: 0 <= i < |names| ==> DeclaredOnce(options, statics, names[i]) {
        assert DeclaredOnce(options, statics, names[0]);
      }
      if Declare(options, statics, names).Ok? {
        forall i | 0 <= i < |names| ensures DeclaredOnce(options, statics, names[i]) {
          if i > 0 {
            assert DeclaredOnce(opts, statics, names[1..][i - 1]);
          }
        }
      }
    }
  }

  /** Helper of DeclareEffect: the declaration one key ends up with. */
  lemma {:induction false} DeclareValueAt(options: Object, statics: Object, names: seq<string>, k: string)
    requires NoDuplicates(names)
    ensures var r := Declare(options, statics, names);
      r.Ok? ==> Get(r.value, k) == if k in names then Declared(options, statics, k) else Get(options, k)
    decreases |names|
  {
    if names != [] {
      var name := names[0];
      assert NoDuplicates(names[1..]) && name !in names[1..];
      var opts := DeclareOne(options, statics, name);
      DeclareValueAt(opts, statics, names[1..], k);
      assert k in names <==> k == name || k in names[1..];
      if k != name {
        DeclareOneOthers(options, statics, name, k);
      }
    }
  }

  /** Helper of DeclareEffect: well-formed options stay well formed. */
  lemma {:induction false} DeclareValid(options: Object, statics: Object, names: seq<string>)
    ensures Declare(options, statics, names).Ok? && Valid(options) ==> Valid(Declare(options, statics, names).value)
    decreases |names|
  {
    if names != [] {
      DeclareValid(DeclareOne(options, statics, names[0]), statics, names[1..]);
    }
  }

  // ---------------------------------------------------------------------
  // Routing attributes to style groups.
  // ---------------------------------------------------------------------

  /** Names as a JavaScript array of strings. */
  function Strs(names: seq<string>): (r: seq<Value>)
    ensures |r| == |names|
    ensures forall i :: 0 <= i < |names| ==> r[i] == Str(names[i])
    ensures forall n :: Str(n) in r <==> n in names
  {
    seq(|names|, i requires 0 <= i < |names| => Str(names[i]))
  }

  /** The names of the plugins with a truthy propType, in plugin order. */
  function AvailablePropertyNames(plugins: seq<Plugin>): (r: seq<string>)
    ensures forall n :: n in r <==> exists i :: 0 <= i < |plugins| && Truthy(plugins[i].propType) && plugins[i].name == n
  {
    if plugins == [] then []
    else
      var rest := AvailablePropertyNames(plugins[1..]);
      assert forall i :: 0 < i < |plugins| ==> plugins[i] == plugins[1..][i - 1];
      (if Truthy(plugins[0].propType) then [plugins[0].name] else []) + rest
  }

  /** Every value the groups of a user mapping list, in group order (arrays
      spread one level by `concat`). */
  function Assigned(mapping: Object, keys: seq<string>): seq<Value>
    decreases |keys|
  {
    if keys == [] then []
    else Concat([], Get(mapping, keys[0])) + Assigned(mapping, keys[1..])
  }

  /** The available names that no other group lists as a string; the
      comparison is strict, so a name listed only inside a renaming object
      still counts as unassigned. */
  function Unassigned(available: seq<string>, listed: seq<Value>): (r: seq<string>)
    ensures forall n :: n in r <==> n in available && Str(n) !in listed
  {
    if available == [] then []
    else
      var rest := Unassigned(available[1..], listed);
      if Str(available[0]) in listed then rest else [available[0]] + rest
  }

  /** `mapPropsToStyleObject` after registration. Without a declaration it
      routes every available name to the `style` group. A declared function
      is replaced by what it returns for the registry (`result`). A `style`
      entry is refused; otherwise `style` is appended with the unassigned
      names. */
  function StyleMapping(options: Object, result: Value, available: seq<string>): Result<Object>
  {
    var decl := Get(options, "mapPropsToStyleObject");
    if !Defined(decl) then Ok(Set(Empty, STYLE, Arr(Strs(available))))
    else
      var m := if IsFunction(decl) then result else decl;
      if !m.Obj? then Err(TypeError("mapPropsToStyleObject is not an object"))
      else if Defined(Get(m.obj, STYLE)) then Err(StyleMappingNotAllowed)
      else Ok(Set(m.obj, STYLE, Arr(Strs(Unassigned(available, Assigned(m.obj, m.obj.keys))))))
  }

  /** The routing rules of registration: a `style` entry in a declared
      mapping is refused; otherwise the `style` group lists exactly the
      available names no other group lists, or all of them when nothing is
      declared, and every other group keeps what was declared for it. */
  lemma StyleGroupGetsUnassigned(options: Object, result: Value, available: seq<string>)
    ensures var decl := Get(options, "mapPropsToStyleObject");
            var m := if IsFunction(decl) then result else decl;
            var r := StyleMapping(options, result, available);
      && (Defined(decl) && m.Obj? && Defined(Get(m.obj, STYLE)) ==> r == Err(StyleMappingNotAllowed))
      && (!Defined(decl) ==> r.Ok? && r.value.keys == [STYLE] && Get(r.value, STYLE) == Arr(Strs(available)))
      && (Defined(decl) && m.Obj? && !Defined(Get(m.obj, STYLE)) ==>
            && r.Ok?
            && Get(r.value, STYLE).Arr?
            && (forall n :: Str(n) in Get(r.value, STYLE).elems <==>
                  n in available && Str(n) !in Assigned(m.obj, m.obj.keys))
            && (forall g :: g != STYLE ==> Get(r.value, g) == Get(m.obj, g))
            && STYLE in r.value.keys
            && (STYLE !in m.obj.keys ==> r.value.keys == m.obj.keys + [STYLE]))
  {
  }

  /** The global plugins a component runs: those whose name is an own
      option of the component, and `colorNames` always. */
  function Globals(plugins: seq<Plugin>, options: Object): (r: seq<Plugin>)
    ensures forall p :: p in r <==> p in plugins && p.isGlobal && (Has(options, p.name) || p.name == "colorNames")
  {
    if plugins == [] then []
    else
      var p := plugins[0];
      (if p.isGlobal && (Has(options, p.name) || p.name == "colorNames") then [p] else []) + Globals(plugins[1..], options)
  }

  /** The property plugins, in registration order. */
  function Properties(plugins: seq<Plugin>): (r: seq<Plugin>)
    ensures forall p :: p in r <==> p in plugins && !p.isGlobal
  {
    if plugins == [] then []
    else (if !plugins[0].isGlobal then [plugins[0]] else []) + Properties(plugins[1..])
  }

  /** Splitting keeps the registration order: the globals of two lists one
      after the other are those of the first, then those of the second. */
  lemma {:induction false} GlobalsAppend(a: seq<Plugin>, b: seq<Plugin>, options: Object)
    ensures Globals(a + b, options) == Globals(a, options) + Globals(b, options)
    decreases |a|
  {
    if a != [] {
      var p := a[0];
      var head := if p.isGlobal && (Has(options, p.name) || p.name == "colorNames") then [p] else [];
      assert (a + b)[0] == p && (a + b)[1..] == a[1..] + b;
      calc {
        Globals(a + b, options);
        head + Globals(a[1..] + b, options);
        { GlobalsAppend(a[1..], b, options); }
        head + (Globals(a[1..], options) + Globals(b, options));
        (head + Globals(a[1..], options)) + Globals(b, options);
      }
    } else {
      assert a + b == b;
    }
  }

  /** The property plugins of two lists one after the other are those of
      the first, then those of the second. */
  lemma {:induction false} PropertiesAppend(a: seq<Plugin>, b: seq<Plugin>)
    ensures Properties(a + b) == Properties(a) + Properties(b)
    decreases |a|
  {
    if a != [] {
      var head := if !a[0].isGlobal then [a[0]] else [];
      assert (a + b)[0] == a[0] && (a + b)[1..] == a[1..] + b;
      calc {
        Properties(a + b);
        head + Properties(a[1..] + b);
        { PropertiesAppend(a[1..], b); }
        head + (Properties(a[1..]) + Properties(b));
        (head + Properties(a[1..])) + Properties(b);
      }
    } else {
      assert a + b == b;
    }
  }

  /** The registered form of a component (`definition` once
      `registerComponent` ran). */
  datatype Definition = Definition(
    typeName: string,
    namespace: string,
    options: Object,                 // options, with mapPropsToStyleObject and stylePropertyNames set
    mapping: Object,                 // options.mapPropsToStyleObject
    stylePropertyNames: seq<string>, // Object.keys(mapping)
    globals: seq<Plugin>,            // options.plugins.globals
    property: seq<Plugin>)           // options.plugins.property

  /** Everything `registerComponent` decides, in its order: the options,
      the declarations, the group mapping, and the plugin split. */
  function Resolve(t: string, namespace: string, styleOptions: Value, statics: Object, plugins: seq<Plugin>,
                   optionsResult: Value, mappingResult: Value): Result<Definition>
  {
    var initial :- InitialOptions(styleOptions, optionsResult);
    var declared :- Declare(initial, statics, MapPluginNames);
    var mapping :- StyleMapping(declared, mappingResult, AvailablePropertyNames(plugins));
    var options := Set(Set(declared, "mapPropsToStyleObject", Obj(mapping)), "stylePropertyNames", Arr(Strs(mapping.keys)));
    Ok(Definition(t, namespace, options, mapping, mapping.keys, Globals(plugins, options), Properties(plugins)))
  }

  /** A registered component: its groups are those of its mapping, the
      `style` group among them; it runs every property plugin and exactly
      the global plugins it opted into by an option of the same name. */
  lemma RegisteredShape(t: string, namespace: string, styleOptions: Value, statics: Object, plugins: seq<Plugin>,
                        optionsResult: Value, mappingResult: Value)
    ensures var r := Resolve(t, namespace, styleOptions, statics, plugins, optionsResult, mappingResult);
      r.Ok? ==>
        && STYLE in r.value.stylePropertyNames
        && r.value.stylePropertyNames == r.value.mapping.keys
        && (forall p :: p in r.value.property <==> p in plugins && !p.isGlobal)
        && (forall p :: p in r.value.globals ==> p in plugins && p.isGlobal)
        && (forall p :: p in plugins && p.isGlobal && p.name == "colorNames" ==> p in r.value.globals)
  {
    var r := Resolve(t, namespace, styleOptions, statics, plugins, optionsResult, mappingResult);
    if r.Ok? {
      var initial := InitialOptions(styleOptions, optionsResult);
      assert initial.Ok?;
      var declared := Declare(initial.value, statics, MapPluginNames);
      assert declared.Ok?;
      var mapping := StyleMapping(declared.value, mappingResult, AvailablePropertyNames(plugins));
      assert mapping.Ok? && r.value.mapping == mapping.value;
      StyleGroupGetsUnassigned(declared.value, mappingResult, AvailablePropertyNames(plugins));
    }
  }

  // ---------------------------------------------------------------------
  // Prop types and initial styles.
  // ---------------------------------------------------------------------

  /** The prop types the property plugins contribute, by plugin name. */
  function SystemPropTypes(plugins: seq<Plugin>): Object
    decreases |plugins|
  {
    if plugins == [] then Empty
    else
      var n := |plugins| - 1;
      var r := SystemPropTypes(plugins[..n]);
      if Truthy(plugins[n].propType) && !plugins[n].isGlobal then Set(r, plugins[n].name, plugins[n].propType) else r
  }

  /** Plugin `p` contributes its prop type under `k`. */
  predicate ContributesType(p: Plugin, k: string)
  {
    Truthy(p.propType) && !p.isGlobal && p.name == k
  }

  /** `plugins[j]` is the last plugin contributing a prop type under `k`. */
  predicate LastTypeFor(plugins: seq<Plugin>, j: nat, k: string)
  {
    j < |plugins| && ContributesType(plugins[j], k) && forall l :: j < l < |plugins| ==> !ContributesType(plugins[l], k)
  }

  /** The system prop types are a well-formed object holding a prop type
      exactly for each property plugin with a truthy one. */
  lemma {:induction false} SystemPropTypesKeys(plugins: seq<Plugin>, k: string)
    ensures Valid(SystemPropTypes(plugins))
    ensures Has(SystemPropTypes(plugins), k) <==>
      exists i :: 0 <= i < |plugins| && Truthy(plugins[i].propType) && !plugins[i].isGlobal && plugins[i].name == k
    decreases |plugins|
  {
    if plugins != [] {
      var n := |plugins| - 1;
      SystemPropTypesKeys(plugins[..n], k);
      assert forall i :: 0 <= i < n ==> plugins[..n][i] == plugins[i];
    }
  }

  /** Under each name, the system prop types hold the prop type of the last
      property plugin with that name and a truthy prop type. */
  lemma {:induction false} SystemPropTypesValue(plugins: seq<Plugin>, j: nat, k: string)
    requires LastTypeFor(plugins, j, k)
    ensures Get(SystemPropTypes(plugins), k) == plugins[j].propType
    decreases |plugins|
  {
    var n := |plugins| - 1;
    if j < n {
      assert LastTypeFor(plugins[..n], j, k);
      SystemPropTypesValue(plugins[..n], j, k);
    }
  }

  /** What registration keeps of a component type. */
  datatype TypeState = TypeState(propTypes: Object, defaultProps: Value, initialStyles: Object)

  /** The `stylePropertyNames.forEach` loop: each group's attribute gets
      the style prop type, and its initial style list takes the default
      prop of that name (which is then deleted) or stays empty. */
  function Prepared(s: TypeState, names: seq<string>, stylePropType: Value): TypeState
    decreases |names|
  {
    if names == [] then s
    else Prepared(PrepareOne(s, names[0], stylePropType), names[1..], stylePropType)
  }

  /** One group of the loop. */
  function PrepareOne(s: TypeState, groupName: string, stylePropType: Value): TypeState
  {
    var name := GetStylePropertyName(groupName);
    var dp := s.defaultProps;
    var found := dp.Obj? && Truthy(Get(dp.obj, name));
    TypeState(Set(s.propTypes, name, stylePropType),
              if found then Obj(Delete(dp.obj, name)) else dp,
              Set(s.initialStyles, name, Arr(if found then [Get(dp.obj, name)] else [])))
  }

  /** The attribute names of the groups. */
  function AttributeNames(names: seq<string>): (r: seq<string>)
    ensures |r| == |names| && forall i :: 0 <= i < |names| ==> r[i] == GetStylePropertyName(names[i])
  {
    seq(|names|, i requires 0 <= i < |names| => GetStylePropertyName(names[i]))
  }

  /** After the loop, with groups that have distinct attribute names: every
      group's attribute has the style prop type and an initial list holding
      exactly its truthy default prop, which is gone from the default props;
      everything else is as it was. */
  lemma {:induction false} PreparedEffect(s: TypeState, names: seq<string>, stylePropType: Value)
    requires NoDuplicates(AttributeNames(names))
    ensures var t := Prepared(s, names, stylePropType);
            var attrs := AttributeNames(names);
      && (forall k :: k in attrs ==> Get(t.propTypes, k) == stylePropType)
      && (forall k :: k !in attrs ==> Get(t.propTypes, k) == Get(s.propTypes, k))
      && (forall k :: k in attrs ==>
            (Get(t.initialStyles, k) ==
             Arr(if s.defaultProps.Obj? && Truthy(Get(s.defaultProps.obj, k)) then [Get(s.defaultProps.obj, k)] else [])))
      && (forall k :: k !in attrs ==> Get(t.initialStyles, k) == Get(s.initialStyles, k))
      && (s.defaultProps.Obj? <==> t.defaultProps.Obj?)
      && (!s.defaultProps.Obj? ==> t.defaultProps == s.defaultProps)
      && (s.defaultProps.Obj? ==> forall k :: k in attrs ==> !Truthy(Get(t.defaultProps.obj, k)))
      && (s.defaultProps.Obj? ==> forall k :: k !in attrs ==> Get(t.defaultProps.obj, k) == Get(s.defaultProps.obj, k))
  {
    var t := Prepared(s, names, stylePropType);
    var attrs := AttributeNames(names);
    forall k
      ensures Get(t.propTypes, k) == if k in attrs then stylePropType else Get(s.propTypes, k)
    {
      PreparedPropTypes(s, names, stylePropType, k);
    }
    forall k
      ensures Get(t.initialStyles, k) ==
        if k in attrs
        then Arr(if s.defaultProps.Obj? && Truthy(Get(s.defaultProps.obj, k)) then [Get(s.defaultProps.obj, k)] else [])
        else Get(s.initialStyles, k)
    {
      PreparedInitialStyles(s, names, stylePropType, k);
    }
    PreparedDefaultProps(s, names, stylePropType, "");
    forall k | s.defaultProps.Obj?
      ensures if k in attrs then !Truthy(Get(t.defaultProps.obj, k))
              else Get(t.defaultProps.obj, k) == Get(s.defaultProps.obj, k)
    {
      PreparedDefaultProps(s, names, stylePropType, k);
    }
  }

  /** Helper of PreparedEffect: the names of the remaining groups. */
  lemma AttributeNamesTail(names: seq<string>)
    requires names != [] && NoDuplicates(AttributeNames(names))
    ensures AttributeNames(names[1..]) == AttributeNames(names)[1..]
    ensures NoDuplicates(AttributeNames(names[1..]))
    ensures forall k :: k in AttributeNames(names) <==> k == GetStylePropertyName(names[0]) || k in AttributeNames(names[1..])
    ensures GetStylePropertyName(names[0]) !in AttributeNames(names[1..])
  {
    var attrs := AttributeNames(names);
    assert AttributeNames(names[1..]) == attrs[1..];
    assert attrs == [attrs[0]] + attrs[1..];
  }

  /** Helper of PreparedEffect: the prop types. */
  lemma {:induction false} PreparedPropTypes(s: TypeState, names: seq<string>, stylePropType: Value, k: string)
    requires NoDuplicates(AttributeNames(names))
    ensures var t := Prepared(s, names, stylePropType);
      Get(t.propTypes, k) == if k in AttributeNames(names) then stylePropType else Get(s.propTypes, k)
    decreases |names|
  {
    if names != [] {
      AttributeNamesTail(names);
      PreparedPropTypes(PrepareOne(s, names[0], stylePropType), names[1..], stylePropType, k);
    }
  }

  /** Helper of PreparedEffect: the initial style lists. */
  lemma {:induction false} PreparedInitialStyles(s: TypeState, names: seq<string>, stylePropType: Value, k: string)
    requires NoDuplicates(AttributeNames(names))
    ensures var t := Prepared(s, names, stylePropType);
      Get(t.initialStyles, k) ==
        if k in AttributeNames(names)
        then Arr(if s.defaultProps.Obj? && Truthy(Get(s.defaultProps.obj, k)) then [Get(s.defaultProps.obj, k)] else [])
        else Get(s.initialStyles, k)
    decreases |names|
  {
    if names != [] {
      AttributeNamesTail(names);
      var s' := PrepareOne(s, names[0], stylePropType);
      PreparedInitialStyles(s', names[1..], stylePropType, k);
      if k in AttributeNames(names[1..]) {
        assert k != GetStylePropertyName(names[0]);
        assert s'.defaultProps.Obj? <==> s.defaultProps.Obj?;
        assert s.defaultProps.Obj? ==> Get(s'.defaultProps.obj, k) == Get(s.defaultProps.obj, k);
      }
    }
  }

  /** Helper of PreparedEffect: the default props. */
  lemma {:induction false} PreparedDefaultProps(s: TypeState, names: seq<string>, stylePropType: Value, k: string)
    requires NoDuplicates(AttributeNames(names))
    ensures var t := Prepared(s, names, stylePropType);
      && (s.defaultProps.Obj? <==> t.defaultProps.Obj?)
      && (!s.defaultProps.Obj? ==> t.defaultProps == s.defaultProps)
      && (s.defaultProps.Obj? ==>
            if k in AttributeNames(names) then !Truthy(Get(t.defaultProps.obj, k))
            else Get(t.defaultProps.obj, k) == Get(s.defaultProps.obj, k))
    decreases |names|
  {
    if names != [] {
      AttributeNamesTail(names);
      PreparedDefaultProps(PrepareOne(s, names[0], stylePropType), names[1..], stylePropType, k);
    }
  }

  /** Attribute `k` has no truthy default prop. */
  predicate NoDefaultFor(s: TypeState, k: string)
  {
    !(s.defaultProps.Obj? && Truthy(Get(s.defaultProps.obj, k)))
  }

  /** Once attribute `k` has no truthy default prop, the loop never gives it
      one back, and every group with that attribute resets its initial
      list to the empty list. */
  lemma {:induction false} PreparedWithoutDefault(s: TypeState, names: seq<string>, stylePropType: Value, k: string)
    requires NoDefaultFor(s, k)
    ensures var t := Prepared(s, names, stylePropType);
      && NoDefaultFor(t, k)
      && (k in AttributeNames(names) ==> Get(t.initialStyles, k) == Arr([]))
      && (k !in AttributeNames(names) ==> Get(t.initialStyles, k) == Get(s.initialStyles, k))
    decreases |names|
  {
    if names != [] {
      var attrs := AttributeNames(names);
      assert AttributeNames(names[1..]) == attrs[1..];
      assert k in attrs <==> k == attrs[0] || k in attrs[1..];
      PreparedWithoutDefault(PrepareOne(s, names[0], stylePropType), names[1..], stylePropType, k);
    }
  }

  /** After a group is prepared, its attribute has no truthy default prop. */
  lemma PrepareOneClears(s: TypeState, groupName: string, stylePropType: Value)
    ensures NoDefaultFor(PrepareOne(s, groupName, stylePropType), GetStylePropertyName(groupName))
  {
  }

  /** Two groups with the same attribute name: the first moves the default
      prop into the initial list, the second finds it deleted and leaves
      the attribute with an empty initial list. */
  lemma PreparedRepeatedAttribute(s: TypeState, names: seq<string>, stylePropType: Value, i: nat, j: nat)
    requires i < j < |names| && GetStylePropertyName(names[i]) == GetStylePropertyName(names[j])
    ensures Get(Prepared(s, names, stylePropType).initialStyles, GetStylePropertyName(names[i])) == Arr([])
  {
    var k := GetStylePropertyName(names[i]);
    var front, later := names[..i], names[i + 1..];
    assert names == (front + [names[i]]) + later;
    PreparedAppend(s, front + [names[i]], later, stylePropType);
    PreparedAppend(s, front, [names[i]], stylePropType);
    var t := Prepared(s, front, stylePropType);
    assert Prepared(t, [names[i]], stylePropType) == PrepareOne(t, names[i], stylePropType);
    PrepareOneClears(t, names[i], stylePropType);
    assert later[j - i - 1] == names[j];
    assert AttributeNames(later)[j - i - 1] == k;
    PreparedWithoutDefault(PrepareOne(t, names[i], stylePropType), later, stylePropType, k);
  }

  /** The loop over a concatenation is the loop over the first list, then
      over the second. */
  lemma {:induction false} PreparedAppend(s: TypeState, a: seq<string>, b: seq<string>, stylePropType: Value)
    ensures Prepared(s, a + b, stylePropType) == Prepared(Prepared(s, a, stylePropType), b, stylePropType)
    decreases |a|
  {
    if a == [] {
      assert a + b == b;
    } else {
      assert (a + b)[0] == a[0] && (a + b)[1..] == a[1..] + b;
      PreparedAppend(PrepareOne(s, a[0], stylePropType), a[1..], b, stylePropType);
    }
  }

  /** `registerComponent`. The registry's colours are merged with the
      component's as soon as its options are known, before any later
      check can fail; the component type is rewritten only once
      registration succeeds. `optionsResult` and `mappingResult` are what
      the component's `styleOptions` and `mapPropsToStyleObject` functions
      return; `stylePropType` is the prop type given to every group
      attribute. */
  method RegisterComponent(registry: StyleRegistry, t: ComponentType, namespace: string, plugins: seq<Plugin>,
                           optionsResult: Value, mappingResult: Value, stylePropType: Value)
    returns (r: Result<Definition>)
    requires registry.Valid()
    modifies registry`colors, t
    ensures registry.Valid()
    ensures r == Resolve(t.name, namespace, t.styleOptions, t.statics, plugins, optionsResult, mappingResult)
    ensures var initial := InitialOptions(t.styleOptions, optionsResult);
            if initial.Ok? && IsObject(Get(initial.value, "colors"))
            then MergedColors(registry.colors, old(registry.colors), Get(initial.value, "colors").obj)
            else registry.colors == old(registry.colors)
    ensures r.Err? ==> (t.propTypes == old(t.propTypes) && t.defaultProps == old(t.defaultProps)
                        && t.initialStyles == old(t.initialStyles))
    ensures r.Ok? ==> (TypeState(t.propTypes, t.defaultProps, t.initialStyles)
                       == Prepared(TypeState(Assign(Assign(Empty, SystemPropTypes(plugins)), old(t.propTypes)),
                                               old(t.defaultProps), Empty),
                                     r.value.stylePropertyNames, stylePropType))
  {
    r := Resolve(t.name, namespace, t.styleOptions, t.statics, plugins, optionsResult, mappingResult);
    var initial := InitialOptions(t.styleOptions, optionsResult);
    if initial.Err? {
      return;
    }
    var options := initial.value;
    if IsObject(Get(options, "colors")) {
      registry.MergeColors(Get(options, "colors").obj);
    }
    if r.Ok? {
      t.Install(SystemPropTypes(plugins), r.value.stylePropertyNames, stylePropType);
    }
  }
}
