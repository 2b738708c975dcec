/** Plugin records and their registration from tuple-shaped definitions
    (src/Prism.js: the `Plugin` class, `registerPlugins`, `registerPlugin`, and
    the plugin list `Prism.configure` computes). */
module Plugins {
  import opened Js
  import opened Wrappers

  /** A registered plugin. A global plugin runs on every pass; a property
      plugin is bound to the input attribute it is named after. `propNames`
      is `Object.keys(propType)` and is present only for a truthy propType. */
  datatype Plugin = Plugin(
    name: string,
    func: Value,
    propType: Value,
    isGlobal: bool,
    propNames: Option<seq<string>>)

  /** The index keys `Object.keys` reports for an array or a string. */
  function IndexKeys(n: nat): (r: seq<string>)
    ensures |r| == n
  {
    if n == 0 then [] else IndexKeys(n - 1) + [NatToString(n - 1)]
  }

  /** `Object.keys(v)` for a truthy value. */
  function OwnKeys(v: Value): seq<string>
  {
    match v
    case Obj(o) => o.keys
    case Arr(es) => IndexKeys(|es|)
    case Str(s) => IndexKeys(|s|)
    case _ => []
  }

  /** `new Plugin(name, func, propType, isGlobal)`: an omitted (undefined)
      propType takes the default `null`. */
  function NewPlugin(name: string, func: Value, propType: Value, isGlobal: bool): (p: Plugin)
    ensures p.name == name && p.func == func && p.isGlobal == isGlobal
    ensures p.propType == (if propType.Undefined? then Null else propType)
    ensures p.propNames.Some? <==> Truthy(propType)
  {
    var t := if propType.Undefined? then Null else propType;
    Plugin(name, func, t, isGlobal, if Truthy(t) then Some(OwnKeys(t)) else None)
  }

  /** `[name, fn, propType?]`: at least two elements, a string then a function. */
  predicate IsGlobalShape(def: Value)
  {
    def.Arr? && |def.elems| >= 2 && def.elems[0].Str? && IsFunction(def.elems[1])
  }

  /** `[fn, {attr: propType, ...}]`: exactly two elements, a function then an object. */
  predicate IsPropertyShape(def: Value)
  {
    def.Arr? && |def.elems| == 2 && IsFunction(def.elems[0]) && IsObject(def.elems[1])
  }

  /** One property plugin per key of `types`, in key order, all sharing `func`. */
  function PropertyPlugins(func: Value, types: Object): (ps: seq<Plugin>)
    ensures |ps| == |types.keys|
    ensures forall i :: 0 <= i < |ps| ==>
      ps[i] == NewPlugin(types.keys[i], func, Get(types, types.keys[i]), false)
  {
    seq(|types.keys|, i requires 0 <= i < |types.keys| =>
      NewPlugin(types.keys[i], func, Get(types, types.keys[i]), false))
  }

  /** `registerPlugin`: the global shape is tested first and gives exactly one
      global plugin; the property shape expands to one property plugin per
      key and fails when there is none; every other value is refused. */
  function RegisterPlugin(def: Value): (r: Result<seq<Plugin>>)
    ensures r.Ok? <==> IsGlobalShape(def) || (IsPropertyShape(def) && |def.elems[1].obj.keys| > 0)
    ensures IsGlobalShape(def) ==>
      && r.Ok? && |r.value| == 1
      && r.value[0].isGlobal
      && r.value[0].name == def.elems[0].s
      && r.value[0].func == def.elems[1]
      && r.value[0].propType == (if |def.elems| > 2 && Defined(def.elems[2]) then def.elems[2] else Null)
    ensures IsPropertyShape(def) && r.Ok? ==>
      && |r.value| == |def.elems[1].obj.keys|
      && forall i :: 0 <= i < |r.value| ==>
           && !r.value[i].isGlobal
           && r.value[i].name == def.elems[1].obj.keys[i]
           && r.value[i].func == def.elems[0]
    ensures IsPropertyShape(def) && |def.elems[1].obj.keys| == 0 ==> r == Err(NoPropTypeKeys)
    ensures !IsGlobalShape(def) && !IsPropertyShape(def) ==> r == Err(InvalidPlugin)
  {
    if IsGlobalShape(def) then
      var a := def.elems;
      Ok([NewPlugin(a[0].s, a[1], if |a| > 2 then a[2] else Undefined, true)])
    else if IsPropertyShape(def) then
      var types := def.elems[1].obj;
      if |types.keys| == 0 then Err(NoPropTypeKeys)
      else Ok(PropertyPlugins(def.elems[0], types))
    else
      Err(InvalidPlugin)
  }

  /** The reduce in `registerPlugins`: every definition's plugins, concatenated
      in input order; the first refused definition aborts with its error. */
  function RegisterAll(defs: seq<Value>): Result<seq<Plugin>>
    decreases |defs|
  {
    if defs == [] then Ok([])
    else
      var first := RegisterPlugin(defs[0]);
      if first.Err? then Err(first.error)
      else
        var rest := RegisterAll(defs[1..]);
        if rest.Err? then Err(rest.error)
        else
          Ok(first.value + rest.value)
  }

  /** The reduce succeeds exactly when every definition registers, and then
      yields at least one plugin per definition. */
  lemma {:induction false} RegisterAllOutcome(defs: seq<Value>)
    ensures RegisterAll(defs).Ok? <==> forall i :: 0 <= i < |defs| ==> RegisterPlugin(defs[i]).Ok?
    ensures RegisterAll(defs).Ok? ==> |RegisterAll(defs).value| >= |defs|
    decreases |defs|
  {
    if defs != [] {
      RegisterAllOutcome(defs[1..]);
      assert forall i :: 0 < i < |defs| ==> defs[i] == defs[1..][i - 1];
    }
  }

  /** A failed registration reports the error of the first refused definition. */
  lemma {:induction false} FirstErrorWins(defs: seq<Value>, i: nat)
    requires i < |defs| && RegisterPlugin(defs[i]).Err?
    requires forall j :: 0 <= j < i ==> RegisterPlugin(defs[j]).Ok?
    ensures RegisterAll(defs) == Err(RegisterPlugin(defs[i]).error)
    decreases i
  {
    if i > 0 {
      assert forall j :: 0 <= j < i - 1 ==> defs[1..][j] == defs[j + 1];
      FirstErrorWins(defs[1..], i - 1);
    }
  }

  /** `registerPlugins`: refuses anything but an array. */
  function RegisterPlugins(defs: Value): (r: Result<seq<Plugin>>)
    ensures !defs.Arr? ==> r == Err(PluginsNotArray)
    ensures defs.Arr? ==> (r.Ok? <==> forall i :: 0 <= i < |defs.elems| ==> RegisterPlugin(defs.elems[i]).Ok?)
  {
    if defs.Arr? then
      RegisterAllOutcome(defs.elems);
      RegisterAll(defs.elems)
    else Err(PluginsNotArray)
  }

  /** Registering two lists one after the other is registering their
      concatenation: the plugins come out in input order. */
  lemma {:induction false} RegisterAllAppend(a: seq<Value>, b: seq<Value>)
    ensures RegisterAll(a).Ok? && RegisterAll(b).Ok? ==>
      RegisterAll(a + b) == Ok(RegisterAll(a).value + RegisterAll(b).value)
    ensures RegisterAll(a).Err? ==> RegisterAll(a + b) == RegisterAll(a)
    ensures RegisterAll(a).Ok? && RegisterAll(b).Err? ==> RegisterAll(a + b) == RegisterAll(b)
  {
    if RegisterAll(a).Err? {
      AppendAfterError(a, b);
    } else if RegisterAll(b).Err? {
      AppendBeforeError(a, b);
    } else {
      AppendBothOk(a, b);
    }
  }

  /** Helper of RegisterAllAppend: the first list is refused. */
  lemma {:induction false} AppendAfterError(a: seq<Value>, b: seq<Value>)
    requires RegisterAll(a).Err?
    ensures RegisterAll(a + b) == RegisterAll(a)
    decreases |a|
  {
    assert (a + b)[0] == a[0];
    if RegisterPlugin(a[0]).Ok? {
      assert (a + b)[1..] == a[1..] + b;
      AppendAfterError(a[1..], b);
    }
  }

  /** Helper of RegisterAllAppend: the first list registers, the second is refused. */
  lemma {:induction false} AppendBeforeError(a: seq<Value>, b: seq<Value>)
    requires RegisterAll(a).Ok? && RegisterAll(b).Err?
    ensures RegisterAll(a + b) == RegisterAll(b)
    decreases |a|
  {
    if a == [] {
      assert a + b == b;
    } else {
      assert (a + b)[0] == a[0];
      assert (a + b)[1..] == a[1..] + b;
      AppendBeforeError(a[1..], b);
    }
  }

  /** Helper of RegisterAllAppend: both lists register. */
  lemma {:induction false} AppendBothOk(a: seq<Value>, b: seq<Value>)
    requires RegisterAll(a).Ok? && RegisterAll(b).Ok?
    ensures RegisterAll(a + b) == Ok(RegisterAll(a).value + RegisterAll(b).value)
    decreases |a|
  {
    if a == [] {
      assert a + b == b;
      assert RegisterAll(a).value + RegisterAll(b).value == RegisterAll(b).value;
    } else {
      var x, tail := a[0], a[1..];
      assert a == [x] + tail;
      assert a + b == [x] + (tail + b);
      assert RegisterPlugin(x).Ok? && RegisterAll(tail).Ok?;
      RegisterAllOkPrepend(x, tail);
      AppendBothOk(tail, b);
      RegisterAllOkPrepend(x, tail + b);
      var p, q, r := RegisterPlugin(x).value, RegisterAll(tail).value, RegisterAll(b).value;
      assert p + (q + r) == (p + q) + r;
    }
  }

  /** Registering one more definition in front prepends its plugins. */
  lemma RegisterAllOkPrepend(x: Value, rest: seq<Value>)
    requires RegisterPlugin(x).Ok? && RegisterAll(rest).Ok?
    ensures RegisterAll([x] + rest) == Ok(RegisterPlugin(x).value + RegisterAll(rest).value)
  {
    assert ([x] + rest)[0] == x;
    assert ([x] + rest)[1..] == rest;
  }

  // ---------------------------------------------------------------------
  // The plugin list `Prism.configure` computes.
  // ---------------------------------------------------------------------

  /** The plugin-related fields of the configuration passed to `Prism.configure`. */
  datatype PluginConfig = PluginConfig(
    plugins: Value,
    extendedProperties: Value,
    additionalPlugins: Value,
    disabledPlugins: Value)

  /** The plugins whose names are not listed in `disabled` (`indexOf` is a
      strict comparison, so only string entries can disable a plugin). */
  function Enabled(ps: seq<Plugin>, disabled: seq<Value>): (r: seq<Plugin>)
    ensures forall p :: p in r <==> p in ps && Str(p.name) !in disabled
    ensures |r| <= |ps|
  {
    if ps == [] then []
    else if Str(ps[0].name) in disabled then Enabled(ps[1..], disabled)
    else [ps[0]] + Enabled(ps[1..], disabled)
  }

  /** Filtering keeps the order of the list: the enabled plugins of two
      lists one after the other are those of the first, then those of the
      second. */
  lemma {:induction false} EnabledAppend(a: seq<Plugin>, b: seq<Plugin>, disabled: seq<Value>)
    ensures Enabled(a + b, disabled) == Enabled(a, disabled) + Enabled(b, disabled)
    decreases |a|
  {
    if a != [] {
      assert (a + b)[0] == a[0] && (a + b)[1..] == a[1..] + b;
      EnabledAppend(a[1..], b, disabled);
    } else {
      assert a + b == b;
    }
  }

  /** The plugin list of `Prism.configure`: the configured definitions (or the
      system ones, extended on request), then the additional ones, then the
      disabled names filtered out. `system` and `extended` stand for the
      definition lists of the `./Plugins` and `./ExtendedPropertyPlugins`
      modules, which are not part of this model. */
  function ConfigurePlugins(config: PluginConfig, system: seq<Value>, extended: seq<Value>): (r: Result<seq<Plugin>>)
  {
    var systemPlugins := if Truthy(config.extendedProperties) then system + extended else system;
    var defs := if config.plugins.Arr? then config.plugins.elems else systemPlugins;
    var base :- RegisterAll(defs);
    var all :- if config.additionalPlugins.Arr? then
                 var more :- RegisterAll(config.additionalPlugins.elems);
                 Ok(base + more)
               else Ok(base);
    if config.disabledPlugins.Arr? then Ok(Enabled(all, config.disabledPlugins.elems)) else Ok(all)
  }

  /** What `Prism.configure` registers: when it succeeds, exactly the plugins
      of the base and additional definitions whose names are not disabled, in
      order; it fails exactly when some definition is refused. */
  lemma ConfiguredPlugins(config: PluginConfig, system: seq<Value>, extended: seq<Value>)
    ensures var defs := (if config.plugins.Arr? then config.plugins.elems
                         else if Truthy(config.extendedProperties) then system + extended else system)
                        + (if config.additionalPlugins.Arr? then config.additionalPlugins.elems else []);
            var r := ConfigurePlugins(config, system, extended);
            && (r.Ok? <==> RegisterAll(defs).Ok?)
            && (r.Ok? ==> r.value == (if config.disabledPlugins.Arr?
                                      then Enabled(RegisterAll(defs).value, config.disabledPlugins.elems)
                                      else RegisterAll(defs).value))
  {
    var base := if config.plugins.Arr? then config.plugins.elems
                else if Truthy(config.extendedProperties) then system + extended else system;
    if config.additionalPlugins.Arr? {
      RegisterAllAppend(base, config.additionalPlugins.elems);
    } else {
      assert base + [] == base;
    }
  }
}
