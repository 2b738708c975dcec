/** A stylable component instance (src/Prism.js `PrismComponent`): its
    initial per-group style values and `processStylePlugins`, which
    recomputes the style list of every group an update touches. */
module Instance {
  import opened Js
  import opened Wrappers
  import opened Plugins
  import opened Naming
  import opened Cascade
  import opened Registration

  // ---------------------------------------------------------------------
  // The names a group makes available to property plugins.
  // ---------------------------------------------------------------------

  /** A group's available names, flattened, and the renaming map built from
      its object entries (`propertyStyleMap`). */
  datatype Available = Available(names: seq<Value>, renames: Object)

  /** The reduce over `mapPropsToStyleObject[attrName]`, as corrected: a
      non-empty string entry is one name; an object entry contributes each
      of its keys and records the style name each key is renamed to; other
      entries are ignored. */
  function AvailableOf(entries: seq<Value>): (a: Available)
    ensures forall i :: 0 <= i < |a.names| ==> a.names[i].Str?
    decreases |entries|
  {
    if entries == [] then Available([], Empty)
    else
      var n := |entries| - 1;
      var a := AvailableOf(entries[..n]);
      var v := entries[n];
      if IsObject(v) then Available(a.names + Strs(v.obj.keys), Assign(a.renames, v.obj))
      else if IsString(v) then Available(a.names + [v], a.renames)
      else a
  }

  /** The same reduce as written: an object entry pushes the ARRAY of its
      keys as a single element. */
  function AvailableOfAsWritten(entries: seq<Value>): Available
    decreases |entries|
  {
    if entries == [] then Available([], Empty)
    else
      var n := |entries| - 1;
      var a := AvailableOfAsWritten(entries[..n]);
      var v := entries[n];
      if IsObject(v) then Available(a.names + [Arr(Strs(v.obj.keys))], Assign(a.renames, v.obj))
      else if IsString(v) then Available(a.names + [v], a.renames)
      else a
  }

  /** The entry `v` of an available list offers name `n`. */
  predicate Offers(v: Value, n: string)
  {
    (IsString(v) && v.s == n) || (IsObject(v) && n in v.obj.keys)
  }

  /** The corrected list offers exactly the names of the string entries and
      the keys of the object entries. */
  lemma {:induction false} AvailableNames(entries: seq<Value>, n: string)
    ensures Str(n) in AvailableOf(entries).names <==> exists i :: 0 <= i < |entries| && Offers(entries[i], n)
    decreases |entries|
  {
    if entries != [] {
      var k := |entries| - 1;
      AvailableNames(entries[..k], n);
      AvailableLast(entries, n);
      if exists i :: 0 <= i < |entries| && Offers(entries[i], n) {
        var i :| 0 <= i < |entries| && Offers(entries[i], n);
        if i < k {
          assert Offers(entries[..k][i], n);
        }
      }
      if exists i :: 0 <= i < k && Offers(entries[..k][i], n) {
        var i :| 0 <= i < k && Offers(entries[..k][i], n);
        assert Offers(entries[i], n);
      }
    }
  }

  /** The last entry of the list adds exactly the names it offers. */
  lemma AvailableLast(entries: seq<Value>, n: string)
    requires entries != []
    ensures var k := |entries| - 1;
      Str(n) in AvailableOf(entries).names <==> Str(n) in AvailableOf(entries[..k]).names || Offers(entries[k], n)
  {
  }

  /** A one-entry available list `[{color: 'textColor', fontSize: 'size'}]`. */
  const COLOR_ENTRY: Value := Obj(Object(["color", "fontSize"], map["color" := Str("textColor"), "fontSize" := Str("size")]))

  /** The discrepancy on that list: as written, it holds the array
      `['color', 'fontSize']` as its only name, so no property plugin can
      claim `color` (plugin names are compared with `===`); as corrected,
      both names are offered. */
  lemma ObjectEntryAsWritten()
    ensures AvailableOfAsWritten([COLOR_ENTRY]).names == [Arr([Str("color"), Str("fontSize")])]
    ensures Str("color") !in AvailableOfAsWritten([COLOR_ENTRY]).names
    ensures AvailableOf([COLOR_ENTRY]).names == [Str("color"), Str("fontSize")]
  {
    ColorEntryNames();
    assert [COLOR_ENTRY][..0] == [];
    assert AvailableOfAsWritten([]) == Available([], Empty);
    assert AvailableOf([]) == Available([], Empty);
  }

  /** Helper of ObjectEntryAsWritten: the keys of the entry as strings. */
  lemma ColorEntryNames()
    ensures Strs(COLOR_ENTRY.obj.keys) == [Str("color"), Str("fontSize")]
  {
    var r := Strs(COLOR_ENTRY.obj.keys);
    assert |r| == 2 && r[0] == Str("color") && r[1] == Str("fontSize");
  }

  /** The flattening reduce, as a loop. */
  method FlattenAvailable(entries: seq<Value>) returns (names: seq<Value>, renames: Object)
    ensures Available(names, renames) == AvailableOf(entries)
  {
    names, renames := [], Empty;
    var i := 0;
    while i < |entries|
      invariant 0 <= i <= |entries|
      invariant Available(names, renames) == AvailableOf(entries[..i])
    {
      var v := entries[i];
      assert entries[..i + 1][..i] == entries[..i];
      if IsObject(v) {
        names := names + Strs(v.obj.keys);
        renames := Assign(renames, v.obj);
      } else if IsString(v) {
        names := names + [v];
      }
      i := i + 1;
    }
    assert entries[..i] == entries;
  }

  // ---------------------------------------------------------------------
  // Property plugins claiming names.
  // ---------------------------------------------------------------------

  /** The first index of `x` in `s` (`indexOf`). */
  function IndexOf(s: seq<Value>, x: Value): (i: nat)
    requires x in s
    ensures i < |s| && s[i] == x && forall j :: 0 <= j < i ==> s[j] != x
  {
    if s[0] == x then 0 else 1 + IndexOf(s[1..], x)
  }

  /** `s` without its element at `i` (`splice(i, 1)`). */
  function RemoveAt(s: seq<Value>, i: nat): (r: seq<Value>)
    requires i < |s|
    ensures |r| == |s| - 1
    ensures multiset(r) + multiset{s[i]} == multiset(s)
    ensures forall x :: x != s[i] ==> (x in r <==> x in s)
  {
    assert s == s[..i] + [s[i]] + s[i + 1..];
    s[..i] + s[i + 1..]
  }

  /** The claims made so far and the names still unclaimed. */
  datatype Claims = Claims(claimed: Claimed, rest: seq<Value>)

  /** Every claimed name has its plugin. */
  predicate WellClaimed(c: Claimed)
  {
    forall k :: k in c.keys ==> k in c.byName
  }

  /** The `property.reduce` of `processStylePlugins`: in plugin order, a
      plugin whose name is still in the list claims it, and the name is
      removed from the list. */
  function ClaimFrom(acc: Claims, ps: seq<Plugin>): (r: Claims)
    requires WellClaimed(acc.claimed)
    ensures WellClaimed(r.claimed)
    decreases |ps|
  {
    if ps == [] then acc
    else
      var name := ps[0].name;
      if Str(name) in acc.rest then
        var i := IndexOf(acc.rest, Str(name));
        ClaimFrom(Claims(Claimed(acc.claimed.keys + [name], acc.claimed.byName[name := ps[0]]), RemoveAt(acc.rest, i)),
                  ps[1..])
      else ClaimFrom(acc, ps[1..])
  }

  /** What the reduce returns, starting with nothing claimed. */
  function ClaimPluginsOf(ps: seq<Plugin>, names: seq<Value>): (r: Claims)
    ensures WellClaimed(r.claimed)
  {
    ClaimFrom(Claims(Claimed([], map[]), names), ps)
  }

  /** Claiming moves names, it never loses or invents one: the unclaimed
      names and the claimed ones together are the names offered. */
  lemma {:induction false} ClaimKeepsNames(acc: Claims, ps: seq<Plugin>)
    requires WellClaimed(acc.claimed)
    ensures var r := ClaimFrom(acc, ps);
            multiset(r.rest) + multiset(Strs(r.claimed.keys)) == multiset(acc.rest) + multiset(Strs(acc.claimed.keys))
    decreases |ps|
  {
    if ps != [] {
      var name := ps[0].name;
      if Str(name) in acc.rest {
        var i := IndexOf(acc.rest, Str(name));
        var next := Claims(Claimed(acc.claimed.keys + [name], acc.claimed.byName[name := ps[0]]), RemoveAt(acc.rest, i));
        assert Strs(acc.claimed.keys + [name]) == Strs(acc.claimed.keys) + [Str(name)];
        ClaimKeepsNames(next, ps[1..]);
      } else {
        ClaimKeepsNames(acc, ps[1..]);
      }
    }
  }

  /** The names of a list of plugins. */
  function PluginNames(ps: seq<Plugin>): (r: seq<string>)
    ensures |r| == |ps| && forall i :: 0 <= i < |ps| ==> r[i] == ps[i].name
  {
    seq(|ps|, i requires 0 <= i < |ps| => ps[i].name)
  }

  /** With distinct plugin names, a name is claimed exactly when some plugin
      has it and the group offers it, and it is claimed by that plugin. */
  lemma {:induction false} ClaimedIffOffered(acc: Claims, ps: seq<Plugin>, n: string)
    requires WellClaimed(acc.claimed)
    requires NoDuplicates(PluginNames(ps))
    requires forall i :: 0 <= i < |ps| ==> ps[i].name !in acc.claimed.keys
    ensures var r := ClaimFrom(acc, ps);
      && (n in r.claimed.keys <==> n in acc.claimed.keys || (n in PluginNames(ps) && Str(n) in acc.rest))
      && (n in acc.claimed.keys ==> r.claimed.byName[n] == acc.claimed.byName[n])
      && (n !in acc.claimed.keys && n in r.claimed.keys ==> r.claimed.byName[n] in ps && r.claimed.byName[n].name == n)
    decreases |ps|
  {
    if ps != [] {
      var name := ps[0].name;
      assert PluginNames(ps[1..]) == PluginNames(ps)[1..];
      assert NoDuplicates(PluginNames(ps[1..]));
      assert forall i :: 0 < i < |ps| ==> ps[i].name != name by {
        forall i | 0 < i < |ps| ensures ps[i].name != name {
          assert PluginNames(ps)[i] == ps[i].name && PluginNames(ps)[0] == name;
        }
      }
      if Str(name) in acc.rest {
        var i := IndexOf(acc.rest, Str(name));
        var next := Claims(Claimed(acc.claimed.keys + [name], acc.claimed.byName[name := ps[0]]), RemoveAt(acc.rest, i));
        ClaimedIffOffered(next, ps[1..], n);
        var r := ClaimFrom(next, ps[1..]);
        if n !in acc.claimed.keys && n != name && n in r.claimed.keys {
          assert r.claimed.byName[n] in ps[1..];
        }
      } else {
        ClaimedIffOffered(acc, ps[1..], n);
        var r := ClaimFrom(acc, ps[1..]);
        if n !in acc.claimed.keys && n in r.claimed.keys {
          assert r.claimed.byName[n] in ps[1..];
        }
      }
    }
  }

  /** The names of the plugins of `ps` that `rest` offers, in plugin order. */
  function Offered(ps: seq<Plugin>, rest: seq<Value>): seq<string>
    decreases |ps|
  {
    if ps == [] then []
    else (if Str(ps[0].name) in rest then [ps[0].name] else []) + Offered(ps[1..], rest)
  }

  /** Only whether each plugin's name is offered matters to `Offered`. */
  lemma {:induction false} OfferedSameNames(ps: seq<Plugin>, a: seq<Value>, b: seq<Value>)
    requires forall i :: 0 <= i < |ps| ==> (Str(ps[i].name) in a <==> Str(ps[i].name) in b)
    ensures Offered(ps, a) == Offered(ps, b)
    decreases |ps|
  {
    if ps != [] {
      assert forall i :: 0 <= i < |ps[1..]| ==> ps[1..][i] == ps[i + 1];
      OfferedSameNames(ps[1..], a, b);
    }
  }

  /** With distinct plugin names, the claimed names are the ones claimed
      before, followed by the names of the plugins the group offers, in
      plugin order. */
  lemma {:induction false} ClaimOrder(acc: Claims, ps: seq<Plugin>)
    requires WellClaimed(acc.claimed)
    requires NoDuplicates(PluginNames(ps))
    ensures ClaimFrom(acc, ps).claimed.keys == acc.claimed.keys + Offered(ps, acc.rest)
    decreases |ps|
  {
    if ps != [] {
      var name := ps[0].name;
      PluginNamesTail(ps);
      if Str(name) in acc.rest {
        var i := IndexOf(acc.rest, Str(name));
        var next := Claims(Claimed(acc.claimed.keys + [name], acc.claimed.byName[name := ps[0]]), RemoveAt(acc.rest, i));
        ClaimOrder(next, ps[1..]);
        OfferedAfterClaim(ps, acc.rest, i);
        ClaimOrderClaimed(acc, ps);
      } else {
        ClaimOrder(acc, ps[1..]);
      }
    }
  }

  /** The distinct names of a list of plugins stay distinct without its
      first plugin. */
  lemma PluginNamesTail(ps: seq<Plugin>)
    requires |ps| > 0 && NoDuplicates(PluginNames(ps))
    ensures NoDuplicates(PluginNames(ps[1..]))
  {
    assert PluginNames(ps[1..]) == PluginNames(ps)[1..];
  }

  /** The step of `ClaimOrder` where the first plugin's name is offered. */
  lemma ClaimOrderClaimed(acc: Claims, ps: seq<Plugin>)
    requires WellClaimed(acc.claimed) && |ps| > 0 && Str(ps[0].name) in acc.rest
    requires var i := IndexOf(acc.rest, Str(ps[0].name));
      var next := Claims(Claimed(acc.claimed.keys + [ps[0].name], acc.claimed.byName[ps[0].name := ps[0]]), RemoveAt(acc.rest, i));
      && ClaimFrom(next, ps[1..]).claimed.keys == next.claimed.keys + Offered(ps[1..], next.rest)
      && Offered(ps[1..], next.rest) == Offered(ps[1..], acc.rest)
    ensures ClaimFrom(acc, ps).claimed.keys == acc.claimed.keys + Offered(ps, acc.rest)
  {
  }

  /** Claiming the first plugin's name changes nothing the other plugins
      are offered, when their names differ from it. */
  lemma OfferedAfterClaim(ps: seq<Plugin>, rest: seq<Value>, i: nat)
    requires |ps| > 0 && NoDuplicates(PluginNames(ps))
    requires i < |rest| && rest[i] == Str(ps[0].name)
    ensures Offered(ps[1..], RemoveAt(rest, i)) == Offered(ps[1..], rest)
  {
    forall l | 0 <= l < |ps[1..]| ensures Str(ps[1..][l].name) in RemoveAt(rest, i) <==> Str(ps[1..][l].name) in rest {
      assert PluginNames(ps)[l + 1] == ps[1..][l].name && PluginNames(ps)[0] == ps[0].name;
    }
    OfferedSameNames(ps[1..], RemoveAt(rest, i), rest);
  }

  /** The claiming reduce, as a loop. */
  method ClaimPlugins(ps: seq<Plugin>, names: seq<Value>) returns (claimed: Claimed, rest: seq<Value>)
    ensures Claims(claimed, rest) == ClaimPluginsOf(ps, names)
  {
    claimed, rest := Claimed([], map[]), names;
    var i := 0;
    while i < |ps|
      invariant 0 <= i <= |ps|
      invariant WellClaimed(claimed)
      invariant ClaimFrom(Claims(claimed, rest), ps[i..]) == ClaimPluginsOf(ps, names)
    {
      var plugin := ps[i];
      assert ps[i..][0] == plugin && ps[i..][1..] == ps[i + 1..];
      if Str(plugin.name) in rest {
        var ind := IndexOf(rest, Str(plugin.name));
        claimed := Claimed(claimed.keys + [plugin.name], claimed.byName[plugin.name := plugin]);
        rest := RemoveAt(rest, ind);
      }
      i := i + 1;
    }
  }

  // ---------------------------------------------------------------------
  // The verbatim fragment.
  // ---------------------------------------------------------------------

  /** The style attribute an unclaimed name is copied to: its renaming when
      that is truthy, otherwise the name itself. */
  function StyleNameOf(renames: Object, name: Value): string
  {
    var r := Get(renames, ToKey(name));
    if Truthy(r) then ToKey(r) else ToKey(name)
  }

  /** The `flatAvailableProperties.forEach` that builds `verbatim`: every
      unclaimed name whose prop is defined is copied under its style name. */
  function VerbatimOf(rest: seq<Value>, renames: Object, props: Object): Object
    decreases |rest|
  {
    if rest == [] then Empty
    else
      var n := |rest| - 1;
      var v := VerbatimOf(rest[..n], renames, props);
      var name := ToKey(rest[n]);
      if Defined(Get(props, name)) then Set(v, StyleNameOf(renames, rest[n]), Get(props, name)) else v
  }

  /** The verbatim fragment sets exactly the style names of the unclaimed
      names whose prop is defined, each to the prop of one of them. */
  lemma {:induction false} VerbatimSets(rest: seq<Value>, renames: Object, props: Object, k: string)
    ensures var v := VerbatimOf(rest, renames, props);
      && (Has(v, k) <==> exists i :: 0 <= i < |rest| && Defined(Get(props, ToKey(rest[i]))) && StyleNameOf(renames, rest[i]) == k)
      && (Has(v, k) ==> exists i :: 0 <= i < |rest| && StyleNameOf(renames, rest[i]) == k && Get(v, k) == Get(props, ToKey(rest[i])))
      && Valid(v)
    decreases |rest|
  {
    if rest != [] {
      var n := |rest| - 1;
      VerbatimSets(rest[..n], renames, props, k);
      assert forall i :: 0 <= i < n ==> rest[..n][i] == rest[i];
      var v := VerbatimOf(rest, renames, props);
      if exists i :: 0 <= i < |rest| && Defined(Get(props, ToKey(rest[i]))) && StyleNameOf(renames, rest[i]) == k {
        var i :| 0 <= i < |rest| && Defined(Get(props, ToKey(rest[i]))) && StyleNameOf(renames, rest[i]) == k;
        if i < n {
          assert Defined(Get(props, ToKey(rest[..n][i]))) && StyleNameOf(renames, rest[..n][i]) == k;
        }
      }
      if Has(v, k) && !(Defined(Get(props, ToKey(rest[n]))) && StyleNameOf(renames, rest[n]) == k) {
        var i :| 0 <= i < n && StyleNameOf(renames, rest[..n][i]) == k
                 && Get(VerbatimOf(rest[..n], renames, props), k) == Get(props, ToKey(rest[..n][i]));
        assert StyleNameOf(renames, rest[i]) == k && Get(v, k) == Get(props, ToKey(rest[i]));
      }
    }
  }

  /** The verbatim loop. */
  method Verbatim(rest: seq<Value>, renames: Object, props: Object) returns (v: Object)
    ensures v == VerbatimOf(rest, renames, props)
  {
    v := Empty;
    var i := 0;
    while i < |rest|
      invariant 0 <= i <= |rest|
      invariant v == VerbatimOf(rest[..i], renames, props)
    {
      var name := rest[i];
      assert rest[..i + 1][..i] == rest[..i];
      var styleProp := ToKey(name);
      if Truthy(Get(renames, ToKey(name))) {
        styleProp := ToKey(Get(renames, ToKey(name)));
      }
      if Defined(Get(props, ToKey(name))) {
        v := Set(v, styleProp, Get(props, ToKey(name)));
      }
      i := i + 1;
    }
    assert rest[..i] == rest;
  }

  // ---------------------------------------------------------------------
  // One pass of `processStylePlugins`.
  // ---------------------------------------------------------------------

  /** What a pass reads besides the style values: the registered
      component, the registry's compiled style sheet, the instance's input
      attributes and inherited context, and the plugin functions. */
  datatype Env = Env(def: Definition, styleSheet: Object, props: Object, context: Object, run: PluginRunner)

  /** Which lifecycle event runs the pass: mounting runs every group; a
      props update (`componentWillReceiveProps`) runs a group only when its
      key holds a truthy value both in the new and in the current props. */
  datatype Trigger = Mount | Update(oldProps: Object)

  predicate Runs(trigger: Trigger, props: Object, attrName: string)
  {
    match trigger
    case Mount => true
    case Update(oldProps) => Truthy(Get(props, attrName)) && Truthy(Get(oldProps, attrName))
  }

  /** What `getStyleSheet` reads of the definition. */
  function StyleDefOf(def: Definition): StyleDef
  {
    StyleDef(def.typeName, def.namespace, Get(def.options, "className"), Get(def.options, "defaultStyles"))
  }

  /** The previous style list of a group as `getStyleSheet` receives it: a
      single fragment is wrapped in a list; a missing one cannot be
      extended (`sheets.concat` raises a TypeError). */
  function PreviousSheets(prev: Value): Result<seq<Value>>
  {
    if !Truthy(prev) then Err(TypeError("sheets is not defined"))
    else if prev.Arr? then Ok(prev.elems)
    else Ok([prev])
  }

  /** The new style list of one group: the cascade, then the verbatim
      fragment when some available name was left unclaimed. */
  function GroupList(env: Env, sheets: seq<Value>, attrName: string, a: Available): seq<Value>
  {
    var c := ClaimPluginsOf(env.def.property, a.names);
    var computed := Cascade.Cascade(env.props, env.context, sheets, StyleDefOf(env.def), attrName,
                                    GetStylePropertyName(attrName), env.def.globals, c.claimed, env.styleSheet, env.run);
    if |c.rest| > 0 then computed + [Obj(VerbatimOf(c.rest, a.renames, env.props))] else computed
  }

  /** The body of the `stylePropertyNames.forEach` for a group that runs:
      its available list must be an array and its previous value a list
      or fragment; its attribute then holds the recomputed list. */
  function GroupStyles(env: Env, values: Object, attrName: string): Result<Object>
  {
    var full := GetStylePropertyName(attrName);
    var entries := Get(env.def.mapping, attrName);
    if !entries.Arr? then Err(TypeError("mapPropsToStyleObject[attrName] is not an array"))
    else
      var sheets :- PreviousSheets(Get(values, full));
      Ok(Set(values, full, Arr(GroupList(env, sheets, attrName, AvailableOf(entries.elems)))))
  }

  /** The whole `forEach`, over the remaining group keys. */
  function Pass(env: Env, trigger: Trigger, values: Object, names: seq<string>): Result<Object>
    decreases |names|
  {
    if names == [] then Ok(values)
    else if !Runs(trigger, env.props, names[0]) then Pass(env, trigger, values, names[1..])
    else
      var next :- GroupStyles(env, values, names[0]);
      Pass(env, trigger, next, names[1..])
  }

  /** A pass only rewrites the attributes of the groups it runs: every
      other style value is kept, so on an update a group whose key is
      falsy in the new or the current props keeps its previous list. */
  lemma {:induction false} UntouchedGroupsKept(env: Env, trigger: Trigger, values: Object, names: seq<string>, k: string)
    requires forall i :: 0 <= i < |names| && Runs(trigger, env.props, names[i]) ==> GetStylePropertyName(names[i]) != k
    ensures var r := Pass(env, trigger, values, names);
            r.Ok? ==> Get(r.value, k) == Get(values, k)
    decreases |names|
  {
    if names != [] {
      assert forall i :: 0 <= i < |names[1..]| ==> names[1..][i] == names[i + 1];
      if !Runs(trigger, env.props, names[0]) {
        UntouchedGroupsKept(env, trigger, values, names[1..], k);
      } else {
        var next := GroupStyles(env, values, names[0]);
        if next.Ok? {
          UntouchedGroupsKept(env, trigger, next.value, names[1..], k);
        }
      }
    }
  }

  /** The verbatim fragment comes after the inline style, so every attribute
      it sets has the last word in the group's flattened style. */
  lemma VerbatimHasLastWord(env: Env, sheets: seq<Value>, attrName: string, a: Available, k: string)
    requires var c := ClaimPluginsOf(env.def.property, a.names);
             |c.rest| > 0 && Has(VerbatimOf(c.rest, a.renames, env.props), k)
    ensures var c := ClaimPluginsOf(env.def.property, a.names);
            Get(Flatten(GroupList(env, sheets, attrName, a)), k) == Get(VerbatimOf(c.rest, a.renames, env.props), k)
  {
    var c := ClaimPluginsOf(env.def.property, a.names);
    var verbatim := VerbatimOf(c.rest, a.renames, env.props);
    var computed := Cascade.Cascade(env.props, env.context, sheets, StyleDefOf(env.def), attrName,
                                    GetStylePropertyName(attrName), env.def.globals, c.claimed, env.styleSheet, env.run);
    assert GroupList(env, sheets, attrName, a) == computed + [Obj(verbatim)];
    VerbatimSets(c.rest, a.renames, env.props, k);
    LastEntryWins(computed, verbatim, k);
  }

  /** Helper of VerbatimHasLastWord: an object appended last has the last
      word on its own keys. */
  lemma LastEntryWins(list: seq<Value>, o: Object, k: string)
    requires Valid(o) && Has(o, k)
    ensures Get(Flatten(list + [Obj(o)]), k) == Get(o, k)
  {
    var full := list + [Obj(o)];
    assert full[|full| - 1] == Obj(o);
    LastProviderWins(full, [], k);
    assert full + [] == full;
  }

  // ---------------------------------------------------------------------
  // The instance.
  // ---------------------------------------------------------------------

  /** The initial style values, over the remaining group attributes: each
      attribute gets a copy of the initial list registration prepared for
      it (`initialStyles[name].slice()`, which fails on a missing list). */
  function InitialFrom(values: Object, attrs: seq<string>, initialStyles: Object): Result<Object>
    decreases |attrs|
  {
    if attrs == [] then Ok(values)
    else
      var list := Get(initialStyles, attrs[0]);
      if !list.Arr? then Err(TypeError("initialStyles[name] is not an array"))
      else InitialFrom(Set(values, attrs[0], list), attrs[1..], initialStyles)
  }

  /** The initial style values of a component with the given groups. */
  function InitialStyleValues(names: seq<string>, initialStyles: Object): Result<Object>
  {
    InitialFrom(Empty, AttributeNames(names), initialStyles)
  }

  /** With a list under every attribute, the initial values hold a copy of
      each list and keep everything else. */
  lemma {:induction false} InitialValuesCopy(values: Object, attrs: seq<string>, initialStyles: Object)
    requires forall k :: k in attrs ==> Get(initialStyles, k).Arr?
    ensures var r := InitialFrom(values, attrs, initialStyles);
      && r.Ok?
      && (forall k :: k in attrs ==> Get(r.value, k) == Get(initialStyles, k))
      && (forall k :: k !in attrs ==> Get(r.value, k) == Get(values, k))
    decreases |attrs|
  {
    if attrs != [] {
      assert forall k :: k in attrs[1..] ==> k in attrs;
      InitialValuesCopy(Set(values, attrs[0], Get(initialStyles, attrs[0])), attrs[1..], initialStyles);
    }
  }

  /** Registration leaves a list under every group attribute, and keeps the
      lists already there. */
  lemma {:induction false} PreparedLists(s: TypeState, names: seq<string>, stylePropType: Value)
    ensures forall k :: k in AttributeNames(names) ==> Get(Prepared(s, names, stylePropType).initialStyles, k).Arr?
    ensures forall k :: Get(s.initialStyles, k).Arr? ==> Get(Prepared(s, names, stylePropType).initialStyles, k).Arr?
  {
    forall k
      ensures (k in AttributeNames(names) || Get(s.initialStyles, k).Arr?) ==>
                Get(Prepared(s, names, stylePropType).initialStyles, k).Arr?
    {
      PreparedListAt(s, names, stylePropType, k);
    }
  }

  /** Helper of PreparedLists, for one attribute. */
  lemma {:induction false} PreparedListAt(s: TypeState, names: seq<string>, stylePropType: Value, k: string)
    ensures (k in AttributeNames(names) || Get(s.initialStyles, k).Arr?) ==>
              Get(Prepared(s, names, stylePropType).initialStyles, k).Arr?
    decreases |names|
  {
    if names != [] {
      var name := GetStylePropertyName(names[0]);
      var s' := PrepareOne(s, names[0], stylePropType);
      PreparedListAt(s', names[1..], stylePropType, k);
      assert Get(s'.initialStyles, k).Arr? <== k == name || Get(s.initialStyles, k).Arr?;
      var attrs := AttributeNames(names);
      assert attrs[1..] == AttributeNames(names[1..]);
      assert k in attrs ==> k == attrs[0] || k in attrs[1..];
    }
  }

  /** A registered component can always be instantiated: registration gave
      every group attribute an initial list, and the instance starts with
      exactly those lists. */
  lemma RegisteredInitialValues(s: TypeState, names: seq<string>, stylePropType: Value)
    ensures var init := Prepared(s, names, stylePropType).initialStyles;
            var r := InitialStyleValues(names, init);
      && r.Ok?
      && forall k :: k in AttributeNames(names) ==> Get(r.value, k) == Get(init, k)
  {
    var t := Prepared(s, names, stylePropType);
    PreparedLists(s, names, stylePropType);
    InitialValuesCopy(Empty, AttributeNames(names), t.initialStyles);
  }

  class StyledComponent {
    /** `this.state.styleValues`: the style list of each group attribute. */
    var styleValues: Object

    constructor (values: Object)
      ensures styleValues == values
    {
      styleValues := values;
    }

    /** `processStylePlugins`: recomputes the groups the trigger runs, on a
        copy of the style values that replaces them at the end; a failing
        group leaves the style values as they were. */
    method ProcessStylePlugins(env: Env, trigger: Trigger) returns (r: Result<()>)
      modifies this
      ensures var p := Pass(env, trigger, Assign(Empty, old(styleValues)), env.def.stylePropertyNames);
        && (p.Ok? ==> r.Ok? && styleValues == p.value)
        && (p.Err? ==> r == Err(p.error) && styleValues == old(styleValues))
    {
      var names := env.def.stylePropertyNames;
      var values := Assign(Empty, styleValues);
      var i := 0;
      while i < |names|
        invariant 0 <= i <= |names|
        invariant styleValues == old(styleValues)
        invariant Pass(env, trigger, values, names[i..]) == Pass(env, trigger, Assign(Empty, old(styleValues)), names)
      {
        var attrName := names[i];
        assert names[i..][0] == attrName && names[i..][1..] == names[i + 1..];
        if Runs(trigger, env.props, attrName) {
          var next := ProcessGroup(env, values, attrName);
          if next.Err? {
            assert Pass(env, trigger, values, names[i..]) == Err(next.error);
            return Err(next.error);
          }
          assert Pass(env, trigger, values, names[i..]) == Pass(env, trigger, next.value, names[i + 1..]);
          values := next.value;
        } else {
          assert Pass(env, trigger, values, names[i..]) == Pass(env, trigger, values, names[i + 1..]);
        }
        i := i + 1;
      }
      styleValues := values;
      r := Ok(());
    }

    /** The body of the loop for one group that runs. */
    static method ProcessGroup(env: Env, values: Object, attrName: string) returns (r: Result<Object>)
      ensures r == GroupStyles(env, values, attrName)
    {
      var fullAttrName := GetStylePropertyName(attrName);
      var entries := Get(env.def.mapping, attrName);
      if !entries.Arr? {
        return Err(TypeError("mapPropsToStyleObject[attrName] is not an array"));
      }
      var names, renames := FlattenAvailable(entries.elems);
      var claimed, rest := ClaimPlugins(env.def.property, names);
      var prev := PreviousSheets(Get(values, fullAttrName));
      if prev.Err? {
        return Err(prev.error);
      }
      var computed := GetStyleSheet(env.props, env.context, prev.value, StyleDefOf(env.def), attrName, fullAttrName,
                                    env.def.globals, claimed, env.styleSheet, env.run);
      if |rest| > 0 {
        var verbatim := Verbatim(rest, renames, env.props);
        computed := computed + [Obj(verbatim)];
      }
      r := Ok(Set(values, fullAttrName, Arr(computed)));
    }
  }

  /** The loop of the constructor: each group attribute's initial list is
      copied, and a missing list is refused. */
  method CopyInitialStyles(attrs: seq<string>, initialStyles: Object) returns (r: Result<Object>)
    ensures r == InitialFrom(Empty, attrs, initialStyles)
  {
    var values := Empty;
    var i := 0;
    while i < |attrs|
      invariant 0 <= i <= |attrs|
      invariant InitialFrom(values, attrs[i..], initialStyles) == InitialFrom(Empty, attrs, initialStyles)
    {
      assert attrs[i..][0] == attrs[i] && attrs[i..][1..] == attrs[i + 1..];
      var list := Get(initialStyles, attrs[i]);
      if !list.Arr? {
        return Err(TypeError("initialStyles[name] is not an array"));
      }
      values := Set(values, attrs[i], list);
      i := i + 1;
    }
    return Ok(values);
  }

  /** The constructor of `PrismComponent`: refuses to build a component
      before the registry is configured (`registry` is null) or before it
      compiled its style sheet, and otherwise starts from the initial style
      lists. */
  method NewStyledComponent(def: Definition, registry: Registry.StyleRegistry?, initialStyles: Object)
    returns (r: Result<StyledComponent>)
    ensures registry == null ==> r == Err(NoRegistry)
    ensures registry != null && registry.styleSheet.None? ==> r == Err(NoStyleSheet)
    ensures registry != null && registry.styleSheet.Some? ==>
      var init := InitialStyleValues(def.stylePropertyNames, initialStyles);
      && (init.Err? ==> r == Err(init.error))
      && (init.Ok? ==> r.Ok? && fresh(r.value) && r.value.styleValues == init.value)
  {
    if registry == null {
      return Err(NoRegistry);
    }
    if registry.styleSheet.None? {
      return Err(NoStyleSheet);
    }
    var values := CopyInitialStyles(AttributeNames(def.stylePropertyNames), initialStyles);
    if values.Err? {
      return Err(values.error);
    }
    var c := new StyledComponent(values.value);
    r := Ok(c);
  }
}
