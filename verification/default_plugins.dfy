/** The built-in plugins (src/DefaultPlugins.js): the state rule lookup
    `mapPropsToStyleState`, the child-group router `mapPropsToComponent`,
    `mapStyleToProp`, `mapPropsToStyle` and the `className` lookup. Each is
    modelled with the values it destructures from its plugin context as
    parameters. */
module DefaultPlugins {
  import opened Js
  import opened Wrappers
  import opened Plugins
  import opened Naming
  import opened Cascade

  /** The rule-name builders the built-in plugins read from `ns`. */
  datatype Namer = Namer(
    childClassName: string -> string,
    stateClassName: string -> string,
    childStateClassName: (string, string) -> string)

  // ---------------------------------------------------------------------
  // mapPropsToStyleState
  // ---------------------------------------------------------------------

  /** A state sheet is used when it is truthy and an array, an object or a
      registered style number. */
  predicate Usable(v: Value)
  {
    Truthy(v) && (IsArray(v) || IsObject(v) || IsNumber(v))
  }

  /** The list holding `v` when it is usable, otherwise nothing. */
  function Pick(v: Value): (r: seq<Value>)
    ensures Usable(v) ==> r == [v]
    ensures !Usable(v) ==> r == []
  {
    if Usable(v) then [v] else []
  }

  /** Whether a state name resolves to the component's own state rule, as
      written: `isStyle = attrName`, so any non-empty group key does. */
  predicate TopLevelAsWritten(attrName: string)
  {
    attrName != ""
  }

  /** As evidently intended: the component's own state rule serves the
      `style` group (or a call made for no group); a child group looks up
      its child state rule. */
  predicate TopLevel(attrName: string)
  {
    attrName == "" || attrName == STYLE
  }

  /** The sheets for a state: a string state names a rule of the style
      sheet, any other state is its own sheet; the sheet is kept when
      usable. `top` selects the rule-name builder. */
  function StateSheets(top: bool, state: Value, attrName: string, styleSheet: Object, ns: Namer): seq<Value>
  {
    if !Truthy(state) then []
    else if IsString(state) then
      Pick(Get(styleSheet, if top then ns.stateClassName(state.s) else ns.childStateClassName(attrName, state.s)))
    else Pick(state)
  }

  /** `mapPropsToStyleState`, as corrected. `stateStyle` is what the
      component's `mapPropsToStyleState` option returns, `None` when the
      option is not a function (calling it raises a TypeError). */
  function MapPropsToStyleState(stateStyle: Option<Value>, attrName: string, styleSheet: Object, ns: Namer): (r: Result<seq<Value>>)
    ensures r.Err? <==> stateStyle.None?
    ensures r.Ok? ==> |r.value| <= 1 && forall i :: 0 <= i < |r.value| ==> Usable(r.value[i])
    ensures r.Ok? && !Truthy(stateStyle.value) ==> r.value == []
    ensures r.Ok? && Truthy(stateStyle.value) && !IsString(stateStyle.value) ==>
      (r.value == [stateStyle.value] <==> Usable(stateStyle.value))
    ensures r.Ok? && IsString(stateStyle.value) && TopLevel(attrName) ==>
      r.value == Pick(Get(styleSheet, ns.stateClassName(stateStyle.value.s)))
    ensures r.Ok? && IsString(stateStyle.value) && !TopLevel(attrName) ==>
      r.value == Pick(Get(styleSheet, ns.childStateClassName(attrName, stateStyle.value.s)))
  {
    if stateStyle.None? then Err(TypeError("mapPropsToStyleState is not a function"))
    else Ok(StateSheets(TopLevel(attrName), stateStyle.value, attrName, styleSheet, ns))
  }

  /** `mapPropsToStyleState` as written. */
  function MapPropsToStyleStateAsWritten(stateStyle: Option<Value>, attrName: string, styleSheet: Object, ns: Namer): Result<seq<Value>>
  {
    if stateStyle.None? then Err(TypeError("mapPropsToStyleState is not a function"))
    else Ok(StateSheets(TopLevelAsWritten(attrName), stateStyle.value, attrName, styleSheet, ns))
  }

  /** The discrepancy: for the child group `label` and a string state, the
      code as written looks up the component's own state rule, and for a
      call without a group it looks up a child rule for the empty group;
      as corrected, the child group gets its child state rule. */
  lemma StateLookupInverted(state: string, styleSheet: Object, ns: Namer)
    requires state != ""
    ensures MapPropsToStyleStateAsWritten(Some(Str(state)), "label", styleSheet, ns)
         == Ok(Pick(Get(styleSheet, ns.stateClassName(state))))
    ensures MapPropsToStyleStateAsWritten(Some(Str(state)), "", styleSheet, ns)
         == Ok(Pick(Get(styleSheet, ns.childStateClassName("", state))))
    ensures MapPropsToStyleState(Some(Str(state)), "label", styleSheet, ns)
         == Ok(Pick(Get(styleSheet, ns.childStateClassName("label", state))))
  {
  }

  // ---------------------------------------------------------------------
  // mapPropsToComponent, the child-group router
  // ---------------------------------------------------------------------

  /** What the router reads of its plugin context: the instance's input
      attributes, the `mapPropsToComponent` option, the definition's
      initial styles, the property plugins by name, the style sheet, the
      name builders, the component's state, and the router's own call,
      which each owning plugin receives with its `prop` and `propName`. */
  datatype RouterEnv = RouterEnv(
    props: Object,
    mapping: Object,
    initialStyles: Object,
    byName: map<string, Plugin>,
    styleSheet: Object,
    ns: Namer,
    stateStyle: Option<Value>,
    call: PluginCall,
    run: PluginRunner)

  /** The state of one child group while its source list is walked: its
      style list, the fragment of copied props, and whether anything was
      copied. */
  datatype Acc = Acc(sheets: seq<Value>, target: Object, matched: bool)

  /** `addMatched`: a name a property plugin owns goes to that plugin, whose
      defined output is appended; any other name is copied into the
      fragment. */
  function AddMatched(env: RouterEnv, acc: Acc, name: string, v: Value): Acc
  {
    if name in env.byName then
      var style := env.run(env.call.(plugin := env.byName[name], propName := Some(name), prop := v));
      if Defined(style) then acc.(sheets := Concat(acc.sheets, style)) else acc
    else Acc(acc.sheets, Set(acc.target, name, v), true)
  }

  /** The style name a key of an object entry is written under: the
      entry's string value when it has one, otherwise the key. */
  function StyleNameFor(entry: Object, key: string): string
  {
    var v := Get(entry, key);
    if IsString(v) then v.s else key
  }

  /** The keys of an object entry, in order: each key whose prop is defined
      is matched under its style name. */
  function AddKeys(env: RouterEnv, acc: Acc, entry: Object, keys: seq<string>): Acc
    decreases |keys|
  {
    if keys == [] then acc
    else
      var n := |keys| - 1;
      AddKey(env, AddKeys(env, acc, entry, keys[..n]), entry, keys[n])
  }

  /** One key of an object entry: matched under its style name when its
      prop is defined. */
  function AddKey(env: RouterEnv, acc: Acc, entry: Object, key: string): Acc
  {
    if Defined(Get(env.props, key)) then AddMatched(env, acc, StyleNameFor(entry, key), Get(env.props, key)) else acc
  }

  /** The source list of a child group, in order: a string entry whose prop
      is defined is matched under its own name, an object entry by its
      keys, and anything else is skipped. */
  function AddEntries(env: RouterEnv, acc: Acc, entries: seq<Value>): Acc
    decreases |entries|
  {
    if entries == [] then acc
    else
      var n := |entries| - 1;
      AddEntry(env, AddEntries(env, acc, entries[..n]), entries[n])
  }

  /** One entry of the source list. */
  function AddEntry(env: RouterEnv, acc: Acc, e: Value): Acc
  {
    if IsString(e) then
      if Defined(Get(env.props, e.s)) then AddMatched(env, acc, e.s, Get(env.props, e.s)) else acc
    else if IsObject(e) then AddKeys(env, acc, e.obj, e.obj.keys)
    else acc
  }

  /** The head of a child group's list: its initial style when that is an
      object, then its child class rule when the style sheet has one. */
  function ChildBase(env: RouterEnv, attrName: string): seq<Value>
  {
    var defaults := Get(env.initialStyles, attrName);
    (if IsObject(defaults) then [defaults] else []) + ClassRule(env.styleSheet, env.ns.childClassName(attrName))
  }

  /** The whole list of one child group, as corrected: the head, the state
      sheets, the outputs of plugin-owned props, and the fragment of copied
      props when anything was copied. */
  function ChildSheets(env: RouterEnv, attrName: string): (r: Result<seq<Value>>)
    ensures r.Err? <==> env.stateStyle.None?
  {
    var state :- MapPropsToStyleState(env.stateStyle, attrName, env.styleSheet, env.ns);
    var start := Acc(ChildBase(env, attrName) + state, Empty, false);
    var source := Get(env.mapping, attrName);
    var acc := if source.Arr? && |source.elems| > 0 then AddEntries(env, start, source.elems) else start;
    Ok(if acc.matched then acc.sheets + [Obj(acc.target)] else acc.sheets)
  }

  /** The router over the remaining child groups, as corrected: each group's
      attribute of the style values receives its list. */
  function Route(env: RouterEnv, values: Object, names: seq<string>): Result<Object>
    decreases |names|
  {
    if names == [] then Ok(values)
    else
      var sheets :- ChildSheets(env, names[0]);
      Route(env, Set(values, names[0], Arr(sheets)), names[1..])
  }

  /** The router as written: the state sheets of the first child group are
      requested from `mapPropsToStateStyle`, which is not defined. */
  function RouteAsWritten(env: RouterEnv, values: Object, names: seq<string>): Result<Object>
  {
    if names == [] then Ok(values) else Err(ReferenceError("mapPropsToStateStyle"))
  }

  /** The discrepancy: with any child group the router as written fails,
      while the corrected router succeeds whenever the component's state
      option is a function. */
  lemma RouterReferenceError(env: RouterEnv, values: Object, names: seq<string>)
    requires names != [] && env.stateStyle.Some?
    ensures RouteAsWritten(env, values, names) == Err(ReferenceError("mapPropsToStateStyle"))
    ensures Route(env, values, names).Ok?
  {
    RouteEffect(env, values, names, "");
  }

  /** Every child group gets its list and the other style values are kept;
      the router fails exactly when there is a child group and the state
      option is not a function, and then before writing anything. */
  lemma {:induction false} RouteEffect(env: RouterEnv, values: Object, names: seq<string>, k: string)
    ensures var r := Route(env, values, names);
      && (r.Err? <==> names != [] && env.stateStyle.None?)
      && (r.Ok? && k in names ==> Get(r.value, k) == Arr(ChildSheets(env, k).value))
      && (r.Ok? && k !in names ==> Get(r.value, k) == Get(values, k))
    decreases |names|
  {
    if names != [] && env.stateStyle.Some? {
      var sheets := ChildSheets(env, names[0]).value;
      RouteEffect(env, Set(values, names[0], Arr(sheets)), names[1..], k);
      assert k in names <==> k == names[0] || k in names[1..];
    }
  }

  /** A well-formed accumulator: the fragment of copied props is non-empty
      exactly when something was matched, holds only defined values, and
      never a name a property plugin owns. */
  ghost predicate GoodAcc(env: RouterEnv, acc: Acc)
  {
    && Valid(acc.target)
    && (acc.matched <==> acc.target.keys != [])
    && (forall k :: Has(acc.target, k) ==> Defined(Get(acc.target, k)) && k !in env.byName)
  }

  /** The router copies the prop `key` of an object entry under `name`. */
  predicate KeyCopies(env: RouterEnv, entry: Object, key: string, name: string)
  {
    Defined(Get(env.props, key)) && StyleNameFor(entry, key) == name && name !in env.byName
  }

  /** The router copies a prop of the source entry `e` under `name`. */
  predicate EntryCopies(env: RouterEnv, e: Value, name: string)
  {
    || (IsString(e) && e.s == name && Defined(Get(env.props, name)) && name !in env.byName)
    || (IsObject(e) && exists key :: key in e.obj.keys && KeyCopies(env, e.obj, key, name))
  }

  /** A prop the router hands on, under the style name it is matched as. */
  datatype Match = Match(name: string, prop: Value)

  /** The match of one key of an object entry: none when its prop is
      undefined. */
  function KeyMatch(env: RouterEnv, entry: Object, key: string): (r: seq<Match>)
    ensures forall i :: 0 <= i < |r| ==> Defined(r[i].prop)
    ensures |r| == 1 <==> Defined(Get(env.props, key))
  {
    if Defined(Get(env.props, key)) then [Match(StyleNameFor(entry, key), Get(env.props, key))] else []
  }

  /** The matches of the keys of an object entry, in key order. */
  function KeyMatches(env: RouterEnv, entry: Object, keys: seq<string>): (r: seq<Match>)
    ensures forall i :: 0 <= i < |r| ==> Defined(r[i].prop)
    decreases |keys|
  {
    if keys == [] then []
    else
      var n := |keys| - 1;
      KeyMatches(env, entry, keys[..n]) + KeyMatch(env, entry, keys[n])
  }

  /** The matches of one entry of a source list: a string entry with a
      defined prop under its own name, an object entry by its keys. */
  function EntryMatches(env: RouterEnv, e: Value): (r: seq<Match>)
    ensures forall i :: 0 <= i < |r| ==> Defined(r[i].prop)
  {
    if IsString(e) then
      if Defined(Get(env.props, e.s)) then [Match(e.s, Get(env.props, e.s))] else []
    else if IsObject(e) then KeyMatches(env, e.obj, e.obj.keys)
    else []
  }

  /** The matches of a source list, in source order. */
  function Matches(env: RouterEnv, entries: seq<Value>): (r: seq<Match>)
    ensures forall i :: 0 <= i < |r| ==> Defined(r[i].prop)
    decreases |entries|
  {
    if entries == [] then []
    else
      var n := |entries| - 1;
      Matches(env, entries[..n]) + EntryMatches(env, entries[n])
  }

  /** What a match adds to the list: the defined output of the property
      plugin owning its name, spread when it is an array (`concat`). */
  function Output(env: RouterEnv, m: Match): seq<Value>
  {
    if m.name in env.byName then
      var style := env.run(env.call.(plugin := env.byName[m.name], propName := Some(m.name), prop := m.prop));
      if !Defined(style) then [] else if style.Arr? then style.elems else [style]
    else []
  }

  /** The outputs of a sequence of matches, one after another. */
  function Outputs(env: RouterEnv, ms: seq<Match>): seq<Value>
    decreases |ms|
  {
    if ms == [] then []
    else
      var n := |ms| - 1;
      Outputs(env, ms[..n]) + Output(env, ms[n])
  }

  /** Match `m` copies its prop into the fragment under `n`. */
  predicate Copies(env: RouterEnv, m: Match, n: string)
  {
    m.name == n && n !in env.byName
  }

  /** Some match of `ms` copies a prop under `n`. */
  predicate AnyCopy(env: RouterEnv, ms: seq<Match>, n: string)
  {
    exists i :: 0 <= i < |ms| && Copies(env, ms[i], n)
  }

  /** `ms[i]` is the last match of `ms` copying under `n`. */
  predicate LastCopy(env: RouterEnv, ms: seq<Match>, i: nat, n: string)
  {
    i < |ms| && Copies(env, ms[i], n) && forall l :: i < l < |ms| ==> !Copies(env, ms[l], n)
  }

  /** Matches handed to `addMatched` one after another. */
  function AddMatches(env: RouterEnv, acc: Acc, ms: seq<Match>): Acc
    decreases |ms|
  {
    if ms == [] then acc
    else
      var n := |ms| - 1;
      AddMatched(env, AddMatches(env, acc, ms[..n]), ms[n].name, ms[n].prop)
  }

  /** One match: a name a property plugin owns appends that plugin's
      output and leaves the fragment alone; any other name is copied into
      the fragment with its value, and nothing else changes. */
  lemma AddMatchedEffect(env: RouterEnv, acc: Acc, name: string, v: Value, n: string)
    requires GoodAcc(env, acc) && Defined(v)
    ensures var r := AddMatched(env, acc, name, v);
      && GoodAcc(env, r)
      && r.sheets == acc.sheets + Output(env, Match(name, v))
      && (r.matched <==> acc.matched || name !in env.byName)
      && (Has(r.target, n) <==> Has(acc.target, n) || Copies(env, Match(name, v), n))
      && (Copies(env, Match(name, v), n) ==> Get(r.target, n) == v)
      && (!Copies(env, Match(name, v), n) ==> Get(r.target, n) == Get(acc.target, n))
  {
  }

  /** One match keeps the accumulator well formed, appends the owning
      plugin's output, and sets the flag for an unowned name. */
  lemma AddMatchedShape(env: RouterEnv, acc: Acc, name: string, v: Value)
    requires GoodAcc(env, acc) && Defined(v)
    ensures var r := AddMatched(env, acc, name, v);
      && GoodAcc(env, r)
      && r.sheets == acc.sheets + Output(env, Match(name, v))
      && (r.matched <==> acc.matched || name !in env.byName)
  {
    AddMatchedEffect(env, acc, name, v, "");
  }

  /** Handing matches on one list after another is handing on their
      concatenation. */
  lemma {:induction false} AddMatchesAppend(env: RouterEnv, acc: Acc, a: seq<Match>, b: seq<Match>)
    ensures AddMatches(env, acc, a + b) == AddMatches(env, AddMatches(env, acc, a), b)
    decreases |b|
  {
    if b == [] {
      assert a + b == a;
    } else {
      var n := |b| - 1;
      assert (a + b)[..|a + b| - 1] == a + b[..n];
      AddMatchesAppend(env, acc, a, b[..n]);
    }
  }

  /** Some match of `a + b` copies under `n` exactly when one of `a` or one
      of `b` does. */
  lemma AnyCopyAppend(env: RouterEnv, a: seq<Match>, b: seq<Match>, n: string)
    ensures AnyCopy(env, a + b, n) <==> AnyCopy(env, a, n) || AnyCopy(env, b, n)
  {
    if AnyCopy(env, a + b, n) {
      var i :| 0 <= i < |a + b| && Copies(env, (a + b)[i], n);
      if i >= |a| {
        assert Copies(env, b[i - |a|], n);
      }
    }
    if AnyCopy(env, a, n) {
      var i :| 0 <= i < |a| && Copies(env, a[i], n);
      assert Copies(env, (a + b)[i], n);
    }
    if AnyCopy(env, b, n) {
      var i :| 0 <= i < |b| && Copies(env, b[i], n);
      assert Copies(env, (a + b)[|a| + i], n);
    }
  }

  /** Matches on a well-formed accumulator: it stays well formed; the list
      grows by exactly the owning plugins' outputs, in match order; the
      fragment is started by the first unowned name; a name is in the
      fragment exactly when it was there or some match copies it, and it
      then holds the prop of the last match copying it. */
  lemma AddMatchesEffect(env: RouterEnv, acc: Acc, ms: seq<Match>, n: string)
    requires GoodAcc(env, acc) && forall i :: 0 <= i < |ms| ==> Defined(ms[i].prop)
    ensures var r := AddMatches(env, acc, ms);
      && GoodAcc(env, r)
      && r.sheets == acc.sheets + Outputs(env, ms)
      && (r.matched <==> acc.matched || exists i :: 0 <= i < |ms| && ms[i].name !in env.byName)
      && (Has(r.target, n) <==> Has(acc.target, n) || AnyCopy(env, ms, n))
      && (forall i: nat :: LastCopy(env, ms, i, n) ==> Get(r.target, n) == ms[i].prop)
      && (!AnyCopy(env, ms, n) ==> Get(r.target, n) == Get(acc.target, n))
  {
    AddMatchesShape(env, acc, ms);
    AddMatchesTarget(env, acc, ms, n);
  }

  /** The list and the flag: the accumulator stays well formed, the list
      grows by the outputs in match order, and the flag is set by an
      unowned name. */
  lemma AddMatchesShape(env: RouterEnv, acc: Acc, ms: seq<Match>)
    requires GoodAcc(env, acc) && forall i :: 0 <= i < |ms| ==> Defined(ms[i].prop)
    ensures var r := AddMatches(env, acc, ms);
      && GoodAcc(env, r)
      && r.sheets == acc.sheets + Outputs(env, ms)
      && (r.matched <==> acc.matched || exists i :: 0 <= i < |ms| && ms[i].name !in env.byName)
  {
    AddMatchesGood(env, acc, ms);
    AddMatchesSheets(env, acc, ms);
    AddMatchesFlag(env, acc, ms);
  }

  /** Matches of defined props keep the accumulator well formed. */
  lemma {:induction false} AddMatchesGood(env: RouterEnv, acc: Acc, ms: seq<Match>)
    requires GoodAcc(env, acc) && forall i :: 0 <= i < |ms| ==> Defined(ms[i].prop)
    ensures GoodAcc(env, AddMatches(env, acc, ms))
    decreases |ms|
  {
    if ms != [] {
      var last := |ms| - 1;
      AddMatchesGood(env, acc, ms[..last]);
      AddMatchedShape(env, AddMatches(env, acc, ms[..last]), ms[last].name, ms[last].prop);
    }
  }

  /** The list grows by the owning plugins' outputs, in match order. */
  lemma {:induction false} AddMatchesSheets(env: RouterEnv, acc: Acc, ms: seq<Match>)
    ensures AddMatches(env, acc, ms).sheets == acc.sheets + Outputs(env, ms)
    decreases |ms|
  {
    if ms != [] {
      var last := |ms| - 1;
      var front := ms[..last];
      AddMatchesSheets(env, acc, front);
      calc {
        AddMatches(env, acc, ms).sheets;
        AddMatched(env, AddMatches(env, acc, front), ms[last].name, ms[last].prop).sheets;
        AddMatches(env, acc, front).sheets + Output(env, ms[last]);
        acc.sheets + Outputs(env, front) + Output(env, ms[last]);
        acc.sheets + Outputs(env, ms);
      }
    }
  }

  /** Something is copied exactly when something already was or some match
      has no owning plugin. */
  lemma {:induction false} AddMatchesFlag(env: RouterEnv, acc: Acc, ms: seq<Match>)
    ensures AddMatches(env, acc, ms).matched <==> acc.matched || exists i :: 0 <= i < |ms| && ms[i].name !in env.byName
    decreases |ms|
  {
    if ms != [] {
      var last := |ms| - 1;
      var front := ms[..last];
      AddMatchesFlag(env, acc, front);
      assert AddMatches(env, acc, ms).matched <==> AddMatches(env, acc, front).matched || ms[last].name !in env.byName;
      if exists i :: 0 <= i < |ms| && ms[i].name !in env.byName {
        var i :| 0 <= i < |ms| && ms[i].name !in env.byName;
        if i < last {
          assert front[i].name !in env.byName;
        }
      }
    }
  }

  /** What the matches `ms` leave in the fragment of `r` under `n`, starting
      from `acc`: the name is there exactly when it was or some match copies
      it; it holds the prop of the last match copying it, and is kept when
      no match copies it. */
  ghost predicate FragmentAfter(env: RouterEnv, acc: Acc, ms: seq<Match>, n: string, r: Acc)
  {
    && (Has(r.target, n) <==> Has(acc.target, n) || AnyCopy(env, ms, n))
    && (forall i: nat :: LastCopy(env, ms, i, n) ==> Get(r.target, n) == ms[i].prop)
    && (!AnyCopy(env, ms, n) ==> Get(r.target, n) == Get(acc.target, n))
  }

  /** The fragment: a name is in it exactly when it was there or some match
      copies it; it holds the prop of the last match copying it, and is
      kept when no match copies it. */
  lemma {:induction false} AddMatchesTarget(env: RouterEnv, acc: Acc, ms: seq<Match>, n: string)
    requires GoodAcc(env, acc) && forall i :: 0 <= i < |ms| ==> Defined(ms[i].prop)
    ensures FragmentAfter(env, acc, ms, n, AddMatches(env, acc, ms))
    decreases |ms|
  {
    if ms == [] {
      assert !AnyCopy(env, ms, n);
    } else {
      var last := |ms| - 1;
      var front := ms[..last];
      assert ms == front + [ms[last]];
      AddMatchesGood(env, acc, front);
      AddMatchesTarget(env, acc, front, n);
      FragmentStep(env, acc, front, ms[last], n, AddMatches(env, acc, front));
    }
  }

  /** One more match, from a well-formed accumulator. */
  lemma FragmentStep(env: RouterEnv, acc: Acc, front: seq<Match>, m: Match, n: string, a: Acc)
    requires GoodAcc(env, a) && Defined(m.prop) && FragmentAfter(env, acc, front, n, a)
    ensures FragmentAfter(env, acc, front + [m], n, AddMatched(env, a, m.name, m.prop))
  {
    var ms := front + [m];
    var r := AddMatched(env, a, m.name, m.prop);
    AddMatchedEffect(env, a, m.name, m.prop, n);
    AnyCopyAppend(env, front, [m], n);
    assert AnyCopy(env, [m], n) <==> Copies(env, m, n) by {
      if Copies(env, m, n) { assert Copies(env, [m][0], n); }
    }
    forall i: nat | LastCopy(env, ms, i, n) ensures Get(r.target, n) == ms[i].prop {
      if i < |front| {
        assert !Copies(env, m, n) by {
          assert ms[|front|] == m;
        }
        forall l | i < l < |front| ensures !Copies(env, front[l], n) {
          assert ms[l] == front[l];
        }
        assert ms[i] == front[i];
        assert LastCopy(env, front, i, n);
      } else {
        assert ms[i] == m;
      }
    }
  }

  /** The keys of an object entry are the matches of `KeyMatches`. */
  lemma {:induction false} AddKeysMatches(env: RouterEnv, acc: Acc, entry: Object, keys: seq<string>)
    ensures AddKeys(env, acc, entry, keys) == AddMatches(env, acc, KeyMatches(env, entry, keys))
    decreases |keys|
  {
    if keys != [] {
      var n := |keys| - 1;
      AddKeysMatches(env, acc, entry, keys[..n]);
      AddMatchesAppend(env, acc, KeyMatches(env, entry, keys[..n]), KeyMatch(env, entry, keys[n]));
    }
  }

  /** A key match copies under `n` exactly when some key copies under it. */
  lemma {:induction false} KeyMatchesCopy(env: RouterEnv, entry: Object, keys: seq<string>, n: string)
    ensures AnyCopy(env, KeyMatches(env, entry, keys), n) <==> exists j :: 0 <= j < |keys| && KeyCopies(env, entry, keys[j], n)
    decreases |keys|
  {
    if keys != [] {
      var m := |keys| - 1;
      var front := keys[..m];
      KeyMatchesCopy(env, entry, front, n);
      AnyCopyAppend(env, KeyMatches(env, entry, front), KeyMatch(env, entry, keys[m]), n);
      var km := KeyMatch(env, entry, keys[m]);
      assert AnyCopy(env, km, n) <==> KeyCopies(env, entry, keys[m], n) by {
        if KeyCopies(env, entry, keys[m], n) { assert Copies(env, km[0], n); }
      }
      if exists j :: 0 <= j < |keys| && KeyCopies(env, entry, keys[j], n) {
        var j :| 0 <= j < |keys| && KeyCopies(env, entry, keys[j], n);
        if j < m {
          assert KeyCopies(env, entry, front[j], n);
        }
      }
      if exists j :: 0 <= j < m && KeyCopies(env, entry, front[j], n) {
        var j :| 0 <= j < m && KeyCopies(env, entry, front[j], n);
        assert KeyCopies(env, entry, keys[j], n);
      }
    }
  }

  /** The keys of an object entry: the accumulator stays well formed; the
      list grows by the outputs of the keys' matches, in key order; a name
      is copied exactly when some key copies it, and it then holds the prop
      of the last match copying it; otherwise its value is kept. */
  lemma AddKeysEffect(env: RouterEnv, acc: Acc, entry: Object, keys: seq<string>, n: string)
    requires GoodAcc(env, acc)
    ensures var r := AddKeys(env, acc, entry, keys);
            var ms := KeyMatches(env, entry, keys);
      && GoodAcc(env, r)
      && r.sheets == acc.sheets + Outputs(env, ms)
      && (Has(r.target, n) <==> Has(acc.target, n) || exists j :: 0 <= j < |keys| && KeyCopies(env, entry, keys[j], n))
      && (forall i: nat :: LastCopy(env, ms, i, n) ==> Get(r.target, n) == ms[i].prop)
      && (!AnyCopy(env, ms, n) ==> Get(r.target, n) == Get(acc.target, n))
  {
    AddKeysMatches(env, acc, entry, keys);
    AddMatchesEffect(env, acc, KeyMatches(env, entry, keys), n);
    KeyMatchesCopy(env, entry, keys, n);
  }

  /** One entry of a source list is handed on as its matches, and they copy
      under `n` exactly when the entry does. */
  lemma AddEntryMatches(env: RouterEnv, acc: Acc, e: Value, n: string)
    ensures AddEntry(env, acc, e) == AddMatches(env, acc, EntryMatches(env, e))
    ensures AnyCopy(env, EntryMatches(env, e), n) <==> EntryCopies(env, e, n)
  {
    if IsObject(e) && !IsString(e) {
      AddKeysMatches(env, acc, e.obj, e.obj.keys);
    }
    EntryMatchesCopy(env, e, n);
  }

  /** The matches of one entry copy under `n` exactly when the entry does. */
  lemma EntryMatchesCopy(env: RouterEnv, e: Value, n: string)
    ensures AnyCopy(env, EntryMatches(env, e), n) <==> EntryCopies(env, e, n)
  {
    if IsString(e) {
      if Copies(env, Match(e.s, Get(env.props, e.s)), n) && Defined(Get(env.props, e.s)) {
        assert Copies(env, EntryMatches(env, e)[0], n);
      }
    } else if IsObject(e) {
      KeyMatchesCopy(env, e.obj, e.obj.keys, n);
      if exists key :: key in e.obj.keys && KeyCopies(env, e.obj, key, n) {
        var key :| key in e.obj.keys && KeyCopies(env, e.obj, key, n);
        var j :| 0 <= j < |e.obj.keys| && e.obj.keys[j] == key;
        assert KeyCopies(env, e.obj, e.obj.keys[j], n);
      }
    }
  }

  /** A source list is handed on as its matches, and they copy under `n`
      exactly when some entry does. */
  lemma AddEntriesMatches(env: RouterEnv, acc: Acc, entries: seq<Value>, n: string)
    ensures AddEntries(env, acc, entries) == AddMatches(env, acc, Matches(env, entries))
    ensures AnyCopy(env, Matches(env, entries), n) <==> exists i :: 0 <= i < |entries| && EntryCopies(env, entries[i], n)
  {
    AddEntriesAsMatches(env, acc, entries);
    MatchesCopy(env, entries, n);
  }

  /** A source list is handed on as its matches. */
  lemma {:induction false} AddEntriesAsMatches(env: RouterEnv, acc: Acc, entries: seq<Value>)
    ensures AddEntries(env, acc, entries) == AddMatches(env, acc, Matches(env, entries))
    decreases |entries|
  {
    if entries != [] {
      var m := |entries| - 1;
      var front := entries[..m];
      AddEntriesAsMatches(env, acc, front);
      AddEntryMatches(env, AddEntries(env, acc, front), entries[m], "");
      AddMatchesAppend(env, acc, Matches(env, front), EntryMatches(env, entries[m]));
    }
  }

  /** The matches of a source list copy under `n` exactly when some entry
      does. */
  lemma {:induction false} MatchesCopy(env: RouterEnv, entries: seq<Value>, n: string)
    ensures AnyCopy(env, Matches(env, entries), n) <==> exists i :: 0 <= i < |entries| && EntryCopies(env, entries[i], n)
    decreases |entries|
  {
    if entries != [] {
      var m := |entries| - 1;
      var front := entries[..m];
      MatchesCopy(env, front, n);
      MatchesCopyLast(env, entries, n);
      if exists i :: 0 <= i < |entries| && EntryCopies(env, entries[i], n) {
        var i :| 0 <= i < |entries| && EntryCopies(env, entries[i], n);
        if i < m {
          assert EntryCopies(env, front[i], n);
        }
      }
      if exists i :: 0 <= i < m && EntryCopies(env, front[i], n) {
        var i :| 0 <= i < m && EntryCopies(env, front[i], n);
        assert EntryCopies(env, entries[i], n);
      }
    }
  }

  /** The last entry of a source list adds exactly its own copies. */
  lemma MatchesCopyLast(env: RouterEnv, entries: seq<Value>, n: string)
    requires entries != []
    ensures var m := |entries| - 1;
      AnyCopy(env, Matches(env, entries), n) <==> AnyCopy(env, Matches(env, entries[..m]), n) || EntryCopies(env, entries[m], n)
  {
    var m := |entries| - 1;
    assert Matches(env, entries) == Matches(env, entries[..m]) + EntryMatches(env, entries[m]);
    EntryMatchesCopy(env, entries[m], n);
    AnyCopyAppend(env, Matches(env, entries[..m]), EntryMatches(env, entries[m]), n);
  }

  /** The source list: the accumulator stays well formed; the list grows by
      exactly the owning plugins' outputs, in source order; a name is copied
      exactly when some entry copies it (undefined props are skipped, object
      entries rename, plugin-owned names are never copied), and it then
      holds the prop of the last match copying it; otherwise its value is
      kept. */
  lemma AddEntriesEffect(env: RouterEnv, acc: Acc, entries: seq<Value>, n: string)
    requires GoodAcc(env, acc)
    ensures var r := AddEntries(env, acc, entries);
            var ms := Matches(env, entries);
      && GoodAcc(env, r)
      && r.sheets == acc.sheets + Outputs(env, ms)
      && (r.matched <==> acc.matched || exists i :: 0 <= i < |ms| && ms[i].name !in env.byName)
      && (Has(r.target, n) <==> Has(acc.target, n) || exists i :: 0 <= i < |entries| && EntryCopies(env, entries[i], n))
      && (forall i: nat :: LastCopy(env, ms, i, n) ==> Get(r.target, n) == ms[i].prop)
      && (!AnyCopy(env, ms, n) ==> Get(r.target, n) == Get(acc.target, n))
  {
    AddEntriesMatches(env, acc, entries, n);
    AddMatchesEffect(env, acc, Matches(env, entries), n);
  }

  /** The order and contents of a child group's list: its initial style
      (when an object), its child class rule, its state sheets, then the
      owning plugins' outputs in source order; after them comes one
      fragment exactly when some source match has no owning plugin, and
      that fragment holds exactly the copied names, each with the prop of
      the last match copying it. */
  lemma ChildSheetsOrder(env: RouterEnv, attrName: string, n: string)
    requires env.stateStyle.Some?
    ensures var r := ChildSheets(env, attrName).value;
            var head := ChildBase(env, attrName) + MapPropsToStyleState(env.stateStyle, attrName, env.styleSheet, env.ns).value;
            var source := Get(env.mapping, attrName);
            var entries := if source.Arr? then source.elems else [];
            var ms := Matches(env, entries);
            var k := |head| + |Outputs(env, ms)|;
      && k <= |r| <= k + 1 && r[..k] == head + Outputs(env, ms)
      && (|r| == k + 1 <==> exists i :: 0 <= i < |ms| && ms[i].name !in env.byName)
      && (|r| == k + 1 ==>
            && r[k].Obj?
            && (Has(r[k].obj, n) <==> exists i :: 0 <= i < |entries| && EntryCopies(env, entries[i], n))
            && (forall i: nat :: LastCopy(env, ms, i, n) ==> Get(r[k].obj, n) == ms[i].prop))
  {
    var state := MapPropsToStyleState(env.stateStyle, attrName, env.styleSheet, env.ns).value;
    var head := ChildBase(env, attrName) + state;
    var start := Acc(head, Empty, false);
    var source := Get(env.mapping, attrName);
    var entries := if source.Arr? then source.elems else [];
    AddEntriesEffect(env, start, entries, n);
    var acc := AddEntries(env, start, entries);
    assert acc == (if source.Arr? && |source.elems| > 0 then AddEntries(env, start, source.elems) else start);
    if acc.matched {
      assert (acc.sheets + [Obj(acc.target)])[..|acc.sheets|] == acc.sheets;
    } else {
      assert acc.sheets[..|acc.sheets|] == acc.sheets;
    }
  }

  /** The mutable style values the plugins write into (`mutableStyleValues`). */
  class StyleValues {
    var values: Object

    constructor (values: Object)
      ensures this.values == values
    {
      this.values := values;
    }

    /** The router, as corrected: each child group's attribute is
        overwritten with its list, in group order. */
    method MapPropsToComponent(env: RouterEnv, names: seq<string>) returns (r: Result<()>)
      modifies this
      ensures var s := Route(env, old(values), names);
        && (s.Ok? ==> r.Ok? && values == s.value)
        && (s.Err? ==> r == Err(s.error) && values == old(values))
    {
      var routed := RouteGroups(env, values, names);
      if routed.Err? {
        return Err(routed.error);
      }
      values := routed.value;
      r := Ok(());
    }

    /** `mapStyleToProp`: with the option set, every configured attribute is
        removed from the flattened style and, when its mapping is truthy and
        the attribute is defined, written to the style values under its
        prop name; the result is `[flat]` marked to overwrite the list. */
    method MapStyleToProp(sheets: seq<Value>, option: Value) returns (r: Option<Overwrite>)
      modifies this
      ensures !Truthy(option) ==> r.None? && values == old(values)
      ensures Truthy(option) ==>
        var e := StyleToProp(Flatten(sheets), old(values), MappingOf(option), MappingOf(option).keys);
        r == Some(Overwrite([Obj(e.flat)])) && values == e.values
    {
      if !Truthy(option) {
        return None;
      }
      var m := MappingOf(option);
      var flat := Flatten(sheets);
      var i := 0;
      while i < |m.keys|
        invariant 0 <= i <= |m.keys|
        invariant Extracted(flat, values) == StyleToProp(Flatten(sheets), old(values), m, m.keys[..i])
      {
        assert m.keys[..i + 1][..i] == m.keys[..i];
        flat := ExtractAttribute(flat, m, m.keys[i]);
        i := i + 1;
      }
      assert m.keys[..i] == m.keys;
      r := Some(Overwrite([Obj(flat)]));
    }

    /** The body of the `for ... in` loop, for attribute `k`. */
    method ExtractAttribute(flat: Object, m: Object, k: string) returns (rest: Object)
      modifies this
      ensures Extracted(rest, values) == ExtractOne(Extracted(flat, old(values)), m, k)
    {
      var v := Get(m, k);
      if Truthy(v) {
        var key := if IsString(v) then v.s else k;
        var value := Get(flat, k);
        if Defined(value) {
          values := Set(values, key, value);
        }
      }
      rest := Delete(flat, k);
    }
  }

  /** The loop of the router: each child group's attribute is overwritten
      with its list, in group order. */
  method RouteGroups(env: RouterEnv, start: Object, names: seq<string>) returns (r: Result<Object>)
    ensures r == Route(env, start, names)
  {
    var values := start;
    var i := 0;
    while i < |names|
      invariant 0 <= i <= |names|
      invariant Route(env, values, names[i..]) == Route(env, start, names)
    {
      assert names[i..][0] == names[i] && names[i..][1..] == names[i + 1..];
      var sheets := ChildSheetsOf(env, names[i]);
      if sheets.Err? {
        return Err(sheets.error);
      }
      values := Set(values, names[i], Arr(sheets.value));
      i := i + 1;
    }
    r := Ok(values);
  }

  /** The list of one child group, with the router's nested loops. */
  method ChildSheetsOf(env: RouterEnv, attrName: string) returns (r: Result<seq<Value>>)
    ensures r == ChildSheets(env, attrName)
  {
    var state := MapPropsToStyleState(env.stateStyle, attrName, env.styleSheet, env.ns);
    if state.Err? {
      return Err(state.error);
    }
    var sheets := ChildBase(env, attrName) + state.value;
    var target := Empty;
    var matched := false;
    var source := Get(env.mapping, attrName);
    if source.Arr? && |source.elems| > 0 {
      var a := AddEntriesOf(env, Acc(sheets, target, matched), source.elems);
      sheets, target, matched := a.sheets, a.target, a.matched;
    }
    if matched {
      sheets := sheets + [Obj(target)];
    }
    r := Ok(sheets);
  }

  /** The loop over the source list of a child group. */
  method AddEntriesOf(env: RouterEnv, start: Acc, entries: seq<Value>) returns (r: Acc)
    ensures r == AddEntries(env, start, entries)
  {
    var sheets, target, matched := start.sheets, start.target, start.matched;
    var i := 0;
    while i < |entries|
      invariant 0 <= i <= |entries|
      invariant Acc(sheets, target, matched) == AddEntries(env, start, entries[..i])
    {
      var e := entries[i];
      assert entries[..i + 1][..i] == entries[..i];
      if IsString(e) {
        if Defined(Get(env.props, e.s)) {
          var a := AddMatched(env, Acc(sheets, target, matched), e.s, Get(env.props, e.s));
          sheets, target, matched := a.sheets, a.target, a.matched;
        }
      } else if IsObject(e) {
        var a := AddKeysOf(env, Acc(sheets, target, matched), e.obj);
        sheets, target, matched := a.sheets, a.target, a.matched;
      }
      i := i + 1;
    }
    assert entries[..i] == entries;
    r := Acc(sheets, target, matched);
  }

  /** The loop over the keys of one object entry of the source list. */
  method AddKeysOf(env: RouterEnv, before: Acc, entry: Object) returns (r: Acc)
    ensures r == AddKeys(env, before, entry, entry.keys)
  {
    var keys := entry.keys;
    var sheets, target, matched := before.sheets, before.target, before.matched;
    var j := 0;
    while j < |keys|
      invariant 0 <= j <= |keys|
      invariant Acc(sheets, target, matched) == AddKeys(env, before, entry, keys[..j])
    {
      var key := keys[j];
      assert keys[..j + 1][..j] == keys[..j];
      if Defined(Get(env.props, key)) {
        var a := AddMatched(env, Acc(sheets, target, matched), StyleNameFor(entry, key), Get(env.props, key));
        sheets, target, matched := a.sheets, a.target, a.matched;
      }
      j := j + 1;
    }
    assert keys[..j] == keys;
    r := Acc(sheets, target, matched);
  }

  // ---------------------------------------------------------------------
  // mapStyleToProp
  // ---------------------------------------------------------------------

  /** A plugin result marked `overwrite`: it replaces the group's list
      instead of being appended to it. */
  datatype Overwrite = Overwrite(list: seq<Value>)

  /** The flattened style and the style values after some of the mapping's
      attributes were handled. */
  datatype Extracted = Extracted(flat: Object, values: Object)

  /** The object whose keys `for ... in` visits: an object option, or
      nothing for the other values an option can hold. */
  function MappingOf(option: Value): Object
  {
    if option.Obj? then option.obj else Empty
  }

  /** The prop name an attribute is written to: the mapping's string value
      when it has one, otherwise the attribute's own name. */
  function PropNameFor(m: Object, k: string): string
  {
    var v := Get(m, k);
    if IsString(v) then v.s else k
  }

  /** The `for ... in` of `mapStyleToProp` over the listed attributes. */
  function StyleToProp(flat: Object, values: Object, m: Object, keys: seq<string>): Extracted
    decreases |keys|
  {
    if keys == [] then Extracted(flat, values)
    else
      var n := |keys| - 1;
      ExtractOne(StyleToProp(flat, values, m, keys[..n]), m, keys[n])
  }

  /** One attribute `k` of the mapping: a truthy mapping moves its defined
      value to the prop name, and the attribute leaves the style. */
  function ExtractOne(e: Extracted, m: Object, k: string): Extracted
  {
    var value := Get(e.flat, k);
    var values' := if Truthy(Get(m, k)) && Defined(value) then Set(e.values, PropNameFor(m, k), value) else e.values;
    Extracted(Delete(e.flat, k), values')
  }

  /** Every configured attribute is removed from the flattened style, and
      every other attribute is kept. */
  lemma {:induction false} StyleToPropFlat(flat: Object, values: Object, m: Object, keys: seq<string>, k: string)
    ensures var e := StyleToProp(flat, values, m, keys);
      && (k in keys ==> !Has(e.flat, k))
      && (k !in keys ==> Get(e.flat, k) == Get(flat, k) && (Has(e.flat, k) <==> Has(flat, k)))
    decreases |keys|
  {
    if keys != [] {
      var n := |keys| - 1;
      StyleToPropFlat(flat, values, m, keys[..n], k);
      assert k in keys <==> k in keys[..n] || k == keys[n];
    }
  }

  /** Attribute `k` is moved to prop name `x`: its mapping is truthy and
      names `x`, and the flattened style defines it. */
  predicate Moves(flat: Object, m: Object, k: string, x: string)
  {
    Truthy(Get(m, k)) && PropNameFor(m, k) == x && Defined(Get(flat, k))
  }

  /** `keys[i]` is the last listed attribute moved to `x`. */
  predicate LastMove(flat: Object, m: Object, keys: seq<string>, i: nat, x: string)
  {
    i < |keys| && Moves(flat, m, keys[i], x) && forall l :: i < l < |keys| ==> !Moves(flat, m, keys[l], x)
  }

  /** The last attribute moved to a prop name decides its value. */
  lemma {:induction false} StyleToPropLastMove(flat: Object, values: Object, m: Object, keys: seq<string>, i: nat, x: string)
    requires NoDuplicates(keys) && LastMove(flat, m, keys, i, x)
    ensures Get(StyleToProp(flat, values, m, keys).values, x) == Get(flat, keys[i])
    decreases |keys|
  {
    var n := |keys| - 1;
    var front := keys[..n];
    assert NoDuplicates(front) && keys[n] !in front;
    StyleToPropFlat(flat, values, m, front, keys[n]);
    var e := StyleToProp(flat, values, m, front);
    assert StyleToProp(flat, values, m, keys) == ExtractOne(e, m, keys[n]);
    ExtractOneValue(e, flat, m, keys[n], x);
    if i < n {
      assert !Moves(flat, m, keys[n], x);
      assert LastMove(flat, m, front, i, x);
      StyleToPropLastMove(flat, values, m, front, i, x);
    }
  }

  /** Helper of StyleToPropLastMove: one more attribute sets the prop name
      it is moved to, and keeps every other. */
  lemma ExtractOneValue(e: Extracted, flat: Object, m: Object, k: string, x: string)
    requires Get(e.flat, k) == Get(flat, k)
    ensures Get(ExtractOne(e, m, k).values, x) == if Moves(flat, m, k, x) then Get(flat, k) else Get(e.values, x)
  {
  }

  /** A prop name no attribute is moved to keeps its value. */
  lemma {:induction false} StyleToPropUnmoved(flat: Object, values: Object, m: Object, keys: seq<string>, x: string)
    requires NoDuplicates(keys) && forall i :: 0 <= i < |keys| ==> !Moves(flat, m, keys[i], x)
    ensures Get(StyleToProp(flat, values, m, keys).values, x) == Get(values, x)
    decreases |keys|
  {
    if keys != [] {
      var n := |keys| - 1;
      var front := keys[..n];
      assert NoDuplicates(front) && keys[n] !in front;
      StyleToPropFlat(flat, values, m, front, keys[n]);
      StyleToPropUnmoved(flat, values, m, front, x);
    }
  }

  /** An attribute reaches the style values exactly as it was in the
      flattened style: a prop name takes the value of the last attribute
      moved to it, and keeps its value when none is; so a style value
      changes only to the defined value of an attribute whose mapping is
      truthy and names it, and a prop name some such attribute maps to ends
      up defined. */
  lemma {:induction false} StyleToPropValues(flat: Object, values: Object, m: Object, keys: seq<string>, x: string)
    requires NoDuplicates(keys)
    ensures var e := StyleToProp(flat, values, m, keys);
      && (forall i: nat :: LastMove(flat, m, keys, i, x) ==> Get(e.values, x) == Get(flat, keys[i]))
      && ((forall i :: 0 <= i < |keys| ==> !Moves(flat, m, keys[i], x)) ==> Get(e.values, x) == Get(values, x))
      && (Get(e.values, x) != Get(values, x) ==>
            exists i :: 0 <= i < |keys| && Truthy(Get(m, keys[i])) && PropNameFor(m, keys[i]) == x
                        && Defined(Get(flat, keys[i])) && Get(e.values, x) == Get(flat, keys[i]))
      && ((exists i :: 0 <= i < |keys| && Truthy(Get(m, keys[i])) && PropNameFor(m, keys[i]) == x && Defined(Get(flat, keys[i])))
            ==> Defined(Get(e.values, x)))
  {
    StyleToPropChanged(flat, values, m, keys, x);
    StyleToPropDefines(flat, values, m, keys, x);
    forall i: nat | LastMove(flat, m, keys, i, x)
      ensures Get(StyleToProp(flat, values, m, keys).values, x) == Get(flat, keys[i])
    {
      StyleToPropLastMove(flat, values, m, keys, i, x);
    }
    if forall i :: 0 <= i < |keys| ==> !Moves(flat, m, keys[i], x) {
      StyleToPropUnmoved(flat, values, m, keys, x);
    }
  }

  /** Helper of StyleToPropValues: a changed style value comes from a
      mapped attribute. */
  lemma {:induction false} StyleToPropChanged(flat: Object, values: Object, m: Object, keys: seq<string>, x: string)
    requires NoDuplicates(keys)
    ensures var e := StyleToProp(flat, values, m, keys);
      Get(e.values, x) != Get(values, x) ==>
        exists i :: 0 <= i < |keys| && Truthy(Get(m, keys[i])) && PropNameFor(m, keys[i]) == x
                    && Defined(Get(flat, keys[i])) && Get(e.values, x) == Get(flat, keys[i])
    decreases |keys|
  {
    if keys != [] {
      var n := |keys| - 1;
      var front := keys[..n];
      assert NoDuplicates(front);
      StyleToPropChanged(flat, values, m, front, x);
      var k := keys[n];
      assert k !in front;
      StyleToPropFlat(flat, values, m, front, k);
      var e := StyleToProp(flat, values, m, front);
      var r := StyleToProp(flat, values, m, keys);
      if Get(r.values, x) != Get(values, x) && Get(r.values, x) == Get(e.values, x) {
        var i :| 0 <= i < n && Truthy(Get(m, front[i])) && PropNameFor(m, front[i]) == x
                 && Defined(Get(flat, front[i])) && Get(e.values, x) == Get(flat, front[i]);
        assert keys[i] == front[i];
      }
    }
  }

  /** Helper of StyleToPropValues: a prop name some mapped, defined
      attribute moves to ends up defined. */
  lemma {:induction false} StyleToPropDefines(flat: Object, values: Object, m: Object, keys: seq<string>, x: string)
    requires NoDuplicates(keys)
    ensures var e := StyleToProp(flat, values, m, keys);
      (exists i :: 0 <= i < |keys| && Truthy(Get(m, keys[i])) && PropNameFor(m, keys[i]) == x && Defined(Get(flat, keys[i])))
        ==> Defined(Get(e.values, x))
    decreases |keys|
  {
    if keys != [] {
      var n := |keys| - 1;
      var front := keys[..n];
      assert NoDuplicates(front);
      StyleToPropDefines(flat, values, m, front, x);
      var k := keys[n];
      assert k !in front;
      StyleToPropFlat(flat, values, m, front, k);
      var e := StyleToProp(flat, values, m, front);
      if exists i :: 0 <= i < |keys| && Truthy(Get(m, keys[i])) && PropNameFor(m, keys[i]) == x && Defined(Get(flat, keys[i])) {
        var i :| 0 <= i < |keys| && Truthy(Get(m, keys[i])) && PropNameFor(m, keys[i]) == x && Defined(Get(flat, keys[i]));
        if i < n {
          assert front[i] == keys[i];
          ExtractOneKeepsDefined(e, flat, m, k, x);
        } else {
          assert Moves(flat, m, k, x);
          ExtractOneKeepsDefined(e, flat, m, k, x);
        }
      }
    }
  }

  /** Helper of StyleToPropDefines: a defined prop stays defined through one
      more attribute, and an attribute moved to it defines it. */
  lemma ExtractOneKeepsDefined(e: Extracted, flat: Object, m: Object, k: string, x: string)
    requires Get(e.flat, k) == Get(flat, k)
    requires Defined(Get(e.values, x)) || Moves(flat, m, k, x)
    ensures Defined(Get(ExtractOne(e, m, k).values, x))
  {
  }

  // ---------------------------------------------------------------------
  // mapPropsToStyle
  // ---------------------------------------------------------------------

  /** The handlers of `mapPropsToStyle` are opaque: this gives what the
      handler `fn` returns when called with `prop`. */
  type HandlerRunner = (Value, Value) -> Value

  /** A map key whose handler runs: an own, defined prop with a function
      handler. */
  predicate Eligible(props: Object, map_: Object, k: string)
  {
    Has(props, k) && Defined(Get(props, k)) && IsFunction(Get(map_, k))
  }

  /** The sheets of the listed map keys, in order: each eligible key's
      defined handler result. */
  function PropsToStyleSheets(props: Object, map_: Object, keys: seq<string>, run: HandlerRunner): seq<Value>
    decreases |keys|
  {
    if keys == [] then []
    else
      var n := |keys| - 1;
      var k := keys[n];
      var front := PropsToStyleSheets(props, map_, keys[..n], run);
      if Eligible(props, map_, k) && Defined(run(Get(map_, k), Get(props, k)))
      then front + [run(Get(map_, k), Get(props, k))]
      else front
  }

  /** The sheets of two runs of keys are the sheets of the first followed by
      those of the second: each key contributes on its own, in key order. */
  lemma {:induction false} PropsToStyleAppend(props: Object, map_: Object, a: seq<string>, b: seq<string>, run: HandlerRunner)
    ensures PropsToStyleSheets(props, map_, a + b, run)
         == PropsToStyleSheets(props, map_, a, run) + PropsToStyleSheets(props, map_, b, run)
    decreases |b|
  {
    if b == [] {
      assert a + b == a;
    } else {
      var n := |b| - 1;
      assert (a + b)[..|a| + n] == a + b[..n];
      assert (a + b)[|a| + n] == b[n];
      PropsToStyleAppend(props, map_, a, b[..n], run);
    }
  }

  /** `x` is what the handler of one of the eligible keys returns. */
  predicate HandlerResult(props: Object, map_: Object, keys: seq<string>, run: HandlerRunner, x: Value)
  {
    exists i :: 0 <= i < |keys| && Eligible(props, map_, keys[i]) && x == run(Get(map_, keys[i]), Get(props, keys[i]))
  }

  /** Every sheet is the defined result of the handler of an eligible key;
      a key whose prop is missing or undefined, or whose handler is not a
      function, contributes nothing. */
  lemma {:induction false} PropsToStyleSources(props: Object, map_: Object, keys: seq<string>, run: HandlerRunner)
    ensures var r := PropsToStyleSheets(props, map_, keys, run);
      && |r| <= |keys|
      && forall j :: 0 <= j < |r| ==> Defined(r[j]) && HandlerResult(props, map_, keys, run, r[j])
    decreases |keys|
  {
    if keys != [] {
      var n := |keys| - 1;
      var front := keys[..n];
      PropsToStyleSources(props, map_, front, run);
      var f := PropsToStyleSheets(props, map_, front, run);
      var r := PropsToStyleSheets(props, map_, keys, run);
      forall j | 0 <= j < |r|
        ensures Defined(r[j]) && HandlerResult(props, map_, keys, run, r[j])
      {
        if j < |f| {
          assert r[j] == f[j] && HandlerResult(props, map_, front, run, f[j]);
          var i :| 0 <= i < |front| && Eligible(props, map_, front[i]) && f[j] == run(Get(map_, front[i]), Get(props, front[i]));
          assert keys[i] == front[i];
        } else {
          assert Eligible(props, map_, keys[n]);
        }
      }
    }
  }

  /** `mapPropsToStyle`: nothing when the option is undefined; otherwise the
      option, or what it returns when it is a function (`mapped`), is
      walked in key order. */
  method MapPropsToStyle(props: Object, option: Value, mapped: Value, run: HandlerRunner) returns (r: Option<seq<Value>>)
    ensures !Defined(option) ==> r.None?
    ensures Defined(option) ==>
      var m := MappingOf(if IsFunction(option) then mapped else option);
      r == Some(PropsToStyleSheets(props, m, m.keys, run))
  {
    if !Defined(option) {
      return None;
    }
    var m := MappingOf(if IsFunction(option) then mapped else option);
    var sheets := [];
    var i := 0;
    while i < |m.keys|
      invariant 0 <= i <= |m.keys|
      invariant sheets == PropsToStyleSheets(props, m, m.keys[..i], run)
    {
      var k := m.keys[i];
      assert m.keys[..i + 1][..i] == m.keys[..i];
      var prop := Get(props, k);
      if Has(props, k) && Defined(prop) {
        var fn := Get(m, k);
        if IsFunction(fn) {
          var sheet := run(fn, prop);
          if Defined(sheet) {
            sheets := sheets + [sheet];
          }
        }
      }
      i := i + 1;
    }
    assert m.keys[..i] == m.keys;
    r := Some(sheets);
  }

  // ---------------------------------------------------------------------
  // className
  // ---------------------------------------------------------------------

  /** The ASCII characters `\s` matches. */
  predicate IsSpace(c: char)
  {
    c == ' ' || c == '\t' || c == '\n' || c == '\r' || c == '\U{B}' || c == '\U{C}'
  }

  /** `s.split(/\s+/)`: the pieces between runs of whitespace; leading or
      trailing whitespace gives an empty first or last piece. */
  function Split(s: string): (r: seq<string>)
    ensures |r| >= 1
    ensures |s| > 0 && IsSpace(s[|s| - 1]) ==> r[|r| - 1] == ""
    ensures |s| > 0 && !IsSpace(s[|s| - 1]) ==> r[|r| - 1] != ""
    decreases |s|
  {
    if s == [] then [""]
    else
      var n := |s| - 1;
      var p := Split(s[..n]);
      var c := s[n];
      if !IsSpace(c) then p[..|p| - 1] + [p[|p| - 1] + [c]]
      else if n > 0 && IsSpace(s[n - 1]) then p
      else p + [""]
  }

  /** The pieces glued together. */
  function ConcatAll(p: seq<string>): string
    decreases |p|
  {
    if p == [] then [] else ConcatAll(p[..|p| - 1]) + p[|p| - 1]
  }

  /** The characters of `s` that are not whitespace, in order. */
  function NonSpace(s: string): string
    decreases |s|
  {
    if s == [] then []
    else
      var n := |s| - 1;
      NonSpace(s[..n]) + (if IsSpace(s[n]) then [] else [s[n]])
  }

  /** Splitting loses only the whitespace: the pieces, in order, spell out
      every other character of the class list. */
  lemma {:induction false} SplitKeepsText(s: string)
    ensures ConcatAll(Split(s)) == NonSpace(s)
    decreases |s|
  {
    if s != [] {
      var n := |s| - 1;
      var c := s[n];
      SplitKeepsText(s[..n]);
      var p := Split(s[..n]);
      var m := |p| - 1;
      if !IsSpace(c) {
        var q := p[..m] + [p[m] + [c]];
        assert Split(s) == q;
        assert q[..m] == p[..m];
        assert ConcatAll(q) == ConcatAll(p[..m]) + (p[m] + [c]);
        assert ConcatAll(p) == ConcatAll(p[..m]) + p[m];
        assert NonSpace(s) == NonSpace(s[..n]) + [c];
      } else if n > 0 && IsSpace(s[n - 1]) {
        assert Split(s) == p;
        assert NonSpace(s) == NonSpace(s[..n]);
      } else {
        assert Split(s) == p + [""];
        assert (p + [""])[..|p|] == p;
        assert NonSpace(s) == NonSpace(s[..n]);
      }
    }
  }

  /** The whitespace runs `Split` consumes, in order: one run between each
      two consecutive pieces. */
  function Seps(s: string): (r: seq<string>)
    ensures |s| > 0 && IsSpace(s[|s| - 1]) ==> |r| > 0
    decreases |s|
  {
    if s == [] then []
    else
      var n := |s| - 1;
      var q := Seps(s[..n]);
      var c := s[n];
      if !IsSpace(c) then q
      else if n > 0 && IsSpace(s[n - 1]) then q[..|q| - 1] + [q[|q| - 1] + [c]]
      else q + [[c]]
  }

  /** Pieces glued back together with the separators between them. */
  function Join(p: seq<string>, seps: seq<string>): string
    requires |p| == |seps| + 1
    decreases |seps|
  {
    if seps == [] then p[0]
    else
      var m := |seps| - 1;
      Join(p[..m + 1], seps[..m]) + seps[m] + p[m + 1]
  }

  /** Splitting loses nothing: there is one separator between each two
      consecutive pieces, and pieces and separators, interleaved, give back
      the class list. */
  lemma {:induction false} SplitJoin(s: string)
    ensures |Split(s)| == |Seps(s)| + 1 && Join(Split(s), Seps(s)) == s
    decreases |s|
  {
    if s != [] {
      var n := |s| - 1;
      var c := s[n];
      SplitJoin(s[..n]);
      var p := Split(s[..n]);
      var q := Seps(s[..n]);
      assert s == s[..n] + [c];
      if !IsSpace(c) {
        assert Split(s) == p[..|p| - 1] + [p[|p| - 1] + [c]] && Seps(s) == q;
        JoinWordStep(p, q, c);
      } else if n > 0 && IsSpace(s[n - 1]) {
        assert Split(s) == p && Seps(s) == q[..|q| - 1] + [q[|q| - 1] + [c]];
        JoinRunStep(p, q, c);
      } else {
        assert Split(s) == p + [""] && Seps(s) == q + [[c]];
        JoinNewRun(p, q, c);
      }
    }
  }

  /** Helper of SplitJoin: a character added to the last piece ends the
      joined text. */
  lemma JoinWordStep(p: seq<string>, q: seq<string>, c: char)
    requires |p| == |q| + 1
    ensures Join(p[..|q|] + [p[|q|] + [c]], q) == Join(p, q) + [c]
  {
    var p' := p[..|q|] + [p[|q|] + [c]];
    if q != [] {
      var k := |q| - 1;
      assert p'[..k + 1] == p[..k + 1];
    }
  }

  /** Helper of SplitJoin: a character added to the last separator, behind
      an empty last piece, ends the joined text. */
  lemma JoinRunStep(p: seq<string>, q: seq<string>, c: char)
    requires |p| == |q| + 1 && |q| > 0 && p[|q|] == ""
    ensures Join(p, q[..|q| - 1] + [q[|q| - 1] + [c]]) == Join(p, q) + [c]
  {
    var k := |q| - 1;
    var q' := q[..k] + [q[k] + [c]];
    assert q'[..k] == q[..k];
  }

  /** Helper of SplitJoin: a new separator and an empty piece end the
      joined text with the separator. */
  lemma JoinNewRun(p: seq<string>, q: seq<string>, c: char)
    requires |p| == |q| + 1
    ensures Join(p + [""], q + [[c]]) == Join(p, q) + [c]
  {
    assert (p + [""])[..|q| + 1] == p && (q + [[c]])[..|q|] == q;
  }

  /** Every separator is a non-empty run of whitespace. */
  lemma {:induction false} SepsAreRuns(s: string)
    ensures forall i :: 0 <= i < |Seps(s)| ==>
              Seps(s)[i] != [] && forall j :: 0 <= j < |Seps(s)[i]| ==> IsSpace(Seps(s)[i][j])
    decreases |s|
  {
    if s != [] {
      SepsAreRuns(s[..|s| - 1]);
    }
  }

  /** Only the first and the last piece can be empty: the first when the
      list starts with whitespace, the last when it ends with it. */
  lemma {:induction false} SplitInnerPiecesNonEmpty(s: string)
    ensures forall i :: 0 < i < |Split(s)| - 1 ==> Split(s)[i] != ""
    decreases |s|
  {
    if s != [] {
      var n := |s| - 1;
      SplitInnerPiecesNonEmpty(s[..n]);
      var p := Split(s[..n]);
      if !IsSpace(s[n]) {
        assert forall i :: 0 < i < |p| - 1 ==> Split(s)[i] == p[i];
      }
    }
  }

  /** No piece holds whitespace. */
  lemma {:induction false} SplitPiecesHaveNoSpace(s: string)
    ensures forall i, j :: 0 <= i < |Split(s)| && 0 <= j < |Split(s)[i]| ==> !IsSpace(Split(s)[i][j])
    decreases |s|
  {
    if s != [] {
      var n := |s| - 1;
      SplitPiecesHaveNoSpace(s[..n]);
    }
  }

  /** `list.filter(nm => styleSheet.hasOwnProperty(nm)).map(nm => styleSheet[nm])`. */
  function Find(styleSheet: Object, names: seq<string>): seq<Value>
    decreases |names|
  {
    if names == [] then []
    else
      var n := |names| - 1;
      Find(styleSheet, names[..n]) + (if Has(styleSheet, names[n]) then [Get(styleSheet, names[n])] else [])
  }

  /** Looking up two lists of names is looking up the first, then the
      second: the rules come in the order the names are given. */
  lemma {:induction false} FindAppend(styleSheet: Object, a: seq<string>, b: seq<string>)
    ensures Find(styleSheet, a + b) == Find(styleSheet, a) + Find(styleSheet, b)
    decreases |b|
  {
    if b == [] {
      assert a + b == a;
    } else {
      var n := |b| - 1;
      assert (a + b)[..|a| + n] == a + b[..n];
      FindAppend(styleSheet, a, b[..n]);
    }
  }

  /** `x` is the rule of one of the names the style sheet has. */
  predicate RuleOf(styleSheet: Object, names: seq<string>, x: Value)
  {
    exists i :: 0 <= i < |names| && Has(styleSheet, names[i]) && x == Get(styleSheet, names[i])
  }

  /** The rules found are those of the names the style sheet has; unknown
      names are skipped. */
  lemma {:induction false} FindRules(styleSheet: Object, names: seq<string>)
    ensures var r := Find(styleSheet, names);
      && |r| <= |names|
      && (forall j :: 0 <= j < |r| ==> RuleOf(styleSheet, names, r[j]))
      && (forall i :: 0 <= i < |names| && Has(styleSheet, names[i]) ==> Get(styleSheet, names[i]) in r)
    decreases |names|
  {
    if names != [] {
      var n := |names| - 1;
      var front := names[..n];
      FindRules(styleSheet, front);
      var f := Find(styleSheet, front);
      var r := Find(styleSheet, names);
      forall j | 0 <= j < |r|
        ensures RuleOf(styleSheet, names, r[j])
      {
        if j < |f| {
          assert r[j] == f[j] && RuleOf(styleSheet, front, f[j]);
          var i :| 0 <= i < |front| && Has(styleSheet, front[i]) && f[j] == Get(styleSheet, front[i]);
          assert names[i] == front[i];
        } else {
          assert r[j] == Get(styleSheet, names[n]);
        }
      }
      forall i | 0 <= i < |names| && Has(styleSheet, names[i])
        ensures Get(styleSheet, names[i]) in r
      {
        if i < n {
          assert front[i] == names[i];
        }
      }
    }
  }

  /** The names of an array class list (`hasOwnProperty` converts each
      element to a key). */
  function KeysOf(elems: seq<Value>): (r: seq<string>)
    ensures |r| == |elems| && forall i :: 0 <= i < |elems| ==> r[i] == ToKey(elems[i])
  {
    seq(|elems|, i requires 0 <= i < |elems| => ToKey(elems[i]))
  }

  /** The `className` plugin: an array is a list of names, a string a
      whitespace-separated list; anything else has no `split`. */
  function ClassNamePlugin(prop: Value, styleSheet: Object): (r: Result<seq<Value>>)
    ensures r.Ok? <==> prop.Arr? || prop.Str?
    ensures prop.Arr? ==> r == Ok(Find(styleSheet, KeysOf(prop.elems)))
    ensures prop.Str? ==> r == Ok(Find(styleSheet, Split(prop.s)))
  {
    if prop.Arr? then Ok(Find(styleSheet, KeysOf(prop.elems)))
    else if prop.Str? then Ok(Find(styleSheet, Split(prop.s)))
    else Err(TypeError("className.split is not a function"))
  }

  /** A single-spaced class list: the rules of its names in the order
      given. */
  lemma ClassNameWords(a: string, b: string, styleSheet: Object)
    requires a != "" && b != ""
    requires forall j :: 0 <= j < |a| ==> !IsSpace(a[j])
    requires forall j :: 0 <= j < |b| ==> !IsSpace(b[j])
    ensures ClassNamePlugin(Str(a + " " + b), styleSheet) == Ok(Find(styleSheet, [a]) + Find(styleSheet, [b]))
  {
    SplitWord(a);
    SplitWordAfter([a], a + " ", b);
    FindAppend(styleSheet, [a], [b]);
  }

  /** A word without whitespace is one piece. */
  lemma {:induction false} SplitWord(a: string)
    requires a != ""
    requires forall j :: 0 <= j < |a| ==> !IsSpace(a[j])
    ensures Split(a) == [a]
    decreases |a|
  {
    var n := |a| - 1;
    if n > 0 {
      SplitWord(a[..n]);
    }
    assert a[..n] + [a[n]] == a;
  }

  /** A character that is not whitespace extends the last piece. */
  lemma SplitNonSpaceStep(s: string, c: char)
    requires !IsSpace(c)
    ensures var p := Split(s); Split(s + [c]) == p[..|p| - 1] + [p[|p| - 1] + [c]]
  {
    assert (s + [c])[..|s|] == s;
  }

  /** After a single space, a word without whitespace is one more piece. */
  lemma {:induction false} SplitWordAfter(p: seq<string>, prefix: string, b: string)
    requires |prefix| > 0 && prefix[|prefix| - 1] == ' ' && (|prefix| == 1 || !IsSpace(prefix[|prefix| - 2]))
    requires Split(prefix[..|prefix| - 1]) == p
    requires forall j :: 0 <= j < |b| ==> !IsSpace(b[j])
    ensures Split(prefix + b) == p + [b]
    decreases |b|
  {
    var n := |b|;
    if n == 0 {
      assert prefix + b == prefix;
    } else {
      var front := b[..n - 1];
      SplitWordAfter(p, prefix, front);
      assert front + [b[n - 1]] == b;
      SplitWordGrows(p, prefix + front, b[n - 1]);
      AppendCharAssoc(prefix, front, b[n - 1]);
    }
  }

  /** Helper of SplitWordAfter: appending one character associates. */
  lemma AppendCharAssoc(x: string, y: string, c: char)
    ensures x + (y + [c]) == (x + y) + [c]
  {
  }

  /** Helper of SplitWordAfter: one more non-space character extends the last piece. */
  lemma SplitWordGrows(p: seq<string>, s: string, c: char)
    requires |Split(s)| > 0 && Split(s)[..|Split(s)| - 1] == p
    requires !IsSpace(c)
    ensures Split(s + [c]) == p + [Split(s)[|Split(s)| - 1] + [c]]
  {
    SplitNonSpaceStep(s, c);
  }

}
