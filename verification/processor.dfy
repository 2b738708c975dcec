/** The pre-processor (src/Processor.js): a table of rewriting rules keyed by
    style attribute name and by component attribute name, and the in-place
    rewriting of a style declaration through that table. */
module Processing {
  import opened Js
  import opened Wrappers

  /** A rewriting rule. `fn` is the handler function; what it does is given
      by a `HandlerRunner` wherever rules are applied. */
  datatype Rule = Rule(fn: Value, styleName: Value, propStyleName: Value)

  /** `new Rule(fn, styleName, propStyleName)`: the attribute name on a
      component defaults to the style attribute name. */
  function NewRule(fn: Value, styleName: Value, propStyleName: Value): (r: Rule)
    ensures r.fn == fn && r.styleName == styleName
    ensures Truthy(propStyleName) ==> r.propStyleName == propStyleName
    ensures !Truthy(propStyleName) ==> r.propStyleName == styleName
  {
    Rule(fn, styleName, if Truthy(propStyleName) then propStyleName else styleName)
  }

  /** One call of the `write(newValue, newPropName)` callback a handler receives. */
  datatype Write = Write(value: Value, name: Value)

  /** The writes a handler makes, in order, when called for an attribute
      name and the value read for it. Handlers are opaque. */
  type HandlerRunner = (Value, string, Value) -> seq<Write>

  /** The attribute a write sets: `newPropName || propName`. */
  function WriteKey(w: Write, propName: string): string
  {
    if Truthy(w.name) then ToKey(w.name) else propName
  }

  /** The handler's writes applied to the declaration, in order. */
  function ApplyWrites(o: Object, propName: string, ws: seq<Write>): (r: Object)
    ensures forall k :: (forall i :: 0 <= i < |ws| ==> WriteKey(ws[i], propName) != k) ==> Get(r, k) == Get(o, k)
    ensures ws != [] ==> Get(r, WriteKey(ws[|ws| - 1], propName)) == ws[|ws| - 1].value
    ensures Valid(o) ==> Valid(r)
    decreases |ws|
  {
    if ws == [] then o
    else
      var n := |ws| - 1;
      Set(ApplyWrites(o, propName, ws[..n]), WriteKey(ws[n], propName), ws[n].value)
  }

  /** Write `i` is the last of the handler's writes that sets attribute `k`. */
  predicate LastWriteTo(ws: seq<Write>, propName: string, i: nat, k: string)
  {
    && i < |ws| && WriteKey(ws[i], propName) == k
    && forall l :: i < l < |ws| ==> WriteKey(ws[l], propName) != k
  }

  /** None of the handler's writes sets attribute `k`. */
  predicate Unwritten(ws: seq<Write>, propName: string, k: string)
  {
    forall i :: 0 <= i < |ws| ==> WriteKey(ws[i], propName) != k
  }

  /** Every attribute a handler writes ends with the value of its last
      write to it: `target[newPropName] = newValue` in order. */
  lemma {:induction false} LastWriteWins(o: Object, propName: string, ws: seq<Write>, i: nat, k: string)
    requires LastWriteTo(ws, propName, i, k)
    ensures Get(ApplyWrites(o, propName, ws), k) == ws[i].value
    decreases |ws|
  {
    var n := |ws| - 1;
    if i < n {
      assert LastWriteTo(ws[..n], propName, i, k) by {
        forall l | i < l < n ensures WriteKey(ws[..n][l], propName) != k {
          assert ws[..n][l] == ws[l];
        }
        assert ws[..n][i] == ws[i];
      }
      LastWriteWins(o, propName, ws[..n], i, k);
      assert ws[..n][i] == ws[i];
    }
  }

  /** Some write of the handler replaces the attribute being processed. */
  predicate Overwrites(ws: seq<Write>, propName: string)
  {
    exists i :: 0 <= i < |ws| && WriteKey(ws[i], propName) == propName
  }

  /** What `collate` is called with: the `processors` list, or nothing when
      the configuration has none. */
  datatype ProcessorConfig = ProcessorConfig(processors: Option<seq<Rule>>)

  /** The name a rule is indexed under in the style table or the attribute table. */
  function IndexName(r: Rule, byStyle: bool): Value
  {
    if byStyle then r.styleName else r.propStyleName
  }

  /** Rule `r` is indexed under `k` in the chosen table. */
  predicate IndexedUnder(r: Rule, byStyle: bool, k: string)
  {
    Truthy(IndexName(r, byStyle)) && ToKey(IndexName(r, byStyle)) == k
  }

  /** The table `collate` builds from a list of rules: each rule with a
      truthy name is stored under it, a later rule replacing an earlier one. */
  function Index(procs: seq<Rule>, byStyle: bool): map<string, Rule>
    decreases |procs|
  {
    if procs == [] then map[]
    else
      var n := |procs| - 1;
      var m := Index(procs[..n], byStyle);
      if Truthy(IndexName(procs[n], byStyle)) then m[ToKey(IndexName(procs[n], byStyle)) := procs[n]] else m
  }

  /** A name is in the table exactly when some rule is indexed under it, and
      it maps to the last such rule. */
  lemma {:induction false} IndexLastWins(procs: seq<Rule>, byStyle: bool, k: string)
    ensures k in Index(procs, byStyle) <==> exists j :: 0 <= j < |procs| && IndexedUnder(procs[j], byStyle, k)
    ensures forall j :: 0 <= j < |procs| && IndexedUnder(procs[j], byStyle, k)
                        && (forall l :: j < l < |procs| ==> !IndexedUnder(procs[l], byStyle, k))
                        ==> k in Index(procs, byStyle) && Index(procs, byStyle)[k] == procs[j]
  {
    IndexMembership(procs, byStyle, k);
    forall j | 0 <= j < |procs| && IndexedUnder(procs[j], byStyle, k)
                 && (forall l :: j < l < |procs| ==> !IndexedUnder(procs[l], byStyle, k))
      ensures k in Index(procs, byStyle) && Index(procs, byStyle)[k] == procs[j]
    {
      IndexLastAt(procs, byStyle, k, j);
    }
  }

  /** Helper of IndexLastWins: which names the table holds. */
  lemma {:induction false} IndexMembership(procs: seq<Rule>, byStyle: bool, k: string)
    ensures k in Index(procs, byStyle) <==> exists j :: 0 <= j < |procs| && IndexedUnder(procs[j], byStyle, k)
    decreases |procs|
  {
    if procs != [] {
      var n := |procs| - 1;
      IndexMembership(procs[..n], byStyle, k);
      if exists j :: 0 <= j < |procs| && IndexedUnder(procs[j], byStyle, k) {
        var j :| 0 <= j < |procs| && IndexedUnder(procs[j], byStyle, k);
        if j < n {
          assert IndexedUnder(procs[..n][j], byStyle, k);
        }
      }
      if exists j :: 0 <= j < n && IndexedUnder(procs[..n][j], byStyle, k) {
        var j :| 0 <= j < n && IndexedUnder(procs[..n][j], byStyle, k);
        assert IndexedUnder(procs[j], byStyle, k);
      }
    }
  }

  /** Helper of IndexLastWins: the last rule indexed under a name is the one
      the table keeps. */
  lemma {:induction false} IndexLastAt(procs: seq<Rule>, byStyle: bool, k: string, j: nat)
    requires j < |procs| && IndexedUnder(procs[j], byStyle, k)
    requires forall l :: j < l < |procs| ==> !IndexedUnder(procs[l], byStyle, k)
    ensures k in Index(procs, byStyle) && Index(procs, byStyle)[k] == procs[j]
    decreases |procs|
  {
    var n := |procs| - 1;
    if j < n {
      forall l | j < l < n ensures !IndexedUnder(procs[..n][l], byStyle, k) {
        assert procs[..n][l] == procs[l];
      }
      assert procs[..n][j] == procs[j];
      IndexLastAt(procs[..n], byStyle, k, j);
      assert !IndexedUnder(procs[n], byStyle, k);
    }
  }

  /** A rule built without an attribute name is found under its style name
      in both tables, as long as no later rule takes that name. */
  lemma DefaultedRuleInBothTables(procs: seq<Rule>, j: nat, fn: Value, styleName: string)
    requires j < |procs| && styleName != ""
    requires procs[j] == NewRule(fn, Str(styleName), Undefined)
    requires forall l :: j < l < |procs| ==> !IndexedUnder(procs[l], true, styleName) && !IndexedUnder(procs[l], false, styleName)
    ensures styleName in Index(procs, true) && Index(procs, true)[styleName] == procs[j]
    ensures styleName in Index(procs, false) && Index(procs, false)[styleName] == procs[j]
  {
    IndexLastWins(procs, true, styleName);
    IndexLastWins(procs, false, styleName);
  }

  /** Updating the right operand of a map union updates the union. */
  lemma UpdateUnion<K, V>(m: map<K, V>, n: map<K, V>, k: K, v: V)
    ensures m + n[k := v] == (m + n)[k := v]
  {
  }

  class Processor {
    var hasPreProcessors: bool
    /** `map.styles`: rules keyed by style attribute name. */
    var styles: map<string, Rule>
    /** `map.props`: rules keyed by component attribute name. */
    var props: map<string, Rule>
    /** `null` until a non-empty list is collated. */
    var config: Option<ProcessorConfig>

    /** The configuration is recorded exactly when some rule was collated. */
    ghost predicate Valid()
      reads this
    {
      config.Some? <==> hasPreProcessors
    }

    /** The singleton's initial state. */
    constructor ()
      ensures Valid()
      ensures !hasPreProcessors && styles == map[] && props == map[] && config == None
    {
      hasPreProcessors, styles, props, config := false, map[], map[], None;
    }

    /** `collate`: every rule is indexed under its style name and under its
        attribute name, later rules winning, and the configuration is kept.
        An empty list changes nothing. The length of `processors` is read
        before the guard that tests it, so a configuration without a list
        raises a TypeError. */
    method Collate(c: ProcessorConfig) returns (r: Result<()>)
      requires Valid()
      modifies this
      ensures Valid()
      ensures r.Err? <==> c.processors.None?
      ensures c.processors.None? || c.processors.value == [] ==>
        hasPreProcessors == old(hasPreProcessors) && styles == old(styles) && props == old(props) && config == old(config)
      ensures c.processors.Some? && c.processors.value != [] ==>
        && hasPreProcessors && config == Some(c)
        && styles == old(styles) + Index(c.processors.value, true)
        && props == old(props) + Index(c.processors.value, false)
    {
      if c.processors.None? {
        return Err(TypeError("Cannot read property 'length' of undefined"));
      }
      var procs := c.processors.value;
      if procs == [] {
        return Ok(());
      }
      var i := 0;
      while i < |procs|
        invariant 0 <= i <= |procs|
        invariant styles == old(styles) + Index(procs[..i], true)
        invariant props == old(props) + Index(procs[..i], false)
        invariant hasPreProcessors == (old(hasPreProcessors) || i > 0)
        invariant config == old(config)
      {
        var proc := procs[i];
        assert procs[..i + 1][..i] == procs[..i];
        if Truthy(proc.styleName) {
          UpdateUnion(old(styles), Index(procs[..i], true), ToKey(proc.styleName), proc);
          styles := styles[ToKey(proc.styleName) := proc];
        }
        if Truthy(proc.propStyleName) {
          UpdateUnion(old(props), Index(procs[..i], false), ToKey(proc.propStyleName), proc);
          props := props[ToKey(proc.propStyleName) := proc];
        }
        hasPreProcessors := true;
        i := i + 1;
      }
      assert procs[..i] == procs;
      config := Some(c);
      r := Ok(());
    }

    /** `get`: the rule for a name, from the style table when `isStyle` and
        from the attribute table otherwise. */
    function Get(propName: string, isStyle: bool): (r: Option<Rule>)
      reads this
      ensures isStyle ==> (r.Some? <==> propName in styles) && (r.Some? ==> r.value == styles[propName])
      ensures !isStyle ==> (r.Some? <==> propName in props) && (r.Some? ==> r.value == props[propName])
    {
      var table := if isStyle then styles else props;
      if propName in table then Some(table[propName]) else None
    }

    /** What `process` turns a declaration into. Without any rule the
        declaration is left alone. */
    function Processed(target: Object, isStyle: bool, fuel: nat, run: HandlerRunner): Object
      reads this
      decreases fuel, |target.keys| + 1
    {
      if !hasPreProcessors then target
      else ProcessKeys(target, target.keys, isStyle, fuel, run)
    }

    /** The `for (propName in target)` loop over the listed keys: a key with
        a rule has its handler's writes applied; an object value, read before
        the writes, is processed recursively with the same `isStyle` and,
        unless a write replaced it, stays in place. */
    function ProcessKeys(cur: Object, keys: seq<string>, isStyle: bool, fuel: nat, run: HandlerRunner): Object
      reads this
      decreases fuel, |keys|
    {
      if keys == [] then cur
      else
        var next := Step(cur, keys[0], isStyle, fuel, run);
        ProcessKeys(next, keys[1..], isStyle, fuel, run)
    }

    /** The rule table for the kind of declaration being processed. */
    function Table(isStyle: bool): map<string, Rule>
      reads this
    {
      if isStyle then styles else props
    }

    /** The writes made for attribute `k` of the declaration: its rule's
        handler called with the value the attribute holds, none without a
        rule. */
    function Writes(cur: Object, k: string, isStyle: bool, run: HandlerRunner): seq<Write>
      reads this
    {
      var proc := this.Get(k, isStyle);
      if proc.Some? then run(proc.value.fn, k, Js.Get(cur, k)) else []
    }

    /** One turn of that loop, for attribute `k`. */
    function Step(cur: Object, k: string, isStyle: bool, fuel: nat, run: HandlerRunner): Object
      reads this
      decreases fuel, 0
    {
      var v := Js.Get(cur, k);
      var ws := Writes(cur, k, isStyle, run);
      var written := ApplyWrites(cur, k, ws);
      if v.Obj? && fuel > 0 && !Overwrites(ws, k) then Set(written, k, Obj(Processed(v.obj, isStyle, fuel - 1, run)))
      else written
    }

    /** `process`, as corrected: a processor with no rule leaves the
        declaration alone. */
    method Process(target: Object, isStyle: bool, fuel: nat, run: HandlerRunner) returns (r: Object)
      ensures r == Processed(target, isStyle, fuel, run)
      ensures !hasPreProcessors ==> r == target
      decreases fuel, 1
    {
      if !hasPreProcessors {
        return target;
      }
      r := target;
      var keys := target.keys;
      var i := 0;
      while i < |keys|
        invariant 0 <= i <= |keys|
        invariant ProcessKeys(r, keys[i..], isStyle, fuel, run) == ProcessKeys(target, keys, isStyle, fuel, run)
      {
        r := ProcessStep(r, keys[i], isStyle, fuel, run);
        assert keys[i..][1..] == keys[i + 1..];
        i := i + 1;
      }
    }

    /** The body of the `for ... in` loop of `process`, for one attribute. */
    method ProcessStep(cur: Object, propName: string, isStyle: bool, fuel: nat, run: HandlerRunner) returns (r: Object)
      ensures r == Step(cur, propName, isStyle, fuel, run)
      decreases fuel, 0
    {
      r := cur;
      var propValue := Js.Get(r, propName);
      var proc := this.Get(propName, isStyle);
      var ws := [];
      if proc.Some? {
        ws := run(proc.value.fn, propName, propValue);
      }
      assert ws == Writes(cur, propName, isStyle, run);
      r := ApplyWrites(r, propName, ws);
      if propValue.Obj? && fuel > 0 && !Overwrites(ws, propName) {
        var nested := Process(propValue.obj, isStyle, fuel - 1, run);
        r := Set(r, propName, Obj(nested));
      }
    }

    /** `process` as written: `config` is destructured before the guard, so
        a processor that never collated a rule (its `config` is still `null`)
        raises a TypeError instead of returning. */
    method ProcessAsWritten(target: Object, isStyle: bool, fuel: nat, run: HandlerRunner) returns (r: Result<Object>)
      requires Valid()
      ensures !hasPreProcessors ==> r == Err(TypeError("Cannot destructure 'config' as it is null"))
      ensures hasPreProcessors ==> r == Ok(Processed(target, isStyle, fuel, run))
    {
      if config.None? {
        return Err(TypeError("Cannot destructure 'config' as it is null"));
      }
      var processed := Process(target, isStyle, fuel, run);
      r := Ok(processed);
    }

    /** Without a rule for the kind of declaration being processed, `process`
        leaves it unchanged, nested declarations included. */
    lemma {:induction false} NoRulesNoChange(target: Object, isStyle: bool, fuel: nat, run: HandlerRunner)
      requires (if isStyle then styles else props) == map[]
      ensures Processed(target, isStyle, fuel, run) == target
      decreases fuel, |target.keys| + 1
    {
      if hasPreProcessors {
        NoRulesKeys(target, target.keys, isStyle, fuel, run);
      }
    }

    lemma {:induction false} NoRulesKeys(cur: Object, keys: seq<string>, isStyle: bool, fuel: nat, run: HandlerRunner)
      requires (if isStyle then styles else props) == map[]
      requires forall j :: j in keys ==> j in cur.keys
      ensures ProcessKeys(cur, keys, isStyle, fuel, run) == cur
      decreases fuel, |keys|
    {
      if keys != [] {
        var k := keys[0];
        var v := Js.Get(cur, k);
        assert this.Get(k, isStyle).None?;
        assert !Overwrites([], k);
        if v.Obj? && fuel > 0 {
          NoRulesNoChange(v.obj, isStyle, fuel - 1, run);
          assert Set(cur, k, v) == cur;
        }
        assert Step(cur, k, isStyle, fuel, run) == cur;
        NoRulesKeys(cur, keys[1..], isStyle, fuel, run);
      }
    }

    /** No handler the table can run for one of `keys` writes attribute
        `j`, whatever value it is called with. */
    ghost predicate Spares(keys: seq<string>, isStyle: bool, run: HandlerRunner, j: string)
      reads this
    {
      forall n, v :: n in keys && n in Table(isStyle) ==> Unwritten(run(Table(isStyle)[n].fn, n, v), n, j)
    }

    /** A handler spared for a list of keys is spared for its tail. */
    lemma SparesTail(keys: seq<string>, isStyle: bool, run: HandlerRunner, j: string)
      requires keys != [] && Spares(keys, isStyle, run, j)
      ensures Spares(keys[1..], isStyle, run, j)
    {
    }

    /** The turn for a spared key does not write `j`. */
    lemma SparesStep(cur: Object, keys: seq<string>, isStyle: bool, run: HandlerRunner, j: string, k: string)
      requires Spares(keys, isStyle, run, j) && k in keys
      ensures Unwritten(Writes(cur, k, isStyle, run), k, j)
    {
      if k in Table(isStyle) {
        assert Unwritten(run(Table(isStyle)[k].fn, k, Js.Get(cur, k)), k, j);
      }
    }

    /** The loop visits the keys of a concatenation one run after the other. */
    lemma {:induction false} ProcessKeysAppend(cur: Object, a: seq<string>, b: seq<string>, isStyle: bool, fuel: nat, run: HandlerRunner)
      ensures ProcessKeys(cur, a + b, isStyle, fuel, run) == ProcessKeys(ProcessKeys(cur, a, isStyle, fuel, run), b, isStyle, fuel, run)
      decreases |a|
    {
      if a == [] {
        assert a + b == b;
      } else {
        assert (a + b)[0] == a[0] && (a + b)[1..] == a[1..] + b;
        ProcessKeysAppend(Step(cur, a[0], isStyle, fuel, run), a[1..], b, isStyle, fuel, run);
      }
    }

    /** The turn for attribute `k` leaves another attribute alone unless
        the handler writes it. */
    lemma StepOthers(cur: Object, k: string, isStyle: bool, fuel: nat, run: HandlerRunner, j: string)
      requires j != k && Unwritten(Writes(cur, k, isStyle, run), k, j)
      ensures Js.Get(Step(cur, k, isStyle, fuel, run), j) == Js.Get(cur, j)
    {
    }

    /** The turn for attribute `k`, when the handler does not write `k`:
        an object value, read before the writes, is processed with the same
        `isStyle` and put back; any other value stays. */
    lemma StepSelf(cur: Object, k: string, isStyle: bool, fuel: nat, run: HandlerRunner)
      requires Unwritten(Writes(cur, k, isStyle, run), k, k)
      ensures var v := Js.Get(cur, k);
        Js.Get(Step(cur, k, isStyle, fuel, run), k)
          == if v.Obj? && fuel > 0 then Obj(Processed(v.obj, isStyle, fuel - 1, run)) else v
    {
      assert !Overwrites(Writes(cur, k, isStyle, run), k);
    }

    /** The turn for attribute `k` leaves every attribute its handler writes
        with the handler's last write to it, `k` itself included. */
    lemma StepLastWrite(cur: Object, k: string, isStyle: bool, fuel: nat, run: HandlerRunner, i: nat, j: string)
      requires LastWriteTo(Writes(cur, k, isStyle, run), k, i, j)
      ensures Js.Get(Step(cur, k, isStyle, fuel, run), j) == Writes(cur, k, isStyle, run)[i].value
    {
      var ws := Writes(cur, k, isStyle, run);
      LastWriteWins(cur, k, ws, i, j);
      if j == k {
        assert Overwrites(ws, k);
      }
    }

    /** Turns for other keys whose handlers spare `j` leave it alone. */
    lemma {:induction false} ProcessKeysFrame(cur: Object, keys: seq<string>, isStyle: bool, fuel: nat, run: HandlerRunner, j: string)
      requires j !in keys && Spares(keys, isStyle, run, j)
      ensures Js.Get(ProcessKeys(cur, keys, isStyle, fuel, run), j) == Js.Get(cur, j)
      decreases |keys|
    {
      if keys != [] {
        SparesStep(cur, keys, isStyle, run, j, keys[0]);
        StepOthers(cur, keys[0], isStyle, fuel, run, j);
        SparesTail(keys, isStyle, run, j);
        ProcessKeysFrame(Step(cur, keys[0], isStyle, fuel, run), keys[1..], isStyle, fuel, run, j);
      }
    }

    /** The key loop on an attribute no handler writes: visited once, an
        object value is processed in place; otherwise the value stays. */
    lemma {:induction false} KeysUntouched(cur: Object, keys: seq<string>, isStyle: bool, fuel: nat, run: HandlerRunner, k: string)
      requires NoDuplicates(keys) && Spares(keys, isStyle, run, k)
      ensures var v := Js.Get(cur, k);
        Js.Get(ProcessKeys(cur, keys, isStyle, fuel, run), k)
          == if k in keys && v.Obj? && fuel > 0 then Obj(Processed(v.obj, isStyle, fuel - 1, run)) else v
      decreases |keys|
    {
      if keys != [] {
        var next := Step(cur, keys[0], isStyle, fuel, run);
        SparesStep(cur, keys, isStyle, run, k, keys[0]);
        SparesTail(keys, isStyle, run, k);
        assert NoDuplicates(keys[1..]);
        if keys[0] == k {
          StepSelf(cur, k, isStyle, fuel, run);
          assert k !in keys[1..];
          ProcessKeysFrame(next, keys[1..], isStyle, fuel, run, k);
        } else {
          StepOthers(cur, keys[0], isStyle, fuel, run, k);
          KeysUntouched(next, keys[1..], isStyle, fuel, run, k);
          assert k in keys <==> k in keys[1..];
        }
      }
    }

    /** `process` on an attribute no handler of the pass writes: a value
        that is not an object keeps its value, and an object value is
        processed recursively with the same `isStyle` and stays in place
        (within the fuel). Without any rule, nothing changes. */
    lemma ProcessedUntouched(target: Object, isStyle: bool, fuel: nat, run: HandlerRunner, k: string)
      requires Js.Valid(target) && Spares(target.keys, isStyle, run, k)
      ensures var v := Js.Get(target, k);
        Js.Get(Processed(target, isStyle, fuel, run), k)
          == if hasPreProcessors && v.Obj? && fuel > 0 then Obj(Processed(v.obj, isStyle, fuel - 1, run)) else v
    {
      if hasPreProcessors {
        KeysUntouched(target, target.keys, isStyle, fuel, run, k);
      }
    }

    /** `process` keeps the last write of the handler for the `i`-th key
        (called with the value the key holds when the loop reaches it) under
        `newPropName || propName`, as long as the loop does not visit that
        attribute again and no later handler writes it. */
    lemma ProcessedLastWrite(target: Object, isStyle: bool, fuel: nat, run: HandlerRunner, i: nat, w: nat, j: string)
      requires hasPreProcessors && i < |target.keys|
      requires LastWriteTo(Writes(ProcessKeys(target, target.keys[..i], isStyle, fuel, run), target.keys[i], isStyle, run),
                           target.keys[i], w, j)
      requires j !in target.keys[i + 1..] && Spares(target.keys[i + 1..], isStyle, run, j)
      ensures Js.Get(Processed(target, isStyle, fuel, run), j)
           == Writes(ProcessKeys(target, target.keys[..i], isStyle, fuel, run), target.keys[i], isStyle, run)[w].value
    {
      var keys := target.keys;
      var before := ProcessKeys(target, keys[..i], isStyle, fuel, run);
      assert keys == keys[..i] + keys[i..];
      ProcessKeysAppend(target, keys[..i], keys[i..], isStyle, fuel, run);
      assert keys[i..][0] == keys[i] && keys[i..][1..] == keys[i + 1..];
      StepLastWrite(before, keys[i], isStyle, fuel, run, w, j);
      ProcessKeysFrame(Step(before, keys[i], isStyle, fuel, run), keys[i + 1..], isStyle, fuel, run, j);
    }
  }
}
