/** The style registry (src/StyleRegistry.js): the colours, fonts, sizes and
    named style rules an application registers, and the compiled style sheet
    components read their class rules from. */
module Registry {
  import opened Js
  import opened Wrappers

  /** What the application's style-sheet function is called with. */
  datatype StyleInput = StyleInput(colors: Object, fonts: Object, colorNames: seq<string>)

  // ---------------------------------------------------------------------
  // Invariant extraction, the heart of `compile`.
  // ---------------------------------------------------------------------

  /** A configured invariant claims the attribute its `stylePropName` names. */
  predicate Claims(inv: Object, styleProp: string)
  {
    Get(inv, "stylePropName") == Str(styleProp)
  }

  /** Some configured invariant claims the attribute. */
  predicate AnyClaims(invs: seq<Object>, styleProp: string)
  {
    exists i :: 0 <= i < |invs| && Claims(invs[i], styleProp)
  }

  /** `Object.assign({}, invariant, {value})`: what compile records. */
  function Record(inv: Object, value: Value): (r: Object)
    ensures Get(r, "value") == value
    ensures Valid(inv) ==> forall k :: k != "value" ==> Get(r, k) == Get(inv, k)
  {
    Assign(Assign(Empty, inv), Set(Empty, "value", value))
  }

  /** A rule being stripped and the invariant records gathered so far. */
  datatype Stripped = Stripped(rule: Object, recorded: Object)

  /** The `invariants.forEach` pass for one attribute of one rule: every
      invariant claiming the attribute records the attribute's current value
      under the rule's name and deletes the attribute. */
  function StripProp(s: Stripped, decl: string, prop: string, invs: seq<Object>): Stripped
    decreases |invs|
  {
    if invs == [] then s
    else if Claims(invs[0], prop) then
      StripProp(Stripped(Delete(s.rule, prop), Set(s.recorded, decl, Obj(Record(invs[0], Get(s.rule, prop))))),
                decl, prop, invs[1..])
    else StripProp(s, decl, prop, invs[1..])
  }

  /** The `for (styleProp in rule)` pass over the attributes of one rule. */
  function StripRule(s: Stripped, decl: string, props: seq<string>, invs: seq<Object>): Stripped
    decreases |props|
  {
    if props == [] then s
    else StripRule(StripProp(s, decl, props[0], invs), decl, props[1..], invs)
  }

  /** The `for (decl in styles)` pass: every rule that is a plain object is
      stripped in place. The result pairs the new styles with the records. */
  function StripAll(styles: Object, recorded: Object, decls: seq<string>, invs: seq<Object>): Stripped
    decreases |decls|
  {
    if decls == [] then Stripped(styles, recorded)
    else
      var rule := Get(styles, decls[0]);
      if rule.Obj? then
        var s := StripRule(Stripped(rule.obj, recorded), decls[0], rule.obj.keys, invs);
        StripAll(Set(styles, decls[0], Obj(s.rule)), s.recorded, decls[1..], invs)
      else
        StripAll(styles, recorded, decls[1..], invs)
  }

  /** `AnyClaims` over a non-empty list, split at its head. */
  lemma AnyClaimsCons(invs: seq<Object>, prop: string)
    requires invs != []
    ensures AnyClaims(invs, prop) <==> Claims(invs[0], prop) || AnyClaims(invs[1..], prop)
  {
    if AnyClaims(invs, prop) && !Claims(invs[0], prop) {
      var i :| 0 <= i < |invs| && Claims(invs[i], prop);
      assert Claims(invs[1..][i - 1], prop);
    }
    if AnyClaims(invs[1..], prop) {
      var i :| 0 <= i < |invs[1..]| && Claims(invs[1..][i], prop);
      assert Claims(invs[i + 1], prop);
    }
  }

  /** One attribute pass deletes the attribute exactly when an invariant
      claims it and touches no other attribute of the rule. */
  lemma {:induction false} StripPropRule(s: Stripped, decl: string, prop: string, invs: seq<Object>)
    ensures var t := StripProp(s, decl, prop, invs);
      && (forall k :: k != prop ==> Get(t.rule, k) == Get(s.rule, k) && (Has(t.rule, k) <==> Has(s.rule, k)))
      && (AnyClaims(invs, prop) ==> !Has(t.rule, prop))
      && (!AnyClaims(invs, prop) ==> t.rule == s.rule)
      && (Valid(s.rule) ==> Valid(t.rule))
    decreases |invs|
  {
    if invs != [] {
      AnyClaimsCons(invs, prop);
      if Claims(invs[0], prop) {
        StripPropRule(Stripped(Delete(s.rule, prop), Set(s.recorded, decl, Obj(Record(invs[0], Get(s.rule, prop))))),
                      decl, prop, invs[1..]);
      } else {
        StripPropRule(s, decl, prop, invs[1..]);
      }
    }
  }

  /** One attribute pass records under the rule's name exactly when an
      invariant claims the attribute, and under no other name. */
  lemma {:induction false} StripPropRecorded(s: Stripped, decl: string, prop: string, invs: seq<Object>)
    ensures var t := StripProp(s, decl, prop, invs);
      && (forall d :: d != decl ==> Get(t.recorded, d) == Get(s.recorded, d) && (Has(t.recorded, d) <==> Has(s.recorded, d)))
      && (Has(t.recorded, decl) <==> Has(s.recorded, decl) || AnyClaims(invs, prop))
      && (Valid(s.recorded) ==> Valid(t.recorded))
    decreases |invs|
  {
    if invs != [] {
      AnyClaimsCons(invs, prop);
      if Claims(invs[0], prop) {
        StripPropRecorded(Stripped(Delete(s.rule, prop), Set(s.recorded, decl, Obj(Record(invs[0], Get(s.rule, prop))))),
                          decl, prop, invs[1..]);
      } else {
        StripPropRecorded(s, decl, prop, invs[1..]);
      }
    }
  }

  /** An attribute no invariant claims leaves the pass without effect. */
  lemma {:induction false} StripPropUnclaimed(s: Stripped, decl: string, prop: string, invs: seq<Object>)
    requires !AnyClaims(invs, prop)
    ensures StripProp(s, decl, prop, invs) == s
    decreases |invs|
  {
    if invs != [] {
      AnyClaimsCons(invs, prop);
      StripPropUnclaimed(s, decl, prop, invs[1..]);
    }
  }

  /** No invariant before position `j` claims the attribute. */
  predicate NoClaimBefore(invs: seq<Object>, prop: string, j: nat)
  {
    forall i :: 0 <= i < j && i < |invs| ==> !Claims(invs[i], prop)
  }

  /** Dropping the head of the list shifts `NoClaimBefore` when the head
      does not claim the attribute. */
  lemma NoClaimBeforeTail(invs: seq<Object>, prop: string, j: nat)
    requires 0 < j <= |invs| && !Claims(invs[0], prop)
    ensures NoClaimBefore(invs, prop, j) <==> NoClaimBefore(invs[1..], prop, j - 1)
  {
    if NoClaimBefore(invs[1..], prop, j - 1) {
      forall i | 0 < i < j ensures !Claims(invs[i], prop) {
        assert invs[i] == invs[1..][i - 1];
      }
    }
  }

  /** The record left under the rule's name by one attribute pass is the
      one of the last invariant claiming the attribute; it holds the
      attribute's value only when that invariant is also the first to claim
      it, since the first claim deletes the attribute and later ones read
      `undefined`. */
  lemma {:induction false} StripPropLastRecord(s: Stripped, decl: string, prop: string, invs: seq<Object>, j: nat)
    requires j < |invs| && Claims(invs[j], prop)
    requires forall i :: j < i < |invs| ==> !Claims(invs[i], prop)
    ensures Get(StripProp(s, decl, prop, invs).recorded, decl)
         == Obj(Record(invs[j], if NoClaimBefore(invs, prop, j) then Get(s.rule, prop) else Undefined))
    decreases |invs|, 2
  {
    if Claims(invs[0], prop) {
      LastRecordAfterClaim(s, decl, prop, invs, j);
    } else {
      var rest := invs[1..];
      assert StripProp(s, decl, prop, invs) == StripProp(s, decl, prop, rest);
      assert rest[j - 1] == invs[j];
      NoClaimBeforeTail(invs, prop, j);
      StripPropLastRecord(s, decl, prop, rest, j - 1);
    }
  }

  /** `StripPropLastRecord` when the first invariant claims the attribute. */
  lemma {:induction false} LastRecordAfterClaim(s: Stripped, decl: string, prop: string, invs: seq<Object>, j: nat)
    requires j < |invs| && Claims(invs[j], prop) && Claims(invs[0], prop)
    requires forall i :: j < i < |invs| ==> !Claims(invs[i], prop)
    ensures Get(StripProp(s, decl, prop, invs).recorded, decl)
         == Obj(Record(invs[j], if NoClaimBefore(invs, prop, j) then Get(s.rule, prop) else Undefined))
    decreases |invs|, 1
  {
    if j == 0 {
      LastRecordOnlyClaim(s, decl, prop, invs);
      assert NoClaimBefore(invs, prop, 0);
    } else {
      var s' := Stripped(Delete(s.rule, prop), Set(s.recorded, decl, Obj(Record(invs[0], Get(s.rule, prop)))));
      assert StripProp(s, decl, prop, invs) == StripProp(s', decl, prop, invs[1..]);
      assert !NoClaimBefore(invs, prop, j);
      LastRecordLaterClaim(s', decl, prop, invs, j);
    }
  }

  /** When the first invariant is the only one claiming the attribute, its
      record carries the attribute's value. */
  lemma LastRecordOnlyClaim(s: Stripped, decl: string, prop: string, invs: seq<Object>)
    requires |invs| > 0 && Claims(invs[0], prop)
    requires forall i :: 0 < i < |invs| ==> !Claims(invs[i], prop)
    ensures Get(StripProp(s, decl, prop, invs).recorded, decl) == Obj(Record(invs[0], Get(s.rule, prop)))
  {
    var s' := Stripped(Delete(s.rule, prop), Set(s.recorded, decl, Obj(Record(invs[0], Get(s.rule, prop)))));
    assert StripProp(s, decl, prop, invs) == StripProp(s', decl, prop, invs[1..]);
    LastRecordFirstClaim(s', decl, prop, invs);
  }

  /** After a first claim, the record of a later last claimant carries
      `undefined`: the attribute is already gone. */
  lemma {:induction false} LastRecordLaterClaim(s': Stripped, decl: string, prop: string, invs: seq<Object>, j: nat)
    requires 0 < j < |invs| && Claims(invs[j], prop)
    requires forall i :: j < i < |invs| ==> !Claims(invs[i], prop)
    requires !Has(s'.rule, prop)
    ensures Get(StripProp(s', decl, prop, invs[1..]).recorded, decl) == Obj(Record(invs[j], Undefined))
    decreases |invs|, 0
  {
    var rest := invs[1..];
    assert Claims(rest[j - 1], prop) by {
      assert rest[j - 1] == invs[j];
    }
    forall i | j - 1 < i < |rest| ensures !Claims(rest[i], prop) {
      assert rest[i] == invs[i + 1];
    }
    StripPropLastRecord(s', decl, prop, rest, j - 1);
  }

  /** After the only claim, the rest of the pass leaves the records alone. */
  lemma LastRecordFirstClaim(s': Stripped, decl: string, prop: string, invs: seq<Object>)
    requires |invs| > 0
    requires forall i :: 0 < i < |invs| ==> !Claims(invs[i], prop)
    ensures StripProp(s', decl, prop, invs[1..]) == s'
  {
    var rest := invs[1..];
    assert !AnyClaims(rest, prop) by {
      forall i | 0 <= i < |rest| ensures !Claims(rest[i], prop) {
        assert rest[i] == invs[i + 1];
      }
    }
    StripPropUnclaimed(s', decl, prop, rest);
  }

  /** Stripping a rule removes every attribute of it that some invariant
      claims and leaves every other attribute as it was. */
  lemma {:induction false} StripRuleEffect(s: Stripped, decl: string, props: seq<string>, invs: seq<Object>)
    ensures var t := StripRule(s, decl, props, invs);
      && (forall k :: k in props && AnyClaims(invs, k) ==> !Has(t.rule, k))
      && (forall k :: !(k in props && AnyClaims(invs, k)) ==>
            Get(t.rule, k) == Get(s.rule, k) && (Has(t.rule, k) <==> Has(s.rule, k)))
      && (forall d :: d != decl ==> Get(t.recorded, d) == Get(s.recorded, d) && (Has(t.recorded, d) <==> Has(s.recorded, d)))
      && (Has(t.recorded, decl) <==> Has(s.recorded, decl) || exists k :: k in props && AnyClaims(invs, k))
      && (Valid(s.rule) ==> Valid(t.rule))
      && (Valid(s.recorded) ==> Valid(t.recorded))
    decreases |props|
  {
    if props != [] {
      var s' := StripProp(s, decl, props[0], invs);
      StripPropRule(s, decl, props[0], invs);
      StripPropRecorded(s, decl, props[0], invs);
      StripRuleEffect(s', decl, props[1..], invs);
      var t := StripRule(s, decl, props, invs);
      forall k | k in props && AnyClaims(invs, k) ensures !Has(t.rule, k) {
        if k !in props[1..] {
          assert k == props[0];
        }
      }
      if exists k :: k in props && AnyClaims(invs, k) {
        var k :| k in props && AnyClaims(invs, k);
        if k != props[0] {
          assert k in props[1..];
        }
      }
    }
  }

  /** What `compile` does to the rules: an attribute of a plain-object rule
      disappears exactly when an invariant claims it; every other attribute,
      every other rule and the set of rule names stay as they were. */
  lemma {:induction false} StripAllEffect(styles: Object, recorded: Object, decls: seq<string>, invs: seq<Object>)
    requires Valid(styles) && NoDuplicates(decls)
    ensures var t := StripAll(styles, recorded, decls, invs);
      && Valid(t.rule) && t.rule.keys == styles.keys
      && (forall d :: (d !in decls || !Get(styles, d).Obj?) ==> Get(t.rule, d) == Get(styles, d))
      && (forall d :: d in decls && Get(styles, d).Obj? ==>
            && Get(t.rule, d).Obj?
            && (forall k :: AnyClaims(invs, k) && k in Get(styles, d).obj.keys ==> !Has(Get(t.rule, d).obj, k))
            && (forall k :: !(AnyClaims(invs, k) && k in Get(styles, d).obj.keys) ==>
                  Get(Get(t.rule, d).obj, k) == Get(Get(styles, d).obj, k)))
      && (Valid(recorded) ==> Valid(t.recorded))
    decreases |decls|
  {
    if decls != [] {
      var d0 := decls[0];
      var rule := Get(styles, d0);
      assert NoDuplicates(decls[1..]);
      assert d0 !in decls[1..];
      if rule.Obj? {
        var s := StripRule(Stripped(rule.obj, recorded), d0, rule.obj.keys, invs);
        StripRuleEffect(Stripped(rule.obj, recorded), d0, rule.obj.keys, invs);
        assert d0 in styles.keys;
        StripAllEffect(Set(styles, d0, Obj(s.rule)), s.recorded, decls[1..], invs);
      } else {
        StripAllEffect(styles, recorded, decls[1..], invs);
      }
    }
  }

  /** `props[p]` is the last attribute of the rule that some invariant
      claims, and `invs[j]` the last invariant claiming it. */
  predicate LastClaim(props: seq<string>, invs: seq<Object>, p: nat, j: nat)
  {
    && p < |props| && j < |invs| && Claims(invs[j], props[p])
    && (forall i :: j < i < |invs| ==> !Claims(invs[i], props[p]))
    && (forall q :: p < q < |props| ==> !AnyClaims(invs, props[q]))
  }

  /** No attribute of the rule is claimed by any invariant. */
  predicate NoneClaimed(props: seq<string>, invs: seq<Object>)
  {
    forall q :: 0 <= q < |props| ==> !AnyClaims(invs, props[q])
  }

  /** The record of invariant `invs[j]` for attribute `props[p]` of `rule`:
      the attribute's value when `invs[j]` is its first claimant, and
      `undefined` when an earlier claimant already deleted it. */
  function LastRecord(rule: Object, props: seq<string>, invs: seq<Object>, p: nat, j: nat): Value
    requires p < |props| && j < |invs|
  {
    Obj(Record(invs[j], if NoClaimBefore(invs, props[p], j) then Get(rule, props[p]) else Undefined))
  }

  /** A rule none of whose attributes is claimed leaves the pass unchanged,
      records included. */
  lemma {:induction false} StripRuleUnclaimed(s: Stripped, decl: string, props: seq<string>, invs: seq<Object>)
    requires NoneClaimed(props, invs)
    ensures StripRule(s, decl, props, invs) == s
    decreases |props|
  {
    if props != [] {
      StripPropUnclaimed(s, decl, props[0], invs);
      assert NoneClaimed(props[1..], invs) by {
        forall q | 0 <= q < |props[1..]| ensures !AnyClaims(invs, props[1..][q]) {
          assert props[1..][q] == props[q + 1];
        }
      }
      StripRuleUnclaimed(s, decl, props[1..], invs);
    }
  }

  /** The record a rule ends with is decided by its last claimed attribute
      and that attribute's last claimant. */
  lemma {:induction false} StripRuleLastRecord(s: Stripped, decl: string, props: seq<string>, invs: seq<Object>, p: nat, j: nat)
    requires NoDuplicates(props) && LastClaim(props, invs, p, j)
    ensures Get(StripRule(s, decl, props, invs).recorded, decl) == LastRecord(s.rule, props, invs, p, j)
    decreases |props|
  {
    var s' := StripProp(s, decl, props[0], invs);
    var rest := props[1..];
    if p == 0 {
      StripPropLastRecord(s, decl, props[0], invs, j);
      assert NoneClaimed(rest, invs) by {
        forall q | 0 <= q < |rest| ensures !AnyClaims(invs, rest[q]) {
          assert rest[q] == props[q + 1];
        }
      }
      StripRuleUnclaimed(s', decl, rest, invs);
    } else {
      assert props[p] != props[0];
      StripPropRule(s, decl, props[0], invs);
      assert rest[p - 1] == props[p];
      assert LastClaim(rest, invs, p - 1, j) by {
        forall q | p - 1 < q < |rest| ensures !AnyClaims(invs, rest[q]) {
          assert rest[q] == props[q + 1];
        }
      }
      assert NoDuplicates(rest);
      StripRuleLastRecord(s', decl, rest, invs, p - 1, j);
    }
  }

  /** What `compile` records under the name of a rule: the record of the
      rule's last claimed attribute, from that attribute's last claimant;
      a rule with no claimed attribute, a rule that is not an object, or a
      name that is not a rule keeps the record it had. */
  lemma {:induction false} StripAllRecords(styles: Object, recorded: Object, decls: seq<string>, invs: seq<Object>, d: string)
    requires NoDuplicates(decls)
    ensures var t := StripAll(styles, recorded, decls, invs);
            var rule := Get(styles, d);
      && (d in decls && rule.Obj? && NoDuplicates(rule.obj.keys) ==>
            forall p, j :: LastClaim(rule.obj.keys, invs, p, j) ==>
              Get(t.recorded, d) == LastRecord(rule.obj, rule.obj.keys, invs, p, j))
      && (d !in decls || !rule.Obj? || NoneClaimed(rule.obj.keys, invs) ==> Get(t.recorded, d) == Get(recorded, d))
    decreases |decls|
  {
    if decls != [] {
      var d0 := decls[0];
      var rest := decls[1..];
      var rule0 := Get(styles, d0);
      assert NoDuplicates(rest) && d0 !in rest;
      assert d in decls <==> d == d0 || d in rest;
      if rule0.Obj? {
        var s := StripRule(Stripped(rule0.obj, recorded), d0, rule0.obj.keys, invs);
        var styles' := Set(styles, d0, Obj(s.rule));
        StripAllRecords(styles', s.recorded, rest, invs, d);
        if d == d0 {
          forall p, j | NoDuplicates(rule0.obj.keys) && LastClaim(rule0.obj.keys, invs, p, j)
            ensures Get(s.recorded, d) == LastRecord(rule0.obj, rule0.obj.keys, invs, p, j)
          {
            StripRuleLastRecord(Stripped(rule0.obj, recorded), d0, rule0.obj.keys, invs, p, j);
          }
          if NoneClaimed(rule0.obj.keys, invs) {
            StripRuleUnclaimed(Stripped(rule0.obj, recorded), d0, rule0.obj.keys, invs);
          }
        } else {
          StripRuleEffect(Stripped(rule0.obj, recorded), d0, rule0.obj.keys, invs);
        }
      } else {
        StripAllRecords(styles, recorded, rest, invs, d);
      }
    }
  }

  /** The records `compile` leaves in `styleInvariants`, from the rules and
      the records before it ran. */
  ghost predicate CompiledRecords(styles: Object, invs: seq<Object>, before: Object, after: Object)
  {
    && (forall d, p, j :: Get(styles, d).Obj? && NoDuplicates(Get(styles, d).obj.keys)
                          && LastClaim(Get(styles, d).obj.keys, invs, p, j)
                          ==> Get(after, d) == LastRecord(Get(styles, d).obj, Get(styles, d).obj.keys, invs, p, j))
    && (forall d :: !Get(styles, d).Obj? || NoneClaimed(Get(styles, d).obj.keys, invs) ==> Get(after, d) == Get(before, d))
  }

  /** The invariant pass over every rule of a well-formed style object
      leaves the records `CompiledRecords` describes. */
  lemma CompileRecords(styles: Object, recorded: Object, invs: seq<Object>)
    requires Valid(styles)
    ensures CompiledRecords(styles, invs, recorded, StripAll(styles, recorded, styles.keys, invs).recorded)
  {
    forall d ensures var t := StripAll(styles, recorded, styles.keys, invs);
                     var rule := Get(styles, d);
      && (rule.Obj? && NoDuplicates(rule.obj.keys) ==>
            forall p, j :: LastClaim(rule.obj.keys, invs, p, j) ==>
              Get(t.recorded, d) == LastRecord(rule.obj, rule.obj.keys, invs, p, j))
      && (!rule.Obj? || NoneClaimed(rule.obj.keys, invs) ==> Get(t.recorded, d) == Get(recorded, d))
    {
      StripAllRecords(styles, recorded, styles.keys, invs, d);
    }
  }

  // ---------------------------------------------------------------------
  // The registry.
  // ---------------------------------------------------------------------

  class StyleRegistry {
    var fonts: Object
    var sizes: Value
    var colors: Object
    var colorNames: seq<string>
    var styles: Object
    /** `null` until `compile` runs. */
    var styleSheet: Option<Object>
    var styleInvariants: Object

    /** Every object the registry holds is well formed. */
    ghost predicate Valid()
      reads this
    {
      Js.Valid(fonts) && Js.Valid(colors) && Js.Valid(styles) && Js.Valid(styleInvariants)
    }

    /** A new registry: everything empty, no compiled sheet yet. */
    constructor ()
      ensures Valid()
      ensures fonts == Empty && sizes == Obj(Empty) && colors == Empty && colorNames == []
      ensures styles == Empty && styleSheet == None && styleInvariants == Empty
    {
      fonts, sizes, colors, colorNames := Empty, Obj(Empty), Empty, [];
      styles, styleSheet, styleInvariants := Empty, None, Empty;
    }

    /** `mergeColors`: colours already registered win over incoming ones;
        incoming names not yet registered are added. */
    method MergeColors(incoming: Object)
      requires Valid()
      modifies this`colors
      ensures Valid()
      ensures MergedColors(colors, old(colors), incoming)
    {
      colors := Assign(Assign(Empty, incoming), colors);
    }

    /** `addColors`: incoming colours win, and `colorNames` becomes the
        list of every registered colour name. */
    method AddColors(incoming: Object)
      requires Valid()
      modifies this`colors, this`colorNames
      ensures Valid()
      ensures forall k :: Get(colors, k) == if k in incoming.keys then Get(incoming, k) else Get(old(colors), k)
      ensures colorNames == colors.keys && NoDuplicates(colorNames)
      ensures forall k :: k in colorNames <==> k in old(colors).keys || k in incoming.keys
    {
      colors := Assign(colors, incoming);
      colorNames := colors.keys;
    }

    /** `addFonts`: every entry of `fontMap` is a font function that is
        called with the platform name, and its result is registered under the
        entry's name. `call` gives what a font function returns. A value that
        is not a function raises a TypeError; the entries before it are kept. */
    method AddFonts(fontMap: Object, platform: string, call: (Value, string) -> Value) returns (r: Result<()>)
      requires Valid()
      modifies this`fonts
      ensures Valid()
      ensures r.Ok? <==> AllFunctions(fontMap, fontMap.keys)
      ensures fonts == FontsAfter(old(fonts), fontMap, fontMap.keys, platform, call)
    {
      var keys := fontMap.keys;
      var i := 0;
      while i < |keys|
        invariant 0 <= i <= |keys|
        invariant Js.Valid(fonts)
        invariant forall j :: 0 <= j < i ==> IsFunction(Get(fontMap, keys[j]))
        invariant FontsAfter(fonts, fontMap, keys[i..], platform, call) == FontsAfter(old(fonts), fontMap, keys, platform, call)
      {
        var k := keys[i];
        var fn := Get(fontMap, k);
        assert keys[i..][0] == k && keys[i..][1..] == keys[i + 1..];
        if !IsFunction(fn) {
          return Err(TypeError("fn is not a function"));
        }
        fonts := Set(fonts, k, call(fn, platform));
        i := i + 1;
      }
      r := Ok(());
    }

    /** `addStyleSheet`: the rules are replaced wholesale by a copy of what
        the application's style function returns for the current colours,
        fonts and colour names. */
    method AddStyleSheet(build: StyleInput -> Value)
      requires Valid()
      modifies this`styles
      ensures Valid()
      ensures var result := build(StyleInput(old(colors), old(fonts), old(colorNames)));
              && (result.Obj? ==> forall k :: k in result.obj.keys ==> Get(styles, k) == Get(result.obj, k))
              && (result.Obj? ==> forall k :: k in styles.keys <==> k in result.obj.keys)
              && (result.Obj? ==> forall k :: k !in result.obj.keys ==> !Has(styles, k))
              && (!result.Obj? ==> styles == Empty)
    {
      var result := build(StyleInput(colors, fonts, colorNames));
      styles := if result.Obj? then Assign(Empty, result.obj) else Empty;
    }

    /** `setFontSizes`. */
    method SetFontSizes(newSizes: Value)
      modifies this`sizes
      ensures sizes == newSizes
    {
      sizes := newSizes;
    }

    /** `compile`: when invariants are configured, every attribute they claim
        is moved out of the rules into `styleInvariants`; then the style
        sheet is created from the rules, so a component can be built. */
    method Compile(invariants: Option<seq<Object>>)
      requires Valid()
      modifies this`styles, this`styleInvariants, this`styleSheet
      ensures Valid()
      ensures invariants.None? ==> styles == old(styles) && styleInvariants == old(styleInvariants)
      ensures invariants.Some? ==>
        Stripped(styles, styleInvariants) == StripAll(old(styles), old(styleInvariants), old(styles).keys, invariants.value)
      ensures invariants.Some? ==> CompiledRecords(old(styles), invariants.value, old(styleInvariants), styleInvariants)
      ensures styleSheet == Some(styles)
    {
      if invariants.Some? {
        var invs := invariants.value;
        var decls := styles.keys;
        var i := 0;
        StripAllEffect(styles, styleInvariants, decls, invs);
        while i < |decls|
          invariant 0 <= i <= |decls|
          invariant StripAll(styles, styleInvariants, decls[i..], invs) == StripAll(old(styles), old(styleInvariants), decls, invs)
        {
          var decl := decls[i];
          var rule := Get(styles, decl);
          assert decls[i..][1..] == decls[i + 1..];
          if rule.Obj? {
            var s := StripOneRule(rule.obj, decl, invs);
            styles := Set(styles, decl, Obj(s));
          }
          i := i + 1;
        }
        StripAllEffect(old(styles), old(styleInvariants), decls, invs);
        CompileRecords(old(styles), old(styleInvariants), invs);
      }
      styleSheet := Some(styles);
    }

    /** The two inner loops of `compile` for one rule: returns the stripped
        rule and updates `styleInvariants`. */
    method StripOneRule(rule: Object, decl: string, invs: seq<Object>) returns (stripped: Object)
      modifies this`styleInvariants
      ensures Stripped(stripped, styleInvariants) == StripRule(Stripped(rule, old(styleInvariants)), decl, rule.keys, invs)
    {
      stripped := rule;
      var props := rule.keys;
      var j := 0;
      while j < |props|
        invariant 0 <= j <= |props|
        invariant StripRule(Stripped(stripped, styleInvariants), decl, props[j..], invs)
               == StripRule(Stripped(rule, old(styleInvariants)), decl, props, invs)
      {
        assert props[j..][1..] == props[j + 1..];
        stripped := StripOneProp(stripped, decl, props[j], invs);
        j := j + 1;
      }
    }

    /** The `invariants.forEach` for one attribute of one rule. */
    method StripOneProp(rule: Object, decl: string, prop: string, invs: seq<Object>) returns (stripped: Object)
      modifies this`styleInvariants
      ensures Stripped(stripped, styleInvariants) == StripProp(Stripped(rule, old(styleInvariants)), decl, prop, invs)
    {
      stripped := rule;
      var n := 0;
      while n < |invs|
        invariant 0 <= n <= |invs|
        invariant StripProp(Stripped(stripped, styleInvariants), decl, prop, invs[n..])
               == StripProp(Stripped(rule, old(styleInvariants)), decl, prop, invs)
      {
        var inv := invs[n];
        assert invs[n..][1..] == invs[n + 1..];
        if Claims(inv, prop) {
          var value := Get(stripped, prop);
          styleInvariants := Set(styleInvariants, decl, Obj(Record(inv, value)));
          stripped := Delete(stripped, prop);
        }
        n := n + 1;
      }
    }
  }

  /** `merged` holds the colours of `existing` and, for names it lacks,
      those of `incoming`. */
  ghost predicate MergedColors(merged: Object, existing: Object, incoming: Object)
  {
    && (forall k :: k in existing.keys ==> Get(merged, k) == Get(existing, k))
    && (forall k :: k !in existing.keys && k in incoming.keys ==> Get(merged, k) == Get(incoming, k))
    && (forall k :: k in merged.keys <==> k in existing.keys || k in incoming.keys)
  }

  /** Every entry of the font map, up to the listed keys, is a function. */
  predicate AllFunctions(fontMap: Object, keys: seq<string>)
  {
    forall i :: 0 <= i < |keys| ==> IsFunction(Get(fontMap, keys[i]))
  }

  /** The fonts after `addFonts` registered the listed entries in order,
      stopping at the first entry that is not a function. */
  function FontsAfter(fonts: Object, fontMap: Object, keys: seq<string>, platform: string, call: (Value, string) -> Value): Object
    decreases |keys|
  {
    if keys == [] then fonts
    else
      var fn := Get(fontMap, keys[0]);
      if !IsFunction(fn) then fonts
      else FontsAfter(Set(fonts, keys[0], call(fn, platform)), fontMap, keys[1..], platform, call)
  }

  /** When every entry is a function, each listed name ends up bound to its
      font function's result for the platform, and no other font changes. */
  lemma {:induction false} FontsAfterAllFunctions(fonts: Object, fontMap: Object, keys: seq<string>, platform: string,
                                                  call: (Value, string) -> Value, k: string)
    requires AllFunctions(fontMap, keys)
    ensures Get(FontsAfter(fonts, fontMap, keys, platform, call), k)
         == if k in keys then call(Get(fontMap, k), platform) else Get(fonts, k)
    decreases |keys|
  {
    if keys != [] {
      assert IsFunction(Get(fontMap, keys[0]));
      assert forall i :: 0 <= i < |keys[1..]| ==> keys[1..][i] == keys[i + 1];
      FontsAfterAllFunctions(Set(fonts, keys[0], call(Get(fontMap, keys[0]), platform)), fontMap, keys[1..], platform, call, k);
    }
  }
}
