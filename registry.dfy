/** The worker metadata registry: a two-level table from class to method key
    to definition, filled by the decorators and read back per instance by
    walking the instance's class chain. */
module WorkerRegistry {
  import opened ZeebeTypes

  /** What the registry keeps for one method of one class. */
  datatype Definition = Definition(
    propertyKey: PropertyKey,
    options: Option<WorkerOptions>,
    parameterCount: Option<nat>,
    parameters: map<nat, ParameterRule>)
  {
    /** Options and count are always stored together, and every rule sits at
        its own index. */
    ghost predicate Valid(key: PropertyKey) {
      && propertyKey == key
      && (options.Some? <==> parameterCount.Some?)
      && forall i :: i in parameters ==> parameters[i].index == i
    }
  }

  /** The definitions of one class. `order` lists the method keys in
      first-insertion order, as a JavaScript `Map` iterates them. */
  datatype Table = Table(order: seq<PropertyKey>, defs: map<PropertyKey, Definition>)
  {
    ghost predicate Valid() {
      && (forall i, j :: 0 <= i < j < |order| ==> order[i] != order[j])
      && (forall k :: k in defs <==> k in order)
      && (forall k :: k in defs ==> defs[k].Valid(k))
    }
  }

  type Tables = map<ClassId, Table>

  ghost predicate ValidTables(tables: Tables) {
    forall c :: c in tables ==> tables[c].Valid()
  }

  const EmptyTable := Table([], map[])

  function TableOf(tables: Tables, target: ClassId): Table {
    if target in tables then tables[target] else EmptyTable
  }

  /** The definition `ensureDefinition` yields: the stored one, or a blank one. */
  function DefinitionOf(tables: Tables, target: ClassId, key: PropertyKey): Definition {
    var t := TableOf(tables, target);
    if key in t.defs then t.defs[key] else Definition(key, None, None, map[])
  }

  /** Store `d` for (target, key); a key new to the class goes after the
      existing ones. */
  function Put(tables: Tables, target: ClassId, key: PropertyKey, d: Definition): Tables {
    var t := TableOf(tables, target);
    tables[target := Table(if key in t.defs then t.order else t.order + [key], t.defs[key := d])]
  }

  /** The tables after `ensureDefinition(target, key)`. */
  function Ensured(tables: Tables, target: ClassId, key: PropertyKey): Tables {
    Put(tables, target, key, DefinitionOf(tables, target, key))
  }

  /** The tables after `storeWorkerOptions(target, key, options, count)`. */
  function WithOptions(tables: Tables, target: ClassId, key: PropertyKey, options: WorkerOptions, count: nat): Tables {
    var d := DefinitionOf(tables, target, key);
    Put(tables, target, key, d.(options := Some(options), parameterCount := Some(count)))
  }

  /** The tables after `storeWorkerParameter(target, key, rule)`. */
  function WithParameter(tables: Tables, target: ClassId, key: PropertyKey, rule: ParameterRule): Tables {
    var d := DefinitionOf(tables, target, key);
    Put(tables, target, key, d.(parameters := d.parameters[rule.index := rule]))
  }

  // ---------------------------------------------------------------------
  // Properties of the store operations

  /** Storing a valid definition keeps every table valid. */
  /** What `ensureDefinition` yields for valid tables is a valid definition. */
  lemma {:induction false} StoredValid(tables: Tables, target: ClassId, key: PropertyKey)
    requires ValidTables(tables)
    ensures DefinitionOf(tables, target, key).Valid(key)
  {
    if target in tables {
      assert tables[target].Valid();
    }
  }

  lemma {:induction false} PutValid(tables: Tables, target: ClassId, key: PropertyKey, d: Definition)
    requires ValidTables(tables) && d.Valid(key)
    ensures ValidTables(Put(tables, target, key, d))
  {
    var t := TableOf(tables, target);
    assert t.Valid();
    if key !in t.defs {
      var order := t.order + [key];
      assert key !in t.order;
      forall i, j | 0 <= i < j < |order| ensures order[i] != order[j] {
        if j == |order| - 1 {
          assert order[i] in t.order;
        }
      }
    }
  }

  /** A definition is created at most once: when (target, key) already has
      one, `ensureDefinition` changes nothing and yields the stored one. */
  lemma {:induction false} EnsureExistingChangesNothing(tables: Tables, target: ClassId, key: PropertyKey)
    requires ValidTables(tables)
    requires target in tables && key in tables[target].defs
    ensures Ensured(tables, target, key) == tables
    ensures DefinitionOf(tables, target, key) == tables[target].defs[key]
  {
    assert tables[target].defs[key := tables[target].defs[key]] == tables[target].defs;
  }

  /** A new key is appended after the class's existing keys, with a blank
      definition. */
  lemma {:induction false} EnsureNewAppends(tables: Tables, target: ClassId, key: PropertyKey)
    requires key !in TableOf(tables, target).defs
    ensures TableOf(Ensured(tables, target, key), target).order == TableOf(tables, target).order + [key]
    ensures DefinitionOf(Ensured(tables, target, key), target, key) == Definition(key, None, None, map[])
  {
  }

  /** A second store to the same (target, key) overrides the first and leaves
      the key order as the first store left it. */
  lemma {:induction false} PutTwice(tables: Tables, target: ClassId, key: PropertyKey, d1: Definition, d2: Definition)
    ensures DefinitionOf(Put(tables, target, key, d1), target, key) == d1
    ensures Put(Put(tables, target, key, d1), target, key, d2) == Put(tables, target, key, d2)
  {
    var t := TableOf(tables, target);
    var t1 := TableOf(Put(tables, target, key, d1), target);
    assert t1 == Table(if key in t.defs then t.order else t.order + [key], t.defs[key := d1]);
    assert t1.defs[key := d2] == t.defs[key := d2];
  }

  /** `storeWorkerOptions` twice: the last write wins. */
  lemma {:induction false} OptionsLastWriteWins(tables: Tables, target: ClassId, key: PropertyKey,
                                               o1: WorkerOptions, c1: nat, o2: WorkerOptions, c2: nat)
    ensures WithOptions(WithOptions(tables, target, key, o1, c1), target, key, o2, c2)
         == WithOptions(tables, target, key, o2, c2)
  {
    var d := DefinitionOf(tables, target, key);
    PutTwice(tables, target, key, d.(options := Some(o1), parameterCount := Some(c1)),
             d.(options := Some(o2), parameterCount := Some(c2)));
  }

  /** `storeWorkerOptions` leaves the parameter rules alone, and only the
      definition of (target, key) changes. */
  lemma {:induction false} OptionsKeepParameters(tables: Tables, target: ClassId, key: PropertyKey, options: WorkerOptions, count: nat)
    ensures var after := WithOptions(tables, target, key, options, count);
      && DefinitionOf(after, target, key).parameters == DefinitionOf(tables, target, key).parameters
      && DefinitionOf(after, target, key).options == Some(options)
      && DefinitionOf(after, target, key).parameterCount == Some(count)
      && (forall c, k :: (c, k) != (target, key) ==> DefinitionOf(after, c, k) == DefinitionOf(tables, c, k))
  {
  }

  /** `storeWorkerParameter` replaces only the rule at `rule.index`. */
  lemma {:induction false} ParameterReplacesOnlyItsIndex(tables: Tables, target: ClassId, key: PropertyKey, rule: ParameterRule)
    ensures var before := DefinitionOf(tables, target, key);
      var after := DefinitionOf(WithParameter(tables, target, key, rule), target, key);
      && after.parameters[rule.index] == rule
      && (forall i :: i != rule.index ==> (i in after.parameters <==> i in before.parameters))
      && (forall i :: i != rule.index && i in before.parameters ==> after.parameters[i] == before.parameters[i])
      && after.options == before.options && after.parameterCount == before.parameterCount
      && (forall c, k :: (c, k) != (target, key) ==>
            DefinitionOf(WithParameter(tables, target, key, rule), c, k) == DefinitionOf(tables, c, k))
  {
  }

  /** Declarations may arrive in any order: storing the options and storing a
      rule commute. */
  lemma {:induction false} OptionsAndParameterCommute(tables: Tables, target: ClassId, key: PropertyKey,
                                                     options: WorkerOptions, count: nat, rule: ParameterRule)
    ensures WithOptions(WithParameter(tables, target, key, rule), target, key, options, count)
         == WithParameter(WithOptions(tables, target, key, options, count), target, key, rule)
  {
    var d := DefinitionOf(tables, target, key);
    var withRule := d.(parameters := d.parameters[rule.index := rule]);
    var withOptions := d.(options := Some(options), parameterCount := Some(count));
    PutTwice(tables, target, key, withRule, withRule.(options := Some(options), parameterCount := Some(count)));
    PutTwice(tables, target, key, withOptions, withOptions.(parameters := withOptions.parameters[rule.index := rule]));
  }

  /** Rules at different indices commute. */
  lemma {:induction false} ParametersCommute(tables: Tables, target: ClassId, key: PropertyKey, r1: ParameterRule, r2: ParameterRule)
    requires r1.index != r2.index
    ensures WithParameter(WithParameter(tables, target, key, r1), target, key, r2)
         == WithParameter(WithParameter(tables, target, key, r2), target, key, r1)
  {
    var d := DefinitionOf(tables, target, key);
    var d1 := d.(parameters := d.parameters[r1.index := r1]);
    var d2 := d.(parameters := d.parameters[r2.index := r2]);
    PutTwice(tables, target, key, d1, d1.(parameters := d1.parameters[r2.index := r2]));
    PutTwice(tables, target, key, d2, d2.(parameters := d2.parameters[r1.index := r1]));
    assert d.parameters[r1.index := r1][r2.index := r2] == d.parameters[r2.index := r2][r1.index := r1];
  }

  // ---------------------------------------------------------------------
  // Sorting a definition's rules by index

  lemma {:induction false} LeastOf(s: set<nat>) returns (m: nat)
    requires s != {}
    ensures m in s && forall j :: j in s ==> m <= j
  {
    var x :| x in s;
    if s == {x} {
      m := x;
    } else {
      var m' := LeastOf(s - {x});
      m := if x < m' then x else m';
      forall j | j in s ensures m <= j {
        if j != x { assert j in s - {x}; }
      }
    }
  }

  lemma {:induction false} MinExists(s: set<nat>)
    requires s != {}
    ensures exists k :: k in s && forall j :: j in s ==> k <= j
  {
    var m := LeastOf(s);
  }

  function MinKey(s: set<nat>): (k: nat)
    requires s != {}
    ensures k in s && forall j :: j in s ==> k <= j
  {
    MinExists(s);
    var k :| k in s && forall j :: j in s ==> k <= j;
    k
  }

  /** The keys of a set in strictly ascending order. */
  function SortedKeys(ks: set<nat>): (r: seq<nat>)
    ensures |r| == |ks|
    ensures forall i :: 0 <= i < |r| ==> r[i] in ks
    ensures forall k :: k in ks ==> k in r
    ensures forall i, j :: 0 <= i < j < |r| ==> r[i] < r[j]
    decreases |ks|
  {
    if ks == {} then []
    else
      var m := MinKey(ks);
      var rest := SortedKeys(ks - {m});
      LeastFirst(ks, m, rest);
      [m] + rest
  }

  /** Putting the least key in front of the ascending rest of the keys gives
      all of them in ascending order. */
  lemma {:induction false} LeastFirst(ks: set<nat>, m: nat, rest: seq<nat>)
    requires m in ks && forall j :: j in ks ==> m <= j
    requires |rest| == |ks - {m}|
    requires forall i :: 0 <= i < |rest| ==> rest[i] in ks - {m}
    requires forall k :: k in ks - {m} ==> k in rest
    requires forall i, j :: 0 <= i < j < |rest| ==> rest[i] < rest[j]
    ensures var r := [m] + rest;
      && |r| == |ks|
      && (forall i :: 0 <= i < |r| ==> r[i] in ks)
      && (forall k :: k in ks ==> k in r)
      && (forall i, j :: 0 <= i < j < |r| ==> r[i] < r[j])
  {
    var r := [m] + rest;
    forall i | 0 <= i < |r| ensures r[i] in ks {
      if i > 0 { assert r[i] == rest[i - 1]; }
    }
    forall k | k in ks ensures k in r {
      if k != m { assert k in ks - {m}; }
    }
    forall i, j | 0 <= i < j < |r| ensures r[i] < r[j] {
      assert r[j] == rest[j - 1] && r[j] in ks - {m};
      if i > 0 { assert r[i] == rest[i - 1]; }
    }
  }

  /** `Array.from(parameters.values()).sort(by index)`. */
  function SortedRules(parameters: map<nat, ParameterRule>): (r: seq<ParameterRule>)
  {
    var ks := SortedKeys(parameters.Keys);
    seq(|ks|, i requires 0 <= i < |ks| => parameters[ks[i]])
  }

  /** The sorted rules are strictly ascending by index and are exactly the
      stored rules. */
  lemma {:induction false} SortedRulesExact(parameters: map<nat, ParameterRule>)
    requires forall i :: i in parameters ==> parameters[i].index == i
    ensures var r := SortedRules(parameters);
      && |r| == |parameters|
      && (forall i, j :: 0 <= i < j < |r| ==> r[i].index < r[j].index)
      && (forall i :: 0 <= i < |r| ==> r[i].index in parameters && parameters[r[i].index] == r[i])
      && (forall k :: k in parameters ==> exists i :: 0 <= i < |r| && r[i].index == k)
  {
    var ks := SortedKeys(parameters.Keys);
    var r := SortedRules(parameters);
    assert |parameters.Keys| == |parameters|;
    assert |r| == |ks|;
    forall i | 0 <= i < |r| ensures r[i].index == ks[i] && ks[i] in parameters && r[i] == parameters[ks[i]] {
    }
    forall i, j | 0 <= i < j < |r| ensures r[i].index < r[j].index {
      assert r[i].index == ks[i] && r[j].index == ks[j];
    }
    forall k | k in parameters ensures exists i :: 0 <= i < |r| && r[i].index == k {
      SortedRulesCover(parameters, k);
    }
  }

  /** Every stored index appears among the sorted rules. */
  lemma {:induction false} SortedRulesCover(parameters: map<nat, ParameterRule>, k: nat)
    requires forall i :: i in parameters ==> parameters[i].index == i
    requires k in parameters
    ensures exists i :: 0 <= i < |SortedRules(parameters)| && SortedRules(parameters)[i].index == k
  {
    var ks := SortedKeys(parameters.Keys);
    assert k in ks;
    var i :| 0 <= i < |ks| && ks[i] == k;
    assert SortedRules(parameters)[i] == parameters[k];
  }

  // ---------------------------------------------------------------------
  // The metadata walk, as a specification

  /** Class `c` has a handler for `key`: a definition with options. */
  predicate HasHandler(tables: Tables, c: ClassId, key: PropertyKey) {
    c in tables && key in tables[c].defs && tables[c].defs[key].options.Some?
  }

  /** The record `getWorkerMetadata` yields for a definition with options. */
  function Record(key: PropertyKey, d: Definition): WorkerMetadata
    requires d.options.Some?
  {
    WorkerMetadata(key, d.options.value, d.parameterCount.GetOr(0), SortedRules(d.parameters))
  }

  /** The records one class offers, keys in the given order, skipping
      definitions without options. */
  function Level(t: Table, keys: seq<PropertyKey>): seq<WorkerMetadata> {
    if keys == [] then []
    else
      (if keys[0] in t.defs && t.defs[keys[0]].options.Some? then [Record(keys[0], t.defs[keys[0]])] else [])
      + Level(t, keys[1..])
  }

  function LevelOf(tables: Tables, c: ClassId): seq<WorkerMetadata> {
    if c in tables then Level(tables[c], tables[c].order) else []
  }

  /** Every record offered along a walk, walk order first, then insertion
      order within a class. */
  function Candidates(tables: Tables, visits: seq<ClassId>): seq<WorkerMetadata> {
    if visits == [] then [] else LevelOf(tables, visits[0]) + Candidates(tables, visits[1..])
  }

  function KeySet(s: seq<WorkerMetadata>): set<PropertyKey> {
    if s == [] then {} else {s[0].propertyKey} + KeySet(s[1..])
  }

  /** Keep the first record of each key not already in `seen`. */
  function FirstByKey(s: seq<WorkerMetadata>, seen: set<PropertyKey>): seq<WorkerMetadata> {
    if s == [] then []
    else if s[0].propertyKey in seen then FirstByKey(s[1..], seen)
    else [s[0]] + FirstByKey(s[1..], seen + {s[0].propertyKey})
  }

  /** The classes the source's loop visits: the instance itself (whose
      constructor is the most-derived class) and then each prototype. */
  function Visits(chain: seq<ClassId>): seq<ClassId> {
    if chain == [] then [] else [chain[0]] + chain
  }

  /** What `getWorkerMetadata` returns for an instance whose class chain,
      most-derived first, is `chain`. */
  function Metadata(tables: Tables, chain: seq<ClassId>): seq<WorkerMetadata> {
    FirstByKey(Candidates(tables, Visits(chain)), {})
  }

  /** Position of the first record with `key`. */
  function IndexOfKey(s: seq<WorkerMetadata>, key: PropertyKey): (i: nat)
    requires key in KeySet(s)
    ensures i < |s| && s[i].propertyKey == key
  {
    if s[0].propertyKey == key then 0 else 1 + IndexOfKey(s[1..], key)
  }

  /** Position in `chain` of the first class with a handler for `key`
      (`|chain|` when there is none). */
  function FirstHandler(tables: Tables, chain: seq<ClassId>, key: PropertyKey): (i: nat)
    ensures i <= |chain|
    ensures i < |chain| ==> HasHandler(tables, chain[i], key)
  {
    if chain == [] then 0
    else if HasHandler(tables, chain[0], key) then 0
    else 1 + FirstHandler(tables, chain[1..], key)
  }

  /** `m` is the record of the first class in `chain` with a handler for
      its key. */
  ghost predicate ServedBy(tables: Tables, chain: seq<ClassId>, m: WorkerMetadata) {
    var w := FirstHandler(tables, chain, m.propertyKey);
    w < |chain| && m == Record(m.propertyKey, tables[chain[w]].defs[m.propertyKey])
  }

  // ---------------------------------------------------------------------
  // Lemmas about the walk

  lemma {:induction false} KeySetAppend(a: seq<WorkerMetadata>, b: seq<WorkerMetadata>)
    ensures KeySet(a + b) == KeySet(a) + KeySet(b)
  {
    if a != [] {
      assert (a + b)[1..] == a[1..] + b;
      KeySetAppend(a[1..], b);
    } else {
      assert a + b == b;
    }
  }

  /** The records kept have the keys of `s` outside `seen`, each once. */
  lemma {:induction false} FirstByKeyKeys(s: seq<WorkerMetadata>, seen: set<PropertyKey>)
    ensures var r := FirstByKey(s, seen);
      && KeySet(r) == KeySet(s) - seen
      && (forall p :: 0 <= p < |r| ==> r[p].propertyKey !in seen)
      && (forall p, q :: 0 <= p < q < |r| ==> r[p].propertyKey != r[q].propertyKey)
  {
    if s != [] {
      var x := s[0];
      if x.propertyKey in seen {
        FirstByKeyKeys(s[1..], seen);
      } else {
        var seen' := seen + {x.propertyKey};
        FirstByKeyKeys(s[1..], seen');
        var r' := FirstByKey(s[1..], seen');
        var r := [x] + r';
        assert r[1..] == r';
        forall p, q | 0 <= p < q < |r| ensures r[p].propertyKey != r[q].propertyKey {
          if p == 0 { assert r[q] == r'[q - 1]; }
          else { assert r[p] == r'[p - 1] && r[q] == r'[q - 1]; }
        }
        forall p | 0 <= p < |r| ensures r[p].propertyKey !in seen {
          if p > 0 { assert r[p] == r'[p - 1]; }
        }
      }
    }
  }

  /** Each kept record is the first record of its key in `s`. */
  lemma {:induction false} FirstByKeyFirst(s: seq<WorkerMetadata>, seen: set<PropertyKey>)
    ensures var r := FirstByKey(s, seen);
      forall p :: 0 <= p < |r| ==> r[p].propertyKey in KeySet(s) && r[p] == s[IndexOfKey(s, r[p].propertyKey)]
  {
    if s != [] {
      var x := s[0];
      var tail := s[1..];
      var r := FirstByKey(s, seen);
      var seen' := if x.propertyKey in seen then seen else seen + {x.propertyKey};
      var r' := FirstByKey(tail, seen');
      var skip := if x.propertyKey in seen then 0 else 1;
      assert r == (if x.propertyKey in seen then r' else [x] + r');
      FirstByKeyFirst(tail, seen');
      FirstByKeyKeys(tail, seen');
      assert KeySet(s) == {x.propertyKey} + KeySet(tail);
      forall p | 0 <= p < |r|
        ensures r[p].propertyKey in KeySet(s) && r[p] == s[IndexOfKey(s, r[p].propertyKey)]
      {
        if p >= skip {
          var q := p - skip;
          assert r[p] == r'[q];
          assert r'[q].propertyKey !in seen';
        }
      }
    }
  }

  /** The kept records keep the order of the first occurrences of their keys. */
  lemma {:induction false} FirstByKeyOrder(s: seq<WorkerMetadata>, seen: set<PropertyKey>)
    ensures var r := FirstByKey(s, seen);
      forall p, q :: 0 <= p < q < |r| ==>
        r[p].propertyKey in KeySet(s) && r[q].propertyKey in KeySet(s) &&
        IndexOfKey(s, r[p].propertyKey) < IndexOfKey(s, r[q].propertyKey)
  {
    if s != [] {
      var x := s[0];
      var tail := s[1..];
      var r := FirstByKey(s, seen);
      var seen' := if x.propertyKey in seen then seen else seen + {x.propertyKey};
      var r' := FirstByKey(tail, seen');
      var skip := if x.propertyKey in seen then 0 else 1;
      assert r == (if x.propertyKey in seen then r' else [x] + r');
      FirstByKeyOrder(tail, seen');
      FirstByKeyFirst(tail, seen');
      FirstByKeyKeys(tail, seen');
      assert KeySet(s) == {x.propertyKey} + KeySet(tail);
      // every record kept from the tail has a key other than x's
      forall q | 0 <= q < |r'|
        ensures r'[q].propertyKey != x.propertyKey && r'[q].propertyKey in KeySet(s)
        ensures IndexOfKey(s, r'[q].propertyKey) == 1 + IndexOfKey(tail, r'[q].propertyKey)
      {
        assert r'[q].propertyKey !in seen';
      }
      forall p, q | 0 <= p < q < |r|
        ensures r[p].propertyKey in KeySet(s) && r[q].propertyKey in KeySet(s)
        ensures IndexOfKey(s, r[p].propertyKey) < IndexOfKey(s, r[q].propertyKey)
      {
        assert r[q] == r'[q - skip];
        if p >= skip { assert r[p] == r'[p - skip]; }
      }
    }
  }

  /** Deduplicating a concatenation: the second part only keeps the keys the
      first part has not used. */
  lemma {:induction false} FirstByKeyAppend(a: seq<WorkerMetadata>, b: seq<WorkerMetadata>, seen: set<PropertyKey>)
    ensures FirstByKey(a + b, seen) == FirstByKey(a, seen) + FirstByKey(b, seen + KeySet(a))
  {
    if a == [] {
      assert a + b == b;
      assert seen + KeySet(a) == seen;
    } else {
      var x := a[0];
      assert (a + b)[0] == x && (a + b)[1..] == a[1..] + b;
      if x.propertyKey in seen {
        FirstByKeyAppend(a[1..], b, seen);
        assert seen + KeySet(a) == seen + KeySet(a[1..]);
      } else {
        FirstByKeyAppend(a[1..], b, seen + {x.propertyKey});
        assert seen + KeySet(a) == seen + {x.propertyKey} + KeySet(a[1..]);
      }
    }
  }

  /** Nothing is kept when every key has been seen. */
  lemma {:induction false} FirstByKeyAllSeen(s: seq<WorkerMetadata>, seen: set<PropertyKey>)
    requires KeySet(s) <= seen
    ensures FirstByKey(s, seen) == []
  {
    FirstByKeyKeys(s, seen);
  }

  /** Offering the same records twice in a row keeps what offering them
      once keeps. */
  lemma {:induction false} RepeatAddsNothing(l: seq<WorkerMetadata>, rest: seq<WorkerMetadata>)
    ensures FirstByKey(l + (l + rest), {}) == FirstByKey(l + rest, {})
  {
    var ks := KeySet(l);
    assert {} + ks == ks && ks + ks == ks;
    FirstByKeyAppend(l, l + rest, {});
    FirstByKeyAppend(l, rest, ks);
    FirstByKeyAllSeen(l, ks);
    assert FirstByKey(l + rest, ks) == FirstByKey(rest, ks);
    FirstByKeyAppend(l, rest, {});
  }

  /** The second visit of the most-derived class adds nothing: the walk gives
      the same result as a walk over the plain chain. */
  lemma {:induction false} VisitTwiceAddsNothing(tables: Tables, chain: seq<ClassId>)
    ensures Metadata(tables, chain) == FirstByKey(Candidates(tables, chain), {})
  {
    if chain != [] {
      var l := LevelOf(tables, chain[0]);
      var rest := Candidates(tables, chain[1..]);
      var visits := Visits(chain);
      assert visits[0] == chain[0] && visits[1..] == chain;
      assert Candidates(tables, visits) == l + (l + rest);
      RepeatAddsNothing(l, rest);
    }
  }

  /** Each record a class offers is the record of one of its handlers. */
  lemma {:induction false} LevelAt(t: Table, keys: seq<PropertyKey>, i: nat)
    requires i < |Level(t, keys)|
    ensures var m := Level(t, keys)[i];
      && m.propertyKey in t.defs && t.defs[m.propertyKey].options.Some?
      && m == Record(m.propertyKey, t.defs[m.propertyKey])
  {
    var rest := Level(t, keys[1..]);
    if keys[0] in t.defs && t.defs[keys[0]].options.Some? {
      assert Level(t, keys) == [Record(keys[0], t.defs[keys[0]])] + rest;
      if i > 0 {
        LevelAt(t, keys[1..], i - 1);
      }
    } else {
      assert Level(t, keys) == rest;
      LevelAt(t, keys[1..], i);
    }
  }

  /** A class offers a record for exactly the keys of its handlers. */
  lemma {:induction false} LevelKeys(t: Table, keys: seq<PropertyKey>)
    ensures forall k :: k in KeySet(Level(t, keys)) <==> k in keys && k in t.defs && t.defs[k].options.Some?
  {
    if keys != [] {
      LevelKeys(t, keys[1..]);
      var head := if keys[0] in t.defs && t.defs[keys[0]].options.Some? then [Record(keys[0], t.defs[keys[0]])] else [];
      assert Level(t, keys) == head + Level(t, keys[1..]);
      KeySetAppend(head, Level(t, keys[1..]));
      assert forall k :: k in keys <==> k == keys[0] || k in keys[1..];
    }
  }

  /** A class's offered keys are exactly its handler keys. */
  lemma {:induction false} LevelOfKeys(tables: Tables, c: ClassId, k: PropertyKey)
    requires ValidTables(tables)
    ensures k in KeySet(LevelOf(tables, c)) <==> HasHandler(tables, c, k)
  {
    if c in tables {
      assert tables[c].Valid();
      LevelKeys(tables[c], tables[c].order);
    }
  }

  /** A record kept from the first class of the walk is served by it. */
  lemma {:induction false} ServedByHead(tables: Tables, chain: seq<ClassId>, m: WorkerMetadata)
    requires chain != []
    requires var l := LevelOf(tables, chain[0]);
      m.propertyKey in KeySet(l) && m == l[IndexOfKey(l, m.propertyKey)]
    ensures ServedBy(tables, chain, m)
  {
    var c := chain[0];
    var k := m.propertyKey;
    if c in tables {
      var l := Level(tables[c], tables[c].order);
      var i := IndexOfKey(l, k);
      LevelAt(tables[c], tables[c].order, i);
      assert l[i].propertyKey == k && m == l[i];
      assert HasHandler(tables, c, k);
      assert FirstHandler(tables, chain, k) == 0;
    } else {
      assert false;
    }
  }

  /** A record served by the rest of the walk whose key the first class does
      not offer is served by the whole walk. */
  lemma {:induction false} ServedByTail(tables: Tables, chain: seq<ClassId>, m: WorkerMetadata)
    requires ValidTables(tables) && chain != []
    requires m.propertyKey !in KeySet(LevelOf(tables, chain[0]))
    requires ServedBy(tables, chain[1..], m)
    ensures ServedBy(tables, chain, m)
  {
    var k := m.propertyKey;
    LevelOfKeys(tables, chain[0], k);
    var w' := FirstHandler(tables, chain[1..], k);
    assert FirstHandler(tables, chain, k) == 1 + w';
    assert chain[1 + w'] == chain[1..][w'];
  }

  /** A walk starting with `seen` keeps, for each key, the record of the first
      class with a handler for it. */
  lemma {:induction false} WalkWinner(tables: Tables, chain: seq<ClassId>, seen: set<PropertyKey>)
    requires ValidTables(tables)
    ensures var r := FirstByKey(Candidates(tables, chain), seen);
      forall p :: 0 <= p < |r| ==> ServedBy(tables, chain, r[p])
  {
    if chain != [] {
      var l := LevelOf(tables, chain[0]);
      var rest := Candidates(tables, chain[1..]);
      assert Candidates(tables, chain) == l + rest;
      FirstByKeyAppend(l, rest, seen);
      var r1 := FirstByKey(l, seen);
      var r2 := FirstByKey(rest, seen + KeySet(l));
      var r := r1 + r2;
      FirstByKeyFirst(l, seen);
      FirstByKeyKeys(rest, seen + KeySet(l));
      WalkWinner(tables, chain[1..], seen + KeySet(l));
      forall p | 0 <= p < |r| ensures ServedBy(tables, chain, r[p]) {
        if p < |r1| {
          assert r[p] == r1[p];
          ServedByHead(tables, chain, r1[p]);
        } else {
          var q := p - |r1|;
          assert 0 <= q < |r2| && r[p] == r2[q];
          assert r2 == FirstByKey(Candidates(tables, chain[1..]), seen + KeySet(l));
          assert ServedBy(tables, chain[1..], r2[q]);
          ServedByTail(tables, chain, r2[q]);
        }
      }
    }
  }

  /** Every handler of every class in the walk is offered. */
  lemma {:induction false} CandidatesCover(tables: Tables, chain: seq<ClassId>, i: nat, k: PropertyKey)
    requires ValidTables(tables)
    requires i < |chain| && HasHandler(tables, chain[i], k)
    ensures k in KeySet(Candidates(tables, chain))
  {
    KeySetAppend(LevelOf(tables, chain[0]), Candidates(tables, chain[1..]));
    if i == 0 {
      LevelOfKeys(tables, chain[0], k);
    } else {
      CandidatesCover(tables, chain[1..], i - 1, k);
    }
  }

  /** Override semantics of `getWorkerMetadata`: no key twice; each key is
      served by the first class, from the most-derived, whose definition has
      options (a definition without options shadows nothing); and every
      handler key of the chain is served. */
  lemma {:induction false} MetadataOverride(tables: Tables, chain: seq<ClassId>)
    requires ValidTables(tables)
    ensures var r := Metadata(tables, chain);
      && (forall p, q :: 0 <= p < q < |r| ==> r[p].propertyKey != r[q].propertyKey)
      && (forall p :: 0 <= p < |r| ==> ServedBy(tables, chain, r[p]))
      && (forall i, k :: 0 <= i < |chain| && HasHandler(tables, chain[i], k) ==> k in KeySet(r))
  {
    VisitTwiceAddsNothing(tables, chain);
    FirstByKeyKeys(Candidates(tables, chain), {});
    WalkWinner(tables, chain, {});
    forall i, k | 0 <= i < |chain| && HasHandler(tables, chain[i], k)
      ensures k in KeySet(Metadata(tables, chain))
    {
      CandidatesCover(tables, chain, i, k);
    }
  }

  /** Output order: the records appear in the order of their first offer
      along the chain (chain order, then insertion order within a class). */
  lemma {:induction false} MetadataOrder(tables: Tables, chain: seq<ClassId>)
    ensures var r := Metadata(tables, chain);
      var cands := Candidates(tables, chain);
      && (forall p :: 0 <= p < |r| ==> r[p].propertyKey in KeySet(cands) && r[p] == cands[IndexOfKey(cands, r[p].propertyKey)])
      && (forall p, q :: 0 <= p < q < |r| ==>
            r[p].propertyKey in KeySet(cands) && r[q].propertyKey in KeySet(cands) &&
            IndexOfKey(cands, r[p].propertyKey) < IndexOfKey(cands, r[q].propertyKey))
  {
    VisitTwiceAddsNothing(tables, chain);
    FirstByKeyFirst(Candidates(tables, chain), {});
    FirstByKeyOrder(Candidates(tables, chain), {});
  }

  /** One served record carries the stored count and exactly the stored rules
      of the definition that serves it, strictly ascending by index. */
  lemma {:induction false} ServedParameters(tables: Tables, chain: seq<ClassId>, m: WorkerMetadata)
    requires ValidTables(tables) && ServedBy(tables, chain, m)
    ensures var k := m.propertyKey;
      FirstHandler(tables, chain, k) < |chain| &&
      var d := tables[chain[FirstHandler(tables, chain, k)]].defs[k];
      && d.parameterCount == Some(m.parameterCount)
      && |m.parameters| == |d.parameters|
      && (forall i, j :: 0 <= i < j < |m.parameters| ==> m.parameters[i].index < m.parameters[j].index)
      && (forall i :: 0 <= i < |m.parameters| ==>
            m.parameters[i].index in d.parameters && d.parameters[m.parameters[i].index] == m.parameters[i])
  {
    var k := m.propertyKey;
    var c := chain[FirstHandler(tables, chain, k)];
    var d := tables[c].defs[k];
    assert tables[c].Valid() && d.Valid(k);
    assert m.parameters == SortedRules(d.parameters) && d.parameterCount == Some(m.parameterCount);
    SortedRulesExact(d.parameters);
  }

  /** Each yielded record carries the stored count and exactly the stored
      rules of its definition, strictly ascending by index. */
  lemma {:induction false} MetadataParameters(tables: Tables, chain: seq<ClassId>)
    requires ValidTables(tables)
    ensures var r := Metadata(tables, chain);
      forall p :: 0 <= p < |r| ==>
        var k := r[p].propertyKey;
        FirstHandler(tables, chain, k) < |chain| &&
        var d := tables[chain[FirstHandler(tables, chain, k)]].defs[k];
        && d.parameterCount == Some(r[p].parameterCount)
        && |r[p].parameters| == |d.parameters|
        && (forall i, j :: 0 <= i < j < |r[p].parameters| ==> r[p].parameters[i].index < r[p].parameters[j].index)
        && (forall i :: 0 <= i < |r[p].parameters| ==>
              r[p].parameters[i].index in d.parameters && d.parameters[r[p].parameters[i].index] == r[p].parameters[i])
  {
    MetadataOverride(tables, chain);
    var r := Metadata(tables, chain);
    forall p | 0 <= p < |r| {
      ServedParameters(tables, chain, r[p]);
    }
  }


  // One step of each loop of `getWorkerMetadata`

  lemma {:induction false} CandidatesStep(tables: Tables, visits: seq<ClassId>, i: nat)
    requires i < |visits|
    ensures Candidates(tables, visits[i..]) == LevelOf(tables, visits[i]) + Candidates(tables, visits[i + 1..])
  {
    assert visits[i..][0] == visits[i] && visits[i..][1..] == visits[i + 1..];
  }

  lemma {:induction false} LevelCons(t: Table, keys: seq<PropertyKey>, rest: seq<WorkerMetadata>)
    requires keys != []
    ensures !(keys[0] in t.defs && t.defs[keys[0]].options.Some?) ==>
      Level(t, keys) + rest == Level(t, keys[1..]) + rest
    ensures keys[0] in t.defs && t.defs[keys[0]].options.Some? ==>
      Level(t, keys) + rest == [Record(keys[0], t.defs[keys[0]])] + (Level(t, keys[1..]) + rest)
  {
    var later := Level(t, keys[1..]);
    if keys[0] in t.defs && t.defs[keys[0]].options.Some? {
      var m := Record(keys[0], t.defs[keys[0]]);
      assert Level(t, keys) == [m] + later;
      ConsAppend(m, later, rest);
    } else {
      assert Level(t, keys) == later;
    }
  }

  lemma {:induction false} ConsAppend(m: WorkerMetadata, s: seq<WorkerMetadata>, rest: seq<WorkerMetadata>)
    ensures ([m] + s) + rest == [m] + (s + rest)
  {
  }

  lemma {:induction false} LevelStep(t: Table, order: seq<PropertyKey>, j: nat, rest: seq<WorkerMetadata>)
    requires j < |order|
    ensures !(order[j] in t.defs && t.defs[order[j]].options.Some?) ==>
      Level(t, order[j..]) + rest == Level(t, order[j + 1..]) + rest
    ensures order[j] in t.defs && t.defs[order[j]].options.Some? ==>
      Level(t, order[j..]) + rest == [Record(order[j], t.defs[order[j]])] + (Level(t, order[j + 1..]) + rest)
  {
    assert order[j..][0] == order[j] && order[j..][1..] == order[j + 1..];
    LevelCons(t, order[j..], rest);
  }

  /** One pass of the inner loop of `getWorkerMetadata`: visiting key `j`
      of a class keeps the collected records plus the records still to come
      unchanged. */
  lemma {:induction false} LevelVisit(t: Table, j: nat, later: seq<WorkerMetadata>, seen: set<PropertyKey>, collected: seq<WorkerMetadata>)
    requires j < |t.order|
    ensures var key := t.order[j];
      !(key in t.defs && t.defs[key].options.Some? && key !in seen) ==>
        collected + FirstByKey(Level(t, t.order[j..]) + later, seen) ==
        collected + FirstByKey(Level(t, t.order[j + 1..]) + later, seen)
    ensures var key := t.order[j];
      key in t.defs && t.defs[key].options.Some? && key !in seen ==>
        collected + FirstByKey(Level(t, t.order[j..]) + later, seen) ==
        (collected + [Record(key, t.defs[key])]) + FirstByKey(Level(t, t.order[j + 1..]) + later, seen + {key})
  {
    var key := t.order[j];
    var rest := Level(t, t.order[j + 1..]) + later;
    LevelStep(t, t.order, j, later);
    if key in t.defs && t.defs[key].options.Some? {
      var m := Record(key, t.defs[key]);
      FirstByKeyCons(m, rest, seen);
      if key !in seen {
        assert collected + ([m] + FirstByKey(rest, seen + {key})) == (collected + [m]) + FirstByKey(rest, seen + {key});
      }
    }
  }

  lemma {:induction false} FirstByKeyCons(x: WorkerMetadata, s: seq<WorkerMetadata>, seen: set<PropertyKey>)
    ensures x.propertyKey in seen ==> FirstByKey([x] + s, seen) == FirstByKey(s, seen)
    ensures x.propertyKey !in seen ==> FirstByKey([x] + s, seen) == [x] + FirstByKey(s, seen + {x.propertyKey})
  {
    assert ([x] + s)[0] == x && ([x] + s)[1..] == s;
  }

  // ---------------------------------------------------------------------
  // The registry itself

  /** The process-wide `workerDefinitions` table. */
  class Registry {
    var tables: Tables

    ghost predicate Valid()
      reads this
    {
      ValidTables(tables)
    }

    constructor ()
      ensures Valid() && tables == map[]
    {
      tables := map[];
    }

    /** `ensureDefinition`: the stored definition of (target, key), created
        blank (and its key appended) when there is none. */
    method EnsureDefinition(target: ClassId, key: PropertyKey) returns (d: Definition)
      requires Valid()
      modifies this
      ensures Valid()
      ensures tables == Ensured(old(tables), target, key)
      ensures d == DefinitionOf(old(tables), target, key) && d.Valid(key)
      ensures target in tables && key in tables[target].defs && tables[target].defs[key] == d
    {
      StoredValid(tables, target, key);
      PutValid(tables, target, key, DefinitionOf(tables, target, key));
      if target !in tables {
        tables := tables[target := EmptyTable];
      }
      var t := tables[target];
      assert t == TableOf(old(tables), target);
      if key in t.defs {
        d := t.defs[key];
        assert tables == old(tables) && t.defs[key := d] == t.defs;
      } else {
        d := Definition(key, None, None, map[]);
        tables := tables[target := Table(t.order + [key], t.defs[key := d])];
      }
      assert tables == Put(old(tables), target, key, d);
    }

    /** `storeWorkerOptions`: overwrite the options and the parameter count. */
    method StoreWorkerOptions(target: ClassId, key: PropertyKey, options: WorkerOptions, parameterCount: nat)
      requires Valid()
      modifies this
      ensures Valid()
      ensures tables == WithOptions(old(tables), target, key, options, parameterCount)
    {
      var d := EnsureDefinition(target, key);
      var t := tables[target];
      var d' := d.(options := Some(options), parameterCount := Some(parameterCount));
      PutValid(tables, target, key, d');
      PutTwice(old(tables), target, key, d, d');
      tables := tables[target := t.(defs := t.defs[key := d'])];
      assert tables == Put(old(tables), target, key, d');
    }

    /** `storeWorkerParameter`: set the rule at its index. */
    method StoreWorkerParameter(target: ClassId, key: PropertyKey, rule: ParameterRule)
      requires Valid()
      modifies this
      ensures Valid()
      ensures tables == WithParameter(old(tables), target, key, rule)
    {
      var d := EnsureDefinition(target, key);
      var t := tables[target];
      var d' := d.(parameters := d.parameters[rule.index := rule]);
      PutValid(tables, target, key, d');
      PutTwice(old(tables), target, key, d, d');
      tables := tables[target := t.(defs := t.defs[key := d'])];
      assert tables == Put(old(tables), target, key, d');
    }

    /** `getWorkerMetadata`: walk the instance and its prototypes, collecting
        each method key's first definition with options. */
    method GetWorkerMetadata(chain: seq<ClassId>) returns (collected: seq<WorkerMetadata>)
      requires Valid()
      ensures collected == Metadata(tables, chain)
    {
      var visits := Visits(chain);
      collected := [];
      var seen: set<PropertyKey> := {};
      var i := 0;
      while i < |visits|
        invariant 0 <= i <= |visits|
        invariant collected + FirstByKey(Candidates(tables, visits[i..]), seen) == Metadata(tables, chain)
      {
        var c := visits[i];
        CandidatesStep(tables, visits, i);
        var later := Candidates(tables, visits[i + 1..]);
        if c in tables {
          var t := tables[c];
          var j := 0;
          while j < |t.order|
            invariant 0 <= j <= |t.order|
            invariant collected + FirstByKey(Level(t, t.order[j..]) + later, seen) == Metadata(tables, chain)
          {
            var key := t.order[j];
            var definition := t.defs[key];
            LevelVisit(t, j, later, seen, collected);
            if definition.options.Some? {
              var parameterCount := definition.parameterCount.GetOr(0);
              var parameters := SortedRules(definition.parameters);
              var record := WorkerMetadata(key, definition.options.value, parameterCount, parameters);
              if key !in seen {
                seen := seen + {key};
                collected := collected + [record];
              }
            }
            j := j + 1;
          }
          assert t.order[j..] == [];
          assert [] + later == later;
        } else {
          assert [] + later == later;
        }
        i := i + 1;
      }
    }
  }
}
