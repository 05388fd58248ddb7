/** Projection of an object onto field paths, in place and with shared submaps (projectObject in
    internal/server/read_output.go). */
module Projection {
  import opened JsonValues
  import opened Sequences

  /** A map of the decoded object: a mutable object with an identity, which several parents may share. */
  class Dict {
    var fields: map<string, Value>

    constructor ()
      ensures fields == map[]
    {
      fields := map[];
    }
  }

  /** Anything but a map is never looked into. */
  datatype Value = Leaf(json: Json) | Sub(dict: Dict)

  // ----- snapshots of the maps, to compare states -----

  type Heap = map<Dict, map<string, Value>>

  ghost function Snapshot(all: set<Dict>): Heap
    reads all
  {
    map d | d in all :: d.fields
  }

  ghost predicate Inside(v: Value, dicts: set<Dict>) { v.Sub? ==> v.dict in dicts }

  /** What the keys of a path lead to. */
  ghost function At(h: Heap, v: Value, parts: seq<string>): Option<Value>
    decreases |parts|
  {
    if parts == [] then Some(v)
    else if v.Sub? && v.dict in h && parts[0] in h[v.dict] then At(h, h[v.dict][parts[0]], parts[1..])
    else None
  }

  /** Where a map made for the output stands, and which map of the input it mirrors. */
  datatype Origin = Origin(twin: Dict, place: seq<string>)

  type Made = map<Dict, Origin>

  ghost predicate Related(made: Made, v: Value, w: Value) {
    v == w || (v.Sub? && w.Sub? && v.dict in made && made[v.dict].twin == w.dict)
  }

  ghost predicate Closed(h: Heap, input: set<Dict>)
    requires input <= h.Keys
  {
    forall d, k :: d in input && k in h[d] ==> Inside(h[d][k], input)
  }

  /** Each field of a made map is the input's own value, or a made map that mirrors it. */
  ghost predicate FieldsMirror(made: Made, fields: map<string, Value>, twin: map<string, Value>) {
    forall k :: k in fields ==> k in twin && Related(made, fields[k], twin[k])
  }

  ghost predicate Mirrors(h: Heap, input: set<Dict>, made: Made) {
    && input !! made.Keys && h.Keys == input + made.Keys && Closed(h, input)
    && (forall d :: d in made ==> made[d].twin in input)
    && (forall d :: d in made ==> FieldsMirror(made, h[d], h[made[d].twin]))
  }

  lemma {:induction false} AtSplits(h: Heap, v: Value, parts: seq<string>, more: seq<string>)
    ensures At(h, v, parts + more) == match At(h, v, parts) case Some(w) => At(h, w, more) case None => None
    decreases |parts|
  {
    if parts == [] {
      assert parts + more == more;
    } else {
      assert (parts + more)[1..] == parts[1..] + more;
      if v.Sub? && v.dict in h && parts[0] in h[v.dict] {
        AtSplits(h, h[v.dict][parts[0]], parts[1..], more);
      }
    }
  }

  lemma {:induction false} AtOne(h: Heap, v: Value, key: string)
    ensures At(h, v, [key]) == if v.Sub? && v.dict in h && key in h[v.dict] then Some(h[v.dict][key]) else None
  {
    assert [key][1..] == [];
  }

  lemma {:induction false} AtStaysInside(h: Heap, input: set<Dict>, made: Made, w: Value, parts: seq<string>)
    requires Mirrors(h, input, made) && Inside(w, input)
    ensures At(h, w, parts).Some? ==> Inside(At(h, w, parts).value, input)
    decreases |parts|
  {
    if parts != [] && w.Sub? && parts[0] in h[w.dict] {
      AtStaysInside(h, input, made, h[w.dict][parts[0]], parts[1..]);
    }
  }

  /** The input looks the same in any two states that agree on its maps. */
  lemma {:induction false} SameInput(h: Heap, h': Heap, input: set<Dict>, made: Made, w: Value, parts: seq<string>)
    requires Mirrors(h, input, made) && Inside(w, input)
    requires input <= h'.Keys && forall d :: d in input ==> h'[d] == h[d]
    ensures At(h', w, parts) == At(h, w, parts)
    decreases |parts|
  {
    if parts != [] && w.Sub? && parts[0] in h[w.dict] {
      SameInput(h, h', input, made, h[w.dict][parts[0]], parts[1..]);
    }
  }

  /** Whatever the output holds, the input holds in the same place. */
  lemma {:induction false} OutputMirrorsInput(h: Heap, input: set<Dict>, made: Made, v: Value, w: Value,
                                              parts: seq<string>)
    requires Mirrors(h, input, made) && Related(made, v, w) && Inside(w, input)
    requires At(h, v, parts).Some?
    ensures At(h, w, parts).Some? && Related(made, At(h, v, parts).value, At(h, w, parts).value)
    decreases |parts|
  {
    if parts != [] {
      OutputMirrorsInput(h, input, made, h[v.dict][parts[0]], h[w.dict][parts[0]], parts[1..]);
    }
  }

  /** The same value in both: the very same map, not a copy. */
  ghost predicate Exact(h: Heap, v: Value, w: Value, parts: seq<string>) {
    At(h, w, parts).Some? && At(h, v, parts) == At(h, w, parts)
  }

  /** One state follows another: the input is untouched, and a made map keeps each field or takes the input's. */
  ghost predicate Advances(h: Heap, h': Heap, input: set<Dict>, made: Made) {
    && h.Keys <= h'.Keys && h.Keys == input + made.Keys
    && (forall d :: d in input ==> h'[d] == h[d])
    && (forall d :: d in made ==> made[d].twin in input)
    && (forall d :: d in made ==> FieldsAdvance(h[d], h'[d], h[made[d].twin]))
  }

  ghost predicate FieldsAdvance(fields: map<string, Value>, fields': map<string, Value>, twin: map<string, Value>) {
    forall k :: k in fields ==> k in fields' && (fields'[k] == fields[k] || (k in twin && fields'[k] == twin[k]))
  }

  lemma {:induction false} AdvancingKeepsExact(h: Heap, h': Heap, input: set<Dict>, made: Made, v: Value, w: Value,
                                               parts: seq<string>)
    requires Mirrors(h, input, made) && Advances(h, h', input, made) && Related(made, v, w) && Inside(w, input)
    requires Exact(h, v, w, parts)
    ensures Exact(h', v, w, parts)
    decreases |parts|
  {
    SameInput(h, h', input, made, w, parts);
    if v != w && parts != [] {
      var next, target := h[v.dict][parts[0]], h[w.dict][parts[0]];
      if h'[v.dict][parts[0]] == next {
        AdvancingKeepsExact(h, h', input, made, next, target, parts[1..]);
      }
    }
  }

  // ----- the two ways setValueAtPath changes a made map -----

  /** The field takes the input's own value. */
  ghost predicate Placed(h: Heap, h': Heap, made: Made, current: Dict, last: string) {
    && current in made && current in h && made[current].twin in h && last in h[made[current].twin]
    && h'.Keys == h.Keys && (forall d :: d in h && d != current ==> h'[d] == h[d])
    && h'[current] == h[current][last := h[made[current].twin][last]]
  }

  /** The field, so far absent, takes an empty map that stands for the input's map in this place. */
  ghost predicate Grown(h: Heap, h': Heap, made: Made, made': Made, current: Dict, key: string, next: Dict) {
    && current in made && current in h && made[current].twin in h && key in h[made[current].twin]
    && h[made[current].twin][key].Sub? && key !in h[current] && next !in h && next !in made
    && h'.Keys == h.Keys + {next} && (forall d :: d in h && d != current ==> h'[d] == h[d])
    && h'[current] == h[current][key := Sub(next)] && h'[next] == map[]
    && made' == made[next := Origin(h[made[current].twin][key].dict, made[current].place + [key])]
  }

  lemma {:induction false} PlacedAdvances(h: Heap, h': Heap, input: set<Dict>, made: Made, current: Dict, last: string)
    requires Mirrors(h, input, made) && Placed(h, h', made, current, last)
    ensures Mirrors(h', input, made) && Advances(h, h', input, made)
  {
    assert Closed(h', input);
    assert FieldsMirror(made, h[current], h[made[current].twin]);
    assert FieldsMirror(made, h'[current], h'[made[current].twin]);
  }

  lemma {:induction false} MoreMadeMirrors(made: Made, more: Made, fields: map<string, Value>, twin: map<string, Value>)
    requires FieldsMirror(made, fields, twin) && Extends(made, more)
    ensures FieldsMirror(more, fields, twin)
  {
    forall k | k in fields ensures k in twin && Related(more, fields[k], twin[k]) {
      assert Related(made, fields[k], twin[k]);
    }
  }

  lemma {:induction false} GrownMirrors(h: Heap, h': Heap, input: set<Dict>, made: Made, made': Made,
                                        current: Dict, key: string, next: Dict)
    requires Mirrors(h, input, made) && Grown(h, h', made, made', current, key, next)
    ensures Mirrors(h', input, made')
  {
    assert Closed(h', input);
    forall d | d in made' ensures made'[d].twin in input && FieldsMirror(made', h'[d], h'[made'[d].twin]) {
      if d != next {
        MoreMadeMirrors(made, made', h[d], h[made[d].twin]);
      }
    }
  }

  lemma {:induction false} GrownAdvances(h: Heap, h': Heap, input: set<Dict>, made: Made, made': Made,
                                         current: Dict, key: string, next: Dict)
    requires Mirrors(h, input, made) && Grown(h, h', made, made', current, key, next)
    ensures Advances(h, h', input, made)
  {
  }

  lemma {:induction false} AdvancesChain(h: Heap, h1: Heap, h2: Heap, input: set<Dict>, made: Made, more: Made)
    requires Advances(h, h1, input, made) && Advances(h1, h2, input, more) && Extends(made, more)
    ensures Advances(h, h2, input, made)
  {
    forall d | d in made ensures FieldsAdvance(h[d], h2[d], h[made[d].twin]) {
      assert FieldsAdvance(h[d], h1[d], h[made[d].twin]) && FieldsAdvance(h1[d], h2[d], h1[more[d].twin]);
    }
  }

  ghost predicate Extends(made: Made, more: Made) {
    forall d :: d in made ==> d in more && more[d] == made[d]
  }

  /** The last step of a path puts the input's own value there. */
  lemma {:induction false} PlacedIsExact(h: Heap, h': Heap, input: set<Dict>, made: Made, v: Value, w: Value,
                                         walked: seq<string>, last: string, current: Dict)
    requires Mirrors(h, input, made) && Related(made, v, w) && Inside(w, input) && Placed(h, h', made, current, last)
    requires At(h, v, walked) == Some(Sub(current)) && At(h, w, walked + [last]).Some?
    ensures Exact(h', v, w, walked + [last])
    decreases |walked|
  {
    var parts := walked + [last];
    SameInput(h, h', input, made, w, parts);
    if walked == [] {
      assert parts == [last] && parts[1..] == [];
    } else if v != w {
      assert parts[1..] == walked[1..] + [last];
      if !(v.dict == current && parts[0] == last) {
        PlacedIsExact(h, h', input, made, h[v.dict][parts[0]], h[w.dict][parts[0]], walked[1..], last, current);
      }
    }
  }

  /** Growing keeps every path that was there. */
  lemma {:induction false} GrownKeepsPaths(h: Heap, h': Heap, made: Made, made': Made, current: Dict, key: string,
                                           next: Dict,
                                           v: Value, parts: seq<string>)
    requires Grown(h, h', made, made', current, key, next) && At(h, v, parts).Some?
    ensures At(h', v, parts) == At(h, v, parts)
    decreases |parts|
  {
    if parts != [] {
      GrownKeepsPaths(h, h', made, made', current, key, next, h[v.dict][parts[0]], parts[1..]);
    }
  }

  // ----- only what was asked for -----

  ghost predicate LeadsOn(asked: seq<seq<string>>, parts: seq<string>) {
    exists p :: p in asked && parts <= p
  }

  /** A made map's fields lie on paths that were asked for and found; a field with the input's own value is one. */
  ghost predicate OnPaths(h: Heap, made: Made, asked: seq<seq<string>>) {
    forall d, k :: d in made && d in h && k in h[d] ==>
      if h[d][k].Sub? && h[d][k].dict in made then
        made[h[d][k].dict].place == made[d].place + [k] && LeadsOn(asked, made[d].place + [k])
      else made[d].place + [k] in asked
  }

  /** Every path in the output is on the way to an asked path or continues one. */
  lemma {:induction false} OnlyAskedPaths(h: Heap, made: Made, asked: seq<seq<string>>, d: Dict, parts: seq<string>)
    requires OnPaths(h, made, asked) && d in made && d in h && parts != [] && At(h, Sub(d), parts).Some?
    ensures exists p :: p in asked && (made[d].place + parts <= p || p <= made[d].place + parts)
    decreases |parts|
  {
    var k, here := parts[0], made[d].place + [parts[0]];
    var whole := made[d].place + parts;
    assert here <= whole;
    if h[d][k].Sub? && h[d][k].dict in made {
      var next := h[d][k].dict;
      if |parts| == 1 {
        assert whole == here;
      } else {
        assert made[next].place + parts[1..] == whole;
        OnlyAskedPaths(h, made, asked, next, parts[1..]);
      }
    } else {
      assert here in asked;
    }
  }

  // ----- walking a path -----

  ghost predicate Good(h: Heap, input: set<Dict>, made: Made, output: Dict, source: Dict, asked: seq<seq<string>>) {
    && Mirrors(h, input, made) && source in input
    && output in made && made[output] == Origin(source, []) && OnPaths(h, made, asked)
  }

  /** After i parts of a path that the input has, the walk through the output stands at a map. */
  ghost predicate Walking(h: Heap, input: set<Dict>, made: Made, output: Dict, source: Dict,
                          parts: seq<string>, value: Value, i: nat, current: Dict)
  {
    && i < |parts| && current in h
    && At(h, Sub(source), parts) == Some(value)
    && At(h, Sub(output), parts[..i]) == Some(Sub(current))
    && (current in made ==> made[current].place == parts[..i])
  }

  ghost function Twin(made: Made, d: Dict): Dict { if d in made then made[d].twin else d }

  /** The input's counterpart of that map has the next part: a map before the end, the value at the end. */
  lemma {:induction false} TwinAhead(h: Heap, input: set<Dict>, made: Made, output: Dict, source: Dict,
                                     asked: seq<seq<string>>,
                                     parts: seq<string>, value: Value, i: nat, current: Dict)
    requires Good(h, input, made, output, source, asked)
    requires Walking(h, input, made, output, source, parts, value, i, current)
    ensures var twin := Twin(made, current);
            && twin in input && parts[i] in h[twin]
            && if i + 1 < |parts| then h[twin][parts[i]].Sub? else h[twin][parts[i]] == value
  {
    OutputMirrorsInput(h, input, made, Sub(output), Sub(source), parts[..i]);
    AtStaysInside(h, input, made, Sub(source), parts[..i]);
    var twin, rest := Twin(made, current), parts[i..];
    assert parts[..i] + rest == parts;
    AtSplits(h, Sub(source), parts[..i], rest);
    assert At(h, Sub(twin), rest) == Some(value);
    assert rest[0] == parts[i] && rest[1..] == parts[i + 1..];
  }

  lemma {:induction false} WalkedOneMore(h: Heap, v: Value, parts: seq<string>, i: nat, current: Dict)
    requires i < |parts| && At(h, v, parts[..i]) == Some(Sub(current)) && current in h && parts[i] in h[current]
    ensures At(h, v, parts[..i + 1]) == Some(h[current][parts[i]])
  {
    assert parts[..i + 1] == parts[..i] + [parts[i]];
    AtSplits(h, v, parts[..i], [parts[i]]);
    AtOne(h, Sub(current), parts[i]);
  }

  lemma {:induction false} StepDown(h: Heap, input: set<Dict>, made: Made, output: Dict, source: Dict,
                                    asked: seq<seq<string>>,
                                    parts: seq<string>, value: Value, i: nat, current: Dict)
    requires Good(h, input, made, output, source, asked)
    requires Walking(h, input, made, output, source, parts, value, i, current) && i + 1 < |parts|
    requires parts[i] in h[current] && h[current][parts[i]].Sub?
    ensures Walking(h, input, made, output, source, parts, value, i + 1, h[current][parts[i]].dict)
    ensures Advances(h, h, input, made) && Extends(made, made)
  {
    WalkedOneMore(h, Sub(output), parts, i, current);
    if current in made {
      assert FieldsMirror(made, h[current], h[made[current].twin]);
      assert parts[..i + 1] == parts[..i] + [parts[i]];
    }
  }

  /** Where the output has no map to walk into, it is a made map that lacks the part altogether. */
  lemma {:induction false} MissingIsMade(h: Heap, input: set<Dict>, made: Made, output: Dict, source: Dict,
                                         asked: seq<seq<string>>,
                                         parts: seq<string>, value: Value, i: nat, current: Dict)
    requires Good(h, input, made, output, source, asked)
    requires Walking(h, input, made, output, source, parts, value, i, current) && i + 1 < |parts|
    requires !(parts[i] in h[current] && h[current][parts[i]].Sub?)
    ensures current in made && parts[i] !in h[current]
    ensures made[current].twin in input && parts[i] in h[made[current].twin] && h[made[current].twin][parts[i]].Sub?
  {
    TwinAhead(h, input, made, output, source, asked, parts, value, i, current);
    if current in made {
      assert FieldsMirror(made, h[current], h[made[current].twin]);
    }
  }

  lemma {:induction false} StepGrow(h: Heap, h': Heap, input: set<Dict>, made: Made, made': Made, output: Dict,
                                    source: Dict,
                                    asked: seq<seq<string>>, parts: seq<string>, value: Value, i: nat,
                                    current: Dict, next: Dict)
    requires Good(h, input, made, output, source, asked)
    requires Walking(h, input, made, output, source, parts, value, i, current) && i + 1 < |parts|
    requires Grown(h, h', made, made', current, parts[i], next)
    ensures Walking(h', input, made', output, source, parts, value, i + 1, next)
  {
    GrownKeepsPaths(h, h', made, made', current, parts[i], next, Sub(output), parts[..i]);
    GrownKeepsPaths(h, h', made, made', current, parts[i], next, Sub(source), parts);
    WalkedOneMore(h', Sub(output), parts, i, current);
    assert parts[..i + 1] == parts[..i] + [parts[i]];
  }

  lemma {:induction false} GrownOnPaths(h: Heap, h': Heap, input: set<Dict>, made: Made, made': Made,
                                        asked: seq<seq<string>>,
                                        parts: seq<string>, i: nat, current: Dict, next: Dict)
    requires Mirrors(h, input, made) && OnPaths(h, made, asked) && i + 1 < |parts| && parts in asked
    requires Grown(h, h', made, made', current, parts[i], next) && made[current].place == parts[..i]
    ensures OnPaths(h', made', asked)
  {
    assert parts[..i + 1] == parts[..i] + [parts[i]];
    assert LeadsOn(asked, parts[..i + 1]);
    forall d, k | d in made && k in h[d] && h[d][k].Sub? ensures h[d][k].dict != next {
      assert FieldsMirror(made, h[d], h[made[d].twin]);
      assert Inside(h[made[d].twin][k], input);
    }
  }

  lemma {:induction false} PlacedOnPaths(h: Heap, h': Heap, input: set<Dict>, made: Made, asked: seq<seq<string>>,
                                         parts: seq<string>, current: Dict)
    requires Mirrors(h, input, made) && OnPaths(h, made, asked) && parts != [] && parts in asked
    requires Placed(h, h', made, current, parts[|parts| - 1]) && made[current].place == parts[..|parts| - 1]
    ensures OnPaths(h', made, asked)
  {
    var last := parts[|parts| - 1];
    assert parts == parts[..|parts| - 1] + [last];
    assert Inside(h[made[current].twin][last], input);
  }

  // ----- the code -----

  method ValueAtPath(ghost input: set<Dict>, value: Value, parts: seq<string>) returns (found: Option<Value>)
    requires Inside(value, input) && Closed(Snapshot(input), input)
    ensures found == At(Snapshot(input), value, parts)
    decreases |parts|
  {
    if |parts| == 0 {
      return Some(value);
    }
    if value.Leaf? || parts[0] !in value.dict.fields {
      return None;
    }
    assert Inside(Snapshot(input)[value.dict][parts[0]], input);
    found := ValueAtPath(input, value.dict.fields[parts[0]], parts[1..]);
  }

  ghost function All(input: set<Dict>, made: Made): set<Dict> { input + made.Keys }

  /** A new map under an absent key. */
  method Attach(current: Dict, key: string, ghost input: set<Dict>, ghost made: Made)
    returns (next: Dict, ghost made': Made)
    requires current in made && made[current].twin in input && key !in current.fields
    requires key in made[current].twin.fields && made[current].twin.fields[key].Sub?
    modifies current
    ensures fresh(next) && made'.Keys == made.Keys + {next}
    ensures Grown(old(Snapshot(All(input, made))), Snapshot(All(input, made')), made, made', current, key, next)
  {
    made' := made;
    ghost var origin := Origin(made[current].twin.fields[key].dict, made[current].place + [key]);
    next := new Dict();
    current.fields := current.fields[key := Sub(next)];
    made' := made[next := origin];
  }

  lemma {:induction false} GrownStep(h: Heap, h': Heap, input: set<Dict>, made: Made, made': Made, output: Dict,
                                     source: Dict,
                                     asked: seq<seq<string>>, parts: seq<string>, value: Value, i: nat,
                                     current: Dict, next: Dict)
    requires Good(h, input, made, output, source, asked) && parts in asked && i + 1 < |parts|
    requires Walking(h, input, made, output, source, parts, value, i, current)
    requires Grown(h, h', made, made', current, parts[i], next)
    ensures Good(h', input, made', output, source, asked) && Advances(h, h', input, made) && Extends(made, made')
    ensures Walking(h', input, made', output, source, parts, value, i + 1, next)
  {
    GrownMirrors(h, h', input, made, made', current, parts[i], next);
    GrownAdvances(h, h', input, made, made', current, parts[i], next);
    GrownOnPaths(h, h', input, made, made', asked, parts, i, current, next);
    StepGrow(h, h', input, made, made', output, source, asked, parts, value, i, current, next);
  }

  /** One turn of the loop of setValueAtPath. */
  method Descend(parts: seq<string>, i: nat, current: Dict, ghost input: set<Dict>, ghost made: Made,
                 ghost output: Dict,
                 ghost source: Dict, ghost asked: seq<seq<string>>, ghost value: Value)
    returns (next: Dict, ghost made': Made)
    requires Good(Snapshot(All(input, made)), input, made, output, source, asked) && parts in asked && i + 1 < |parts|
    requires Walking(Snapshot(All(input, made)), input, made, output, source, parts, value, i, current)
    modifies current
    ensures Extends(made, made') && fresh(made'.Keys - made.Keys)
    ensures Good(Snapshot(All(input, made')), input, made', output, source, asked)
    ensures Walking(Snapshot(All(input, made')), input, made', output, source, parts, value, i + 1, next)
    ensures Advances(old(Snapshot(All(input, made))), Snapshot(All(input, made')), input, made)
  {
    ghost var h := Snapshot(All(input, made));
    assert h[current] == current.fields;
    if parts[i] in current.fields && current.fields[parts[i]].Sub? {
      StepDown(h, input, made, output, source, asked, parts, value, i, current);
      next, made' := current.fields[parts[i]].dict, made;
    } else {
      MissingIsMade(h, input, made, output, source, asked, parts, value, i, current);
      assert h[made[current].twin] == made[current].twin.fields;
      next, made' := Attach(current, parts[i], input, made);
      GrownStep(h, Snapshot(All(input, made')), input, made, made', output, source, asked, parts, value, i, current,
                next);
    }
  }

  /** The same turn, seen from where the walk began. */
  method DescendFrom(ghost h: Heap, ghost start: Made, parts: seq<string>, i: nat, current: Dict,
                     ghost input: set<Dict>,
                     ghost made: Made, ghost output: Dict, ghost source: Dict, ghost asked: seq<seq<string>>,
                     ghost value: Value)
    returns (next: Dict, ghost made': Made)
    requires Good(Snapshot(All(input, made)), input, made, output, source, asked) && parts in asked && i + 1 < |parts|
    requires Walking(Snapshot(All(input, made)), input, made, output, source, parts, value, i, current)
    requires Extends(start, made) && Advances(h, Snapshot(All(input, made)), input, start)
    modifies current
    ensures Extends(start, made') && made.Keys <= made'.Keys && fresh(made'.Keys - made.Keys)
    ensures Good(Snapshot(All(input, made')), input, made', output, source, asked)
    ensures Walking(Snapshot(All(input, made')), input, made', output, source, parts, value, i + 1, next)
    ensures Advances(h, Snapshot(All(input, made')), input, start)
  {
    ghost var middle := Snapshot(All(input, made));
    next, made' := Descend(parts, i, current, input, made, output, source, asked, value);
    AdvancesChain(h, middle, Snapshot(All(input, made')), input, start, made);
  }

  lemma {:induction false} PlacedStep(h: Heap, h': Heap, input: set<Dict>, made: Made, output: Dict, source: Dict,
                                      asked: seq<seq<string>>, parts: seq<string>, value: Value, current: Dict)
    requires Good(h, input, made, output, source, asked) && parts in asked && parts != []
    requires Walking(h, input, made, output, source, parts, value, |parts| - 1, current)
    requires Placed(h, h', made, current, parts[|parts| - 1])
    ensures Good(h', input, made, output, source, asked) && Advances(h, h', input, made)
    ensures Exact(h', Sub(output), Sub(source), parts)
  {
    var walked, last := parts[..|parts| - 1], parts[|parts| - 1];
    assert parts == walked + [last];
    PlacedAdvances(h, h', input, made, current, last);
    PlacedOnPaths(h, h', input, made, asked, parts, current);
    PlacedIsExact(h, h', input, made, Sub(output), Sub(source), walked, last, current);
  }

  /** A shared map already has the value. */
  lemma {:induction false} SharedStep(h: Heap, input: set<Dict>, made: Made, output: Dict, source: Dict,
                                      asked: seq<seq<string>>, parts: seq<string>, value: Value, current: Dict)
    requires Good(h, input, made, output, source, asked) && parts != [] && current !in made
    requires Walking(h, input, made, output, source, parts, value, |parts| - 1, current)
    ensures h[current][parts[|parts| - 1] := value] == h[current]
    ensures Exact(h, Sub(output), Sub(source), parts) && Advances(h, h, input, made)
  {
    TwinAhead(h, input, made, output, source, asked, parts, value, |parts| - 1, current);
    WalkedOneMore(h, Sub(output), parts, |parts| - 1, current);
    assert parts[..|parts|] == parts;
  }

  /** The last assignment of setValueAtPath, to a made map or, without effect, to a shared one. */
  method PlaceValue(parts: seq<string>, value: Value, current: Dict, ghost input: set<Dict>, ghost made: Made,
                    ghost output: Dict,
                    ghost source: Dict, ghost asked: seq<seq<string>>)
    requires Good(Snapshot(All(input, made)), input, made, output, source, asked) && parts in asked && parts != []
    requires Walking(Snapshot(All(input, made)), input, made, output, source, parts, value, |parts| - 1, current)
    modifies current
    ensures Good(Snapshot(All(input, made)), input, made, output, source, asked)
    ensures Exact(Snapshot(All(input, made)), Sub(output), Sub(source), parts)
    ensures Advances(old(Snapshot(All(input, made))), Snapshot(All(input, made)), input, made)
  {
    ghost var h := Snapshot(All(input, made));
    TwinAhead(h, input, made, output, source, asked, parts, value, |parts| - 1, current);
    current.fields := current.fields[parts[|parts| - 1] := value];
    ghost var h' := Snapshot(All(input, made));
    if current in made {
      PlacedStep(h, h', input, made, output, source, asked, parts, value, current);
    } else {
      SharedStep(h, input, made, output, source, asked, parts, value, current);
      assert h' == h;
    }
  }

  /** The loop of setValueAtPath: to the map that takes the last part. */
  method WalkTo(output: Dict, parts: seq<string>, ghost value: Value, ghost input: set<Dict>, ghost made: Made,
                ghost source: Dict, ghost asked: seq<seq<string>>)
    returns (current: Dict, ghost made': Made)
    requires Good(Snapshot(All(input, made)), input, made, output, source, asked) && parts in asked && parts != []
    requires At(Snapshot(All(input, made)), Sub(source), parts) == Some(value)
    modifies All(input, made)
    ensures Extends(made, made') && fresh(made'.Keys - made.Keys)
    ensures Good(Snapshot(All(input, made')), input, made', output, source, asked)
    ensures Walking(Snapshot(All(input, made')), input, made', output, source, parts, value, |parts| - 1, current)
    ensures Advances(old(Snapshot(All(input, made))), Snapshot(All(input, made')), input, made)
  {
    ghost var h := Snapshot(All(input, made));
    var i := 0;
    current, made' := output, made;
    assert parts[..0] == [];
    while i + 1 < |parts|
      invariant i < |parts| && Extends(made, made') && fresh(made'.Keys - made.Keys)
      invariant Good(Snapshot(All(input, made')), input, made', output, source, asked)
      invariant Walking(Snapshot(All(input, made')), input, made', output, source, parts, value, i, current)
      invariant Advances(h, Snapshot(All(input, made')), input, made)
    {
      current, made' := DescendFrom(h, made, parts, i, current, input, made', output, source, asked, value);
      i := i + 1;
    }
  }

  method SetValueAtPath(output: Dict, parts: seq<string>, value: Value, ghost input: set<Dict>, ghost made: Made,
                        ghost source: Dict, ghost asked: seq<seq<string>>)
    returns (ghost made': Made)
    requires Good(Snapshot(All(input, made)), input, made, output, source, asked) && parts in asked && parts != []
    requires At(Snapshot(All(input, made)), Sub(source), parts) == Some(value)
    modifies All(input, made)
    ensures Extends(made, made') && fresh(made'.Keys - made.Keys)
    ensures Good(Snapshot(All(input, made')), input, made', output, source, asked)
    ensures Exact(Snapshot(All(input, made')), Sub(output), Sub(source), parts)
    ensures Advances(old(Snapshot(All(input, made))), Snapshot(All(input, made')), input, made)
  {
    ghost var h := Snapshot(All(input, made));
    var current;
    current, made' := WalkTo(output, parts, value, input, made, source, asked);
    ghost var middle := Snapshot(All(input, made'));
    PlaceValue(parts, value, current, input, made', output, source, asked);
    AdvancesChain(h, middle, Snapshot(All(input, made')), input, made, made');
  }

  // ----- what a projection promises -----

  ghost predicate Has(before: Heap, source: Dict, path: string) { At(before, Sub(source), Split(path, '.')).Some? }

  /** The requested paths that exist, split. */
  ghost function Asked(before: Heap, source: Dict, paths: seq<string>): seq<seq<string>> {
    if paths == [] then []
    else
      var last := paths[|paths| - 1];
      Asked(before, source, paths[..|paths| - 1]) + if Has(before, source, last) then [Split(last, '.')] else []
  }

  lemma {:induction false} AskedAre(before: Heap, source: Dict, paths: seq<string>, parts: seq<string>)
    ensures parts in Asked(before, source, paths) <==>
        exists i :: 0 <= i < |paths| && Has(before, source, paths[i]) && Split(paths[i], '.') == parts
  {
    if paths != [] {
      var rest, last := paths[..|paths| - 1], paths[|paths| - 1];
      AskedAre(before, source, rest, parts);
      if parts in Asked(before, source, rest) {
        var i :| 0 <= i < |rest| && Has(before, source, rest[i]) && Split(rest[i], '.') == parts;
        assert paths[i] == rest[i];
      }
      if i :| 0 <= i < |paths| && Has(before, source, paths[i]) && Split(paths[i], '.') == parts {
        assert i < |rest| ==> paths[i] == rest[i];
      }
    }
  }

  /** Made and read: every asked path leads to the input's own value. */
  ghost predicate Projected(h: Heap, input: set<Dict>, made: Made, output: Dict, source: Dict,
                            asked: seq<seq<string>>) {
    && Good(h, input, made, output, source, asked)
    && forall p :: p in asked ==> Exact(h, Sub(output), Sub(source), p)
  }

  lemma {:induction false} AskOneMore(h: Heap, input: set<Dict>, made: Made, output: Dict, source: Dict,
                                      asked: seq<seq<string>>, parts: seq<string>)
    requires Good(h, input, made, output, source, asked)
    ensures Good(h, input, made, output, source, asked + [parts])
  {
    var more := asked + [parts];
    forall p | p in asked ensures p in more {}
    forall place | LeadsOn(asked, place) ensures LeadsOn(more, place) {
      var p :| p in asked && place <= p;
      assert p in more;
    }
  }

  lemma {:induction false} ProjectedOneMore(h: Heap, h': Heap, input: set<Dict>, made: Made, made': Made,
                                            output: Dict, source: Dict,
                                            asked: seq<seq<string>>, parts: seq<string>)
    requires Projected(h, input, made, output, source, asked) && Advances(h, h', input, made)
    requires Good(h', input, made', output, source, asked + [parts]) && Exact(h', Sub(output), Sub(source), parts)
    ensures Projected(h', input, made', output, source, asked + [parts])
  {
    forall p | p in asked + [parts] ensures Exact(h', Sub(output), Sub(source), p) {
      if p in asked {
        AdvancingKeepsExact(h, h', input, made, Sub(output), Sub(source), p);
      }
    }
  }

  /** One requested path that the input has. */
  method ProjectPath(output: Dict, parts: seq<string>, value: Value, ghost input: set<Dict>, ghost made: Made,
                     ghost source: Dict, ghost asked: seq<seq<string>>)
    returns (ghost made': Made)
    requires Projected(Snapshot(All(input, made)), input, made, output, source, asked) && parts != []
    requires At(Snapshot(All(input, made)), Sub(source), parts) == Some(value)
    modifies All(input, made)
    ensures fresh(made'.Keys - made.Keys)
    ensures Projected(Snapshot(All(input, made')), input, made', output, source, asked + [parts])
    ensures forall d :: d in input ==> d.fields == old(d.fields)
  {
    ghost var h := Snapshot(All(input, made));
    AskOneMore(h, input, made, output, source, asked, parts);
    made' := SetValueAtPath(output, parts, value, input, made, source, asked + [parts]);
    ghost var h' := Snapshot(All(input, made'));
    ProjectedOneMore(h, h', input, made, made', output, source, asked, parts);
    forall d | d in input ensures d.fields == old(d.fields) {
      assert h'[d] == h[d];
    }
  }

  lemma {:induction false} StartProjected(before: Heap, h: Heap, input: set<Dict>, made: Made, output: Dict,
                                          source: Dict)
    requires before.Keys == input && Closed(before, input) && source in input && output !in input
    requires h.Keys == input + {output} && h[output] == map[] && forall d :: d in input ==> h[d] == before[d]
    requires made == map[output := Origin(source, [])]
    ensures Projected(h, input, made, output, source, [])
  {
    assert Closed(h, input);
  }

  /** The maps of the input are as they were. */
  ghost predicate Unchanged(input: set<Dict>, before: Heap)
    reads input
  {
    before.Keys == input && forall d :: d in input ==> d.fields == before[d]
  }

  lemma {:induction false} AskedOneMore(before: Heap, source: Dict, paths: seq<string>, path: string)
    ensures Asked(before, source, paths + [path]) ==
            Asked(before, source, paths) + if Has(before, source, path) then [Split(path, '.')] else []
  {
    assert (paths + [path])[..|paths|] == paths;
  }

  /** What the loop of projectObject has achieved with the paths done so far. */
  ghost predicate Achieved(before: Heap, input: set<Dict>, made: Made, output: Dict, source: Dict, done: seq<string>,
                           found: bool)
    reads All(input, made)
  {
    && Unchanged(input, before) && Closed(before, input)
    && (found <==> Asked(before, source, done) != [])
    && Projected(Snapshot(All(input, made)), input, made, output, source, Asked(before, source, done))
  }

  /** One turn of that loop. */
  method ProjectNext(source: Dict, output: Dict, ghost done: seq<string>, path: string, found: bool, ghost before: Heap,
                     ghost input: set<Dict>, ghost made: Made)
    returns (found': bool, ghost made': Made)
    requires Achieved(before, input, made, output, source, done, found)
    modifies All(input, made)
    ensures fresh(made'.Keys - made.Keys)
    ensures Achieved(before, input, made', output, source, done + [path], found')
  {
    var parts := Split(path, '.');
    assert Snapshot(input) == before;
    var value := ValueAtPath(input, Sub(source), parts);
    found', made' := found || value.Some?, made;
    AskedOneMore(before, source, done, path);
    if value.Some? {
      SameInput(Snapshot(All(input, made)), before, input, made, Sub(source), parts);
      made' := ProjectPath(output, parts, value.value, input, made, source, Asked(before, source, done));
    } else {
      assert Asked(before, source, done) + [] == Asked(before, source, done);
    }
  }

  /** The empty output that every projection starts from. */
  method Begin(source: Dict, ghost input: set<Dict>) returns (output: Dict, ghost made: Made)
    requires source in input && Closed(Snapshot(input), input)
    ensures fresh(made.Keys) && Projected(Snapshot(All(input, made)), input, made, output, source, [])
  {
    output := new Dict();
    made := map[output := Origin(source, [])];
    StartProjected(Snapshot(input), Snapshot(All(input, made)), input, made, output, source);
  }

  lemma {:induction false} AnyAsked(before: Heap, source: Dict, paths: seq<string>)
    ensures Asked(before, source, paths) != [] <==> exists i :: 0 <= i < |paths| && Has(before, source, paths[i])
  {
    var asked := Asked(before, source, paths);
    if asked != [] {
      AskedAre(before, source, paths, asked[0]);
    }
    if i :| 0 <= i < |paths| && Has(before, source, paths[i]) {
      AskedAre(before, source, paths, Split(paths[i], '.'));
    }
  }

  lemma {:induction false} TakeNone(paths: seq<string>)
    ensures paths[..0] == []
  {
  }

  lemma {:induction false} TakeOneMore(paths: seq<string>, k: nat)
    requires k < |paths|
    ensures paths[..k] + [paths[k]] == paths[..k + 1]
  {
  }

  lemma {:induction false} TakeAll(paths: seq<string>)
    ensures paths[..|paths|] == paths
  {
  }

  /** The loop of projectObject. */
  method ProjectAll(source: Dict, output: Dict, paths: seq<string>, ghost before: Heap, ghost input: set<Dict>,
                    ghost made: Made)
    returns (found: bool, ghost made': Made)
    requires Achieved(before, input, made, output, source, [], false)
    modifies All(input, made)
    ensures fresh(made'.Keys - made.Keys)
    ensures Achieved(before, input, made', output, source, paths, found)
  {
    found, made' := false, made;
    TakeNone(paths);
    for k := 0 to |paths|
      invariant fresh(made'.Keys - made.Keys)
      invariant Achieved(before, input, made', output, source, paths[..k], found)
    {
      found, made' := ProjectNext(source, output, paths[..k], paths[k], found, before, input, made');
      TakeOneMore(paths, k);
    }
    TakeAll(paths);
  }

  /** projectObject leaves the input as it was; what the output is worth is ProjectionIsFaithful. */
  method ProjectObject(source: Dict, paths: seq<string>, ghost input: set<Dict>)
    returns (output: Dict, found: bool, ghost made: Made)
    requires source in input && Closed(Snapshot(input), input)
    modifies input
    ensures fresh(made.Keys) && Unchanged(input, old(Snapshot(input)))
    ensures found <==> exists i :: 0 <= i < |paths| && Has(old(Snapshot(input)), source, paths[i])
    ensures Projected(Snapshot(All(input, made)), input, made, output, source,
                      Asked(old(Snapshot(input)), source, paths))
  {
    ghost var before := Snapshot(input);
    output, made := Begin(source, input);
    AnyAsked(before, source, paths);
    found, made := ProjectAll(source, output, paths, before, input, made);
  }

  /** Two values at one place: the very same, or two maps. */
  ghost predicate SameOrMaps(v: Value, w: Value) { v == w || (v.Sub? && w.Sub?) }

  /** For any paths, overlapping or not: each one that exists reads back the input's own value; the output holds nothing
      that the input lacks; and it holds nothing that is not on the way to, or below, a requested path that exists. */
  lemma {:induction false} ProjectionIsFaithful(before: Heap, after: Heap, input: set<Dict>, made: Made, output: Dict,
                                                source: Dict,
                                                paths: seq<string>, parts: seq<string>)
    requires Projected(after, input, made, output, source, Asked(before, source, paths))
    requires before.Keys == input && forall d :: d in input ==> after[d] == before[d]
    ensures forall i :: 0 <= i < |paths| && Has(before, source, paths[i]) ==>
              At(after, Sub(output), Split(paths[i], '.')) == At(before, Sub(source), Split(paths[i], '.'))
    ensures At(after, Sub(output), parts).Some? ==>
              && At(before, Sub(source), parts).Some?
              && SameOrMaps(At(after, Sub(output), parts).value, At(before, Sub(source), parts).value)
    ensures At(after, Sub(output), parts).Some? && parts != [] ==>
              exists i :: 0 <= i < |paths| && Has(before, source, paths[i])
                          && (parts <= Split(paths[i], '.') || Split(paths[i], '.') <= parts)
  {
    forall i | 0 <= i < |paths| && Has(before, source, paths[i])
      ensures At(after, Sub(output), Split(paths[i], '.')) == At(before, Sub(source), Split(paths[i], '.'))
    {
      AskedAre(before, source, paths, Split(paths[i], '.'));
      SameInput(after, before, input, made, Sub(source), Split(paths[i], '.'));
    }
    if At(after, Sub(output), parts).Some? {
      OutputMirrorsInput(after, input, made, Sub(output), Sub(source), parts);
      SameInput(after, before, input, made, Sub(source), parts);
      if parts != [] {
        OnlyAskedPaths(after, made, Asked(before, source, paths), output, parts);
        assert [] + parts == parts;
        var p :| p in Asked(before, source, paths) && (parts <= p || p <= parts);
        AskedAre(before, source, paths, p);
      }
    }
  }
}
