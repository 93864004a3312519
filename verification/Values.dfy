/** Configuration values shared by the YAML subset, the config diff and the deep merge, and small helpers. */
module Values {

  datatype Option<+T> = None | Some(value: T)

  // A float is known by the text of its literal; see README.md.
  datatype Value =
    | Null
    | Bool(b: bool)
    | Int(n: int)
    | Float(literal: string)
    | Str(s: string)
    | List(items: seq<Value>)
    | Map(entries: seq<Entry>)

  // A dictionary is its insertion-ordered entries, with distinct keys.
  datatype Entry = Entry(key: string, value: Value)

  ghost function Keys(entries: seq<Entry>): set<string> {
    set i | 0 <= i < |entries| :: entries[i].key
  }

  ghost predicate DistinctKeys(entries: seq<Entry>) {
    forall i, j :: 0 <= i < j < |entries| ==> entries[i].key != entries[j].key
  }

  /** The keys in order. */
  ghost function KeysOf(data: seq<Entry>): seq<string> { seq(|data|, i requires 0 <= i < |data| => data[i].key) }

  /** Every mapping inside the value is a dictionary. */
  ghost predicate IsDict(entries: seq<Entry>)
    decreases entries, 1
  {
    DistinctKeys(entries) && forall e | e in entries :: IsValue(e.value)
  }

  ghost predicate IsValue(v: Value)
    decreases v, 0
  {
    match v
    case List(items) => forall x | x in items :: IsValue(x)
    case Map(entries) => IsDict(entries)
    case _ => true
  }

  function IndexOf(entries: seq<Entry>, key: string): (i: nat)
    ensures i <= |entries|
    ensures i < |entries| ==> entries[i].key == key
    ensures forall j :: 0 <= j < i ==> entries[j].key != key
    decreases |entries|
  {
    if entries == [] || entries[0].key == key then 0 else 1 + IndexOf(entries[1..], key)
  }

  /** `entries[key] = value`: an existing key keeps its place, a new one goes last. */
  function Put(entries: seq<Entry>, key: string, value: Value): (r: seq<Entry>) {
    var i := IndexOf(entries, key);
    if i < |entries| then entries[i := Entry(key, value)] else entries + [Entry(key, value)]
  }

  function Get(entries: seq<Entry>, key: string): Option<Value> {
    var i := IndexOf(entries, key);
    if i < |entries| then Some(entries[i].value) else None
  }

  lemma GetMember(entries: seq<Entry>, e: Entry)
    requires DistinctKeys(entries) && e in entries
    ensures Get(entries, e.key) == Some(e.value)
  {
    var i :| 0 <= i < |entries| && entries[i] == e;
  }

  /** Equality of dictionaries, which ignores the order of their entries, also inside lists. */
  ghost predicate EqualDict(a: seq<Entry>, b: seq<Entry>)
    decreases a, 1
  {
    && (forall e | e in a :: Get(b, e.key).Some? && EqualValue(e.value, Get(b, e.key).value))
    && (forall e | e in b :: Get(a, e.key).Some?)
  }

  ghost predicate EqualValue(v: Value, w: Value)
    decreases v, 0
  {
    if v.Map? && w.Map? then EqualDict(v.entries, w.entries)
    else if v.List? && w.List? then
      |v.items| == |w.items| && forall i | 0 <= i < |v.items| :: EqualValue(v.items[i], w.items[i])
    else v == w
  }

  lemma {:induction false} EqualToItself(v: Value)
    requires IsValue(v)
    ensures EqualValue(v, v)
    decreases v
  {
    match v
    case List(items) => forall x | x in items ensures EqualValue(x, x) { EqualToItself(x); }
    case Map(entries) =>
      forall e | e in entries ensures Get(entries, e.key) == Some(e.value) && EqualValue(e.value, e.value) {
        GetMember(entries, e);
        EqualToItself(e.value);
      }
    case _ =>
  }

  /** `dict.update`. */
  function PutAll(entries: seq<Entry>, more: seq<Entry>): seq<Entry>
    decreases |more|
  {
    if more == [] then entries else PutAll(Put(entries, more[0].key, more[0].value), more[1..])
  }

  function MinI(a: int, b: int): int { if a <= b then a else b }
  function MaxI(a: int, b: int): int { if a >= b then a else b }
  function MinR(a: real, b: real): real { if a <= b then a else b }
  function MaxR(a: real, b: real): real { if a >= b then a else b }

  function FlatMap<A, B>(f: A -> seq<B>, xs: seq<A>): seq<B> {
    if xs == [] then [] else f(xs[0]) + FlatMap(f, xs[1..])
  }

  lemma {:induction false} FlatMapSnoc<A, B>(f: A -> seq<B>, xs: seq<A>, x: A)
    ensures FlatMap(f, xs + [x]) == FlatMap(f, xs) + f(x)
  {
    if xs == [] {
    } else {
      assert (xs + [x])[1..] == xs[1..] + [x];
      FlatMapSnoc(f, xs[1..], x);
    }
  }

  lemma FlatMapPrefix<A, B>(f: A -> seq<B>, xs: seq<A>, i: nat)
    requires i < |xs|
    ensures FlatMap(f, xs[..i + 1]) == FlatMap(f, xs[..i]) + f(xs[i])
  {
    assert xs[..i + 1] == xs[..i] + [xs[i]];
    FlatMapSnoc(f, xs[..i], xs[i]);
  }

  lemma {:induction false} FlatMapSingletons<A, B>(f: A -> seq<B>, xs: seq<A>, ys: seq<B>)
    requires |xs| == |ys| && forall i :: 0 <= i < |xs| ==> f(xs[i]) == [ys[i]]
    ensures FlatMap(f, xs) == ys
  {
    if xs == [] {
    } else {
      FlatMapSingletons(f, xs[1..], ys[1..]);
    }
  }
}
