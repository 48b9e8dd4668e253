/** Go's `url.Values`: a multimap from query keys to ordered value lists,
    with the three ways the clients write to it. */
module UrlValues {
  import opened Wrappers

  /** A query-string multimap; a key maps to its values in insertion order. */
  type Values = map<string, seq<string>>

  /** `q[k]` in Go: the value list of `k`, nil (here empty) when absent. */
  function Get(q: Values, k: string): seq<string>
  {
    if k in q then q[k] else []
  }

  /** Key `k` is bound identically (or absent) in both multimaps. */
  predicate Agree(q: Values, q': Values, k: string)
  {
    (k in q <==> k in q') && (k in q ==> q[k] == q'[k])
  }

  /** `q.Set(k, v)`: `k` now holds the single value `v`, replacing whatever
      it held; every other key is untouched. */
  function Set(q: Values, k: string, v: string): (r: Values)
    ensures k in r && r[k] == [v]
    ensures forall j :: j != k ==> (j in r <==> j in q) && (j in r ==> r[j] == q[j])
  {
    q[k := [v]]
  }

  /** `q.Add(k, v)`: `v` is appended after the values `k` already held;
      every other key is untouched. */
  function Add(q: Values, k: string, v: string): (r: Values)
    ensures k in r && r[k] == Get(q, k) + [v]
    ensures forall j :: j != k ==> (j in r <==> j in q) && (j in r ==> r[j] == q[j])
  {
    q[k := Get(q, k) + [v]]
  }

  /** `q[k] = vs`: `k` now holds exactly `vs`, even when `vs` is empty;
      every other key is untouched. */
  function Assign(q: Values, k: string, vs: seq<string>): (r: Values)
    ensures k in r && r[k] == vs
    ensures forall j :: j != k ==> (j in r <==> j in q) && (j in r ==> r[j] == q[j])
  {
    q[k := vs]
  }

  /** `for _, v := range vs { q.Add(k, v) }`. */
  function AddEach(q: Values, k: string, vs: seq<string>): (r: Values)
    ensures |vs| == 0 ==> r == q
    ensures |vs| > 0 ==> k in r && r[k] == Get(q, k) + vs
    ensures forall j :: j != k ==> (j in r <==> j in q) && (j in r ==> r[j] == q[j])
    decreases |vs|
  {
    if |vs| == 0 then q
    else
      var q' := Add(q, k, vs[0]);
      var r := AddEach(q', k, vs[1..]);
      assert Get(q, k) + [vs[0]] + vs[1..] == Get(q, k) + vs;
      r
  }

  /** One conditional write of a serialiser, as the clients write them:
      `if o != nil { q.Set(k, *o) }`, `if o != nil { q.Add(k, *o) }`,
      `if o != nil { q[k] = o }`, and `for _, v := range vs { q.Add(k, v) }`. */
  datatype Write =
    | SetValue(key: string, value: Option<string>)
    | AddValue(key: string, value: Option<string>)
    | AssignValues(key: string, values: Option<seq<string>>)
    | AddEachValue(key: string, each: seq<string>)

  /** The effect of `if o != nil { q.Set(k, *o) }` on key `k`, comparing the
      result `r` with the starting multimap `q`. */
  predicate SetEffect(r: Values, q: Values, k: string, o: Option<string>)
  {
    if o.Some? then k in r && r[k] == [o.value] else Agree(r, q, k)
  }

  /** The effect of `if o != nil { q.Add(k, *o) }` on key `k`. */
  predicate AddEffect(r: Values, q: Values, k: string, o: Option<string>)
  {
    if o.Some? then k in r && r[k] == Get(q, k) + [o.value] else Agree(r, q, k)
  }

  /** The effect of `if o != nil { q[k] = o }` on key `k`. */
  predicate AssignEffect(r: Values, q: Values, k: string, o: Option<seq<string>>)
  {
    if o.Some? then k in r && r[k] == o.value else Agree(r, q, k)
  }

  /** The effect of adding each of `vs` in turn on key `k`. */
  predicate AddEachEffect(r: Values, q: Values, k: string, vs: seq<string>)
  {
    if |vs| > 0 then k in r && r[k] == Get(q, k) + vs else Agree(r, q, k)
  }

  /** What a write does to its own key. */
  predicate WriteEffect(r: Values, q: Values, w: Write)
  {
    match w
    case SetValue(k, o) => SetEffect(r, q, k, o)
    case AddValue(k, o) => AddEffect(r, q, k, o)
    case AssignValues(k, o) => AssignEffect(r, q, k, o)
    case AddEachValue(k, vs) => AddEachEffect(r, q, k, vs)
  }

  /** Keys outside `ks` are bound identically in both multimaps. */
  ghost predicate AgreeOutside(r: Values, q: Values, ks: set<string>)
  {
    forall k :: k !in ks ==> (k in r <==> k in q) && (k in r ==> r[k] == q[k])
  }

  /** Performs one write. */
  function Apply(q: Values, w: Write): (r: Values)
    ensures WriteEffect(r, q, w)
    ensures AgreeOutside(r, q, {w.key})
  {
    match w
    case SetValue(k, o) => if o.Some? then Set(q, k, o.value) else q
    case AddValue(k, o) => if o.Some? then Add(q, k, o.value) else q
    case AssignValues(k, o) => if o.Some? then Assign(q, k, o.value) else q
    case AddEachValue(k, vs) => AddEach(q, k, vs)
  }

  /** Performs the writes in order. */
  function ApplyAll(q: Values, ws: seq<Write>): Values
    decreases |ws|
  {
    if |ws| == 0 then q else ApplyAll(Apply(q, ws[0]), ws[1..])
  }

  function KeysOf(ws: seq<Write>): (ks: set<string>)
    ensures forall i :: 0 <= i < |ws| ==> ws[i].key in ks
    ensures forall k :: k in ks ==> exists i :: 0 <= i < |ws| && ws[i].key == k
  {
    set i | 0 <= i < |ws| :: ws[i].key
  }

  /** No two writes target the same key. */
  predicate DistinctKeys(ws: seq<Write>)
  {
    forall i, j :: 0 <= i < j < |ws| ==> ws[i].key != ws[j].key
  }

  /** A write's effect on its key depends only on what the key held before. */
  lemma WriteEffectRebase(r: Values, q: Values, q': Values, w: Write)
    requires Agree(q, q', w.key)
    ensures WriteEffect(r, q, w) <==> WriteEffect(r, q', w)
  {
  }

  /** When no two writes share a key, performing them in order gives each
      key exactly the effect of its own write, and leaves every other key as
      it was. */
  lemma {:induction false} ApplyAllEffect(q: Values, ws: seq<Write>)
    requires DistinctKeys(ws)
    ensures forall i :: 0 <= i < |ws| ==> WriteEffect(ApplyAll(q, ws), q, ws[i])
    ensures AgreeOutside(ApplyAll(q, ws), q, KeysOf(ws))
    decreases |ws|
  {
    if |ws| > 0 {
      var q1 := Apply(q, ws[0]);
      var rest := ws[1..];
      var r := ApplyAll(q1, rest);
      assert r == ApplyAll(q, ws);
      ApplyAllEffect(q1, rest);
      forall i | 0 <= i < |ws|
        ensures WriteEffect(r, q, ws[i])
      {
        if i == 0 {
          assert ws[0].key !in KeysOf(rest);
          assert Agree(r, q1, ws[0].key);
        } else {
          assert rest[i - 1] == ws[i];
          WriteEffectRebase(r, q1, q, ws[i]);
        }
      }
      forall k | k !in KeysOf(ws)
        ensures (k in r <==> k in q) && (k in r ==> r[k] == q[k])
      {
        assert k != ws[0].key;
        assert k !in KeysOf(rest);
      }
    }
  }
}
