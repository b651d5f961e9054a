/**
 * Parsed JSON documents as the Python `json` module hands them over.
 *
 * An object is kept as the ordered list of its members: a Python `dict`
 * remembers insertion order and `json.dump` writes the members in that order.
 * `GetOr` and `Set` are the two dictionary operations the augmenter uses
 * (`d.get(k, default)` and `d[k] = v`); `Get` is the lookup the contracts are
 * stated with, and `ToMap` is the order-forgetting view of an object.
 */
module Json {
  import opened Wrappers

  /** A parsed JSON value. Numbers are integers (floating point is not modelled). */
  datatype Json =
    | JNull
    | JBool(b: bool)
    | JNumber(n: int)
    | JString(s: string)
    | JArray(items: seq<Json>)
    | JObject(members: seq<Member>)

  /** One key/value entry of an object. */
  datatype Member = Member(key: string, value: Json)

  /** The keys of an object, order forgotten. */
  function Keys(ms: seq<Member>): (ks: set<string>)
    ensures forall i :: 0 <= i < |ms| ==> ms[i].key in ks
  {
    if ms == [] then {} else {ms[0].key} + Keys(ms[1..])
  }

  /** No key occurs twice; every object `json.load` produces has this shape. */
  predicate KeysUnique(ms: seq<Member>) {
    forall i, j :: 0 <= i < j < |ms| ==> ms[i].key != ms[j].key
  }

  /** Every object inside the value, at any depth, has unique keys. */
  predicate WellFormed(j: Json) {
    match j
    case JArray(items) => forall x :: x in items ==> WellFormed(x)
    case JObject(ms) => KeysUnique(ms) && forall m :: m in ms ==> WellFormed(m.value)
    case _ => true
  }

  /** The value stored under `k` (the first one, should the key repeat), or None when `k` is absent. */
  function Get(ms: seq<Member>, k: string): (r: Option<Json>)
    ensures r.None? <==> k !in Keys(ms)
    ensures r.Some? ==> Member(k, r.value) in ms
  {
    if ms == [] then None
    else if ms[0].key == k then Some(ms[0].value)
    else Get(ms[1..], k)
  }

  /** Python's `d.get(k, default)`: the stored value when the key is present, else the default. */
  function GetOr(ms: seq<Member>, k: string, default: Json): (r: Json)
    ensures k !in Keys(ms) ==> r == default
    ensures k in Keys(ms) ==> Member(k, r) in ms
  {
    match Get(ms, k)
    case Some(v) => v
    case None => default
  }

  /**
   * Python's `d[k] = v`: a present key keeps its position and gets the new
   * value; an absent key is appended at the end. Nothing else moves or changes.
   */
  function Set(ms: seq<Member>, k: string, v: Json): (r: seq<Member>)
    ensures |r| == if k in Keys(ms) then |ms| else |ms| + 1
    ensures forall i :: 0 <= i < |ms| ==> r[i].key == ms[i].key
    ensures forall i :: 0 <= i < |ms| && ms[i].key != k ==> r[i] == ms[i]
    ensures k !in Keys(ms) ==> r == ms + [Member(k, v)]
  {
    if ms == [] then [Member(k, v)]
    else if ms[0].key == k then [Member(k, v)] + ms[1..]
    else [ms[0]] + Set(ms[1..], k, v)
  }

  /** After `d[k] = v`, reading `k` gives `v` and reading any other key gives what it gave before. */
  lemma {:induction false} SetGet(ms: seq<Member>, k: string, v: Json, j: string)
    ensures Get(Set(ms, k, v), j) == if j == k then Some(v) else Get(ms, j)
  {
    if ms != [] && ms[0].key != k {
      assert Set(ms, k, v)[1..] == Set(ms[1..], k, v);
      SetGet(ms[1..], k, v, j);
    } else if ms != [] {
      assert Set(ms, k, v)[1..] == ms[1..];
    }
  }

  /** `d[k] = v` adds `k` to the keys and no other key. */
  lemma SetKeys(ms: seq<Member>, k: string, v: Json)
    ensures Keys(Set(ms, k, v)) == Keys(ms) + {k}
  {
    forall j ensures j in Keys(Set(ms, k, v)) <==> j in Keys(ms) + {k} {
      SetGet(ms, k, v, j);
    }
  }

  /** The order-forgetting view of an object; the first occurrence of a key wins, as in `Get`. */
  function ToMap(ms: seq<Member>): map<string, Json>
  {
    if ms == [] then map[]
    else ToMap(ms[1..])[ms[0].key := ms[0].value]
  }

  /** The map view has the object's keys, and each maps to what `Get` finds. */
  lemma {:induction false} ToMapAgreesWithGet(ms: seq<Member>, k: string)
    ensures k in ToMap(ms) <==> k in Keys(ms)
    ensures k in ToMap(ms) ==> Get(ms, k) == Some(ToMap(ms)[k])
  {
    if ms != [] && ms[0].key != k {
      ToMapAgreesWithGet(ms[1..], k);
    }
  }

  /** With unique keys, the lookup of a member's key finds that member's value. */
  lemma {:induction false} GetUnique(ms: seq<Member>, i: nat)
    requires KeysUnique(ms)
    requires i < |ms|
    ensures Get(ms, ms[i].key) == Some(ms[i].value)
  {
    if i > 0 {
      assert ms[0].key != ms[i].key;
      assert ms[1..][i - 1] == ms[i];
      GetUnique(ms[1..], i - 1);
    }
  }

  /** With unique keys, a member in the object is exactly what the lookup of its key returns. */
  lemma MemberIsLookup(ms: seq<Member>, k: string, v: Json)
    requires KeysUnique(ms)
    ensures Member(k, v) in ms <==> Get(ms, k) == Some(v)
  {
    if Member(k, v) in ms {
      var i :| 0 <= i < |ms| && ms[i] == Member(k, v);
      GetUnique(ms, i);
    }
  }

  /** Storing a key twice with the same value is the same as storing it once. */
  lemma {:induction false} SetIdempotent(ms: seq<Member>, k: string, v: Json)
    ensures Set(Set(ms, k, v), k, v) == Set(ms, k, v)
  {
    if ms != [] && ms[0].key != k {
      SetIdempotent(ms[1..], k, v);
      assert Set(ms, k, v)[1..] == Set(ms[1..], k, v);
    }
  }

  /** Storing a key keeps the keys unique. */
  lemma SetKeepsUnique(ms: seq<Member>, k: string, v: Json)
    requires KeysUnique(ms)
    ensures KeysUnique(Set(ms, k, v))
  {
    var r := Set(ms, k, v);
    forall i, j | 0 <= i < j < |r| ensures r[i].key != r[j].key {
      if j == |ms| {
        assert k !in Keys(ms) && r[j].key == k;
      }
    }
  }

  /** Every member of the updated object is the new member or an old one. */
  lemma SetMembers(ms: seq<Member>, k: string, v: Json)
    ensures forall m :: m in Set(ms, k, v) ==> m == Member(k, v) || m in ms
  {
    var r := Set(ms, k, v);
    forall m | m in r ensures m == Member(k, v) || m in ms {
      var i :| 0 <= i < |r| && r[i] == m;
      if i < |ms| && ms[i].key != k {
        assert r[i] == ms[i];
      } else if i < |ms| {
        SetAtKeyPosition(ms, k, v, i);
      }
    }
  }

  /** In `Set(ms, k, v)` the first position holding key `k` gets the new member; later ones keep theirs. */
  lemma {:induction false} SetAtKeyPosition(ms: seq<Member>, k: string, v: Json, i: nat)
    requires i < |ms| && ms[i].key == k
    ensures Set(ms, k, v)[i] == if forall j :: 0 <= j < i ==> ms[j].key != k then Member(k, v) else ms[i]
  {
    var r := Set(ms, k, v);
    if ms[0].key != k {
      assert r[1..] == Set(ms[1..], k, v);
      assert ms[1..][i - 1] == ms[i];
      SetAtKeyPosition(ms[1..], k, v, i - 1);
      assert (forall j :: 0 <= j < i ==> ms[j].key != k) <==> (forall j :: 0 <= j < i - 1 ==> ms[1..][j].key != k);
    } else if i > 0 {
      assert r[i] == ms[i];
    }
  }

  /** On the map view, `d[k] = v` is the map update. */
  lemma {:induction false} ToMapOfSet(ms: seq<Member>, k: string, v: Json)
    ensures ToMap(Set(ms, k, v)) == ToMap(ms)[k := v]
  {
    if ms == [] {
      assert ToMap([Member(k, v)]) == map[][k := v];
    } else if ms[0].key == k {
      assert ([Member(k, v)] + ms[1..])[1..] == ms[1..];
    } else {
      var r, rest, m0 := Set(ms, k, v), ToMap(ms[1..]), ms[0];
      assert r[0] == m0 && r[1..] == Set(ms[1..], k, v);
      ToMapOfSet(ms[1..], k, v);
      calc {
        ToMap(r);
        ToMap(r[1..])[m0.key := m0.value];
        rest[k := v][m0.key := m0.value];
        { UpdatesCommute(rest, k, v, m0.key, m0.value); }
        rest[m0.key := m0.value][k := v];
        ToMap(ms)[k := v];
      }
    }
  }

  /** Two updates of distinct keys commute. */
  lemma UpdatesCommute(m: map<string, Json>, k1: string, v1: Json, k2: string, v2: Json)
    requires k1 != k2
    ensures m[k1 := v1][k2 := v2] == m[k2 := v2][k1 := v1]
  {
  }
}
