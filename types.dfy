/**
 * Shared records of the agreement portal: a catalog check, a journey (a named
 * bundle of selected checks with a cached total), an editable service row, and
 * the insertion-ordered flag dictionary that journeys and the journey builder
 * use for their selected checks.
 */
module Types {

  datatype Option<+T> = None | Some(value: T)

  /** A catalog check. An absent `insights` field is the empty string: the
      code only ever tests it for truthiness and prints it. */
  datatype Check = Check(
    name: string,
    price: int,
    tat: string,
    partnerNetwork: string,
    verifyMethod: string,
    insights: string)

  /** A dictionary from check name to flag, in insertion order (the order in
      which a JavaScript object enumerates non-numeric keys). */
  type Flags = seq<(string, bool)>

  datatype Journey = Journey(id: string, name: string, selectedChecks: Flags, totalPrice: int)

  datatype ValueAddedService = ValueAddedService(name: string, description: string)

  /** The keys of a flag dictionary, in order. */
  function Keys(f: Flags): (ks: seq<string>)
    ensures |ks| == |f|
    ensures forall i :: 0 <= i < |f| ==> ks[i] == f[i].0
  {
    if f == [] then [] else [f[0].0] + Keys(f[1..])
  }

  /** A JavaScript object never holds one key twice. */
  ghost predicate DistinctKeys(f: Flags) {
    forall i, j :: 0 <= i < j < |f| ==> f[i].0 != f[j].0
  }

  /** `flags[name]`: the value stored under `name`, if any. */
  function Get(f: Flags, name: string): (r: Option<bool>)
    ensures r.Some? <==> name in Keys(f)
    ensures r.Some? ==> (name, r.value) in f
  {
    if f == [] then None
    else if f[0].0 == name then Some(f[0].1)
    else Get(f[1..], name)
  }

  /** The JavaScript truthiness of `flags[name]`. */
  predicate IsOn(f: Flags, name: string) {
    Get(f, name) == Some(true)
  }

  /** `{ ...flags, [name]: value }`: an existing key keeps its position and
      takes the new value; a new key is appended. */
  function Put(f: Flags, name: string, value: bool): (r: Flags)
  {
    if f == [] then [(name, value)]
    else if f[0].0 == name then [(name, value)] + f[1..]
    else [f[0]] + Put(f[1..], name, value)
  }

  /** `Object.keys(flags).filter(name => flags[name])` for a dictionary
      without repeated keys: the keys flagged true, in order. */
  function TrueKeys(f: Flags): (ks: seq<string>)
    ensures |ks| <= |f|
    ensures forall k :: k in ks <==> (k, true) in f
  {
    if f == [] then []
    else if f[0].1 then [f[0].0] + TrueKeys(f[1..])
    else TrueKeys(f[1..])
  }

  /** The true keys of a dictionary split in two are those of the first
      part followed by those of the second: key order is kept. */
  lemma {:induction false} TrueKeysAppend(a: Flags, b: Flags)
    ensures TrueKeys(a + b) == TrueKeys(a) + TrueKeys(b)
  {
    if a != [] {
      assert (a + b)[0] == a[0] && (a + b)[1..] == a[1..] + b;
      TrueKeysAppend(a[1..], b);
      if a[0].1 {
        assert TrueKeys(a + b) == [a[0].0] + TrueKeys(a[1..] + b);
        assert [a[0].0] + (TrueKeys(a[1..]) + TrueKeys(b)) == ([a[0].0] + TrueKeys(a[1..])) + TrueKeys(b);
      }
    } else {
      assert a + b == b;
    }
  }

  /** A single entry contributes its key iff it is flagged true. */
  lemma TrueKeysSingle(name: string, value: bool)
    ensures TrueKeys([(name, value)]) == if value then [name] else []
  {
  }

  lemma {:induction false} PutKeys(f: Flags, name: string, value: bool)
    ensures Keys(Put(f, name, value)) == if name in Keys(f) then Keys(f) else Keys(f) + [name]
  {
    if f != [] && f[0].0 != name {
      PutKeys(f[1..], name, value);
      assert Keys(f) == [f[0].0] + Keys(f[1..]);
    }
  }

  lemma {:induction false} PutGet(f: Flags, name: string, value: bool, other: string)
    ensures Get(Put(f, name, value), other) == if other == name then Some(value) else Get(f, other)
  {
    if f != [] && f[0].0 != name {
      PutGet(f[1..], name, value, other);
    }
  }

  lemma PutGetAll(f: Flags, name: string, value: bool)
    ensures forall k :: Get(Put(f, name, value), k) == if k == name then Some(value) else Get(f, k)
  {
    forall k { PutGet(f, name, value, k); }
  }

  lemma {:induction false} PutDistinct(f: Flags, name: string, value: bool)
    requires DistinctKeys(f)
    ensures DistinctKeys(Put(f, name, value))
  {
    var r := Put(f, name, value);
    PutKeys(f, name, value);
    assert Keys(r) == if name in Keys(f) then Keys(f) else Keys(f) + [name];
    forall i, j | 0 <= i < j < |r| ensures r[i].0 != r[j].0 {
      assert r[i].0 == Keys(r)[i] && r[j].0 == Keys(r)[j];
      if name !in Keys(f) && j == |f| {
        assert Keys(f)[i] in Keys(f);
      }
    }
  }

  /** In a dictionary without repeated keys, truthiness is membership of the
      entry (name, true). */
  lemma {:induction false} IsOnIffEntry(f: Flags, name: string)
    requires DistinctKeys(f)
    ensures IsOn(f, name) <==> (name, true) in f
  {
    if f != [] {
      assert DistinctKeys(f[1..]) by {
        forall i, j | 0 <= i < j < |f[1..]| ensures f[1..][i].0 != f[1..][j].0 {
          assert f[1..][i] == f[i + 1] && f[1..][j] == f[j + 1];
        }
      }
      IsOnIffEntry(f[1..], name);
    }
  }
}
