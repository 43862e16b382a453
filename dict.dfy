/** Insertion-ordered Python dictionaries with string keys, such as the
    `status_data` dict the fetch builds: assignment `d[k] = v` and an
    independent description of the dict that a sequence of assignments
    produces (last write wins, keys ordered by first assignment). */
module Dict {
  import opened PyJson

  type Dict = seq<(string, Json)>

  /** A Python dict never holds a key twice. */
  ghost predicate KeysDistinct(d: Dict) {
    forall i, j :: 0 <= i < j < |d| ==> d[i].0 != d[j].0
  }

  /** The three properties of `KeyIndex` determine it. */
  lemma {:induction false} KeyIndexUnique(d: Dict, k: string, i: nat)
    requires i <= |d|
    requires i < |d| ==> d[i].0 == k
    requires forall j :: 0 <= j < i ==> d[j].0 != k
    ensures KeyIndex(d, k) == i
  {
    if d != [] && d[0].0 != k {
      KeyIndexUnique(d[1..], k, i - 1);
    }
  }

  /** `d[k] = v`: a present key keeps its position and takes the new value;
      a new key goes to the end. */
  function Put(d: Dict, k: string, v: Json): (r: Dict)
    ensures Lookup(d, k).Some? ==> |r| == |d|
    ensures Lookup(d, k).None? ==> |r| == |d| + 1 && r[|d|] == (k, v)
    ensures forall i :: 0 <= i < |d| ==> r[i].0 == d[i].0
    ensures Lookup(r, k) == Some(v)
    ensures forall k' :: k' != k ==> Lookup(r, k') == Lookup(d, k')
  {
    var i := KeyIndex(d, k);
    var r := if i < |d| then d[i := (k, v)] else d + [(k, v)];
    KeyIndexUnique(r, k, i);
    forall k' | k' != k ensures Lookup(r, k') == Lookup(d, k') {
      var j := KeyIndex(d, k');
      KeyIndexUnique(r, k', if j < |d| then j else |r|);
    }
    r
  }

  /** Assignment never puts a key in twice. */
  lemma PutDistinct(d: Dict, k: string, v: Json)
    requires KeysDistinct(d)
    ensures KeysDistinct(Put(d, k, v))
  {
  }

  /** The value of the last assignment to `k` in `cs`, if any. */
  function LastValue(cs: seq<(string, Json)>, k: string): Option<Json> {
    if cs == [] then None
    else if cs[|cs| - 1].0 == k then Some(cs[|cs| - 1].1)
    else LastValue(cs[..|cs| - 1], k)
  }

  /** `d` is the dict that the assignments `cs`, made in order on an empty
      dict, leave behind: its keys are distinct, each key maps to the value
      of its last assignment (so the keys are exactly the assigned names),
      and keys are ordered by their first assignment. */
  ghost predicate Reflects(d: Dict, cs: seq<(string, Json)>) {
    && KeysDistinct(d)
    && (forall k :: Lookup(d, k) == LastValue(cs, k))
    && (forall i, j :: 0 <= i < j < |d| ==> KeyIndex(cs, d[i].0) < KeyIndex(cs, d[j].0))
  }

  lemma {:induction false} LastValueSome(cs: seq<(string, Json)>, k: string)
    ensures LastValue(cs, k).Some? <==> KeyIndex(cs, k) < |cs|
  {
    if cs != [] {
      var pre := cs[..|cs| - 1];
      LastValueSome(pre, k);
      if KeyIndex(pre, k) < |pre| {
        KeyIndexUnique(cs, k, KeyIndex(pre, k));
      } else if cs[|cs| - 1].0 != k {
        KeyIndexUnique(cs, k, |cs|);
      }
    }
  }

  /** The keys of a described dict are exactly the assigned names. */
  lemma ReflectsKeys(d: Dict, cs: seq<(string, Json)>, k: string)
    requires Reflects(d, cs)
    ensures Lookup(d, k).Some? <==> KeyIndex(cs, k) < |cs|
  {
    LastValueSome(cs, k);
  }

  /** Appending an assignment moves no first occurrence. */
  lemma KeyIndexSnoc(cs: seq<(string, Json)>, c: (string, Json), k: string)
    ensures KeyIndex(cs, k) < |cs| ==> KeyIndex(cs + [c], k) == KeyIndex(cs, k)
    ensures KeyIndex(cs, k) == |cs| && c.0 == k ==> KeyIndex(cs + [c], k) == |cs|
  {
    if KeyIndex(cs, k) < |cs| || c.0 == k {
      KeyIndexUnique(cs + [c], k, KeyIndex(cs, k));
    }
  }

  lemma PutLookup(d: Dict, cs: seq<(string, Json)>, k: string, v: Json, k': string)
    requires forall k'' :: Lookup(d, k'') == LastValue(cs, k'')
    ensures Lookup(Put(d, k, v), k') == LastValue(cs + [(k, v)], k')
  {
    assert (cs + [(k, v)])[..|cs|] == cs;
  }

  lemma PutOrder(d: Dict, cs: seq<(string, Json)>, k: string, v: Json, i: nat, j: nat)
    requires Reflects(d, cs)
    requires i < j < |Put(d, k, v)|
    ensures KeyIndex(cs + [(k, v)], Put(d, k, v)[i].0) < KeyIndex(cs + [(k, v)], Put(d, k, v)[j].0)
  {
    var r, c := Put(d, k, v), (k, v);
    assert Lookup(d, d[i].0).Some?;
    ReflectsKeys(d, cs, d[i].0);
    KeyIndexSnoc(cs, c, r[i].0);
    if j < |d| {
      assert Lookup(d, d[j].0).Some?;
      ReflectsKeys(d, cs, d[j].0);
      KeyIndexSnoc(cs, c, r[j].0);
    } else {
      ReflectsKeys(d, cs, k);
      KeyIndexSnoc(cs, c, k);
    }
  }

  /** Assigning `k := v` extends the description by that assignment. */
  lemma PutReflects(d: Dict, cs: seq<(string, Json)>, k: string, v: Json)
    requires Reflects(d, cs)
    ensures Reflects(Put(d, k, v), cs + [(k, v)])
  {
    var r, cs' := Put(d, k, v), cs + [(k, v)];
    PutDistinct(d, k, v);
    forall k' ensures Lookup(r, k') == LastValue(cs', k') {
      PutLookup(d, cs, k, v, k');
    }
    forall i: nat, j: nat | i < j < |r|
      ensures KeyIndex(cs', r[i].0) < KeyIndex(cs', r[j].0)
    {
      PutOrder(d, cs, k, v, i, j);
    }
  }
}
