/** The in-memory table each controller keeps: a JavaScript array of records,
    each with a string `id`. These are the array operations the controllers
    call on it (`find`/`findIndex`, `filter`, `splice`) and the uniqueness of
    ids that the id generator is relied on to keep. */
module Tables {
  import opened Wrappers

  /** Every id occurs at most once. */
  ghost predicate Unique<R>(rs: seq<R>, key: R -> string) {
    forall i, j :: 0 <= i < j < |rs| ==> key(rs[i]) != key(rs[j])
  }

  /** Some record carries `id`. */
  predicate HasId<R>(rs: seq<R>, key: R -> string, id: string) {
    exists i :: 0 <= i < |rs| && key(rs[i]) == id
  }

  /** `findIndex(r => r.id === id)`: the first position holding `id`, or
      nothing (JavaScript's -1). */
  function FindIndex<R>(rs: seq<R>, key: R -> string, id: string): (r: Option<nat>)
    ensures r.Some? ==> r.value < |rs| && key(rs[r.value]) == id
    ensures r.Some? ==> forall j :: 0 <= j < r.value ==> key(rs[j]) != id
    ensures r.None? <==> !HasId(rs, key, id)
  {
    if rs == [] then None
    else if key(rs[0]) == id then Some(0)
    else match FindIndex(rs[1..], key, id)
      case None => (assert forall j :: 1 <= j < |rs| ==> rs[j] == rs[1..][j - 1]; None)
      case Some(i) => Some(i + 1)
  }

  /** `filter(r => r.id == id)`: the records with that id, in table order. */
  function Select<R>(rs: seq<R>, key: R -> string, id: string): (r: seq<R>)
    ensures |r| <= |rs|
    ensures forall k :: 0 <= k < |r| ==> r[k] in rs && key(r[k]) == id
    ensures forall k :: 0 <= k < |rs| && key(rs[k]) == id ==> rs[k] in r
  {
    if rs == [] then []
    else if key(rs[0]) == id then [rs[0]] + Select(rs[1..], key, id)
    else Select(rs[1..], key, id)
  }

  /** Filtering keeps the table's order: it distributes over concatenation. */
  lemma {:induction false} SelectAppend<R>(a: seq<R>, b: seq<R>, key: R -> string, id: string)
    ensures Select(a + b, key, id) == Select(a, key, id) + Select(b, key, id)
  {
    if a == [] {
      assert a + b == b;
    } else {
      assert (a + b)[0] == a[0];
      assert (a + b)[1..] == a[1..] + b;
      SelectAppend(a[1..], b, key, id);
    }
  }

  /** In a table with unique ids, the filter for an id held at `i` yields
      exactly that record. */
  lemma {:induction false} SelectUnique<R>(rs: seq<R>, key: R -> string, i: nat)
    requires Unique(rs, key)
    requires i < |rs|
    ensures Select(rs, key, key(rs[i])) == [rs[i]]
  {
    var id := key(rs[i]);
    assert rs == rs[..i] + [rs[i]] + rs[i + 1..];
    SelectAppend(rs[..i] + [rs[i]], rs[i + 1..], key, id);
    SelectAppend(rs[..i], [rs[i]], key, id);
    SelectNone(rs[..i], key, id);
    SelectNone(rs[i + 1..], key, id);
  }

  /** A table without the id filters to nothing. */
  lemma SelectNone<R>(rs: seq<R>, key: R -> string, id: string)
    requires !HasId(rs, key, id)
    ensures Select(rs, key, id) == []
  {
  }

  /** `splice(i, 1)`: the table without its `i`-th record. */
  function RemoveAt<R>(rs: seq<R>, i: nat): (r: seq<R>)
    requires i < |rs|
    ensures |r| == |rs| - 1
    ensures forall j :: 0 <= j < i ==> r[j] == rs[j]
    ensures forall j :: i <= j < |r| ==> r[j] == rs[j + 1]
  {
    rs[..i] + rs[i + 1..]
  }

  /** Removing a record from a table with unique ids keeps them unique and
      leaves no record with the removed id. */
  lemma RemoveAtUnique<R>(rs: seq<R>, key: R -> string, i: nat)
    requires Unique(rs, key)
    requires i < |rs|
    ensures Unique(RemoveAt(rs, i), key)
    ensures !HasId(RemoveAt(rs, i), key, key(rs[i]))
  {
    var r := RemoveAt(rs, i);
    forall a, b | 0 <= a < b < |r| ensures key(r[a]) != key(r[b]) {
      var a' := if a < i then a else a + 1;
      var b' := if b < i then b else b + 1;
      assert r[a] == rs[a'] && r[b] == rs[b'];
    }
    forall j | 0 <= j < |r| ensures key(r[j]) != key(rs[i]) {
      var j' := if j < i then j else j + 1;
      assert r[j] == rs[j'];
    }
  }

  /** Appending a record whose id is new keeps the ids unique. */
  lemma AppendUnique<R>(rs: seq<R>, key: R -> string, x: R)
    requires Unique(rs, key)
    requires !HasId(rs, key, key(x))
    ensures Unique(rs + [x], key)
  {
    var r := rs + [x];
    forall a, b | 0 <= a < b < |r| ensures key(r[a]) != key(r[b]) {
      if b < |rs| {
        assert r[a] == rs[a] && r[b] == rs[b];
      } else {
        assert r[a] == rs[a];
      }
    }
  }

  /** Replacing a record by one with the same id keeps the ids unique and
      the id at every position. */
  lemma ReplaceUnique<R>(rs: seq<R>, key: R -> string, i: nat, x: R)
    requires Unique(rs, key)
    requires i < |rs| && key(x) == key(rs[i])
    ensures Unique(rs[i := x], key)
    ensures forall j :: 0 <= j < |rs| ==> key(rs[i := x][j]) == key(rs[j])
  {
  }

  /** Tables holding the same ids at the same positions answer `findIndex`
      alike. */
  lemma {:induction false} FindIndexSameKeys<R>(rs: seq<R>, rs': seq<R>, key: R -> string, id: string)
    requires |rs| == |rs'|
    requires forall j :: 0 <= j < |rs| ==> key(rs[j]) == key(rs'[j])
    ensures FindIndex(rs, key, id) == FindIndex(rs', key, id)
  {
    if rs != [] && key(rs[0]) != id {
      FindIndexSameKeys(rs[1..], rs'[1..], key, id);
    }
  }
}
