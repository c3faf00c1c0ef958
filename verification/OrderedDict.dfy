/** The dictionary whose iteration order hatrack_view_t promises: an entry written over another
    keeps its place, a new entry goes to the end. */
module OrderedDict {

  datatype Entry = Entry(key: nat, value: nat)

  type Dict = seq<Entry>

  function Write(d: Dict, e: Entry): Dict {
    if d == [] then [e]
    else if d[0].key == e.key then [e] + d[1..]
    else [d[0]] + Write(d[1..], e)
  }

  function Delete(d: Dict, key: nat): Dict {
    if d == [] then []
    else if d[0].key == key then d[1..]
    else [d[0]] + Delete(d[1..], key)
  }

  ghost predicate OneEach(d: Dict) {
    forall i, j :: 0 <= i < j < |d| ==> d[i].key != d[j].key
  }

  lemma {:induction false} WriteEntries(d: Dict, e: Entry, x: Entry)
    requires OneEach(d)
    ensures x in Write(d, e) <==> x == e || (x in d && x.key != e.key)
  {
    if d != [] {
      if d[0].key == e.key {
        var rest := d[1..];
        assert Write(d, e) == [e] + rest;
        assert x in d <==> x == d[0] || x in rest;
        assert x in rest ==> x.key != e.key;
      } else {
        WriteEntries(d[1..], e, x);
        assert Write(d, e) == [d[0]] + Write(d[1..], e);
        assert x in d <==> x == d[0] || x in d[1..];
      }
    }
  }

  lemma {:induction false} DeleteEntries(d: Dict, key: nat, x: Entry)
    requires OneEach(d)
    ensures x in Delete(d, key) <==> x in d && x.key != key
  {
    if d != [] {
      assert x in d <==> x == d[0] || x in d[1..];
      if d[0].key == key {
        assert x in d[1..] ==> x.key != key;
      } else {
        DeleteEntries(d[1..], key, x);
        assert Delete(d, key) == [d[0]] + Delete(d[1..], key);
      }
    }
  }

  // ----- an order given by ranks -----

  /** Strictly rising ranks. */
  ghost predicate Ranked(d: Dict, rank: nat -> nat) {
    forall i, j :: 0 <= i < j < |d| ==> rank(d[i].value) < rank(d[j].value)
  }

  lemma RankedTail(d: Dict, rank: nat -> nat)
    requires Ranked(d, rank) && d != []
    ensures Ranked(d[1..], rank) && forall x :: x in d[1..] ==> rank(d[0].value) < rank(x.value)
  {
    forall i, j | 0 <= i < j < |d[1..]| ensures rank(d[1..][i].value) < rank(d[1..][j].value) {
      assert d[1..][i] == d[i + 1] && d[1..][j] == d[j + 1];
    }
  }

  lemma RankedCons(x: Entry, d: Dict, rank: nat -> nat)
    requires Ranked(d, rank) && forall y :: y in d ==> rank(x.value) < rank(y.value)
    ensures Ranked([x] + d, rank)
  {
    forall i, j | 0 <= i < j < |[x] + d| ensures rank(([x] + d)[i].value) < rank(([x] + d)[j].value) {
      assert ([x] + d)[j] in d;
    }
  }

  /** A write that keeps the rank of what it overwrites, or has the highest rank of all, keeps
      the order. */
  lemma {:induction false} WriteRanked(d: Dict, e: Entry, rank: nat -> nat)
    requires Ranked(d, rank) && OneEach(d)
    requires forall x :: x in d && x.key == e.key ==> rank(x.value) == rank(e.value)
    requires (forall x :: x in d ==> x.key != e.key) ==> forall x :: x in d ==> rank(x.value) < rank(e.value)
    ensures Ranked(Write(d, e), rank)
  {
    if d != [] {
      RankedTail(d, rank);
      if d[0].key == e.key {
        assert d[0] in d;
        RankedCons(e, d[1..], rank);
      } else {
        WriteRanked(d[1..], e, rank);
        forall y | y in Write(d[1..], e) ensures rank(d[0].value) < rank(y.value) {
          WriteEntries(d[1..], e, y);
          if y == e { WriteAbove(d, e, rank); }
        }
        RankedCons(d[0], Write(d[1..], e), rank);
      }
    }
  }

  lemma WriteAbove(d: Dict, e: Entry, rank: nat -> nat)
    requires Ranked(d, rank) && d != [] && d[0].key != e.key
    requires forall x :: x in d && x.key == e.key ==> rank(x.value) == rank(e.value)
    requires (forall x :: x in d ==> x.key != e.key) ==> forall x :: x in d ==> rank(x.value) < rank(e.value)
    ensures rank(d[0].value) < rank(e.value)
  {
    assert d[0] in d;
    if x :| x in d && x.key == e.key {
      var i :| 0 <= i < |d| && d[i] == x;
      assert 0 < i;
    }
  }

  lemma {:induction false} DeleteRanked(d: Dict, key: nat, rank: nat -> nat)
    requires Ranked(d, rank) && OneEach(d)
    ensures Ranked(Delete(d, key), rank)
  {
    if d != [] {
      RankedTail(d, rank);
      if d[0].key != key {
        DeleteRanked(d[1..], key, rank);
        forall y | y in Delete(d[1..], key) ensures rank(d[0].value) < rank(y.value) {
          DeleteEntries(d[1..], key, y);
        }
        RankedCons(d[0], Delete(d[1..], key), rank);
      }
    }
  }

  lemma InRest(d: Dict, x: Entry)
    requires d != []
    ensures x in d <==> x == d[0] || x in d[1..]
  {
  }

  /** The least of the entries comes first. */
  lemma SameFirst(d: Dict, d': Dict, rank: nat -> nat)
    requires Ranked(d, rank) && Ranked(d', rank) && d != [] && d' != [] && forall x :: x in d <==> x in d'
    ensures d[0] == d'[0]
  {
    RankedTail(d, rank);
    RankedTail(d', rank);
    InRest(d, d'[0]);
    InRest(d', d[0]);
  }

  /** Two lists with the same entries, both in strictly rising rank, are the same list. */
  lemma {:induction false} RankedUnique(d: Dict, d': Dict, rank: nat -> nat)
    requires Ranked(d, rank) && Ranked(d', rank) && forall x :: x in d <==> x in d'
    ensures d == d'
  {
    assert d != [] ==> d[0] in d';
    assert d' != [] ==> d'[0] in d;
    if d != [] {
      SameFirst(d, d', rank);
      RankedTail(d, rank);
      RankedTail(d', rank);
      forall x ensures x in d[1..] <==> x in d'[1..] {
        InRest(d, x);
        InRest(d', x);
      }
      RankedUnique(d[1..], d'[1..], rank);
      assert d == [d[0]] + d[1..] && d' == [d'[0]] + d'[1..];
    }
  }
}
