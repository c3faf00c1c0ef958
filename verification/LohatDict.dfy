/** A sorted view is an insertion-ordered dictionary: sorting what a view found by create epoch
    gives the entries, in order, of the dictionary that replays the table's committed records one
    by one up to the view's epoch. */
module LohatDict {
  import opened Options
  import opened LohatModel
  import opened LohatBasic
  import opened LohatSteps
  import opened LohatMemory
  import opened LohatMemorySteps
  import opened LohatViews
  import opened LohatViewSteps
  import opened LohatRuns
  import opened LohatOrder
  import opened OrderedDict

  predicate CommittedAt(s: State, e: nat, r: RecId) {
    r < |s.recs| && s.recs[r].installed && s.recs[r].write == e
  }

  /** The committed records of epochs 1 to L, applied in turn to a dictionary from bucket to
      record: a deletion record deletes, any other writes. */
  ghost function Replay(s: State, L: nat): Dict {
    if L == 0 then []
    else if r: nat :| CommittedAt(s, L, r) then
      if s.recs[r].deleted then Delete(Replay(s, L - 1), s.recs[r].bucket)
      else Write(Replay(s, L - 1), Entry(s.recs[r].bucket, r))
    else Replay(s, L - 1)
  }

  ghost function Rank(s: State): nat -> nat {
    (r: nat) => if r < |s.recs| then CreateEpoch(s.recs[r]) else 0
  }

  /** The entries of d are the live records of the buckets at epoch L. */
  ghost predicate Matches(s: State, d: Dict, L: nat) {
    forall x :: x in d <==> Current(s, L, x)
  }

  ghost predicate Current(s: State, L: nat, x: Entry) {
    Snapshot(s, x.key, L, Some(x.value)) && !s.recs[x.value].deleted
  }

  ghost predicate Sound(s: State) {
    Basic(s) && CommittedBelow(s) && Rising(s) && Created(s)
  }

  // ----- create epochs and write epochs -----

  /** A live record is not younger than its own write. */
  lemma {:induction false} CreateNotAfterWrite(s: State, r: RecId)
    requires Sound(s) && r < |s.recs| && s.recs[r].installed && s.recs[r].write != 0 && !s.recs[r].deleted
    ensures CreateEpoch(s.recs[r]) <= s.recs[r].write
    decreases s.recs[r].pos
  {
    hide Basic, Created;
    CreatedRecord(s, r);
    BasicShapeLogs(s);
    if s.recs[r].create != 0 {
      UnderOnLog(s, r);
      var u := Under(s, r).value;
      assert Older(s, u, r);
      CreateNotAfterWrite(s, u);
    }
  }

  /** What lies under the record of epoch L + 1 was the bucket's state at epoch L. */
  lemma UnderIsSnapshot(s: State, L: nat, r: RecId)
    requires Sound(s) && CommittedAt(s, L + 1, r)
    ensures OnLog(s, r) && Snapshot(s, s.recs[r].bucket, L, Under(s, r))
  {
    hide Basic, Created;
    BasicShapeLogs(s);
    assert OnLog(s, r);
    var x := Under(s, r);
    if x.Some? {
      UnderOnLog(s, r);
      assert Older(s, x.value, r) && Covered(s, x.value);
    }
    forall q: nat | q < |s.recs| && s.recs[q].installed && s.recs[q].bucket == s.recs[r].bucket && s.recs[q].write != 0
      ensures s.recs[q].write > L || (x.Some? && s.recs[q].write <= s.recs[x.value].write)
    {
      assert OnLog(s, q);
      if s.recs[q].pos > s.recs[r].pos {
        assert Older(s, r, q);
      } else if q != r && q != x.value {
        assert Older(s, q, x.value);
      }
    }
  }

  // ----- from epoch L to epoch L + 1 -----

  lemma QuietEpoch(s: State, L: nat, x: Entry)
    requires L != 0 && forall r: nat :: !CommittedAt(s, L, r)
    ensures Current(s, L - 1, x) <==> Current(s, L, x)
  {
    forall q: nat | q < |s.recs| && s.recs[q].installed ensures s.recs[q].write != L {
      assert !CommittedAt(s, L, q);
    }
  }

  lemma BusyEpoch(s: State, L: nat, r: RecId, x: Entry)
    requires EpochsOk(s) && CommittedAt(s, L + 1, r)
    ensures x.key != s.recs[r].bucket ==> (Current(s, L, x) <==> Current(s, L + 1, x))
    ensures x.key == s.recs[r].bucket ==> (Current(s, L + 1, x) <==> x.value == r && !s.recs[r].deleted)
  {
    forall q: nat | q < |s.recs| && s.recs[q].write == L + 1 ensures q == r {
    }
    if x.key == s.recs[r].bucket {
      assert Snapshot(s, x.key, L + 1, Some(r));
      if Snapshot(s, x.key, L + 1, Some(x.value)) {
        SnapshotUnique(s, x.key, L + 1, Some(r), Some(x.value));
      }
    }
  }

  lemma MatchesOneEach(s: State, d: Dict, L: nat)
    requires EpochsOk(s) && Matches(s, d, L) && Ranked(d, Rank(s))
    ensures OneEach(d)
  {
    forall i, j | 0 <= i < j < |d| ensures d[i].key != d[j].key {
      assert d[i] in d && d[j] in d;
      if d[i].key == d[j].key {
        SnapshotUnique(s, d[i].key, L, Some(d[i].value), Some(d[j].value));
      }
    }
  }

  /** A write over a live record keeps its rank; any other gets a rank above all before it. */
  lemma WriteRank(s: State, d: Dict, L: nat, r: RecId)
    requires Sound(s) && Matches(s, d, L) && CommittedAt(s, L + 1, r) && !s.recs[r].deleted
    ensures var e := Entry(s.recs[r].bucket, r);
            && (forall x :: x in d && x.key == e.key ==> Rank(s)(x.value) == Rank(s)(r))
            && ((forall x :: x in d ==> x.key != e.key) ==> forall x :: x in d ==> Rank(s)(x.value) < Rank(s)(r))
  {
    hide Basic, Created;
    UnderIsSnapshot(s, L, r);
    CreatedRecord(s, r);
    BasicShapeLogs(s);
    var b, u := s.recs[r].bucket, Under(s, r);
    forall x | x in d && x.key == b ensures u == Some(x.value) {
      assert Current(s, L, x);
      SnapshotUnique(s, b, L, u, Some(x.value));
    }
    if u.Some? && !s.recs[u.value].deleted {
      assert Current(s, L, Entry(b, u.value));
      assert Entry(b, u.value) in d;
    } else {
      forall x | x in d ensures Rank(s)(x.value) < Rank(s)(r) {
        assert Current(s, L, x);
        CreateNotAfterWrite(s, x.value);
      }
    }
  }

  /** The replayed dictionary holds exactly the live records of every bucket at epoch L, in the
      order of their create epochs. */
  lemma {:induction false} ReplayIsTable(s: State, L: nat)
    requires Sound(s)
    ensures Matches(s, Replay(s, L), L) && Ranked(Replay(s, L), Rank(s))
  {
    if L == 0 {
      EmptyTable(s);
    } else {
      ReplayIsTable(s, L - 1);
      hide Sound, Matches, Ranked, Replay, CommittedAt;
      if r: nat :| CommittedAt(s, L, r) {
        BusyReplay(s, L, r);
      } else {
        QuietReplay(s, L);
      }
    }
  }

  lemma QuietReplay(s: State, L: nat)
    requires L != 0 && Matches(s, Replay(s, L - 1), L - 1) && forall r: nat :: !CommittedAt(s, L, r)
    ensures Replay(s, L) == Replay(s, L - 1) && Matches(s, Replay(s, L), L)
  {
    hide Current;
    var d := Replay(s, L - 1);
    assert Replay(s, L) == d by { hide CommittedAt; }
    hide Replay;
    forall x ensures x in d <==> Current(s, L, x) { QuietEpoch(s, L, x); }
  }

  lemma BusyReplay(s: State, L: nat, r: RecId)
    requires Sound(s) && L != 0 && CommittedAt(s, L, r)
    requires Matches(s, Replay(s, L - 1), L - 1) && Ranked(Replay(s, L - 1), Rank(s))
    ensures Matches(s, Replay(s, L), L) && Ranked(Replay(s, L), Rank(s))
  {
    hide Basic, Matches, Ranked, Replay;
    BasicShapeLogs(s);
    MatchesOneEach(s, Replay(s, L - 1), L - 1);
    OneAtATime(s, L, r);
    ReplayStep(s, Replay(s, L - 1), L - 1, r);
  }

  lemma EmptyTable(s: State)
    ensures Matches(s, [], 0)
  {
  }

  lemma OneAtATime(s: State, L: nat, r: RecId)
    requires EpochsOk(s) && CommittedAt(s, L, r) && L != 0
    ensures Replay(s, L) == if s.recs[r].deleted then Delete(Replay(s, L - 1), s.recs[r].bucket)
                            else Write(Replay(s, L - 1), Entry(s.recs[r].bucket, r))
  {
    forall q: nat | CommittedAt(s, L, q) ensures q == r {
    }
  }

  lemma ReplayStep(s: State, d: Dict, L: nat, r: RecId)
    requires Sound(s) && Matches(s, d, L) && Ranked(d, Rank(s)) && OneEach(d) && CommittedAt(s, L + 1, r)
    ensures var e := Entry(s.recs[r].bucket, r);
            var d' := if s.recs[r].deleted then Delete(d, e.key) else Write(d, e);
            Matches(s, d', L + 1) && Ranked(d', Rank(s))
  {
    hide Basic, Created, Current;
    BasicShapeLogs(s);
    var e := Entry(s.recs[r].bucket, r);
    forall x
      ensures x in Delete(d, e.key) <==> x in d && x.key != e.key
      ensures x in Write(d, e) <==> x == e || (x in d && x.key != e.key)
      ensures s.recs[r].deleted ==> (x in Delete(d, e.key) <==> Current(s, L + 1, x))
      ensures !s.recs[r].deleted ==> (x in Write(d, e) <==> Current(s, L + 1, x))
    {
      WriteEntries(d, e, x);
      DeleteEntries(d, e.key, x);
      BusyEpoch(s, L, r, x);
    }
    if s.recs[r].deleted {
      DeleteRanked(d, e.key, Rank(s));
    } else {
      WriteRank(s, d, L, r);
      WriteRanked(d, e, Rank(s));
    }
  }

  // ----- sorting -----

  /** The conversion of a 64-bit difference to int in hatrack_quicksort_cmp(). */
  function ToInt32(x: int): int {
    var m := x % 0x1_0000_0000;
    if m >= 0x8000_0000 then m - 0x1_0000_0000 else m
  }

  function CompareEpochs(a: nat, b: nat): int {
    ToInt32(a - b)
  }

  /** The comparison has the right sign. */
  predicate ComparesRight(a: nat, b: nat) {
    (a < b <==> CompareEpochs(a, b) < 0) && (a == b <==> CompareEpochs(a, b) == 0)
  }

  /** hatrack_quicksort_cmp() orders two epochs correctly if and only if their distance, taken
      modulo 2^32, is a positive int (or 2^31, in favour of the smaller). */
  lemma ComparesRightIff(a: nat, b: nat)
    ensures ComparesRight(a, b) <==>
            || a == b
            || (a > b && 0 < (a - b) % 0x1_0000_0000 < 0x8000_0000)
            || (a < b && 0 < (b - a) % 0x1_0000_0000 <= 0x8000_0000)
  {
    if a < b {
      var d := b - a;
      assert (a - b) % 0x1_0000_0000 == (if d % 0x1_0000_0000 == 0 then 0 else 0x1_0000_0000 - d % 0x1_0000_0000);
    }
  }

  /** It is wrong for an epoch and the one 2^31 later. */
  lemma ComparesWrong(a: nat)
    ensures CompareEpochs(a + 0x8000_0000, a) < 0 && !ComparesRight(a + 0x8000_0000, a)
    ensures CompareEpochs(a + 0x1_0000_0000, a) == 0
  {
  }

  /** lohat_view() before qsort(): the live records, bucket by bucket. */
  function Listing(recs: seq<Record>, out: seq<Option<RecId>>): Dict {
    if out == [] then []
    else
      var m := |out| - 1;
      var rest := Listing(recs, out[..m]);
      match out[m]
      case None => rest
      case Some(r) => if r < |recs| && !recs[r].deleted then rest + [Entry(m, r)] else rest
  }

  lemma {:induction false} ListingEntries(recs: seq<Record>, out: seq<Option<RecId>>, x: Entry)
    ensures x in Listing(recs, out) <==>
            x.key < |out| && out[x.key] == Some(x.value) && x.value < |recs| && !recs[x.value].deleted
  {
    if out != [] {
      var m := |out| - 1;
      ListingEntries(recs, out[..m], x);
      if x.key < m { assert out[..m][x.key] == out[x.key]; }
    }
  }

  /** Arranged so that the comparison never puts a later entry before an earlier one. */
  ghost predicate Arranged(s: State, v: Dict) {
    forall i, j :: 0 <= i < j < |v| ==> CompareEpochs(Rank(s)(v[i].value), Rank(s)(v[j].value)) <= 0
  }

  /** For every two entries, the larger create epoch minus the smaller, modulo 2^32, is a positive
      int. */
  ghost predicate Sortable(s: State, v: Dict) {
    forall x, y :: x in v && y in v ==> Apart(Rank(s)(x.value), Rank(s)(y.value))
  }

  predicate Apart(a: nat, b: nat) {
    a > b ==> 0 < (a - b) % 0x1_0000_0000 < 0x8000_0000
  }

  /** hatrack_quicksort_cmp() orders every two entries, passed in either order, by create epoch if
      and only if the entries are sortable. */
  lemma ComparesAllIff(s: State, v: Dict)
    ensures (forall x, y :: x in v && y in v ==> ComparesRight(Rank(s)(x.value), Rank(s)(y.value))) <==> Sortable(s, v)
  {
    forall x, y | x in v && y in v
      ensures ComparesRight(Rank(s)(x.value), Rank(s)(y.value))
              && ComparesRight(Rank(s)(y.value), Rank(s)(x.value)) <==>
              Apart(Rank(s)(x.value), Rank(s)(y.value)) && Apart(Rank(s)(y.value), Rank(s)(x.value))
    {
      BothWaysIff(Rank(s)(x.value), Rank(s)(y.value));
    }
    hide Rank, ComparesRight, Apart;
  }

  lemma BothWaysIff(a: nat, b: nat)
    ensures ComparesRight(a, b) && ComparesRight(b, a) <==> Apart(a, b) && Apart(b, a)
  {
    ComparesRightIff(a, b);
    ComparesRightIff(b, a);
    hide ComparesRight;
  }

  lemma {:induction false} ListingOnce(recs: seq<Record>, out: seq<Option<RecId>>, x: Entry)
    ensures multiset(Listing(recs, out))[x] <= 1
  {
    if out != [] {
      var m := |out| - 1;
      ListingOnce(recs, out[..m], x);
      ListingEntries(recs, out[..m], x);
      var rest := Listing(recs, out[..m]);
      assert x in multiset(rest) <==> x in rest;
      assert forall e :: multiset(rest + [e]) == multiset(rest) + multiset{e};
    }
  }

  lemma TwoPlaces(v: Dict, i: nat, j: nat)
    requires i < j < |v| && v[i] == v[j]
    ensures multiset(v)[v[i]] >= 2
  {
    assert v == v[..j] + [v[j]] + v[j + 1..];
    assert v[..j][i] in multiset(v[..j]);
  }

  lemma ArrangedIsRanked(s: State, v: Dict, d: Dict)
    requires Ranked(d, Rank(s)) && forall x :: x in v <==> x in d
    requires forall i, j :: 0 <= i < j < |v| ==> v[i] != v[j]
    requires Arranged(s, v) && Sortable(s, v)
    ensures Ranked(v, Rank(s))
  {
    hide Rank, Ranked, CompareEpochs, ComparesRight, Apart;
    forall i, j | 0 <= i < j < |v| ensures Rank(s)(v[i].value) < Rank(s)(v[j].value) {
      assert v[i] in v && v[j] in v;
      RanksDiffer(d, Rank(s), v[i], v[j]);
      ApartCompare(Rank(s)(v[i].value), Rank(s)(v[j].value));
    }
    RankedIf(v, Rank(s));
  }

  lemma RanksDiffer(d: Dict, rank: nat -> nat, x: Entry, y: Entry)
    requires Ranked(d, rank) && x in d && y in d && x != y
    ensures rank(x.value) != rank(y.value)
  {
    var k :| 0 <= k < |d| && d[k] == x;
    var m :| 0 <= m < |d| && d[m] == y;
    assert k < m || m < k;
  }

  lemma RankedIf(d: Dict, rank: nat -> nat)
    requires forall i, j :: 0 <= i < j < |d| ==> rank(d[i].value) < rank(d[j].value)
    ensures Ranked(d, rank)
  {
  }

  lemma ApartCompare(a: nat, b: nat)
    requires a != b && Apart(a, b) && Apart(b, a) && CompareEpochs(a, b) <= 0
    ensures a < b
  {
    ComparesRightIff(a, b);
  }

  /** What a finished view has found: the entries of the replayed dictionary, each once. */
  lemma ListingIsReplay(n: nat, states: seq<State>, events: seq<Event>, i: nat, t: Tid)
    requires Run(n, states, events) && AllLinked(states, events) && AllCommitted(states, events)
    requires i < |states| && t in states[i].threads
    requires states[i].threads[t].loc.op.View? && states[i].threads[t].loc.at.Returning?
    ensures var s, op := states[i], states[i].threads[t].loc.op;
            && Ranked(Replay(s, op.lin), Rank(s))
            && multiset(Replay(s, op.lin)) == multiset(Listing(s.recs, op.out))
            && forall x :: multiset(Listing(s.recs, op.out))[x] <= 1
  {
    hide Basic, Created, Memory, Ordered, Views, Snapshot, Replay, Ranked;
    var s, op := states[i], states[i].threads[t].loc.op;
    RunViews(n, states, events, i);
    RunCreated(n, states, events, i);
    ViewCovers(n, states, events, i, t);
    OrderedBelow(s);
    BasicShapeLogs(s);
    ReplayIsTable(s, op.lin);
    var list, d := Listing(s.recs, op.out), Replay(s, op.lin);
    forall x ensures multiset(d)[x] == multiset(list)[x] && multiset(list)[x] <= 1 {
      ListingOnce(s.recs, op.out, x);
      RankedOnce(d, Rank(s), x);
      assert x in list <==> x in multiset(list);
      assert x in d <==> x in multiset(d);
      ListingEntries(s.recs, op.out, x);
      ListedIsCurrent(n, states, events, i, t, x);
    }
  }

  lemma {:induction false} RankedOnce(d: Dict, rank: nat -> nat, x: Entry)
    requires Ranked(d, rank)
    ensures multiset(d)[x] <= 1
  {
    if d != [] {
      RankedTail(d, rank);
      RankedOnce(d[1..], rank, x);
      assert d == [d[0]] + d[1..];
      assert x in d[1..] <==> x in multiset(d[1..]);
    }
  }

  /** A finished view, sorted: whatever order qsort() arranges its entries in under
      hatrack_quicksort_cmp(), it is the order of the insertion-ordered dictionary at the view's
      epoch, as long as the entries are sortable. */
  lemma ViewSorted(n: nat, states: seq<State>, events: seq<Event>, i: nat, t: Tid, v: Dict)
    requires Run(n, states, events) && AllLinked(states, events) && AllCommitted(states, events)
    requires i < |states| && t in states[i].threads
    requires states[i].threads[t].loc.op.View? && states[i].threads[t].loc.at.Returning?
    requires multiset(v) == multiset(Listing(states[i].recs, states[i].threads[t].loc.op.out))
    requires Arranged(states[i], v) && Sortable(states[i], v)
    ensures v == Replay(states[i], states[i].threads[t].loc.op.lin)
  {
    hide Run, AllLinked, AllCommitted, Replay, Ranked, Arranged, Sortable, Rank;
    var s, op := states[i], states[i].threads[t].loc.op;
    ListingIsReplay(n, states, events, i, t);
    var d := Replay(s, op.lin);
    forall x ensures x in v <==> x in d {
      assert x in v <==> x in multiset(v);
      assert x in d <==> x in multiset(d);
    }
    forall j, k | 0 <= j < k < |v| ensures v[j] != v[k] {
      if v[j] == v[k] { TwoPlaces(v, j, k); }
    }
    ArrangedIsRanked(s, v, d);
    RankedUnique(v, d, Rank(s));
  }

  // ----- exactly when the sort is right -----

  /** What qsort() demands of a comparison: exchanging the arguments exchanges the sign. */
  ghost predicate Consistent(s: State, v: Dict) {
    forall x, y :: x in v && y in v ==> Opposite(Rank(s)(x.value), Rank(s)(y.value))
  }

  predicate Opposite(a: nat, b: nat) {
    CompareEpochs(a, b) < 0 <==> CompareEpochs(b, a) > 0
  }

  /** The comparison is one that qsort() accepts, and d is the only order it can arrange the list
      in. */
  ghost predicate SortsInto(s: State, list: Dict, d: Dict) {
    && Consistent(s, list) && Arranged(s, d)
    && forall v: Dict :: multiset(v) == multiset(list) && Arranged(s, v) ==> v == d
  }

  /** The sort of a finished view is right if and only if its entries are sortable. */
  lemma ViewSortedIff(n: nat, states: seq<State>, events: seq<Event>, i: nat, t: Tid)
    requires Run(n, states, events) && AllLinked(states, events) && AllCommitted(states, events)
    requires i < |states| && t in states[i].threads
    requires states[i].threads[t].loc.op.View? && states[i].threads[t].loc.at.Returning?
    ensures var s, op := states[i], states[i].threads[t].loc.op;
            var list := Listing(s.recs, op.out);
            SortsInto(s, list, Replay(s, op.lin)) <==> Sortable(s, list)
  {
    hide Run, AllLinked, AllCommitted, Replay, Ranked, Arranged, Sortable, Rank, Consistent;
    var s, op := states[i], states[i].threads[t].loc.op;
    var list, d := Listing(s.recs, op.out), Replay(s, op.lin);
    ListingIsReplay(n, states, events, i, t);
    if Sortable(s, list) {
      RankedArranged(s, list, d);
      SortableConsistent(s, list);
      forall v: Dict | multiset(v) == multiset(list) && Arranged(s, v) ensures v == d {
        SortableSame(s, list, v);
        ViewSorted(n, states, events, i, t, v);
      }
    } else if SortsInto(s, list, d) {
      SortsOnly(s, list, d);
    }
  }

  lemma SortableSame(s: State, list: Dict, v: Dict)
    requires multiset(v) == multiset(list) && Sortable(s, list)
    ensures Sortable(s, v)
  {
    hide Rank, Apart;
    forall x, y | x in v && y in v ensures Apart(Rank(s)(x.value), Rank(s)(y.value)) {
      assert x in multiset(v) && y in multiset(v);
      assert x in multiset(list) && y in multiset(list);
    }
  }

  lemma SortableConsistent(s: State, list: Dict)
    requires Sortable(s, list)
    ensures Consistent(s, list)
  {
    hide Rank;
    forall x, y | x in list && y in list ensures Opposite(Rank(s)(x.value), Rank(s)(y.value)) {
      BothWaysIff(Rank(s)(x.value), Rank(s)(y.value));
      assert Apart(Rank(s)(x.value), Rank(s)(y.value)) && Apart(Rank(s)(y.value), Rank(s)(x.value));
      hide CompareEpochs, Apart;
    }
  }

  lemma RankedArranged(s: State, list: Dict, d: Dict)
    requires Ranked(d, Rank(s)) && multiset(d) == multiset(list) && Sortable(s, list)
    ensures Arranged(s, d)
  {
    SortableSame(s, list, d);
    hide Rank, CompareEpochs, Apart;
    forall i, j | 0 <= i < j < |d| ensures CompareEpochs(Rank(s)(d[i].value), Rank(s)(d[j].value)) <= 0 {
      assert d[i] in d && d[j] in d;
      BothWaysIff(Rank(s)(d[i].value), Rank(s)(d[j].value));
    }
  }

  /** Two entries that are not apart: either the comparison is inconsistent on them, or it puts the
      later first, or it takes them for equal and they can be exchanged. */
  lemma SortsPair(s: State, list: Dict, d: Dict, i: nat, j: nat)
    requires Ranked(d, Rank(s)) && multiset(d) == multiset(list) && SortsInto(s, list, d) && i < |d| && j < |d|
    ensures Apart(Rank(s)(d[j].value), Rank(s)(d[i].value))
  {
    hide Rank, Apart, CompareEpochs;
    var a, b := Rank(s)(d[j].value), Rank(s)(d[i].value);
    if !Apart(a, b) {
      NotApart(a, b);
      assert d[i] in multiset(d) && d[j] in multiset(d);
      assert d[i] in list && d[j] in list by { assert d[i] in multiset(list) && d[j] in multiset(list); }
      assert Opposite(a, b);
      assert i < j by { hide SortsInto; }
      assert CompareEpochs(b, a) <= 0;
      NotApartSame(a, b);
      Exchanged(s, list, d, i, j);
    }
  }

  lemma SortsOnly(s: State, list: Dict, d: Dict)
    requires Ranked(d, Rank(s)) && multiset(d) == multiset(list) && SortsInto(s, list, d)
    ensures Sortable(s, list)
  {
    hide Rank, Apart, CompareEpochs, SortsInto, Ranked;
    forall x, y | x in list && y in list ensures Apart(Rank(s)(x.value), Rank(s)(y.value)) {
      assert x in multiset(list) && y in multiset(list);
      assert x in multiset(d) && y in multiset(d);
      var j :| 0 <= j < |d| && d[j] == x;
      var i :| 0 <= i < |d| && d[i] == y;
      SortsPair(s, list, d, i, j);
    }
  }

  lemma NotApart(a: nat, b: nat)
    requires !Apart(a, b)
    ensures b < a
  {
  }

  lemma NotApartSame(a: nat, b: nat)
    requires !Apart(a, b) && Opposite(a, b) && CompareEpochs(b, a) <= 0
    ensures Residue(a) == Residue(b)
  {
    var d := (a - b) % 0x1_0000_0000;
    assert (b - a) % 0x1_0000_0000 == if d == 0 then 0 else 0x1_0000_0000 - d;
  }

  lemma Exchanged(s: State, list: Dict, d: Dict, i: nat, j: nat)
    requires i < j < |d| && multiset(d) == multiset(list) && Arranged(s, d)
    requires Residue(Rank(s)(d[j].value)) == Residue(Rank(s)(d[i].value))
    ensures var v := d[i := d[j]][j := d[i]]; multiset(v) == multiset(list) && Arranged(s, v)
  {
    var v := d[i := d[j]][j := d[i]];
    hide Rank, CompareEpochs, Residue;
    SwapPermutes(d, i, j);
    forall k, m | 0 <= k < m < |v| ensures CompareEpochs(Rank(s)(v[k].value), Rank(s)(v[m].value)) <= 0 {
      SameResidue(Rank(s)(v[k].value), Rank(s)(d[k].value), Rank(s)(v[m].value), Rank(s)(d[m].value));
    }
  }

  function Residue(a: nat): nat {
    a % 0x1_0000_0000
  }

  lemma SwapPermutes(d: Dict, i: nat, j: nat)
    requires i < j < |d|
    ensures multiset(d[i := d[j]][j := d[i]]) == multiset(d)
  {
  }

  /** The comparison sees epochs modulo 2^32 only. */
  lemma SameResidue(a: nat, a': nat, b: nat, b': nat)
    requires Residue(a) == Residue(a') && Residue(b) == Residue(b')
    ensures CompareEpochs(a, b) == CompareEpochs(a', b')
  {
  }

  lemma ListedIsCurrent(n: nat, states: seq<State>, events: seq<Event>, i: nat, t: Tid, x: Entry)
    requires Run(n, states, events) && AllLinked(states, events) && AllCommitted(states, events)
    requires i < |states| && t in states[i].threads
    requires states[i].threads[t].loc.op.View? && states[i].threads[t].loc.at.Returning?
    requires Basic(states[i]) && |states[i].threads[t].loc.op.out| == |states[i].log|
    ensures var s, op := states[i], states[i].threads[t].loc.op;
            (x.key < |op.out| && op.out[x.key] == Some(x.value) && x.value < |s.recs| && !s.recs[x.value].deleted)
            <==> Current(s, op.lin, x)
  {
    hide Basic;
    var s, op := states[i], states[i].threads[t].loc.op;
    BasicShapeLogs(s);
    if x.key < |op.out| {
      ViewIsSnapshot(n, states, events, i, i, t, x.key);
      if Snapshot(s, x.key, op.lin, Some(x.value)) {
        SnapshotUnique(s, x.key, op.lin, op.out[x.key], Some(x.value));
      }
    }
    assert Snapshot(s, x.key, op.lin, Some(x.value)) ==> OnLog(s, x.value);
  }
}
