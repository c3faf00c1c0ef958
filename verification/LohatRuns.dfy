/** The theorems about whole runs: any number of threads, any interleaving, any length. */
module LohatRuns {
  import opened Options
  import opened LohatModel
  import opened LohatBasic
  import opened LohatSteps
  import opened LohatMemory
  import opened LohatMemorySteps
  import opened LohatViews
  import opened LohatViewSteps

  datatype Event = Event(who: Tid, act: Action)

  /** `states[i]` is the table before the i-th event; the table starts empty with n buckets. */
  ghost predicate Run(n: nat, states: seq<State>, events: seq<Event>) {
    && |states| == |events| + 1 && states[0] == Init(n)
    && forall i :: 0 <= i < |events| ==> Takes(states[i], events[i], states[i + 1])
  }

  ghost predicate Takes(s: State, e: Event, s': State) {
    Shape(s) && Enabled(s, e.who, e.act) && s' == Apply(s, e.who, e.act)
  }

  /** In every successful CAS the candidate is linked to the head it replaces. */
  ghost predicate AllLinked(states: seq<State>, events: seq<Event>)
    requires |states| == |events| + 1
  {
    forall i :: 0 <= i < |events| ==> LinksHead(states[i], events[i].who, events[i].act)
  }

  /** In every successful CAS the head being replaced has its write epoch. */
  ghost predicate AllCommitted(states: seq<State>, events: seq<Event>)
    requires |states| == |events| + 1
  {
    forall i :: 0 <= i < |events| ==> OverCommitted(states[i], events[i].who, events[i].act)
  }

  lemma InitBasic(n: nat)
    ensures Basic(Init(n)) && Memory(Init(n)) && Ordered(Init(n)) && Views(Init(n))
  {
  }

  lemma {:induction false} RunBasic(n: nat, states: seq<State>, events: seq<Event>, i: nat)
    requires Run(n, states, events) && i < |states|
    ensures Basic(states[i])
  {
    hide Basic;
    if i == 0 {
      InitBasic(n);
    } else {
      RunBasic(n, states, events, i - 1);
      assert Takes(states[i - 1], events[i - 1], states[i]);
      StepBasic(states[i - 1], events[i - 1].who, events[i - 1].act);
    }
  }

  lemma {:induction false} RunMemory(n: nat, states: seq<State>, events: seq<Event>, i: nat)
    requires Run(n, states, events) && AllLinked(states, events) && i < |states|
    ensures Basic(states[i]) && Memory(states[i])
  {
    hide Basic, Memory;
    RunBasic(n, states, events, i);
    if i == 0 {
      InitBasic(n);
    } else {
      RunMemory(n, states, events, i - 1);
      assert Takes(states[i - 1], events[i - 1], states[i]);
      StepMemory(states[i - 1], events[i - 1].who, events[i - 1].act);
    }
  }

  lemma {:induction false} RunOrdered(n: nat, states: seq<State>, events: seq<Event>, i: nat)
    requires Run(n, states, events) && AllCommitted(states, events) && i < |states|
    ensures Basic(states[i]) && Ordered(states[i])
  {
    hide Basic, Ordered, OverCommitted;
    RunBasic(n, states, events, i);
    if i == 0 {
      InitBasic(n);
    } else {
      RunOrdered(n, states, events, i - 1);
      assert Takes(states[i - 1], events[i - 1], states[i]);
      OrderedKept(states[i - 1], events[i - 1].who, events[i - 1].act);
    }
  }

  lemma {:induction false} RunViews(n: nat, states: seq<State>, events: seq<Event>, i: nat)
    requires Run(n, states, events) && AllLinked(states, events) && AllCommitted(states, events) && i < |states|
    ensures Basic(states[i]) && Memory(states[i]) && Ordered(states[i]) && Views(states[i])
  {
    hide Basic, Memory, Ordered, Views;
    RunMemory(n, states, events, i);
    RunOrdered(n, states, events, i);
    if i == 0 {
      InitBasic(n);
    } else {
      RunViews(n, states, events, i - 1);
      assert Takes(states[i - 1], events[i - 1], states[i]);
      ViewsKept(states[i - 1], events[i - 1].who, events[i - 1].act);
    }
  }

  // ----- every run -----

  /** What no step undoes, for one record. */
  ghost predicate Later(s: State, s': State, r: RecId) {
    r < |s.recs| ==>
      && r < |s'.recs| && s.epoch <= s'.epoch
      && (s.recs[r].write != 0 ==> s'.recs[r].write == s.recs[r].write)
      && (s.recs[r].retire != 0 ==> s'.recs[r].retire == s.recs[r].retire)
      && (s.recs[r].installed ==> s'.recs[r].(write := 0, retire := 0) == s.recs[r].(write := 0, retire := 0))
      && (r in s.freed ==> r in s'.freed)
  }

  lemma LaterTrans(s: State, s1: State, s2: State, r: RecId)
    requires Later(s, s1, r) && Later(s1, s2, r)
    ensures Later(s, s2, r)
  {
  }

  lemma StepLater(s: State, e: Event, s': State, r: RecId)
    requires Basic(s) && Takes(s, e, s')
    ensures Later(s, s', r)
  {
    hide Basic;
    StepBasic(s, e.who, e.act);
    hide Apply, Enabled, Shape;
    if r < |s.recs| { assert RecordEvolves(s.recs[r], s'.recs[r], e.who); }
  }

  lemma {:induction false} RunEvolves(n: nat, states: seq<State>, events: seq<Event>, i: nat, j: nat, r: RecId)
    requires Run(n, states, events) && i <= j < |states|
    ensures Later(states[i], states[j], r)
    decreases j
  {
    hide Run, Later;
    if i < j {
      RunEvolves(n, states, events, i, j - 1, r);
      RunStep(n, states, events, j, r);
      LaterTrans(states[i], states[j - 1], states[j], r);
    } else {
      LaterSelf(states[i], r);
    }
  }

  lemma LaterSelf(s: State, r: RecId)
    ensures Later(s, s, r)
  {
  }

  lemma RunStep(n: nat, states: seq<State>, events: seq<Event>, j: nat, r: RecId)
    requires Run(n, states, events) && 0 < j < |states|
    ensures Later(states[j - 1], states[j], r)
  {
    hide Basic, Later, Takes;
    RunBasic(n, states, events, j - 1);
    assert Takes(states[j - 1], events[j - 1], states[j]);
    StepLater(states[j - 1], events[j - 1], states[j], r);
  }

  /** In every run, whoever helps and however often: a record's write epoch is set at most once,
      and no two records of the table ever have the same one. */
  lemma WriteEpochsOnce(n: nat, states: seq<State>, events: seq<Event>, i: nat, j: nat, q: RecId, r: RecId)
    requires Run(n, states, events) && i <= j < |states|
    requires q < |states[i].recs| && r < |states[j].recs| && states[i].recs[q].write != 0
    ensures q < |states[j].recs| && states[j].recs[q].write == states[i].recs[q].write
    ensures q != r ==> states[j].recs[r].write != states[i].recs[q].write
    ensures states[i].recs[q].write <= states[i].epoch
  {
    hide Basic;
    RunEvolves(n, states, events, i, j, q);
    RunBasic(n, states, events, i);
    RunBasic(n, states, events, j);
    BasicRecord(states[i], q);
    BasicShapeLogs(states[j]);
  }

  /** In every run a record is retired once, by the thread that covered it, and no record is
      freed twice or while it is the head of its bucket. */
  lemma RetiredOnce(n: nat, states: seq<State>, events: seq<Event>, i: nat, t: Tid)
    requires Run(n, states, events) && i < |events| && events[i] == Event(t, Proceed)
    requires t in states[i].threads && states[i].threads[t].loc.at.Retiring?
    ensures var l := states[i].threads[t].loc;
            && l.head.Some? && l.head.value < |states[i].recs|
            && states[i].recs[l.head.value].retire == 0
            && l.head.value !in states[i].freed
            && (forall u :: u in states[i].threads ==> l.head.value !in states[i].threads[u].retired)
            && l.bucket < |states[i].log| && Head(states[i], l.bucket) != l.head
  {
    var s := states[i];
    RunBasic(n, states, events, i);
    hide Basic;
    BasicThread(s, t);
    var l := s.threads[t].loc;
    BasicRecord(s, l.head.value);
    forall u, k | u in s.threads && 0 <= k < |s.threads[u].retired| ensures s.threads[u].retired[k] != l.head.value {
      BasicList(s, u);
      assert ListCell(s, u, s.threads[u].retired[k]);
    }
    UnderOnLog(s, l.mine.value);
    HeadOnLog(s, l.bucket);
  }

  /** What mmm_empty() frees: exactly the cells of the thread's own list that were retired below
      the lowest reservation it read; nobody has freed them before, and they leave the list. */
  lemma FreedOnce(n: nat, states: seq<State>, events: seq<Event>, i: nat, t: Tid, x: RecId)
    requires Run(n, states, events) && i < |events| && events[i] == Event(t, FinishScan)
    requires t in states[i].threads && states[i].threads[t].scan.Some? && x in states[i].threads[t].retired
    ensures x !in states[i].freed && x < |states[i].recs|
    ensures forall u :: u in states[i].threads && u != t ==> x !in states[i].threads[u].retired
    ensures x in states[i + 1].freed <==> Below(states[i].recs[x].retire, states[i].threads[t].scan.value.low)
    ensures t in states[i + 1].threads && (x in states[i + 1].freed <==> x !in states[i + 1].threads[t].retired)
  {
    hide Basic;
    RunBasic(n, states, events, i);
    assert Takes(states[i], events[i], states[i + 1]);
    BasicShape(states[i]);
    ListInside(states[i], t);
    ScanFreesBelow(states[i], t, x, states[i + 1]);
  }

  lemma ListInside(s: State, u: Tid)
    requires Shape(s) && u in s.threads
    ensures forall i :: 0 <= i < |s.threads[u].retired| ==> s.threads[u].retired[i] < |s.recs|
    ensures forall x :: x in s.threads[u].retired ==> x < |s.recs|
  {
  }

  lemma ScanFreesBelow(s: State, t: Tid, x: RecId, s': State)
    requires Shape(s) && Enabled(s, t, FinishScan) && x in s.threads[t].retired && x < |s.recs|
    requires s' == ScanFree(s, t) && Basic(s)
    ensures x !in s.freed && forall u :: u in s.threads && u != t ==> x !in s.threads[u].retired
    ensures x in s'.freed <==> Below(s.recs[x].retire, s.threads[t].scan.value.low)
    ensures t in s'.threads && (x in s'.freed <==> x !in s'.threads[t].retired)
  {
    hide Basic;
    ListInside(s, t);
    hide Shape;
    var cells, low := s.threads[t].retired, s.threads[t].scan.value.low;
    var k := CutAt(s.recs, cells, low);
    var j :| 0 <= j < |cells| && cells[j] == x;
    CellBelow(s, t, j, k);
    forall u, m | u in s.threads && u != t && 0 <= m < |s.threads[u].retired| ensures s.threads[u].retired[m] != x {
      OtherCell(s, t, x, j, u, m);
    }
    hide CutAt, Below, Enabled;
    forall i | 0 <= i < |cells| && cells[i] == x ensures k <= i <==> k <= j { CellBelow(s, t, i, k); }
    if j < k { assert cells[..k][j] == x; } else { assert cells[k..][j - k] == x; }
  }

  /** A cell of the list was never freed, and is below the lowest reservation if it is at or after
      the cut. */
  lemma CellBelow(s: State, t: Tid, j: nat, k: nat)
    requires Basic(s) && Enabled(s, t, FinishScan) && j < |s.threads[t].retired|
    requires forall i :: 0 <= i < |s.threads[t].retired| ==> s.threads[t].retired[i] < |s.recs|
    requires k == CutAt(s.recs, s.threads[t].retired, s.threads[t].scan.value.low)
    ensures var x := s.threads[t].retired[j];
            x !in s.freed && (k <= j <==> Below(s.recs[x].retire, s.threads[t].scan.value.low))
  {
    hide Basic;
    BasicList(s, t);
    assert ListCell(s, t, s.threads[t].retired[j]);
  }

  lemma OtherCell(s: State, t: Tid, x: RecId, j: nat, u: Tid, m: nat)
    requires Basic(s) && t in s.threads && u in s.threads && u != t
    requires j < |s.threads[t].retired| && s.threads[t].retired[j] == x && m < |s.threads[u].retired|
    ensures s.threads[u].retired[m] != x
  {
    hide Basic;
    BasicList(s, t);
    BasicList(s, u);
    assert ListCell(s, t, x);
    assert ListCell(s, u, s.threads[u].retired[m]);
  }

  // ----- runs without a stale link -----

  /** No record is freed while any thread holds a pointer to it. */
  lemma NoUseAfterFree(n: nat, states: seq<State>, events: seq<Event>, i: nat)
    requires Run(n, states, events) && AllLinked(states, events) && i < |states|
    ensures NoDangling(states[i])
  {
    hide Basic, Memory;
    RunMemory(n, states, events, i);
    MemorySafe(states[i]);
  }

  // ----- runs whose installs are all linked and over committed heads -----

  /** In each bucket the write epochs rise from bottom to top, and only the top may lack one. */
  lemma StacksRise(n: nat, states: seq<State>, events: seq<Event>, i: nat, b: nat, j: nat, k: nat)
    requires Run(n, states, events) && AllCommitted(states, events) && i < |states|
    requires b < |states[i].log| && j < k < |states[i].log[b]|
    ensures var s := states[i];
            && s.log[b][j] < |s.recs| && s.log[b][k] < |s.recs|
            && 0 < s.recs[s.log[b][j]].write
            && (s.recs[s.log[b][k]].write != 0 ==> s.recs[s.log[b][j]].write < s.recs[s.log[b][k]].write)
  {
    hide Basic;
    RunOrdered(n, states, events, i);
    var s := states[i];
    BasicShapeLogs(s);
    assert LogEntry(s, b, j) && LogEntry(s, b, k);
    assert Older(s, s.log[b][j], s.log[b][k]);
    assert Covered(s, s.log[b][j]);
  }

  lemma {:induction false} SeenLater(n: nat, states: seq<State>, events: seq<Event>, i: nat, j: nat, b: nat, L: nat,
          x: Option<RecId>)
    requires Run(n, states, events) && i <= j < |states| && Seen(states[i], b, L, x) && L <= states[i].epoch
    ensures Seen(states[j], b, L, x) && states[i].epoch <= states[j].epoch
    decreases j
  {
    hide Basic, Seen;
    if i < j {
      SeenLater(n, states, events, i, j - 1, b, L, x);
      RunBasic(n, states, events, j - 1);
      assert Takes(states[j - 1], events[j - 1], states[j]);
      hide Takes;
      SeenStep(states[j - 1], events[j - 1], states[j], b, L, x);
    }
  }

  lemma SeenStep(s: State, e: Event, s': State, b: nat, L: nat, x: Option<RecId>)
    requires Basic(s) && Takes(s, e, s') && Seen(s, b, L, x) && L <= s.epoch
    ensures Seen(s', b, L, x) && s.epoch <= s'.epoch
  {
    hide Basic, Seen, Evolves;
    StepBasic(s, e.who, e.act);
    StepTicket(s, e.who, e.act);
    SeenKept(s, s', e.who, b, L, x);
    EpochGrows(s, s', e.who);
  }

  lemma EpochGrows(s: State, s': State, t: Tid)
    requires Evolves(s, s', t)
    ensures s.epoch <= s'.epoch
  {
  }

  /** A view with linearization epoch L has, for every bucket it has passed, the record with the
      greatest write epoch not above L: at that moment, and in every later state of the run. */
  lemma ViewIsSnapshot(n: nat, states: seq<State>, events: seq<Event>, i: nat, j: nat, t: Tid, b: nat)
    requires Run(n, states, events) && AllLinked(states, events) && AllCommitted(states, events)
    requires i <= j < |states| && t in states[i].threads && Linearized(states[i].threads[t].loc)
    requires b < |states[i].threads[t].loc.op.out|
    ensures var op := states[i].threads[t].loc.op; Snapshot(states[j], b, op.lin, op.out[b])
  {
    hide Basic, Memory, Ordered, Seen;
    RunViews(n, states, events, i);
    RunViews(n, states, events, j);
    var s, l := states[i], states[i].threads[t].loc;
    assert ViewOk(s, l);
    BasicThread(s, t);
    assert l.op.lin <= s.epoch by { MemoryScan(s, t); }
    SeenLater(n, states, events, i, j, b, l.op.lin, l.op.out[b]);
    BasicShapeLogs(states[j]);
    OrderedBelow(states[j]);
    SeenIsSnapshot(states[j], b, l.op.lin, l.op.out[b]);
  }

  /** Two views of the same epoch agree on every bucket both have passed, however far apart in
      the run they are. */
  lemma ViewsAgree(n: nat, states: seq<State>, events: seq<Event>, i: nat, j: nat, t: Tid, u: Tid, b: nat)
    requires Run(n, states, events) && AllLinked(states, events) && AllCommitted(states, events)
    requires i <= j < |states|
    requires t in states[i].threads && Linearized(states[i].threads[t].loc)
    requires u in states[j].threads && Linearized(states[j].threads[u].loc)
    requires states[i].threads[t].loc.op.lin == states[j].threads[u].loc.op.lin
    requires b < |states[i].threads[t].loc.op.out| && b < |states[j].threads[u].loc.op.out|
    ensures states[i].threads[t].loc.op.out[b] == states[j].threads[u].loc.op.out[b]
  {
    hide Basic, Snapshot;
    ViewIsSnapshot(n, states, events, i, j, t, b);
    ViewIsSnapshot(n, states, events, j, j, u, b);
    RunBasic(n, states, events, j);
    BasicShapeLogs(states[j]);
    SnapshotUnique(states[j], b, states[i].threads[t].loc.op.lin,
                   states[i].threads[t].loc.op.out[b], states[j].threads[u].loc.op.out[b]);
  }

  /** A finished view covers every bucket. */
  lemma ViewCovers(n: nat, states: seq<State>, events: seq<Event>, i: nat, t: Tid)
    requires Run(n, states, events) && AllLinked(states, events) && AllCommitted(states, events)
    requires i < |states| && t in states[i].threads
    requires states[i].threads[t].loc.op.View? && states[i].threads[t].loc.at.Returning?
    ensures |states[i].threads[t].loc.op.out| == |states[i].log|
  {
    hide Basic, Memory, Ordered;
    RunViews(n, states, events, i);
    assert ViewOk(states[i], states[i].threads[t].loc);
  }

  // ----- which operations keep the two conditions by themselves -----

  /** put() keeps both; replace() always finds its head committed; add() and remove() always
      link to the head they replace. */
  lemma ConditionsByOperation(s: State, t: Tid)
    requires Basic(s) && Memory(s) && Ordered(s) && t in s.threads && s.threads[t].loc.at.Installing?
    ensures s.threads[t].loc.op.Put? ==> LinksHead(s, t, Proceed) && OverCommitted(s, t, Proceed)
    ensures s.threads[t].loc.op.Replace? ==> OverCommitted(s, t, Proceed)
    ensures s.threads[t].loc.op.Add? || s.threads[t].loc.op.Remove? ==> LinksHead(s, t, Proceed)
  {
    hide Basic, Memory;
    BasicThread(s, t);
    MemoryScan(s, t);
    OrderedHelped(s, t);
    BasicRecord(s, s.threads[t].loc.mine.value);
  }

  predicate Gentle(op: Op) {
    op.Put? || op.Add? || op.Get? || op.View?
  }

  ghost predicate PutsAndReads(events: seq<Event>) {
    forall i :: 0 <= i < |events| && events[i].act.Start? ==> Gentle(events[i].act.op)
  }

  /** An add has a candidate only for an empty bucket. */
  predicate GentleLocal(l: Local) {
    Gentle(l.op) && (l.op.Add? && l.mine.Some? ==> l.head.None?)
  }

  ghost predicate PutsOnly(s: State) {
    && (forall t :: t in s.threads ==> GentleLocal(s.threads[t].loc))
    && (forall r: nat :: r < |s.recs| ==> !s.recs[r].deleted)
  }

  lemma PutsOnlyKept(s: State, e: Event, s': State)
    requires Basic(s) && Takes(s, e, s') && PutsOnly(s)
    requires e.act.Start? ==> Gentle(e.act.op)
    ensures PutsOnly(s')
  {
    hide Basic, Evolves, GentleLocal, Enabled, Apply, Shape;
    StepBasic(s, e.who, e.act);
    forall u | u in s'.threads ensures GentleLocal(s'.threads[u].loc) {
      if u == e.who {
        if e.who in s.threads { BasicThread(s, e.who); }
        OwnOp(s, e.who, e.act);
      } else {
        EvolvesOthers(s, s', e.who, u);
      }
    }
    forall r: nat | r < |s'.recs| ensures !s'.recs[r].deleted {
      if e.who in s.threads { BasicThread(s, e.who); }
      NoneDeleted(s, e.who, e.act, r);
    }
  }

  lemma OwnOp(s: State, t: Tid, a: Action)
    requires Shape(s) && Enabled(s, t, a) && PutsOnly(s) && t in Apply(s, t, a).threads
    requires t in s.threads ==> LocalOk(s, s.threads[t].loc)
    requires a.Start? ==> Gentle(a.op)
    ensures GentleLocal(Apply(s, t, a).threads[t].loc)
  {
    hide Shape;
    if a.Proceed? {
      assert GentleLocal(s.threads[t].loc);
      OwnOpInside(s, t);
    }
    hide Advance;
  }

  lemma OwnOpInside(s: State, t: Tid)
    requires Shape(s) && t in s.threads && !s.threads[t].loc.at.Idle? && GentleLocal(s.threads[t].loc)
    requires LocalOk(s, s.threads[t].loc) && forall r: nat :: r < |s.recs| ==> !s.recs[r].deleted
    ensures t in Advance(s, t).threads && GentleLocal(Advance(s, t).threads[t].loc)
  {
    hide Shape;
  }

  lemma NoneDeleted(s: State, t: Tid, a: Action, r: RecId)
    requires Shape(s) && Enabled(s, t, a) && PutsOnly(s) && r < |Apply(s, t, a).recs|
    requires t in s.threads ==> LocalOk(s, s.threads[t].loc)
    ensures !Apply(s, t, a).recs[r].deleted
  {
    hide Shape;
    if a.Proceed? {
      assert GentleLocal(s.threads[t].loc);
      NoneDeletedInside(s, t, r);
    }
    hide Advance;
  }

  lemma NoneDeletedInside(s: State, t: Tid, r: RecId)
    requires Shape(s) && t in s.threads && !s.threads[t].loc.at.Idle? && Gentle(s.threads[t].loc.op)
    requires LocalOk(s, s.threads[t].loc) && (forall q: nat :: q < |s.recs| ==> !s.recs[q].deleted)
             && r < |Advance(s, t).recs|
    ensures !Advance(s, t).recs[r].deleted
  {
    hide Shape;
  }

  /** A table driven by puts, adds, gets and views alone meets both conditions in every run. */
  lemma {:induction false} PutRunsQualify(n: nat, states: seq<State>, events: seq<Event>)
    requires Run(n, states, events) && PutsAndReads(events)
    ensures AllLinked(states, events) && AllCommitted(states, events)
    ensures PutsOnly(states[|events|])
    decreases |events|
  {
    if events != [] {
      var m := |events| - 1;
      hide Basic, Memory, Ordered, PutsOnly, LinksHead, OverCommitted;
      assert Run(n, states[..m + 1], events[..m]) by {
        forall i | 0 <= i < m ensures Takes(states[..m + 1][i], events[..m][i], states[..m + 1][i + 1]) {
          assert Takes(states[i], events[i], states[i + 1]);
        }
      }
      PutRunsQualify(n, states[..m + 1], events[..m]);
      RunViews(n, states[..m + 1], events[..m], m);
      var s, e := states[m], events[m];
      assert Takes(s, e, states[m + 1]);
      PutsOnlyKept(s, e, states[m + 1]);
      assert LinksHead(s, e.who, e.act) && OverCommitted(s, e.who, e.act) by { PutGuards(s, e); }
      forall i | 0 <= i < |events|
        ensures LinksHead(states[i], events[i].who, events[i].act)
                && OverCommitted(states[i], events[i].who, events[i].act)
      {
        if i < m {
          assert states[..m + 1][i] == states[i] && events[..m][i] == events[i];
        }
      }
    } else {
      assert PutsOnly(Init(n));
    }
  }

  lemma PutGuards(s: State, e: Event)
    requires Basic(s) && Memory(s) && Ordered(s) && PutsOnly(s)
    ensures LinksHead(s, e.who, e.act) && OverCommitted(s, e.who, e.act)
  {
    hide Basic, Memory, Ordered;
    if e.act.Proceed? && e.who in s.threads && s.threads[e.who].loc.at.Installing? {
      BasicThread(s, e.who);
      assert GentleLocal(s.threads[e.who].loc);
      ConditionsByOperation(s, e.who);
    }
  }
}
