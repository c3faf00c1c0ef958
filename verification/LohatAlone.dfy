/** A view that runs alone. The function `Solo` of LohatFaults says what it finds; here a newly
    registered thread takes the view step by step. */
module LohatAlone {
  import opened Options
  import opened LohatModel
  import opened LohatBasic
  import opened LohatSteps
  import opened LohatMemory
  import opened LohatMemorySteps
  import opened LohatRuns
  import opened LohatViews
  import opened LohatFaults

  // ----- continuations -----

  /** The step is a CAS on a bucket's head. */
  predicate Installs(s: State, e: Event) {
    e.act.Proceed? && e.who in s.threads && s.threads[e.who].loc.at.Installing?
  }

  /** Steps of the threads in `who`, none of them a CAS on a head. */
  ghost predicate Continues(states: seq<State>, events: seq<Event>, who: set<Tid>) {
    && |states| == |events| + 1
    && forall i :: 0 <= i < |events| ==>
         Takes(states[i], events[i], states[i + 1]) && events[i].who in who && !Installs(states[i], events[i])
  }

  /** Any steps of any threads. */
  ghost predicate TakesAll(states: seq<State>, events: seq<Event>)
    requires |states| == |events| + 1
  {
    forall i :: 0 <= i < |events| ==> Takes(states[i], events[i], states[i + 1])
  }

  ghost predicate Leads(s: State, s': State, who: set<Tid>) {
    exists states, events :: Continues(states, events, who) && states[0] == s && states[|events|] == s'
  }

  ghost predicate Goes(s: State, s': State, who: set<Tid>) {
    Basic(s') && Leads(s, s', who)
  }

  lemma GoesSelf(s: State, who: set<Tid>)
    requires Basic(s)
    ensures Goes(s, s, who)
  {
    hide Basic;
    var events: seq<Event> := [];
    assert Continues([s], events, who) && [s][0] == s && [s][|events|] == s;
  }

  /** One more step. */
  lemma Next(s0: State, s: State, t: Tid, a: Action, who: set<Tid>)
    requires Goes(s0, s, who) && t in who && Enabled(s, t, a) && !Installs(s, Event(t, a))
    ensures Shape(s) && Goes(s0, Apply(s, t, a), who)
  {
    hide Basic, Enabled, Apply, Shape, Installs, Leads;
    BasicShape(s);
    StepBasic(s, t, a);
    assert Takes(s, Event(t, a), Apply(s, t, a));
    LeadsOn(s0, s, Event(t, a), Apply(s, t, a), who);
  }

  lemma LeadsOn(s0: State, s: State, e: Event, s': State, who: set<Tid>)
    requires Leads(s0, s, who) && Takes(s, e, s') && e.who in who && !Installs(s, e)
    ensures Leads(s0, s', who)
  {
    hide Takes, Installs;
    var states: seq<State>, events: seq<Event> :|
      Continues(states, events, who) && states[0] == s0 && states[|events|] == s;
    var states', events' := states + [s'], events + [e];
    forall i | 0 <= i < |events'|
      ensures Takes(states'[i], events'[i], states'[i + 1]) && events'[i].who in who
              && !Installs(states'[i], events'[i])
    {
      if i < |events| { assert Takes(states[i], events[i], states[i + 1]); }
    }
    assert Continues(states', events', who) && states'[0] == s0 && states'[|events'|] == s';
  }

  lemma GoesFurther(s: State, s1: State, s2: State, who: set<Tid>)
    requires Goes(s, s1, who) && Goes(s1, s2, who)
    ensures Goes(s, s2, who)
  {
    hide Basic, Takes, Installs;
    var states1: seq<State>, events1: seq<Event> :|
      Continues(states1, events1, who) && states1[0] == s && states1[|events1|] == s1;
    var states2: seq<State>, events2: seq<Event> :|
      Continues(states2, events2, who) && states2[0] == s1 && states2[|events2|] == s2;
    var states, events := states1 + states2[1..], events1 + events2;
    forall i | 0 <= i < |events|
      ensures Takes(states[i], events[i], states[i + 1]) && events[i].who in who && !Installs(states[i], events[i])
    {
      if i < |events1| {
        assert Takes(states1[i], events1[i], states1[i + 1]);
      } else {
        var k := i - |events1|;
        assert Takes(states2[k], events2[k], states2[k + 1]);
        assert states[i] == states2[k] && states[i + 1] == states2[k + 1];
      }
    }
    assert Continues(states, events, who) && states[0] == s && states[|events|] == s2;
  }

  lemma GoesMore(s: State, s': State, few: set<Tid>, who: set<Tid>)
    requires Goes(s, s', few) && few <= who
    ensures Goes(s, s', who)
  {
    hide Basic, Takes, Installs;
    var states: seq<State>, events: seq<Event> :|
      Continues(states, events, few) && states[0] == s && states[|events|] == s';
    assert Continues(states, events, who);
  }

  // ----- one step of an operation, by its point -----

  /** No other thread's variables have changed. */
  ghost predicate Only(s: State, s': State, t: Tid) {
    && t in s.threads && s'.threads.Keys == s.threads.Keys
    && forall u :: u in s.threads && u != t ==> s'.threads[u] == s.threads[u]
  }

  /** Thread t is about to take its step at the given point. */
  predicate Runs(s: State, t: Tid, at: Point) {
    t in s.threads && s.threads[t].scan.None? && s.threads[t].loc.at == at
  }

  lemma Go(s0: State, s: State, t: Tid, who: set<Tid>)
    requires Goes(s0, s, who) && t in who && t in s.threads && s.threads[t].scan.None?
    requires !s.threads[t].loc.at.Idle? && !s.threads[t].loc.at.Installing?
    ensures Shape(s) && LocalOk(s, s.threads[t].loc) && Goes(s0, Advance(s, t), who)
  {
    hide Basic, Leads, Advance;
    BasicShape(s);
    Next(s0, s, t, Proceed, who);
  }

  lemma Stores(s0: State, s: State, t: Tid, who: set<Tid>) returns (s': State)
    requires Goes(s0, s, who) && t in who && Runs(s, t, Reserving)
    ensures Goes(s0, s', who) && s' == StoreSlot(s, t) && Only(s, s', t)
  {
    hide Goes, Shape;
    Go(s0, s, t, who);
    s' := StoreSlot(s, t);
  }

  lemma LoadsLin(s0: State, s: State, t: Tid, who: set<Tid>) returns (s': State)
    requires Goes(s0, s, who) && t in who && Runs(s, t, Linearizing)
    ensures Goes(s0, s', who) && s' == LoadLin(s, t) && Only(s, s', t)
  {
    hide Goes, Shape;
    Go(s0, s, t, who);
    s' := LoadLin(s, t);
  }

  lemma ReadsHead(s0: State, s: State, t: Tid, who: set<Tid>) returns (s': State)
    requires Goes(s0, s, who) && t in who && Runs(s, t, AtHead)
    ensures s.threads[t].loc.bucket < |s.log|
    ensures Goes(s0, s', who) && s' == ReadHead(s, t) && Only(s, s', t)
  {
    hide Goes, Shape;
    Go(s0, s, t, who);
    s' := ReadHead(s, t);
  }

  lemma Checks(s0: State, s: State, t: Tid, who: set<Tid>) returns (s': State)
    requires Goes(s0, s, who) && t in who && Runs(s, t, Checking)
    ensures s.threads[t].loc.head.Some? && s.threads[t].loc.head.value < |s.recs|
    ensures Goes(s0, s', who) && s' == Check(s, t) && Only(s, s', t)
  {
    hide Goes, Shape;
    Go(s0, s, t, who);
    s' := Check(s, t);
  }

  lemma HelpReads(s0: State, s: State, t: Tid, who: set<Tid>) returns (s': State)
    requires Goes(s0, s, who) && t in who && Runs(s, t, Helping)
    ensures s.threads[t].loc.head.Some? && s.threads[t].loc.head.value < |s.recs|
            && (s.threads[t].loc.mine.Some? ==> s.threads[t].loc.mine.value < |s.recs|)
    ensures Goes(s0, s', who) && s' == HelpRead(s, t) && Only(s, s', t)
  {
    hide Goes, Shape;
    Go(s0, s, t, who);
    s' := HelpRead(s, t);
  }

  lemma HelpBumps(s0: State, s: State, t: Tid, who: set<Tid>) returns (s': State)
    requires Goes(s0, s, who) && t in who && Runs(s, t, HelpBumping)
    ensures Goes(s0, s', who) && s' == HelpBump(s, t) && Only(s, s', t)
  {
    hide Goes, Shape;
    Go(s0, s, t, who);
    s' := HelpBump(s, t);
  }

  lemma HelpSwaps(s0: State, s: State, t: Tid, who: set<Tid>) returns (s': State)
    requires Goes(s0, s, who) && t in who && Runs(s, t, HelpSwapping)
    ensures s.threads[t].loc.head.Some? && s.threads[t].loc.head.value < |s.recs|
            && (s.threads[t].loc.mine.Some? ==> s.threads[t].loc.mine.value < |s.recs|)
    ensures Goes(s0, s', who) && s' == HelpSwap(s, t) && Only(s, s', t)
  {
    hide Goes, Shape;
    Go(s0, s, t, who);
    s' := HelpSwap(s, t);
  }

  lemma Bumps(s0: State, s: State, t: Tid, who: set<Tid>) returns (s': State)
    requires Goes(s0, s, who) && t in who && Runs(s, t, Bumping)
    ensures Goes(s0, s', who) && s' == CommitBump(s, t) && Only(s, s', t)
  {
    hide Goes, Shape;
    Go(s0, s, t, who);
    s' := CommitBump(s, t);
  }

  lemma Swaps(s0: State, s: State, t: Tid, who: set<Tid>) returns (s': State)
    requires Goes(s0, s, who) && t in who && Runs(s, t, Swapping)
    ensures s.threads[t].loc.mine.Some? && s.threads[t].loc.mine.value < |s.recs|
    ensures Goes(s0, s', who) && s' == CommitSwap(s, t) && Only(s, s', t)
  {
    hide Goes, Shape;
    Go(s0, s, t, who);
    s' := CommitSwap(s, t);
  }

  lemma Retires(s0: State, s: State, t: Tid, who: set<Tid>) returns (s': State)
    requires Goes(s0, s, who) && t in who && Runs(s, t, Retiring)
    ensures s.threads[t].loc.head.Some? && s.threads[t].loc.head.value < |s.recs|
    ensures Goes(s0, s', who) && s' == Retire(s, t) && Only(s, s', t)
  {
    hide Goes, Shape;
    Go(s0, s, t, who);
    s' := Retire(s, t);
  }

  lemma Walks(s0: State, s: State, t: Tid, who: set<Tid>) returns (s': State)
    requires Goes(s0, s, who) && t in who && Runs(s, t, Walking)
    ensures s.threads[t].loc.op.View? && (s.threads[t].loc.head.Some? ==> s.threads[t].loc.head.value < |s.recs|)
    ensures Goes(s0, s', who) && s' == Walk(s, t) && Only(s, s', t)
  {
    hide Goes, Shape;
    Go(s0, s, t, who);
    s' := Walk(s, t);
  }

  lemma Ends(s0: State, s: State, t: Tid, who: set<Tid>) returns (s': State)
    requires Goes(s0, s, who) && t in who && Runs(s, t, Returning)
    ensures Goes(s0, s', who) && s' == EndOp(s, t) && Only(s, s', t)
  {
    hide Goes, Shape;
    Go(s0, s, t, who);
    s' := EndOp(s, t);
  }

  // ----- the start of an operation -----

  lemma Begins(s0: State, s: State, t: Tid, op: Op, b: nat, who: set<Tid>) returns (s': State)
    requires Goes(s0, s, who) && t in who && t in s.threads && s.threads[t].scan.None? && s.threads[t].loc == Resting
    requires if op.View? then op == View(0, []) else b < |s.log|
    ensures Goes(s0, s', who) && Only(s, s', t) && s' == s.(threads := s'.threads)
    ensures var at := if op.View? then Linearizing else AtHead;
            s'.threads[t] == s.threads[t].(loc := Local(at, op, b, s.epoch, None, None, 0),
                                           slot := Some(s.epoch), snap := Retired(s))
  {
    hide Goes, Shape;
    Next(s0, s, t, Start(op, b), who);
    s' := StartOp(s, t, op, b);
    s' := Stores(s0, s', t, who);
  }

  // ----- the view, alone -----

  /** What the view has changed before it reaches bucket j: heads below j that had no write epoch
      have one above L. */
  ghost predicate HeadsHelped(s: State, s': State, j: nat, L: nat) {
    && |s'.recs| == |s.recs|
    && forall r: nat :: r < |s.recs| && s'.recs[r] != s.recs[r] ==> HelpedLate(s, s', j, L, r)
  }

  ghost predicate HelpedLate(s: State, s': State, j: nat, L: nat, r: RecId)
    requires r < |s.recs| && r < |s'.recs|
  {
    && s.recs[r].write == 0 && s'.recs[r].write > L && s'.recs[r] == s.recs[r].(write := s'.recs[r].write)
    && s.recs[r].bucket < j && s.recs[r].bucket < |s.log| && Head(s, s.recs[r].bucket) == Some(r)
  }

  /** s' is s but for a view v, and for the heads below bucket j that it has helped. */
  ghost predicate Beside(s: State, s': State, v: Tid, j: nat, L: nat) {
    && v !in s.threads && v in s'.threads && s'.threads.Keys == s.threads.Keys + {v}
    && (forall u :: u in s.threads ==> s'.threads[u] == s.threads[u])
    && s'.log == s.log && s'.freed == s.freed && L <= s'.epoch && HeadsHelped(s, s', j, L)
    && s'.threads[v].scan.None? && s'.threads[v].slot == Some(L)
    && HeadsDone(s, s', j)
  }

  ghost predicate HeadsDone(s: State, s': State, j: nat) {
    forall b: nat :: b < j && b < |s.log| ==> HeadDone(s, s', b)
  }

  ghost predicate HeadDone(s: State, s': State, b: nat)
    requires b < |s.log|
  {
    Head(s, b).Some? && Head(s, b).value < |s'.recs| ==> s'.recs[Head(s, b).value].write != 0
  }

  function AtBucket(s: State, L: nat, out: seq<Option<RecId>>): Local {
    Local(if |out| < |s.log| then AtHead else Returning, View(L, out), |out|, L, None, None, 0)
  }

  /** A new thread registers and takes a view. */
  lemma ViewEnters(s: State, v: Tid) returns (s': State)
    requires Basic(s) && v !in s.threads
    ensures Goes(s, s', {v}) && Beside(s, s', v, 0, s.epoch) && s'.threads[v].loc == AtBucket(s, s.epoch, [])
    ensures s'.epoch == s.epoch && s'.recs == s.recs
  {
    hide Basic, Leads;
    GoesSelf(s, {v});
    Next(s, s, v, Register, {v});
    s' := WithThread(s, v, Thread(Resting, None, [], None, {}));
    s' := Begins(s, s', v, View(0, []), 0, {v});
    s' := LoadsLin(s, s', v, {v});
  }

  /** The head of the bucket, helped when it has no epoch. */
  lemma ViewHelps(s: State, s1: State, v: Tid, L: nat, out: seq<Option<RecId>>) returns (s': State)
    requires Basic(s) && Goes(s, s1, {v}) && Beside(s, s1, v, |out|, L) && s1.threads[v].loc == AtBucket(s, L, out)
             && |out| < |s.log|
    ensures Goes(s, s', {v}) && Beside(s, s', v, |out| + 1, L)
    ensures s'.threads[v].loc == AtBucket(s, L, out).(at := Walking, head := Head(s, |out|))
  {
    hide Goes, Basic, Beside;
    BesideLog(s, s1, v, |out|, L);
    s' := ReadsHead(s, s1, v, {v});
    BesideOnly(s, s1, s', v, |out|, L);
    match Head(s, |out|)
    case None =>
      BesideNext(s, s', v, |out|, L);
    case Some(h) =>
      BasicShapeLogs(s);
      HeadOnLog(s, |out|);
      BesideLog(s, s', v, |out|, L);
      if s'.recs[h].write != 0 {
        var s2 := s';
        s' := HelpReads(s, s', v, {v});
        BesideOnly(s, s2, s', v, |out|, L);
        BesideNext(s, s', v, |out|, L);
      } else {
        s' := ViewHelpsLate(s, s', v, L, out, h);
      }
  }

  lemma BesideNext(s: State, s': State, v: Tid, j: nat, L: nat)
    requires Beside(s, s', v, j, L) && j < |s.log| && HeadDone(s, s', j)
    ensures Beside(s, s', v, j + 1, L)
  {
    forall b: nat | b < j + 1 && b < |s.log| ensures HeadDone(s, s', b) {
      if b < j { assert HeadsDone(s, s', j); }
    }
    forall r: nat | r < |s.recs| && s'.recs[r] != s.recs[r] ensures HelpedLate(s, s', j + 1, L, r) {
      assert HelpedLate(s, s', j, L, r);
    }
  }

  lemma ViewHelpsLate(s: State, s1: State, v: Tid, L: nat, out: seq<Option<RecId>>, h: RecId) returns (s': State)
    requires Basic(s) && Goes(s, s1, {v}) && Beside(s, s1, v, |out|, L) && |out| < |s.log|
    requires v in s1.threads && s1.threads[v].loc == AtBucket(s, L, out).(at := Helping, head := Some(h))
    requires h < |s1.recs| && s1.recs[h].write == 0
    requires Head(s, |out|) == Some(h) && h < |s.recs| && s.recs[h].bucket == |out|
    ensures Goes(s, s', {v}) && Beside(s, s', v, |out| + 1, L)
    ensures s'.threads[v].loc == AtBucket(s, L, out).(at := Walking, head := Some(h))
  {
    hide Goes, Basic, Beside, Head;
    BesideLog(s, s1, v, |out|, L);
    s' := HelpReads(s, s1, v, {v});
    s' := HelpBumps(s, s', v, {v});
    s' := HelpSwaps(s, s', v, {v});
    BesideHelped(s, s1, s', v, |out|, L, h);
  }

  /** Bucket j's head, which had no epoch, has one above L. */
  lemma BesideHelped(s: State, s1: State, s': State, v: Tid, j: nat, L: nat, h: RecId)
    requires Beside(s, s1, v, j, L) && j < |s.log| && Head(s, j) == Some(h) && h < |s.recs| && s.recs[h].bucket == j
    requires h < |s1.recs| == |s'.recs| && s1.recs[h].write == 0
             && s'.recs == s1.recs[h := s1.recs[h].(write := s'.recs[h].write)]
    requires Only(s1, s', v) && s'.log == s1.log && s'.freed == s1.freed && s'.recs[h].write > L && s'.epoch >= s1.epoch
    requires s'.threads[v].scan.None? && s'.threads[v].slot == Some(L)
    ensures Beside(s, s', v, j + 1, L)
  {
    assert s.recs[h] == s1.recs[h] || HelpedLate(s, s1, j, L, h);
    assert HelpedLate(s, s', j + 1, L, h);
    forall b: nat | b < j + 1 && b < |s.log| ensures HeadDone(s, s', b) {
      if b < j { assert HeadDone(s, s1, b); }
    }
    forall r: nat | r < |s.recs| && s'.recs[r] != s.recs[r] ensures HelpedLate(s, s', j + 1, L, r) {
      if r != h { assert s1.recs[r] == s'.recs[r] && HelpedLate(s, s1, j, L, r); }
    }
  }

  /** The way down from x. */
  lemma {:induction false} ViewDescends(s: State, s1: State, v: Tid, L: nat, out: seq<Option<RecId>>, x: Option<RecId>,
          fuel: nat)
    returns (s': State)
    requires Basic(s1) && Goes(s, s1, {v}) && v in s1.threads && s1.threads[v].scan.None?
    requires |out| < |s1.log| && s1.threads[v].loc == AtBucket(s1, L, out).(at := Walking, head := x)
    requires x.Some? ==> OnLog(s1, x.value) && s1.recs[x.value].bucket == |out| && s1.recs[x.value].pos < fuel
    ensures Goes(s, s', {v}) && s' == s1.(threads := s'.threads) && Only(s1, s', v)
    ensures s'.threads[v] == s1.threads[v].(loc := AtBucket(s1, L, out + [Descend(s1, x, L, fuel)]))
    decreases fuel
  {
    hide Goes, Basic;
    s' := Walks(s, s1, v, {v});
    if x.Some? {
      BasicRecord(s1, x.value);
      if s1.recs[x.value].write > L {
        assert Basic(s') by { GoesBasic(s, s'); }
        var y := s1.recs[x.value].next;
        ViewStays(s1, s', v, y, L, fuel - 1);
        s' := ViewDescends(s, s', v, L, out, y, fuel - 1);
      }
    }
  }

  lemma GoesBasic(s: State, s': State)
    requires exists who :: Goes(s, s', who)
    ensures Basic(s')
  {
  }

  /** A descent reads nothing but the records. */
  lemma {:induction false} ViewStays(s: State, s': State, v: Tid, x: Option<RecId>, L: nat, fuel: nat)
    requires s'.recs == s.recs
    ensures Descend(s', x, L, fuel) == Descend(s, x, L, fuel)
    decreases fuel
  {
    if x.Some? && fuel > 0 && x.value < |s.recs| {
      ViewStays(s, s', v, s.recs[x.value].next, L, fuel - 1);
    }
  }

  /** The records of bucket b look the same to a view at epoch L. */
  ghost predicate SameAt(s1: State, s2: State, b: nat, L: nat) {
    && |s1.recs| == |s2.recs|
    && forall r: nat :: r < |s2.recs| && s2.recs[r].bucket == b ==> SameRecord(s1.recs[r], s2.recs[r], L)
  }

  predicate SameRecord(r1: Record, r2: Record, L: nat) {
    && r1.(write := 0) == r2.(write := 0)
    && (r1.write == r2.write || (r1.write > L && r2.write > L))
  }

  lemma {:induction false} DescendSame(s1: State, s2: State, b: nat, x: Option<RecId>, L: nat, fuel: nat)
    requires Basic(s2) && SameAt(s1, s2, b, L) && (x.Some? ==> OnLog(s2, x.value) && s2.recs[x.value].bucket == b)
    ensures Descend(s1, x, L, fuel) == Descend(s2, x, L, fuel)
    decreases fuel
  {
    hide Basic;
    if x.Some? && fuel > 0 {
      BasicRecord(s2, x.value);
      assert SameRecord(s1.recs[x.value], s2.recs[x.value], L);
      DescendSame(s1, s2, b, s2.recs[x.value].next, L, fuel - 1);
    }
  }

  lemma SnapshotSame(s1: State, s2: State, b: nat, L: nat, x: Option<RecId>)
    requires SameAt(s1, s2, b, L) && SameAt(s2, s1, b, L)
    ensures Snapshot(s1, b, L, x) <==> Snapshot(s2, b, L, x)
  {
    forall q: nat | q < |s2.recs|
      ensures s2.recs[q].bucket == b ==> SameRecord(s1.recs[q], s2.recs[q], L)
      ensures s1.recs[q].bucket == b ==> SameRecord(s2.recs[q], s1.recs[q], L)
    {
    }
  }

  /** A state beside s that has helped bucket b's head looks like HelpAlone(s, b). */
  lemma HelpedSame(s: State, s': State, v: Tid, j: nat, b: nat)
    requires Basic(s) && Beside(s, s', v, j, s.epoch) && b < j && b < |s.log|
    ensures SameAt(HelpAlone(s, b), s', b, s.epoch) && SameAt(s', HelpAlone(s, b), b, s.epoch)
  {
    hide Basic;
    HelpAloneSame(s, b);
    assert HeadDone(s, s', b);
    var s1 := HelpAlone(s, b);
    forall r: nat | r < |s'.recs| && (s'.recs[r].bucket == b || s1.recs[r].bucket == b)
      ensures SameRecord(s1.recs[r], s'.recs[r], s.epoch)
    {
      if s'.recs[r] != s.recs[r] { assert HelpedLate(s, s', j, s.epoch, r); }
      if Some(r) == Head(s, b) { assert s1.recs[r].(write := 0) == s.recs[r].(write := 0); BasicRecord(s, r); }
    }
  }

  /** One bucket: the view finds what Solo says. */
  lemma ViewVisits(s: State, s1: State, v: Tid, out: seq<Option<RecId>>) returns (s': State)
    requires Basic(s) && Goes(s, s1, {v}) && Beside(s, s1, v, |out|, s.epoch)
             && s1.threads[v].loc == AtBucket(s, s.epoch, out)
    requires |out| < |s.log|
    ensures Goes(s, s', {v}) && Beside(s, s', v, |out| + 1, s.epoch)
    ensures s'.threads[v].loc == AtBucket(s, s.epoch, out + [Solo(s, |out|)])
  {
    hide Goes, Basic, Beside, SameAt, HelpAlone;
    var b, x := |out|, Head(s, |out|);
    var s2 := ViewHelps(s, s1, v, s.epoch, out);
    assert Basic(s2) by { GoesBasic(s, s2); }
    BesideLog(s, s2, v, b + 1, s.epoch);
    BasicShapeLogs(s);
    BasicShapeLogs(s2);
    if x.Some? { HeadOnLog(s2, b); }
    s' := ViewDescends(s, s2, v, s.epoch, out, x, |s.log[b]|);
    BesideOnly(s, s2, s', v, b + 1, s.epoch);
    HelpedSame(s, s', v, b + 1, b);
    SameRecs(HelpAlone(s, b), s', s2, b, s.epoch);
    DescendSame(HelpAlone(s, b), s2, b, x, s.epoch, |s.log[b]|);
  }

  lemma BesideLog(s: State, s': State, v: Tid, j: nat, L: nat)
    requires Beside(s, s', v, j, L)
    ensures s'.log == s.log && |s'.recs| == |s.recs| && v in s'.threads && L <= s'.epoch
    ensures s'.threads[v].scan.None? && s'.threads[v].slot == Some(L)
  {
  }

  lemma BesideOnly(s: State, s1: State, s': State, v: Tid, j: nat, L: nat)
    requires Beside(s, s1, v, j, L) && Only(s1, s', v) && s' == s1.(threads := s'.threads)
    requires s'.threads[v].scan.None? && s'.threads[v].slot == Some(L)
    ensures Beside(s, s', v, j, L)
  {
    forall b: nat | b < j && b < |s.log| ensures HeadDone(s, s', b) {
      assert HeadDone(s, s1, b);
    }
    assert HeadsHelped(s, s', j, L) by {
      forall r: nat | r < |s.recs| && s'.recs[r] != s.recs[r] ensures HelpedLate(s, s', j, L, r) {
        assert HelpedLate(s, s1, j, L, r);
      }
    }
  }

  lemma SameRecs(s1: State, s2: State, s2': State, b: nat, L: nat)
    requires SameAt(s1, s2, b, L) && s2'.recs == s2.recs
    ensures SameAt(s1, s2', b, L)
  {
  }

  /** A new thread takes a view and nobody else moves, up to bucket j. */
  lemma ViewUntil(s: State, v: Tid, j: nat) returns (s': State, out: seq<Option<RecId>>)
    requires Basic(s) && v !in s.threads && j <= |s.log|
    ensures |out| == j && Goes(s, s', {v}) && Beside(s, s', v, j, s.epoch)
    ensures v in s'.threads && s'.threads[v].loc == AtBucket(s, s.epoch, out)
    ensures forall b: nat :: b < j ==> out[b] == Solo(s, b)
  {
    hide Goes, Basic, Beside, Solo;
    s' := ViewEnters(s, v);
    BesideLog(s, s', v, 0, s.epoch);
    out := [];
    while |out| < j
      invariant |out| <= j && Goes(s, s', {v}) && Beside(s, s', v, |out|, s.epoch)
      invariant v in s'.threads && s'.threads[v].loc == AtBucket(s, s.epoch, out)
      invariant forall b: nat :: b < |out| ==> out[b] == Solo(s, b)
      decreases j - |out|
    {
      s' := ViewVisits(s, s', v, out);
      out := out + [Solo(s, |out|)];
      BesideLog(s, s', v, |out|, s.epoch);
    }
  }

  /** A view of the whole table that runs alone comes to its end, and in every bucket it has what
      Solo says. What it found is the bucket's state at its epoch if and only if Solo is right. */
  lemma ViewAlone(s: State, v: Tid) returns (s': State)
    requires Basic(s) && v !in s.threads
    ensures Goes(s, s', {v}) && s'.log == s.log && v in s'.threads
    ensures var l := s'.threads[v].loc;
            && l.at.Returning? && l.op.View? && l.op.lin == s.epoch && |l.op.out| == |s.log|
            && forall b: nat :: b < |s.log| ==>
                 l.op.out[b] == Solo(s, b) && (Snapshot(s', b, l.op.lin, l.op.out[b]) <==> SoloRight(s, b))
  {
    hide Goes, Basic, Beside, SameAt, HelpAlone, Solo, Snapshot;
    var out;
    s', out := ViewUntil(s, v, |s.log|);
    BesideLog(s, s', v, |out|, s.epoch);
    forall b: nat | b < |s.log| ensures Snapshot(s', b, s.epoch, out[b]) <==> SoloRight(s, b) {
      HelpedSame(s, s', v, |out|, b);
      SnapshotSame(HelpAlone(s, b), s', b, s.epoch, out[b]);
    }
  }

  // ----- a view on its way -----

  /** View v has come to c, the head of its bucket, whose epoch is above its own; nobody else has
      moved, and only heads have been helped. */
  ghost predicate Viewed(s2: State, s3: State, v: Tid, c: RecId, L: nat) {
    && v !in s2.threads && s3.threads.Keys == s2.threads.Keys + {v} && s3.freed == s2.freed && |s3.recs| == |s2.recs|
    && (forall u :: u in s2.threads ==> s3.threads[u] == s2.threads[u])
    && (forall r: nat :: r < |s2.recs| ==> s3.recs[r].(write := 0) == s2.recs[r].(write := 0))
    && (forall r: nat :: r < |s2.recs| && s2.recs[r].bucket < |s2.log| && Head(s2, s2.recs[r].bucket) != Some(r) ==>
          s3.recs[r] == s2.recs[r])
    && s3.log == s2.log && c < |s3.recs| && s3.recs[c].write > L
    && s3.threads[v].scan.None? && s3.threads[v].slot == Some(L)
    && s3.threads[v].loc.at.Walking? && s3.threads[v].loc.op.View? && s3.threads[v].loc.op.lin == L
    && s3.threads[v].loc.head == Some(c)
  }

  lemma ViewReaches(s2: State, v: Tid, b: nat, c: RecId) returns (s3: State)
    requires Basic(s2) && v !in s2.threads && b < |s2.log| && Head(s2, b) == Some(c) && c < |s2.recs|
             && s2.recs[c].write == 0
    ensures Goes(s2, s3, {v}) && Viewed(s2, s3, v, c, s2.epoch)
  {
    hide Goes, Basic, Beside;
    var s, out := ViewUntil(s2, v, b);
    s3 := ViewHelps(s2, s, v, s2.epoch, out);
    BesideViewed(s2, s3, v, b, c);
  }

  lemma BesideViewed(s2: State, s3: State, v: Tid, b: nat, c: RecId)
    requires Beside(s2, s3, v, b + 1, s2.epoch) && b < |s2.log| && Head(s2, b) == Some(c) && c < |s2.recs|
             && s2.recs[c].write == 0
    requires s3.threads[v].loc.at.Walking? && s3.threads[v].loc.op.View? && s3.threads[v].loc.op.lin == s2.epoch
    requires s3.threads[v].loc.head == Some(c)
    ensures Viewed(s2, s3, v, c, s2.epoch)
  {
    assert HeadDone(s2, s3, b);
    assert HelpedLate(s2, s3, b + 1, s2.epoch, c);
    forall r: nat | r < |s2.recs|
      ensures s3.recs[r].(write := 0) == s2.recs[r].(write := 0)
      ensures s2.recs[r].bucket < |s2.log| && Head(s2, s2.recs[r].bucket) != Some(r) ==> s3.recs[r] == s2.recs[r]
    {
      if s3.recs[r] != s2.recs[r] { assert HelpedLate(s2, s3, b + 1, s2.epoch, r); }
    }
  }

  // ----- right after an install -----

  /** In a run that has been good so far: a view that a new thread takes right after a successful
      install, alone, finds every bucket's state at its epoch if and only if the candidate was
      linked to the head it replaced and that head had its write epoch. */
  lemma ViewRightIff(s: State, t: Tid, v: Tid) returns (s': State)
    requires Basic(s) && Memory(s) && Ordered(s) && AboutToInstall(s, t) && v !in s.threads
    ensures Goes(Install(s, t), s', {v}) && v in s'.threads
    ensures var l := s'.threads[v].loc; l.at.Returning? && l.op.View? && |l.op.out| == |s.log| == |s'.log|
    ensures var op := s'.threads[v].loc.op;
            (forall b: nat :: b < |s.log| ==> Snapshot(s', b, op.lin, op.out[b])) <==> Faithful(s, t)
  {
    hide Goes, Basic, Memory, Ordered, Snapshot, Solo, SoloRight, Faithful;
    InstallRightIff(s, t);
    InstalledShape(s, t);
    NoNewThread(s, t);
    s' := ViewAlone(Install(s, t), v);
  }

  lemma NoNewThread(s: State, t: Tid)
    requires AboutToInstall(s, t)
    ensures Install(s, t).threads.Keys == s.threads.Keys
  {
  }

  /** A thread identifier that is not in use. */
  lemma {:induction false} Unused(used: set<Tid>) returns (v: Tid)
    ensures forall t :: t in used ==> t < v
    decreases used
  {
    v := 0;
    if used != {} {
      var u :| u in used;
      v := Unused(used - {u});
      assert forall t :: t in used ==> t == u || t in used - {u};
      if v <= u { v := u + 1; }
    }
  }
}
