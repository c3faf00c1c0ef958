/** The order of write epochs and the heads' commits. While the order holds and a CAS is about to
    succeed: a lower record can come to have a greater write epoch than a higher one of its bucket
    if and only if the CAS covers a head that has no write epoch yet. */
module LohatFalling {
  import opened Options
  import opened LohatModel
  import opened LohatBasic
  import opened LohatSteps
  import opened LohatMemory
  import opened LohatMemorySteps
  import opened LohatViews
  import opened LohatViewSteps
  import opened LohatRuns
  import opened LohatFaults
  import opened LohatAlone

  /** A record has a greater write epoch than a committed one above it. */
  ghost predicate Falls(s: State) {
    exists q: nat, r: nat :: Older(s, q, r) && 0 < s.recs[r].write < s.recs[q].write
  }

  /** The install keeps the order if and only if the head it covers is committed. */
  lemma OrderedInstallIff(s: State, t: Tid)
    requires Basic(s) && Ordered(s) && AboutToInstall(s, t)
    ensures Ordered(Install(s, t)) <==> OverCommitted(s, t, Proceed)
  {
    hide Basic, Ordered;
    if OverCommitted(s, t, Proceed) {
      OrderedKept(s, t, Proceed);
      assert Apply(s, t, Proceed) == Install(s, t);
    } else {
      UncommittedCovered(s, t);
      OrderedCovered(Install(s, t), s.threads[t].loc.head.value);
    }
  }

  lemma OrderedCovered(s: State, r: RecId)
    ensures Ordered(s) && Covered(s, r) ==> s.recs[r].write != 0
  {
  }

  /** The head that has no epoch lies under the candidate. */
  lemma UncommittedCovered(s: State, t: Tid)
    requires Basic(s) && AboutToInstall(s, t) && !OverCommitted(s, t, Proceed)
    ensures var s1, l := Install(s, t), s.threads[t].loc;
            && l.head.Some? && Covered(s1, l.head.value) && s1.recs[l.head.value].write == 0
            && l.mine.Some? && Older(s1, l.head.value, l.mine.value) && Head(s1, l.bucket) != l.head
            && s1.recs[l.head.value].bucket == l.bucket
  {
    InstalledShape(s, t);
    BasicThread(s, t);
    BasicShapeLogs(s);
    var s1, l := Install(s, t), s.threads[t].loc;
    HeadOnLog(s, l.bucket);
    BasicShapeLogs(s1);
    HeadOnLog(s1, l.bucket);
    hide Basic, Install;
    assert l.head != l.mine;
  }

  /** An add or a remove that covers a head without an epoch: a view helps the new record first,
      and then t helps the record below it. */
  lemma UncommittedFalls(s: State, t: Tid) returns (s': State, who: set<Tid>)
    requires Basic(s) && Ordered(s) && AboutToInstall(s, t) && !OverCommitted(s, t, Proceed)
    ensures Goes(Install(s, t), s', who) && Falls(s')
  {
    hide Basic, Ordered, Goes, Viewed, Falls;
    var h, c, b := s.threads[t].loc.head.value, s.threads[t].loc.mine.value, s.threads[t].loc.bucket;
    var s1 := Install(s, t);
    UncommittedCovered(s, t);
    InstalledShape(s, t);
    HelpsAfter(s, t);
    hide Install, AboutToInstall, OverCommitted, OnLog, Older, Covered;
    var v := Unused(s1.threads.Keys);
    who := s1.threads.Keys + {v};
    var s3 := ViewReaches(s1, v, b, c);
    GoesMore(s1, s3, {v}, who);
    ViewedThread(s1, s3, t, v, h, c);
    assert Basic(s3) by { GoesBasic(s1, s3); }
    BasicEpochs(s3);
    s' := HelpReads(s1, s3, t, who);
    s' := HelpBumps(s1, s', t, who);
    s' := HelpSwaps(s1, s', t, who);
    StillOlder(s1, s3, s', v, h, c);
  }

  /** Only an add or a remove can cover a head without an epoch, and it helps the head next. */
  lemma HelpsAfter(s: State, t: Tid)
    requires Basic(s) && Ordered(s) && AboutToInstall(s, t) && !OverCommitted(s, t, Proceed)
    ensures Runs(Install(s, t), t, Helping) && Install(s, t).threads[t].loc.head == s.threads[t].loc.head
    ensures Install(s, t).threads[t].loc.op.Add? || Install(s, t).threads[t].loc.op.Remove?
  {
    OrderedHelped(s, t);
    hide Basic, Ordered;
  }

  lemma ViewedThread(s1: State, s3: State, t: Tid, v: Tid, h: RecId, c: RecId)
    requires Viewed(s1, s3, v, c, s1.epoch) && t in s1.threads
    requires h < |s1.recs| && s1.recs[h].bucket < |s1.log| && Head(s1, s1.recs[h].bucket) != Some(h)
    ensures t in s3.threads && s3.threads[t] == s1.threads[t] && s3.recs[h] == s1.recs[h] && c < |s3.recs|
            && s3.recs[c].write > 0
  {
  }

  lemma StillOlder(s1: State, s3: State, s': State, v: Tid, h: RecId, c: RecId)
    requires Older(s1, h, c) && Viewed(s1, s3, v, c, s1.epoch) && c < |s3.recs| && h < |s3.recs|
    requires h < |s'.recs| && s'.recs == s3.recs[h := s'.recs[h]] && s'.recs[h].(write := 0) == s3.recs[h].(write := 0)
    requires s3.recs[c].write < s'.recs[h].write
    ensures Falls(s')
  {
    assert s3.recs[h].(write := 0) == s1.recs[h].(write := 0) && s3.recs[c].(write := 0) == s1.recs[c].(write := 0);
    assert Older(s', h, c);
  }

  // ----- the condition -----

  lemma {:induction false} OrderedStays(states: seq<State>, events: seq<Event>, i: nat)
    requires |states| == |events| + 1 && i <= |events| && Basic(states[0]) && Ordered(states[0])
    requires TakesAll(states, events) && AllCommitted(states, events)
    ensures Basic(states[i]) && Ordered(states[i])
  {
    hide Basic, Ordered;
    if i > 0 {
      OrderedStays(states, events, i - 1);
      assert Takes(states[i - 1], events[i - 1], states[i]);
      StepBasic(states[i - 1], events[i - 1].who, events[i - 1].act);
      OrderedKept(states[i - 1], events[i - 1].who, events[i - 1].act);
    }
  }

  lemma OrderedRises(s: State)
    requires Ordered(s)
    ensures !Falls(s)
  {
  }

  /** After t's CAS: some continuation in which every further CAS covers a committed head comes to
      a bucket whose epochs fall. */
  ghost predicate MayFall(s: State, t: Tid)
    requires AboutToInstall(s, t)
  {
    exists states, events ::
      && |states| == |events| + 1 && states[0] == Install(s, t) && TakesAll(states, events)
      && AllCommitted(states, events)
      && Falls(states[|events|])
  }

  /** In an ordered state, whatever the other threads are doing: after a successful CAS some record
      can come to have a greater write epoch than one above it if and only if the head that was
      covered had no write epoch. */
  lemma FallsIff(s: State, t: Tid)
    requires Basic(s) && Ordered(s) && AboutToInstall(s, t)
    ensures MayFall(s, t) <==> !OverCommitted(s, t, Proceed)
  {
    hide Basic, Ordered, Falls, OverCommitted, MayFall, Install;
    if OverCommitted(s, t, Proceed) {
      CommittedNever(s, t);
    } else {
      var s', who := UncommittedFalls(s, t);
      UncommittedMay(s, t, s', who);
    }
  }

  lemma CommittedNever(s: State, t: Tid)
    requires Basic(s) && Ordered(s) && AboutToInstall(s, t) && OverCommitted(s, t, Proceed)
    ensures !MayFall(s, t)
  {
    OrderedInstallIff(s, t);
    InstalledShape(s, t);
    hide Basic, Ordered, Install, TakesAll, AllCommitted, Falls, OverCommitted;
    if MayFall(s, t) {
      var states: seq<State>, events: seq<Event> :|
        && |states| == |events| + 1 && states[0] == Install(s, t) && TakesAll(states, events)
        && AllCommitted(states, events)
        && Falls(states[|events|]);
      OrderedStays(states, events, |events|);
      OrderedRises(states[|events|]);
    }
  }

  lemma UncommittedMay(s: State, t: Tid, s': State, who: set<Tid>)
    requires AboutToInstall(s, t) && Goes(Install(s, t), s', who) && Falls(s')
    ensures MayFall(s, t)
  {
    hide Basic, Install, TakesAll, AllCommitted, Falls, Takes, Installs;
    var states: seq<State>, events: seq<Event> :|
      Continues(states, events, who) && states[0] == Install(s, t) && states[|events|] == s';
    NoInstallsCommitted(states, events, who);
  }

  lemma NoInstallsCommitted(states: seq<State>, events: seq<Event>, who: set<Tid>)
    requires Continues(states, events, who)
    ensures TakesAll(states, events) && AllCommitted(states, events)
  {
    hide Takes;
    forall k | 0 <= k < |events| ensures OverCommitted(states[k], events[k].who, events[k].act) {
      assert !Installs(states[k], events[k]);
    }
  }
}
