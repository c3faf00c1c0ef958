/** What no record escapes, in every run: a record that has been covered is retired, or the thread
    that covered it has yet to do so; and a retired record is freed, or waits on that thread's
    list. */
module LohatSettled {
  import opened Options
  import opened LohatModel
  import opened LohatBasic
  import opened LohatSteps
  import opened LohatMemorySteps
  import opened LohatViews
  import opened LohatViewSteps
  import opened LohatRuns
  import opened LohatFaults

  /** The candidate of a replace was allocated over a head. */
  ghost predicate ReplaceLinked(s: State, t: Tid) {
    t in s.threads ==>
      var l := s.threads[t].loc;
      l.op.Replace? && l.mine.Some? && l.mine.value < |s.recs| ==> s.recs[l.mine.value].next.Some?
  }

  /** The record directly above r in its bucket's log. */
  ghost function Above(s: State, r: RecId): RecId
    requires Covered(s, r)
  {
    s.log[s.recs[r].bucket][s.recs[r].pos + 1]
  }

  ghost predicate Retirable(s: State, r: RecId)
    requires Covered(s, r) && Above(s, r) < |s.recs|
  {
    var u := s.recs[Above(s, r)].owner;
    s.recs[r].retire != 0 || (u in s.threads && s.threads[u].loc.mine == Some(Above(s, r)))
  }

  ghost predicate Freeable(s: State, r: RecId)
    requires Covered(s, r) && Above(s, r) < |s.recs|
  {
    var u := s.recs[Above(s, r)].owner;
    s.recs[r].retire == 0 || r in s.freed || (u in s.threads && r in s.threads[u].retired)
  }

  ghost predicate Settled(s: State) {
    && (forall t :: ReplaceLinked(s, t))
    && (forall r: nat :: Covered(s, r) ==> Above(s, r) < |s.recs| && Retirable(s, r) && Freeable(s, r))
  }

  // ----- what a step does to the stepping thread's candidate and list -----

  lemma PointFacts(s: State, t: Tid)
    requires Basic(s) && t in s.threads
    ensures LocalOk(s, s.threads[t].loc) && Stage(s, s.threads[t].loc) && 1 <= s.epoch
  {
    BasicThread(s, t);
    BasicEpochs(s);
    hide Basic;
  }

  lemma OwnCandidate(s: State, t: Tid, a: Action)
    requires Shape(s) && Enabled(s, t, a) && t in s.threads && s.threads[t].loc.mine.Some?
    requires LocalOk(s, s.threads[t].loc) && Stage(s, s.threads[t].loc) && 1 <= s.epoch
    ensures s.threads[t].loc.mine.value < |s.recs| && t in Apply(s, t, a).threads
    ensures var s', l := Apply(s, t, a), s.threads[t].loc;
            s.recs[l.mine.value].installed ==>
              s'.threads[t].loc.mine == l.mine
              || (l.head.Some? ==> l.head.value < |s'.recs| && s'.recs[l.head.value].retire != 0)
  {
    hide Shape;
  }

  lemma OwnList(s: State, t: Tid, a: Action)
    requires Shape(s) && Enabled(s, t, a) && t in s.threads
    ensures t in Apply(s, t, a).threads
    ensures forall x :: x in s.threads[t].retired ==>
            x in Apply(s, t, a).threads[t].retired || x in Apply(s, t, a).freed
  {
    if a.Proceed? {
      OwnListInside(s, t);
    } else if a.FinishScan? {
      ListSplit(s, t);
      hide ScanFree, Shape;
    } else {
      hide Advance, ScanFree, Shape;
    }
  }

  lemma OwnListInside(s: State, t: Tid)
    requires Shape(s) && t in s.threads && !s.threads[t].loc.at.Idle?
    ensures t in Advance(s, t).threads
    ensures Advance(s, t).threads[t].retired == s.threads[t].retired
            || (s.threads[t].loc.head.Some?
               && Advance(s, t).threads[t].retired == [s.threads[t].loc.head.value] + s.threads[t].retired)
  {
    var l := s.threads[t].loc;
    assert LocalOk(s, l);
    hide Shape, LocalOk;
  }

  lemma ListSplit(s: State, t: Tid)
    requires Shape(s) && t in s.threads && s.threads[t].scan.Some?
    ensures t in ScanFree(s, t).threads
    ensures forall x :: x in s.threads[t].retired ==>
            x in ScanFree(s, t).threads[t].retired || x in ScanFree(s, t).freed
  {
    var cells := s.threads[t].retired;
    var k := CutAt(s.recs, cells, s.threads[t].scan.value.low);
    assert cells == cells[..k] + cells[k..];
  }

  lemma NewRetired(s: State, t: Tid, a: Action, r: RecId)
    requires Shape(s) && Enabled(s, t, a) && r < |s.recs|
    ensures r < |Apply(s, t, a).recs|
    ensures Apply(s, t, a).recs[r].retire != s.recs[r].retire ==>
              t in Apply(s, t, a).threads && r in Apply(s, t, a).threads[t].retired
  {
    if a.Proceed? {
      NewRetiredInside(s, t, r);
      hide Advance, Shape;
    } else {
      hide Advance, Shape;
    }
  }

  lemma NewRetiredInside(s: State, t: Tid, r: RecId)
    requires Shape(s) && t in s.threads && !s.threads[t].loc.at.Idle? && r < |s.recs|
    ensures r < |Advance(s, t).recs|
    ensures Advance(s, t).recs[r].retire != s.recs[r].retire ==>
              t in Advance(s, t).threads && r in Advance(s, t).threads[t].retired
  {
    var l := s.threads[t].loc;
    assert LocalOk(s, l);
    hide Shape, Head;
    match l.at
    case Retiring => assert Advance(s, t) == Retire(s, t); hide Advance;
    case Installing => assert Advance(s, t) == Install(s, t); hide Advance;
    case HelpSwapping => assert Advance(s, t) == HelpSwap(s, t); hide Advance;
    case AtHead => assert Advance(s, t) == ReadHead(s, t); hide Advance;
    case Checking => assert Advance(s, t) == Check(s, t); hide Advance;
    case _ => hide Retire, Install, HelpSwap, ReadHead, Check;
  }

  lemma OwnReplace(s: State, t: Tid, a: Action)
    requires Shape(s) && Enabled(s, t, a) && ReplaceLinked(s, t)
    ensures ReplaceLinked(Apply(s, t, a), t)
  {
    if a.Proceed? {
      OwnReplaceInside(s, t);
      hide Advance, Shape;
    } else {
      hide Advance, Shape;
    }
  }

  lemma OwnReplaceInside(s: State, t: Tid)
    requires Shape(s) && t in s.threads && !s.threads[t].loc.at.Idle? && ReplaceLinked(s, t)
    ensures ReplaceLinked(Advance(s, t), t)
  {
    var l := s.threads[t].loc;
    assert LocalOk(s, l);
    hide Shape;
  }

  // ----- every step keeps it -----

  lemma OtherReplace(s: State, s': State, t: Tid, u: Tid)
    requires Basic(s) && Evolves(s, s', t) && u != t && ReplaceLinked(s, u)
    ensures ReplaceLinked(s', u)
  {
    if u in s'.threads {
      EvolvesOthers(s, s', t, u);
      var l := s.threads[u].loc;
      if l.mine.Some? {
        assert l.mine.value < |s.recs| by { PointFacts(s, u); }
        assert RecordEvolves(s.recs[l.mine.value], s'.recs[l.mine.value], t);
      }
    }
  }

  /** A record that was covered before the step still lies under the same record. */
  lemma StillCovered(s: State, s': State, t: Tid, r: RecId)
    requires SharedEvolves(s, s', t) && Covered(s, r) && Above(s, r) < |s.recs|
    ensures Covered(s', r) && Above(s', r) == Above(s, r)
    ensures s'.recs[Above(s, r)].owner == s.recs[Above(s, r)].owner
    ensures s.recs[r].retire != 0 ==> s'.recs[r].retire == s.recs[r].retire
  {
    OnLogKept(s, s', t, r);
    assert RecordEvolves(s.recs[r], s'.recs[r], t);
    assert RecordEvolves(s.recs[Above(s, r)], s'.recs[Above(s, r)], t);
    assert s.log[s.recs[r].bucket] <= s'.log[s.recs[r].bucket];
  }

  lemma RetirableKept(s: State, t: Tid, a: Action, r: RecId)
    requires Basic(s) && Enabled(s, t, a) && Settled(s) && Covered(s, r)
    ensures Shape(s)
    ensures var s' := Apply(s, t, a); Covered(s', r) && Above(s', r) < |s'.recs| && Retirable(s', r)
  {
    BasicShape(s);
    StepBasic(s, t, a);
    var s', n := Apply(s, t, a), Above(s, r);
    var u := s.recs[n].owner;
    hide Basic, Apply, Enabled, Evolves;
    EvolvesShared(s, s', t);
    StillCovered(s, s', t, r);
    if s.recs[r].retire == 0 {
      if u == t {
        PointFacts(s, t);
        CandidateCovers(s, t, r);
        OwnCandidate(s, t, a);
      } else {
        OthersSame(s, s', t, u);
      }
    }
  }

  lemma OthersSame(s: State, s': State, t: Tid, u: Tid)
    requires Evolves(s, s', t) && u in s.threads && u != t
    ensures u in s'.threads && s'.threads[u] == s.threads[u]
  {
  }

  /** A thread's candidate that is on its bucket lies over the thread's head. */
  lemma CandidateCovers(s: State, t: Tid, r: RecId)
    requires Basic(s) && Covered(s, r) && t in s.threads && s.threads[t].loc.mine == Some(Above(s, r))
    ensures s.threads[t].loc.head == Some(r) && Above(s, r) < |s.recs| && s.recs[Above(s, r)].installed
  {
    BasicThread(s, t);
    assert LogEntry(s, s.recs[r].bucket, s.recs[r].pos + 1);
    hide Basic;
  }

  lemma FreeableKept(s: State, t: Tid, a: Action, r: RecId)
    requires Basic(s) && Enabled(s, t, a) && Settled(s) && Covered(s, r)
    ensures Shape(s)
    ensures var s' := Apply(s, t, a); Covered(s', r) && Above(s', r) < |s'.recs| && Freeable(s', r)
  {
    BasicShape(s);
    StepBasic(s, t, a);
    var s', n := Apply(s, t, a), Above(s, r);
    var u := s.recs[n].owner;
    hide Basic, Apply, Enabled, Evolves;
    EvolvesShared(s, s', t);
    StillCovered(s, s', t, r);
    if s.recs[r].retire == 0 {
      if s'.recs[r].retire != 0 {
        NewRetired(s, t, a, r);
        RetiredByOwner(s, s', t, r);
      }
    } else if u == t && t in s.threads {
      OwnList(s, t, a);
      StillFreed(s, s', t, r);
    } else if u in s.threads {
      OthersSame(s, s', t, u);
      StillFreed(s, s', t, r);
    } else {
      StillFreed(s, s', t, r);
    }
  }

  lemma StillFreed(s: State, s': State, t: Tid, r: RecId)
    requires Evolves(s, s', t)
    ensures r in s.freed ==> r in s'.freed
  {
  }

  lemma RetiredByOwner(s: State, s': State, t: Tid, r: RecId)
    requires Evolves(s, s', t) && Covered(s, r) && Above(s, r) < |s.recs| && s'.recs[r].retire != s.recs[r].retire
    ensures s.recs[Above(s, r)].owner == t
  {
  }

  /** A record that a step has covered was the head, and the stepping thread is to retire it. */
  lemma InstallCovers(s: State, t: Tid, r: RecId)
    requires Basic(s) && AboutToInstall(s, t)
    ensures var s' := Install(s, t);
            Covered(s', r) && !Covered(s, r) ==> Above(s', r) < |s'.recs| && Retirable(s', r) && Freeable(s', r)
  {
    InstalledShape(s, t);
    BasicThread(s, t);
    var s', l := Install(s, t), s.threads[t].loc;
    var c := l.mine.value;
    if Covered(s', r) && !Covered(s, r) {
      BasicRecord(s, r);
      hide Basic, Install;
      assert Above(s', r) == c;
      InstallKeepsMine(s, t);
    }
  }

  lemma InstallKeepsMine(s: State, t: Tid)
    requires AboutToInstall(s, t)
    ensures t in Install(s, t).threads && Install(s, t).threads[t].loc.mine == s.threads[t].loc.mine
  {
  }

  lemma NewlyCovered(s: State, t: Tid, a: Action, r: RecId)
    requires Basic(s) && Enabled(s, t, a)
    ensures Shape(s)
    ensures var s' := Apply(s, t, a);
            Covered(s', r) && !Covered(s, r) ==> Above(s', r) < |s'.recs| && Retirable(s', r) && Freeable(s', r)
  {
    BasicShape(s);
    var s' := Apply(s, t, a);
    if Covered(s', r) && !Covered(s, r) {
      StepLog(s, t, a);
      if s'.log == s.log {
        hide Retirable, Freeable;
        SameLogCovers(s, t, a, r);
      } else {
        assert s' == Install(s, t) by { hide Basic; }
        InstallCovers(s, t, r);
      }
    }
  }

  lemma SameLogCovers(s: State, t: Tid, a: Action, r: RecId)
    requires Basic(s) && Enabled(s, t, a) && Shape(s) && Apply(s, t, a).log == s.log && Covered(Apply(s, t, a), r)
    ensures Covered(s, r)
  {
    StepBasic(s, t, a);
    BasicShapeLogs(s);
    var s' := Apply(s, t, a);
    hide Basic, Apply, Enabled;
    assert LogEntry(s, s'.recs[r].bucket, s'.recs[r].pos);
  }

  lemma SettledKept(s: State, t: Tid, a: Action)
    requires Basic(s) && Enabled(s, t, a) && Settled(s)
    ensures Shape(s) && Settled(Apply(s, t, a))
  {
    BasicShape(s);
    var s' := Apply(s, t, a);
    forall u ensures ReplaceLinked(s', u) {
      if u == t {
        OwnReplace(s, t, a);
      } else {
        StepBasic(s, t, a);
        hide Basic, Evolves, Apply, Enabled;
        OtherReplace(s, s', t, u);
      }
    }
    forall r: nat | Covered(s', r) ensures Above(s', r) < |s'.recs| && Retirable(s', r) && Freeable(s', r) {
      hide Basic, Apply, Enabled, Retirable, Freeable;
      if Covered(s, r) {
        RetirableKept(s, t, a, r);
        FreeableKept(s, t, a, r);
      } else {
        NewlyCovered(s, t, a, r);
      }
    }
  }

  /** In every run, whatever the operations. */
  lemma {:induction false} RunSettled(n: nat, states: seq<State>, events: seq<Event>, i: nat)
    requires Run(n, states, events) && i < |states|
    ensures Basic(states[i]) && Settled(states[i])
  {
    hide Basic, Settled;
    RunBasic(n, states, events, i);
    if i == 0 {
      InitSettled(n);
    } else {
      RunSettled(n, states, events, i - 1);
      assert Takes(states[i - 1], events[i - 1], states[i]);
      SettledKept(states[i - 1], events[i - 1].who, events[i - 1].act);
    }
  }

  lemma InitSettled(n: nat)
    ensures Settled(Init(n))
  {
  }
}
