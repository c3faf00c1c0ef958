/** The order of a view. lohat_view() sorts what it found by create epoch, and the documentation
    promises the order of an insertion-ordered dictionary: a record written over a live one keeps
    its place, and one inserted after a removal goes to the end. */
module LohatOrder {
  import opened Options
  import opened LohatModel
  import opened LohatBasic
  import opened LohatSteps
  import opened LohatMemory
  import opened LohatMemorySteps
  import opened LohatViews
  import opened LohatViewSteps
  import opened LohatRuns

  // ----- create epochs -----

  /** A candidate is ready to go on top of `head`: it continues a live record that has its write
      epoch, or starts anew. */
  ghost predicate ReadyOver(s: State, m: Record, head: Option<RecId>) {
    match head
    case None => m.create == 0
    case Some(h) =>
      h < |s.recs| ==>
        if s.recs[h].deleted then m.create == 0
        else s.recs[h].write != 0 && m.create == CreateEpoch(s.recs[h])
  }

  ghost predicate CandidateReady(s: State, l: Local) {
    l.mine.Some? && l.mine.value < |s.recs| && !s.recs[l.mine.value].installed ==>
      var m := s.recs[l.mine.value];
      && m.deleted == l.op.Remove?
      && (l.op.Put? && InHelp(l.at) ==> m.create == 0)
      && (l.op.Replace? && InHelp(l.at) && l.head.Some? && l.head.value < |s.recs| ==> !s.recs[l.head.value].deleted)
      && (l.at.Installing? && !l.op.Remove? ==> ReadyOver(s, m, l.head))
  }

  ghost predicate CreateOk(s: State, r: RecId) {
    r < |s.recs| && s.recs[r].installed && !s.recs[r].deleted ==>
      OnLog(s, r) && ReadyOver(s, s.recs[r], Under(s, r))
  }

  ghost predicate Created(s: State) {
    && (forall r: nat :: r < |s.recs| ==> CreateOk(s, r))
    && (forall t :: t in s.threads ==> CandidateReady(s, s.threads[t].loc))
  }

  lemma CreatedThread(s: State, t: Tid)
    requires Created(s) && t in s.threads
    ensures CandidateReady(s, s.threads[t].loc)
  {
  }

  lemma CreatedRecord(s: State, r: RecId)
    requires Created(s) && r < |s.recs|
    ensures CreateOk(s, r)
  {
  }

  /** What lies under a record keeps its create epoch. */
  lemma OverKept(s: State, s': State, t: Tid, m: Record, head: Option<RecId>)
    requires SharedEvolves(s, s', t) && ReadyOver(s, m, head)
    requires head.Some? ==> OnLog(s, head.value)
    ensures ReadyOver(s', m, head)
  {
    if head.Some? { assert RecordEvolves(s.recs[head.value], s'.recs[head.value], t); }
  }

  lemma OldCreateKept(s: State, s': State, t: Tid, r: RecId)
    requires Basic(s) && Basic(s') && Evolves(s, s', t) && r < |s.recs| && s.recs[r].installed && CreateOk(s, r)
    ensures r < |s'.recs| && CreateOk(s', r)
  {
    hide Basic;
    BasicRecord(s, r);
    BasicShapeLogs(s);
    assert RecordEvolves(s.recs[r], s'.recs[r], t);
    OnLogKept(s, s', t, r);
    if !s.recs[r].deleted {
      if Under(s, r).Some? { UnderOnLog(s, r); }
      OverKept(s, s', t, s.recs[r], Under(s, r));
    }
  }

  /** The one record that a step can put on a log is the candidate of the stepping thread. */
  lemma NewCreateOk(s: State, t: Tid, a: Action, r: RecId)
    requires Basic(s) && Enabled(s, t, a) && Shape(s) && Created(s)
    requires r < |Apply(s, t, a).recs| && Apply(s, t, a).recs[r].installed
    requires r < |s.recs| ==> !s.recs[r].installed
    ensures CreateOk(Apply(s, t, a), r)
  {
    hide Basic, Created, CreateOk, CandidateReady, ReadyOver;
    StepBasic(s, t, a);
    StepLog(s, t, a);
    var s' := Apply(s, t, a);
    EvolvesShared(s, s', t);
    hide Apply, Evolves;
    BasicRecord(s', r);
    if r < |s.recs| { NewOnTop(s, s', t, r); } else { EvolvesNew(s, s', t, r); }
    var l := s.threads[t].loc;
    assert r == l.mine.value && s'.recs[r].pos == |s.log[l.bucket]| && s'.recs[r].bucket == l.bucket;
    InstallCreate(s, t);
    assert s' == Install(s, t) by { InstallIsStep(s, t, a); }
  }

  lemma EvolvesShared(s: State, s': State, t: Tid)
    requires Evolves(s, s', t)
    ensures SharedEvolves(s, s', t)
  {
  }

  lemma NewOnTop(s: State, s': State, t: Tid, r: RecId)
    requires SharedEvolves(s, s', t) && r < |s.recs| && !s.recs[r].installed && s'.recs[r].installed
    ensures s'.recs[r].bucket == s.recs[r].bucket < |s.log| && s'.recs[r].pos == |s.log[s.recs[r].bucket]|
  {
    assert RecordEvolves(s.recs[r], s'.recs[r], t);
  }

  lemma InstallIsStep(s: State, t: Tid, a: Action)
    requires Shape(s) && Enabled(s, t, a) && a.Proceed? && s.threads[t].loc.at.Installing?
    ensures Apply(s, t, a) == Install(s, t)
  {
  }

  lemma InstallCreate(s: State, t: Tid)
    requires Basic(s) && Created(s) && t in s.threads && s.threads[t].scan.None? && s.threads[t].loc.at.Installing?
    requires LocalOk(s, s.threads[t].loc) && Head(s, s.threads[t].loc.bucket) == s.threads[t].loc.head
    ensures CreateOk(Install(s, t), s.threads[t].loc.mine.value)
  {
    hide Basic, Created;
    BasicThread(s, t);
    CreatedThread(s, t);
    InstallBasic(s, t);
    var l := s.threads[t].loc;
    BasicRecord(Install(s, t), l.mine.value);
    BasicShapeLogs(s);
    if l.head.Some? { HeadOnLog(s, l.bucket); }
  }

  lemma OtherReady(s: State, s': State, t: Tid, u: Tid)
    requires Basic(s) && Evolves(s, s', t) && Created(s) && u in s.threads && u != t
    ensures CandidateReady(s', s.threads[u].loc)
  {
    hide Basic, Created;
    BasicThread(s, u);
    CreatedThread(s, u);
    var l := s.threads[u].loc;
    if l.mine.Some? {
      assert RecordEvolves(s.recs[l.mine.value], s'.recs[l.mine.value], t);
      if l.head.Some? { assert RecordEvolves(s.recs[l.head.value], s'.recs[l.head.value], t); }
    }
  }

  lemma OwnReady(s: State, t: Tid, a: Action)
    requires Basic(s) && Enabled(s, t, a) && Shape(s) && Created(s)
    ensures t in Apply(s, t, a).threads && CandidateReady(Apply(s, t, a), Apply(s, t, a).threads[t].loc)
  {
    hide Basic, Created;
    if t in s.threads { CreatedThread(s, t); BasicThread(s, t); }
    hide TicketOk;
    if a.Proceed? { ReadyAdvance(s, t); }
  }

  /** What a step's effect on the candidate depends on. */
  ghost predicate Apart(s: State, l: Local) {
    && LocalOk(s, l) && Stage(s, l)
    && (l.head.Some? && l.head.value < |s.recs| ==> s.recs[l.head.value].installed)
  }

  lemma ReadyAdvance(s: State, t: Tid)
    requires Shape(s) && t in s.threads && !s.threads[t].loc.at.Idle? && Apart(s, s.threads[t].loc)
    requires CandidateReady(s, s.threads[t].loc)
    ensures t in Advance(s, t).threads && CandidateReady(Advance(s, t), Advance(s, t).threads[t].loc)
  {
    var l := s.threads[t].loc;
    if InHelp(l.at) {
      ReadyHelp(s, t);
    } else {
      ReadyOther(s, t);
    }
  }

  lemma ReadyHelp(s: State, t: Tid)
    requires Shape(s) && t in s.threads && InHelp(s.threads[t].loc.at) && Apart(s, s.threads[t].loc)
    requires CandidateReady(s, s.threads[t].loc)
    ensures t in Advance(s, t).threads && CandidateReady(Advance(s, t), Advance(s, t).threads[t].loc)
  {
    hide Shape;
    match s.threads[t].loc.at
    case Helping => assert Advance(s, t) == HelpRead(s, t); hide Advance;
    case HelpBumping => assert Advance(s, t) == HelpBump(s, t); hide Advance;
    case HelpSwapping => assert Advance(s, t) == HelpSwap(s, t); hide Advance;
  }

  lemma ReadyOther(s: State, t: Tid)
    requires Shape(s) && t in s.threads && !s.threads[t].loc.at.Idle? && Apart(s, s.threads[t].loc)
    requires CandidateReady(s, s.threads[t].loc) && !InHelp(s.threads[t].loc.at)
    ensures t in Advance(s, t).threads && CandidateReady(Advance(s, t), Advance(s, t).threads[t].loc)
  {
    hide Shape;
  }

  lemma CreatedKept(s: State, t: Tid, a: Action)
    requires Basic(s) && Enabled(s, t, a) && Created(s)
    ensures Shape(s) && Created(Apply(s, t, a))
  {
    hide Basic, Evolves, CreateOk, CandidateReady;
    StepBasic(s, t, a);
    StepTicket(s, t, a);
    var s' := Apply(s, t, a);
    forall r: nat | r < |s'.recs| ensures CreateOk(s', r) {
      if !s'.recs[r].installed {
        NotInstalled(s', r);
      } else if r < |s.recs| && s.recs[r].installed {
        CreatedRecord(s, r);
        OldCreateKept(s, s', t, r);
      } else {
        NewCreateOk(s, t, a, r);
      }
    }
    forall u | u in s'.threads ensures CandidateReady(s', s'.threads[u].loc) {
      if u == t {
        OwnReady(s, t, a);
      } else {
        EvolvesOthers(s, s', t, u);
        OtherReady(s, s', t, u);
      }
    }
  }

  lemma NotInstalled(s: State, r: RecId)
    requires r < |s.recs| && !s.recs[r].installed
    ensures CreateOk(s, r)
  {
  }

  lemma {:induction false} RunCreated(n: nat, states: seq<State>, events: seq<Event>, i: nat)
    requires Run(n, states, events) && i < |states|
    ensures Basic(states[i]) && Created(states[i])
  {
    hide Basic, Created;
    RunBasic(n, states, events, i);
    if i == 0 {
      assert Created(Init(n)) by { InitCreated(n); }
    } else {
      RunCreated(n, states, events, i - 1);
      assert Takes(states[i - 1], events[i - 1], states[i]);
      CreatedKept(states[i - 1], events[i - 1].who, events[i - 1].act);
    }
  }

  lemma InitCreated(n: nat)
    ensures Created(Init(n))
  {
  }
}
