/** Operations that come to their end. A thread outside an operation, in get or view, or past its
    CAS does no further CAS on a head: left to run alone it ends its operation, and gives up its
    reservation. */
module LohatEnding {
  import opened Options
  import opened LohatModel
  import opened LohatBasic
  import opened LohatSteps
  import opened LohatMemory
  import opened LohatMemorySteps
  import opened LohatViews
  import opened LohatViewSteps
  import opened LohatRuns
  import opened LohatFaults
  import opened LohatAlone
  import opened LohatSettled

  // ----- what steps without a CAS on a head keep -----

  /** The logs, the other threads, and for each record what no step undoes. */
  ghost predicate Kept(s: State, s': State, who: set<Tid>) {
    && s'.log == s.log && s.epoch <= s'.epoch
    && s.threads.Keys <= s'.threads.Keys <= s.threads.Keys + who
    && (forall u :: u in s.threads && u !in who ==> s'.threads[u] == s.threads[u])
    && (forall r: nat :: Later(s, s', r))
    && (Settled(s) ==> Settled(s'))
  }

  lemma KeptStep(s: State, e: Event, s': State, who: set<Tid>)
    requires Basic(s) && Takes(s, e, s') && e.who in who && !Installs(s, e)
    ensures Basic(s') && Kept(s, s', who)
  {
    StepBasic(s, e.who, e.act);
    StepLog(s, e.who, e.act);
    StepBump(s, e.who, e.act);
    if Settled(s) { SettledKept(s, e.who, e.act); }
    forall r: nat ensures Later(s, s', r) {
      hide Basic, Takes, Settled;
      StepLater(s, e, s', r);
    }
    hide Basic, Settled, Shape, Apply, Enabled, SharedEvolves, Later;
    EvolvesShared(s, s', e.who);
    EpochRises(s, s', e.who);
  }

  lemma EpochRises(s: State, s': State, t: Tid)
    requires SharedEvolves(s, s', t)
    ensures s.epoch <= s'.epoch
  {
  }

  lemma KeptTrans(s: State, s1: State, s2: State, who: set<Tid>)
    requires Kept(s, s1, who) && Kept(s1, s2, who)
    ensures Kept(s, s2, who)
  {
    hide Later, Settled;
    forall r: nat ensures Later(s, s2, r) {
      assert Later(s, s1, r) && Later(s1, s2, r);
      LaterTrans(s, s1, s2, r);
    }
  }

  lemma KeptSelf(s: State, who: set<Tid>)
    ensures Kept(s, s, who)
  {
    hide Settled;
  }

  lemma {:induction false} ContinuesKept(states: seq<State>, events: seq<Event>, who: set<Tid>, i: nat)
    requires Continues(states, events, who) && i < |states| && Basic(states[0])
    ensures Basic(states[i]) && Kept(states[0], states[i], who)
  {
    hide Basic, Kept, Takes, Installs;
    if i == 0 {
      KeptSelf(states[0], who);
    } else {
      ContinuesKept(states, events, who, i - 1);
      assert Takes(states[i - 1], events[i - 1], states[i]);
      KeptStep(states[i - 1], events[i - 1], states[i], who);
      KeptTrans(states[0], states[i - 1], states[i], who);
    }
  }

  lemma GoesKept(s: State, s': State, who: set<Tid>)
    requires Basic(s) && Goes(s, s', who)
    ensures Kept(s, s', who)
  {
    hide Basic, Kept, Takes, Installs;
    var states: seq<State>, events: seq<Event> :|
      Continues(states, events, who) && states[0] == s && states[|events|] == s';
    ContinuesKept(states, events, who, |events|);
  }

  // ----- threads with no CAS on a head before them -----

  predicate AtRest(th: Thread) {
    th.loc == Resting && th.scan.None?
  }

  /** A writer that has made its CAS, or has nothing left to do. */
  predicate Committing(l: Local) {
    || l.at.Idle? || l.at.Bumping? || l.at.Swapping? || l.at.Retiring? || l.at.Returning?
    || (InHelp(l.at) && (l.op.Add? || l.op.Remove?))
  }

  predicate Reads(l: Local) {
    l.op.Get? || l.op.View?
  }

  /** Outside an operation, in get or view, or past the CAS. */
  predicate PastCas(l: Local) {
    Reads(l) || Committing(l)
  }

  /** A writer that deals with other records than c. */
  predicate Away(l: Local, c: RecId) {
    Committing(l) && !l.op.View? && (l.at.Idle? || !l.op.Get?) && l.head != Some(c) && l.mine != Some(c)
  }

  /** A thread outside an operation has no reservation. */
  predicate SlotFree(th: Thread) {
    th.loc.at.Idle? ==> th.slot.None?
  }

  // ----- a measure of what is left -----

  /** The buckets that a view has yet to finish. */
  function Left(s: State, l: Local): nat {
    if !l.op.View? || l.at.Idle? then 0
    else if l.at.Reserving? || l.at.Linearizing? then |s.log| + 1
    else if |l.op.out| <= |s.log| then |s.log| - |l.op.out| else 0
  }

  /** The points still to come, in the bucket at hand. */
  function Rest(at: Point): nat {
    match at
    case Idle => 0
    case Returning => 1
    case Walking => 2
    case Retiring => 3
    case Swapping => 4
    case Bumping => 5
    case Installing => 6
    case HelpSwapping => 7
    case HelpBumping => 8
    case Helping => 9
    case Checking => 10
    case AtHead => 11
    case Linearizing => 12
    case Reserving => 13
  }

  /** How far a view has to go down at most. */
  function Depth(s: State, l: Local): nat {
    if l.at.Walking? && l.head.Some? && l.head.value < |s.recs| then s.recs[l.head.value].pos + 1 else 0
  }

  predicate Less(s: State, l: Local, s': State, l': Local) {
    || Left(s', l') < Left(s, l)
    || (Left(s', l') == Left(s, l)
        && (Rest(l'.at) < Rest(l.at) || (Rest(l'.at) == Rest(l.at) && Depth(s', l') < Depth(s, l))))
  }

  ghost predicate Moves(s: State, u: Tid, s': State) {
    && u in s.threads && u in s'.threads && PastCas(s'.threads[u].loc) && s'.threads[u].scan.None?
    && SlotFree(s'.threads[u])
    && Less(s, s.threads[u].loc, s', s'.threads[u].loc)
  }

  /** A thread that is to move, with what Basic says of it. */
  ghost predicate ToMove(s: State, u: Tid) {
    && Shape(s) && u in s.threads && s.threads[u].scan.None? && !s.threads[u].loc.at.Idle? && PastCas(s.threads[u].loc)
    && LocalOk(s, s.threads[u].loc) && HeadOk(s, s.threads[u].loc)
    && (s.threads[u].loc.head.Some? ==> LinkBack(s, s.threads[u].loc.head.value))
  }

  /** One step of such a thread. */
  lemma PastStep(s: State, u: Tid)
    requires Basic(s) && u in s.threads && PastCas(s.threads[u].loc) && !s.threads[u].loc.at.Idle?
    requires s.threads[u].scan.None?
    ensures Shape(s) && LocalOk(s, s.threads[u].loc) && !s.threads[u].loc.at.Installing?
    ensures Moves(s, u, Advance(s, u))
  {
    IsToMove(s, u);
    var at := s.threads[u].loc.at;
    hide Basic, Moves, Shape, Advance, PastCas, HeadOk, LinkBack;
    if at.Walking? {
      PastWalk(s, u);
    } else if InHelp(at) {
      PastHelp(s, u);
    } else if NeedsMine(at) || at.Returning? {
      PastCommit(s, u);
    } else {
      PastRead(s, u);
    }
  }

  lemma IsToMove(s: State, u: Tid)
    requires Basic(s) && u in s.threads && PastCas(s.threads[u].loc) && !s.threads[u].loc.at.Idle?
    requires s.threads[u].scan.None?
    ensures ToMove(s, u) && !s.threads[u].loc.at.Installing?
  {
    BasicShape(s);
    BasicThread(s, u);
    var l := s.threads[u].loc;
    if l.head.Some? { BasicRecord(s, l.head.value); }
    hide Basic, Shape, LinkBack, RetireOk, Stage, CandidateOk;
  }

  lemma PastWalk(s: State, u: Tid)
    requires ToMove(s, u) && s.threads[u].loc.at.Walking?
    ensures Moves(s, u, Advance(s, u))
  {
    hide Shape, Head;
  }

  lemma PastHelp(s: State, u: Tid)
    requires ToMove(s, u) && InHelp(s.threads[u].loc.at)
    ensures Moves(s, u, Advance(s, u))
  {
    hide Shape, Head, OnLog, LinkBack, HeadOk;
  }

  lemma PastCommit(s: State, u: Tid)
    requires ToMove(s, u) && (NeedsMine(s.threads[u].loc.at) || s.threads[u].loc.at.Returning?)
    ensures Moves(s, u, Advance(s, u))
  {
    hide Shape, Head, OnLog, LinkBack, HeadOk;
  }

  lemma PastRead(s: State, u: Tid)
    requires ToMove(s, u)
    requires var at := s.threads[u].loc.at; at.Reserving? || at.Linearizing? || at.AtHead? || at.Checking?
    ensures Moves(s, u, Advance(s, u))
  {
    hide Shape, Head, OnLog, LinkBack, HeadOk;
  }

  /** And what it leaves alone. */
  lemma AwayStep(s: State, u: Tid, c: RecId)
    requires Shape(s) && u in s.threads && Away(s.threads[u].loc, c) && !s.threads[u].loc.at.Idle? && c < |s.recs|
    ensures LocalOk(s, s.threads[u].loc)
    ensures var s' := Advance(s, u);
            && u in s'.threads && Away(s'.threads[u].loc, c) && c < |s'.recs| && s'.recs[c].write == s.recs[c].write
  {
    assert LocalOk(s, s.threads[u].loc);
    hide Shape;
  }

  // ----- to the end -----

  /** A thread finishes its scan. */
  lemma Scans(s: State, u: Tid) returns (s': State)
    requires Basic(s) && u in s.threads && s.threads[u].scan.Some?
    ensures Goes(s, s', {u}) && u in s'.threads && s'.threads[u].scan.None? && s'.recs == s.recs && s'.log == s.log
    ensures s'.threads[u].loc == s.threads[u].loc && s'.threads[u].slot == s.threads[u].slot
  {
    hide Goes, Basic;
    GoesSelf(s, {u});
    s' := s;
    while s'.threads[u].scan.value.todo != {}
      invariant Goes(s, s', {u}) && u in s'.threads && s'.threads[u].scan.Some? && s'.recs == s.recs && s'.log == s.log
      invariant s'.threads[u].loc == s.threads[u].loc && s'.threads[u].slot == s.threads[u].slot
      decreases s'.threads[u].scan.value.todo
    {
      var w :| w in s'.threads[u].scan.value.todo;
      Next(s, s', u, ReadSlot(w), {u});
      s' := ScanRead(s', u, w);
    }
    Next(s, s', u, FinishScan, {u});
    s' := ScanFree(s', u);
  }

  /** Left to run alone, the thread ends its operation. */
  lemma {:induction false} Drives(s: State, u: Tid, c: RecId) returns (s': State)
    requires Basic(s) && u in s.threads && PastCas(s.threads[u].loc) && SlotFree(s.threads[u]) && c < |s.recs|
    ensures Goes(s, s', {u}) && u in s'.threads && AtRest(s'.threads[u]) && s'.threads[u].slot.None?
    ensures c < |s'.recs| && (Away(s.threads[u].loc, c) ==> s'.recs[c].write == s.recs[c].write)
    decreases Left(s, s.threads[u].loc), Rest(s.threads[u].loc.at), Depth(s, s.threads[u].loc), s.threads[u].scan.Some?
  {
    hide Goes, Basic, Shape, Advance, PastCas, Away;
    if s.threads[u].scan.Some? {
      var s1 := Scans(s, u);
      assert Basic(s1) by { GoesBasic(s, s1); }
      s' := Drives(s1, u, c);
      GoesFurther(s, s1, s', {u});
    } else if s.threads[u].loc.at.Idle? {
      s' := s;
      GoesSelf(s, {u});
      assert LocalOk(s, s.threads[u].loc) by { BasicThread(s, u); }
    } else {
      GoesSelf(s, {u});
      PastStep(s, u);
      Go(s, s, u, {u});
      var s1 := Advance(s, u);
      assert Basic(s1) by { GoesBasic(s, s1); }
      if Away(s.threads[u].loc, c) {
        AwayStep(s, u, c);
      } else {
        GoesKept(s, s1, {u});
        assert Later(s, s1, c);
      }
      s' := Drives(s1, u, c);
      GoesFurther(s, s1, s', {u});
    }
  }

  ghost predicate CanEnd(s: State, us: set<Tid>) {
    forall u :: u in us ==> u in s.threads && PastCas(s.threads[u].loc) && SlotFree(s.threads[u])
  }

  ghost predicate AllRest(s: State, us: set<Tid>) {
    forall u :: u in us ==> u in s.threads && AtRest(s.threads[u]) && s.threads[u].slot.None?
  }

  ghost predicate AllAway(s: State, us: set<Tid>, c: RecId) {
    forall u :: u in us ==> u in s.threads && Away(s.threads[u].loc, c)
  }

  /** One thread after the other. */
  lemma {:induction false} DrivesAll(s: State, us: set<Tid>, c: RecId) returns (s': State)
    requires Basic(s) && CanEnd(s, us) && c < |s.recs|
    ensures Goes(s, s', us) && AllRest(s', us) && Kept(s, s', us)
    ensures c < |s'.recs| && (AllAway(s, us, c) ==> s'.recs[c].write == s.recs[c].write)
    decreases us
  {
    hide Goes, Basic, Kept, PastCas, SlotFree, Away, AtRest;
    if us == {} {
      s' := s;
      GoesSelf(s, us);
      KeptSelf(s, us);
    } else {
      var u :| u in us;
      var rest := us - {u};
      var s1 := Drives(s, u, c);
      assert Basic(s1) by { GoesBasic(s, s1); }
      GoesKept(s, s1, {u});
      KeptOthers(s, s1, {u}, rest, c);
      s' := DrivesAll(s1, rest, c);
      KeptThread(s1, s', rest, u);
      GoesMore(s, s1, {u}, us);
      GoesMore(s1, s', rest, us);
      GoesFurther(s, s1, s', us);
      GoesKept(s, s', us);
    }
  }

  lemma KeptOthers(s: State, s': State, who: set<Tid>, us: set<Tid>, c: RecId)
    requires Kept(s, s', who) && who !! us && CanEnd(s, us)
    ensures CanEnd(s', us) && (AllAway(s, us, c) ==> AllAway(s', us, c))
  {
  }

  lemma KeptThread(s: State, s': State, who: set<Tid>, u: Tid)
    requires Kept(s, s', who) && u in s.threads && u !in who
    ensures u in s'.threads && s'.threads[u] == s.threads[u]
  {
  }
}
