/** Runs from the empty table that reach a CAS that breaks a condition, a remove that covers a
    stalled put and a replace that has lost a CAS to a put, and what comes of it. */
module LohatTraces {
  import opened Options
  import opened LohatModel
  import opened LohatBasic
  import opened LohatSteps
  import opened LohatMemory
  import opened LohatMemorySteps
  import opened LohatViews
  import opened LohatViewSteps
  import opened LohatRuns
  import opened LohatFaults
  import opened LohatAlone
  import opened LohatSettled
  import opened LohatEnding
  import opened LohatDangling
  import opened LohatFalling

  /** A run in which every install so far has met both conditions. */
  datatype Path = Path(n: nat, states: seq<State>, events: seq<Event>)

  ghost predicate Good(p: Path) {
    Run(p.n, p.states, p.events) && AllLinked(p.states, p.events) && AllCommitted(p.states, p.events)
  }

  function End(p: Path): State {
    if p.states == [] then Init(p.n) else p.states[|p.states| - 1]
  }

  lemma GoodEnd(p: Path)
    requires Good(p)
    ensures Basic(End(p)) && Shape(End(p)) && Memory(End(p)) && Ordered(End(p))
  {
    hide Basic, Memory, Ordered;
    RunViews(p.n, p.states, p.events, |p.events|);
    BasicShape(End(p));
  }

  /** Steps that are no CAS on a head keep a run good. */
  lemma GoodGoes(p: Path, s': State, who: set<Tid>) returns (p': Path)
    requires Good(p) && Goes(End(p), s', who)
    ensures Good(p') && End(p') == s' && p'.n == p.n
  {
    hide Basic, Takes, Installs, LinksHead, OverCommitted;
    var states: seq<State>, events: seq<Event> :|
      Continues(states, events, who) && states[0] == End(p) && states[|events|] == s';
    p' := Path(p.n, p.states + states[1..], p.events + events);
    forall i | 0 <= i < |p'.events|
      ensures Takes(p'.states[i], p'.events[i], p'.states[i + 1])
      ensures LinksHead(p'.states[i], p'.events[i].who, p'.events[i].act)
      ensures OverCommitted(p'.states[i], p'.events[i].who, p'.events[i].act)
    {
      var k := i - |p.events|;
      if k < 0 {
        assert Takes(p.states[i], p.events[i], p.states[i + 1]);
        assert p'.states[i] == p.states[i] && p'.states[i + 1] == p.states[i + 1];
      } else {
        assert Takes(states[k], events[k], states[k + 1]) && !Installs(states[k], events[k]);
        assert p'.states[i] == states[k] && p'.states[i + 1] == states[k + 1];
        NoInstall(states[k], events[k]);
      }
    }
  }

  lemma NoInstall(s: State, e: Event)
    requires !Installs(s, e)
    ensures LinksHead(s, e.who, e.act) && OverCommitted(s, e.who, e.act)
  {
  }

  lemma TakesInstall(s: State, t: Tid)
    requires Shape(s) && Runs(s, t, Installing)
    ensures var l := s.threads[t].loc; l.bucket < |s.log| && l.mine.Some? && l.mine.value < |s.recs|
    ensures LocalOk(s, s.threads[t].loc) && Takes(s, Event(t, Proceed), Install(s, t))
  {
    assert LocalOk(s, s.threads[t].loc);
    hide Shape;
  }

  /** One more event: a CAS that succeeds, or one that fails. */
  lemma GoodInstall(p: Path, t: Tid) returns (p': Path)
    requires Good(p) && Runs(End(p), t, Installing) && LinksHead(End(p), t, Proceed)
             && OverCommitted(End(p), t, Proceed)
    ensures LocalOk(End(p), End(p).threads[t].loc) && Good(p') && End(p') == Install(End(p), t) && p'.n == p.n
  {
    hide LinksHead, OverCommitted, Basic, Memory, Ordered, Shape, LocalOk, Takes, Install;
    GoodEnd(p);
    TakesInstall(End(p), t);
    var s' := Install(End(p), t);
    p' := Path(p.n, p.states + [s'], p.events + [Event(t, Proceed)]);
    forall i | 0 <= i < |p'.events|
      ensures Takes(p'.states[i], p'.events[i], p'.states[i + 1])
      ensures LinksHead(p'.states[i], p'.events[i].who, p'.events[i].act)
      ensures OverCommitted(p'.states[i], p'.events[i].who, p'.events[i].act)
    {
      if i < |p.events| {
        assert Takes(p.states[i], p.events[i], p.states[i + 1]);
        assert p'.states[i] == p.states[i] && p'.states[i + 1] == p.states[i + 1];
      }
    }
  }

  // ----- operations -----

  ghost predicate Ready(p: Path, t: Tid) {
    Good(p) && t in End(p).threads && AtRest(End(p).threads[t])
  }

  /** A put that has installed its record and not yet taken an epoch for it. */
  predicate Stalled(s: State, t: Tid, b: nat) {
    && t in s.threads && s.threads[t].scan.None?
    && var l := s.threads[t].loc;
    l.at.Bumping? && l.op.Put? && l.bucket == b && l.ticket == 0
  }

  ghost predicate HeadCommitted(s: State, b: nat) {
    b < |s.log| && (Head(s, b).Some? ==> Head(s, b).value < |s.recs| && s.recs[Head(s, b).value].write != 0)
  }

  ghost predicate HeadUncommitted(s: State, b: nat) {
    && b < |s.log| && Head(s, b).Some? && Head(s, b).value < |s.recs|
    && !s.recs[Head(s, b).value].deleted && s.recs[Head(s, b).value].write == 0
  }

  /** A put up to its CAS. */
  lemma PutReady(p: Path, t: Tid, b: nat, item: int) returns (p': Path)
    requires Ready(p, t) && HeadCommitted(End(p), b)
    ensures Good(p') && p'.n == p.n && Only(End(p), End(p'), t) && End(p').log == End(p).log
            && Runs(End(p'), t, Installing)
    ensures var s, s', l := End(p), End(p'), End(p').threads[t].loc;
            && l.op == Put(item) && l.bucket == b && l.head == Head(s, b) && l.mine == Some(|s.recs|) && l.ticket == 0
            && |s'.recs| == |s.recs| + 1 && !s'.recs[|s.recs|].deleted && s'.recs[|s.recs|].write == 0
            && forall r: nat :: r < |s.recs| ==> s'.recs[r] == s.recs[r]
  {
    hide Basic, Memory, Ordered, Goes, Good;
    GoodEnd(p);
    var s := PutGoes(End(p), t, b, item);
    p' := GoodGoes(p, s, {t});
  }

  lemma PutGoes(s: State, t: Tid, b: nat, item: int) returns (s': State)
    requires Basic(s) && t in s.threads && AtRest(s.threads[t]) && HeadCommitted(s, b)
    ensures Goes(s, s', {t}) && Only(s, s', t) && s'.log == s.log && Runs(s', t, Installing)
    ensures var l := s'.threads[t].loc;
            && l.op == Put(item) && l.bucket == b && l.head == Head(s, b) && l.mine == Some(|s.recs|) && l.ticket == 0
            && |s'.recs| == |s.recs| + 1 && !s'.recs[|s.recs|].deleted && s'.recs[|s.recs|].write == 0
            && forall r: nat :: r < |s.recs| ==> s'.recs[r] == s.recs[r]
  {
    hide Basic, Goes;
    GoesSelf(s, {t});
    s' := Begins(s, s, t, Put(item), b, {t});
    var s1 := s';
    s' := PutReads(s, s1, t, b, item);
    if Head(s, b).Some? {
      s' := PutFindsCommitted(s, s1, s', t, b);
    }
  }

  /** It finds the head committed, and copies its create epoch. */
  lemma PutFindsCommitted(s0: State, s1: State, s: State, t: Tid, b: nat) returns (s': State)
    requires Goes(s0, s, {t}) && Runs(s, t, Helping) && |s.recs| == |s1.recs| + 1 && s1.recs <= s.recs
             && HeadCommitted(s1, b)
    requires Head(s1, b).Some? && !s.recs[|s1.recs|].deleted && s.recs[|s1.recs|].write == 0
    requires var l := s.threads[t].loc; l.op.Put? && l.head == Head(s1, b) && l.mine == Some(|s1.recs|)
    ensures Goes(s0, s', {t}) && Only(s, s', t) && s'.log == s.log && s'.threads[t].scan.None?
    ensures s'.threads[t].loc == s.threads[t].loc.(at := Installing, ticket := 0)
    ensures |s'.recs| == |s.recs| && !s'.recs[|s1.recs|].deleted && s'.recs[|s1.recs|].write == 0
    ensures forall r: nat :: r < |s1.recs| ==> s'.recs[r] == s1.recs[r]
  {
    hide Goes;
    s' := HelpReads(s0, s, t, {t});
  }

  /** It reads the head and allocates its record. */
  lemma PutReads(s0: State, s: State, t: Tid, b: nat, item: int) returns (s': State)
    requires Goes(s0, s, {t}) && Runs(s, t, AtHead) && b < |s.log| && HeadCommitted(s, b)
    requires var l := s.threads[t].loc; l.op == Put(item) && l.bucket == b && l.ticket == 0
    ensures Goes(s0, s', {t}) && Only(s, s', t) && s'.log == s.log && s'.threads[t].scan.None?
    ensures s'.threads[t].loc == s.threads[t].loc.(at := if Head(s, b).None? then Installing else Helping,
                                                   head := Head(s, b), mine := Some(|s.recs|))
    ensures s'.recs == s.recs + [Record(Head(s, b), false, item, 0, 0, 0, b, false, 0, t)]
  {
    hide Goes;
    s' := ReadsHead(s0, s, t, {t});
  }

  /** A put that stalls right after its CAS: the bucket's head is a live record without an epoch. */
  lemma PutStalls(p: Path, t: Tid, b: nat, item: int) returns (p': Path)
    requires Ready(p, t) && HeadCommitted(End(p), b)
    ensures Good(p') && p'.n == p.n && Only(End(p), End(p'), t) && |End(p').log| == |End(p).log|
    ensures HeadUncommitted(End(p'), b) && Stalled(End(p'), t, b) && Head(End(p'), b) == Some(|End(p).recs|)
    ensures |End(p).recs| < |End(p').recs| && forall r: nat :: r < |End(p).recs| ==> End(p').recs[r] == End(p).recs[r]
  {
    hide Good, Ready;
    p' := PutReady(p, t, b, item);
    assert LinksHead(End(p'), t, Proceed) && OverCommitted(End(p'), t, Proceed) by {
      GoodEnd(p');
      hide Basic, Memory, Ordered;
      ConditionsByOperation(End(p'), t);
    }
    p' := GoodInstall(p', t);
  }

  /** A remove that starts while a put is stalled is about to cover the put's record. */
  lemma RemoveCoversStalled(p: Path, t: Tid, b: nat) returns (p': Path)
    requires Ready(p, t) && HeadUncommitted(End(p), b)
    ensures Good(p') && p'.n == p.n && AboutToInstall(End(p'), t)
    ensures LinksHead(End(p'), t, Proceed) && !OverCommitted(End(p'), t, Proceed)
  {
    hide Basic, Memory, Ordered, Goes, Good;
    GoodEnd(p);
    var s := RemoveGoes(End(p), t, b);
    p' := GoodGoes(p, s, {t});
    GoodEnd(p');
    BasicLocal(End(p'), t);
  }

  lemma BasicLocal(s: State, t: Tid)
    requires Basic(s) && t in s.threads
    ensures LocalOk(s, s.threads[t].loc)
  {
  }

  lemma RemoveGoes(s: State, t: Tid, b: nat) returns (s': State)
    requires Basic(s) && t in s.threads && AtRest(s.threads[t]) && HeadUncommitted(s, b)
    ensures Goes(s, s', {t}) && s'.log == s.log && Runs(s', t, Installing)
    ensures var l := s'.threads[t].loc;
            && l.bucket == b && l.head == Head(s, b) && l.mine == Some(|s.recs|) && |s'.recs| == |s.recs| + 1
            && s'.recs[|s.recs|].next == l.head && s'.recs[l.head.value] == s.recs[l.head.value]
  {
    hide Basic, Goes;
    GoesSelf(s, {t});
    s' := Begins(s, s, t, Remove, b, {t});
    s' := ReadsHead(s, s', t, {t});
    s' := Checks(s, s', t, {t});
  }

  /** A replace about to do its CAS over a committed head. */
  ghost predicate Replacing(s: State, t: Tid, b: nat) {
    && Runs(s, t, Installing) && b < |s.log|
    && var l := s.threads[t].loc;
    && l.op.Replace? && l.bucket == b && l.ticket == 0 && l.mine.Some? && l.mine.value < |s.recs|
    && l.head.Some? && Head(s, b) == l.head && l.head.value < |s.recs| && l.head != l.mine
    && s.recs[l.head.value].write != 0
  }

  /** A replace on a bucket whose head has no epoch helps it. */
  lemma ReplaceReady(p: Path, t: Tid, b: nat, item: int) returns (p': Path)
    requires Ready(p, t) && HeadUncommitted(End(p), b)
    ensures Good(p') && p'.n == p.n && Only(End(p), End(p'), t) && Replacing(End(p'), t, b)
    ensures var l := End(p').threads[t].loc; End(p').recs[l.mine.value].next == l.head
  {
    hide Basic, Memory, Ordered, Goes, Good, Shape;
    GoodEnd(p);
    GoesSelf(End(p), {t});
    var s := Begins(End(p), End(p), t, Replace(item), b, {t});
    s := ReadsHead(End(p), s, t, {t});
    var s' := ReplaceHelps(End(p), s, t, b);
    p' := GoodGoes(p, s', {t});
  }

  lemma ReplaceHelps(s0: State, s: State, t: Tid, b: nat) returns (s': State)
    requires Goes(s0, s, {t}) && Runs(s, t, Checking) && HeadUncommitted(s, b)
    requires var l := s.threads[t].loc;
             l.op.Replace? && l.bucket == b && l.ticket == 0 && l.mine.Some? && l.mine.value < |s.recs|
             && l.head == Head(s, b) && l.head != l.mine
    ensures Goes(s0, s', {t}) && Only(s, s', t) && Replacing(s', t, b) && |s'.recs| == |s.recs|
    ensures s'.log == s.log && s'.threads[t].loc.mine == s.threads[t].loc.mine
            && s'.threads[t].loc.head == s.threads[t].loc.head
    ensures forall r: nat :: r < |s.recs| ==> s'.recs[r].next == s.recs[r].next
  {
    hide Goes;
    s' := ChecksUncommitted(s0, s, t, b);
    s' := HelpBumps(s0, s', t, {t});
    s' := HelpSwaps(s0, s', t, {t});
  }

  lemma ChecksUncommitted(s0: State, s: State, t: Tid, b: nat) returns (s': State)
    requires Goes(s0, s, {t}) && Runs(s, t, Checking) && HeadUncommitted(s, b)
    requires var l := s.threads[t].loc;
             l.op.Replace? && l.bucket == b && l.ticket == 0 && l.mine.Some? && l.head == Head(s, b)
    ensures Goes(s0, s', {t}) && Only(s, s', t) && s' == s.(threads := s'.threads)
    ensures s'.threads[t].loc == s.threads[t].loc.(at := HelpBumping) && s'.threads[t].scan.None?
  {
    hide Goes;
    s' := Checks(s0, s, t, {t});
    s' := HelpReads(s0, s', t, {t});
  }

  /** It loses its CAS to a put, helps the put's record and is about to do its CAS again, with a
      candidate that is linked past that record. */
  lemma ReplaceLosesToPut(p: Path, t: Tid, u: Tid, b: nat, item: int) returns (p': Path)
    requires Good(p) && Replacing(End(p), t, b) && u != t && Ready(p, u)
    requires var l := End(p).threads[t].loc; End(p).recs[l.mine.value].next == l.head
    ensures Good(p') && p'.n == p.n && Replacing(End(p'), t, b) && Stalled(End(p'), u, b)
    ensures var l := End(p').threads[t].loc; End(p').recs[l.mine.value].next != l.head
    ensures End(p').threads.Keys == End(p).threads.Keys
    ensures forall w :: w in End(p).threads && w != t && w != u ==> End(p').threads[w] == End(p).threads[w]
  {
    hide Basic, Memory, Ordered, Goes, Good, Ready, Shape;
    var p1 := PutStalls(p, u, b, item);
    assert LinksHead(End(p1), t, Proceed) && OverCommitted(End(p1), t, Proceed);
    var p2 := GoodInstall(p1, t);
    var s2 := End(p2);
    LosesCas(End(p1), t, b);
    hide Install;
    GoodEnd(p2);
    GoesSelf(s2, {t});
    var s := ReplaceHelps(s2, s2, t, b);
    hide Replacing, HeadUncommitted;
    p' := GoodGoes(p2, s, {t});
  }

  lemma LosesCas(s: State, t: Tid, b: nat)
    requires Runs(s, t, Installing) && HeadUncommitted(s, b) && LocalOk(s, s.threads[t].loc)
    requires var l := s.threads[t].loc;
             l.op.Replace? && l.bucket == b && l.ticket == 0 && l.mine.Some? && l.head != Head(s, b)
    ensures var s', l := Install(s, t), s.threads[t].loc;
            && s' == s.(threads := s'.threads) && Only(s, s', t) && Runs(s', t, Checking)
            && s'.threads[t].loc == l.(at := Checking, head := Head(s, b))
  {
  }

  // ----- from the empty table -----

  /** An empty table and three registered threads. */
  lemma ThreeThreads(n: nat) returns (p: Path)
    ensures Ready(p, 0) && Ready(p, 1) && Ready(p, 2) && End(p).threads.Keys == {0, 1, 2}
    ensures p.n == n == |End(p).log| && forall b: nat :: b < n ==> HeadCommitted(End(p), b)
  {
    hide Good, Goes, Basic;
    p := Path(n, [Init(n)], []);
    EmptyTable(n);
    var s0 := End(p);
    GoesSelf(s0, {0, 1, 2});
    var s := Registers(s0, s0, 0);
    s := Registers(s0, s, 1);
    s := Registers(s0, s, 2);
    p := GoodGoes(p, s, {0, 1, 2});
  }

  lemma EmptyTable(n: nat)
    ensures Good(Path(n, [Init(n)], [])) && Basic(Init(n))
  {
    InitBasic(n);
  }

  lemma Registers(s0: State, s: State, t: Tid) returns (s': State)
    requires Goes(s0, s, {0, 1, 2}) && t in {0, 1, 2} && t !in s.threads
    ensures Goes(s0, s', {0, 1, 2}) && s' == WithThread(s, t, Thread(Resting, None, [], None, {}))
  {
    hide Goes, Shape;
    Next(s0, s, t, Register, {0, 1, 2});
    s' := WithThread(s, t, Thread(Resting, None, [], None, {}));
  }

  /** A remove about to cover the record of a stalled put. */
  lemma UncommittedReached(n: nat, b: nat, item: int) returns (p: Path)
    requires b < n
    ensures Good(p) && p.n == n && AboutToInstall(End(p), 1)
    ensures LinksHead(End(p), 1, Proceed) && !OverCommitted(End(p), 1, Proceed)
  {
    hide Good, LinksHead, OverCommitted, AboutToInstall;
    p := ThreeThreads(n);
    p := PutStalls(p, 0, b, item);
    p := RemoveCoversStalled(p, 1, b);
  }

  /** A replace about to win with a stale link, while two puts are past their CAS. */
  lemma StaleReached(n: nat, b: nat, item0: int, item1: int, item2: int) returns (p: Path)
    requires b < n
    ensures Good(p) && p.n == n && AboutToInstall(End(p), 1) && OthersPast(End(p), 1)
    ensures !LinksHead(End(p), 1, Proceed) && OverCommitted(End(p), 1, Proceed)
  {
    hide Good, LinksHead, OverCommitted, AboutToInstall, HeadCommitted, HeadUncommitted;
    p := ThreeThreads(n);
    p := PutStalls(p, 0, b, item0);
    p := ReplaceReady(p, 1, b, item1);
    p := ReplaceLosesToPut(p, 1, 2, b, item2);
    StaleNow(p, b);
  }

  lemma StaleNow(p: Path, b: nat)
    requires Good(p) && Replacing(End(p), 1, b)
    requires End(p).recs[End(p).threads[1].loc.mine.value].next != End(p).threads[1].loc.head
    ensures AboutToInstall(End(p), 1) && !LinksHead(End(p), 1, Proceed) && OverCommitted(End(p), 1, Proceed)
  {
    hide Good, Basic, Memory, Ordered;
    GoodEnd(p);
    BasicLocal(End(p), 1);
  }

  // ----- what comes of it -----

  /** A run that goes on from p with t's CAS and without a further CAS. */
  ghost predicate GoesOn(p: Path, t: Tid, states: seq<State>, events: seq<Event>) {
    && Run(p.n, states, events) && p.states <= states && p.events + [Event(t, Proceed)] <= events
    && forall i :: |p.events| < i < |events| ==> !Installs(states[i], events[i])
  }

  lemma Extended(p: Path, t: Tid, s': State, who: set<Tid>) returns (states: seq<State>, events: seq<Event>)
    requires Good(p) && AboutToInstall(End(p), t) && Goes(Install(End(p), t), s', who)
    ensures GoesOn(p, t, states, events) && states[|events|] == s'
  {
    hide Basic, Memory, Ordered, LinksHead, OverCommitted, Installs;
    GoodEnd(p);
    TakesInstall(End(p), t);
    hide Takes, Install, Shape;
    var more: seq<State>, rest: seq<Event> :|
      Continues(more, rest, who) && more[0] == Install(End(p), t) && more[|rest|] == s';
    states, events := p.states + more, p.events + [Event(t, Proceed)] + rest;
    forall i | 0 <= i < |events|
      ensures Takes(states[i], events[i], states[i + 1]) && (|p.events| < i ==> !Installs(states[i], events[i]))
    {
      if i < |p.events| {
        assert Takes(p.states[i], p.events[i], p.states[i + 1]);
      } else if i > |p.events| {
        var k := i - |p.events| - 1;
        assert Takes(more[k], rest[k], more[k + 1]) && !Installs(more[k], rest[k]);
      }
    }
  }

  /** A finished view that is wrong about some bucket. */
  ghost predicate WrongView(s: State, v: Tid) {
    && v in s.threads
    && var l := s.threads[v].loc;
    && l.at.Returning? && l.op.View? && |l.op.out| == |s.log|
    && exists b: nat :: b < |s.log| && !Snapshot(s, b, l.op.lin, l.op.out[b])
  }

  lemma ViewGoesWrong(p: Path, t: Tid) returns (v: Tid, states: seq<State>, events: seq<Event>)
    requires Good(p) && AboutToInstall(End(p), t) && !Faithful(End(p), t)
    ensures GoesOn(p, t, states, events) && WrongView(states[|events|], v)
  {
    hide Good, Basic, Memory, Ordered, Goes, Faithful, Snapshot, GoesOn;
    GoodEnd(p);
    v := Unused(End(p).threads.Keys);
    var s' := ViewRightIff(End(p), t, v);
    InstalledShape(End(p), t);
    hide Install, AboutToInstall;
    states, events := Extended(p, t, s', {v});
  }

  /** The promise of lohat.h fails for remove(): in every table, for every bucket, a remove can
      cover a record that has no epoch yet, after which a view that runs alone is wrong. */
  lemma RemoveFault(n: nat, b: nat, item: int) returns (p: Path, v: Tid, states: seq<State>, events: seq<Event>)
    requires b < n
    ensures Good(p) && p.n == n && LinksHead(End(p), 1, Proceed) && !OverCommitted(End(p), 1, Proceed)
    ensures GoesOn(p, 1, states, events) && WrongView(states[|events|], v)
  {
    hide Good, LinksHead, OverCommitted, AboutToInstall, GoesOn, WrongView;
    p := UncommittedReached(n, b, item);
    v, states, events := ViewGoesWrong(p, 1);
  }

  /** And for replace(): one that has lost its CAS to a put wins with a stale link, after which a
      view that runs alone is wrong. */
  lemma ReplaceFault(n: nat, b: nat, item0: int, item1: int, item2: int)
    returns (p: Path, v: Tid, states: seq<State>, events: seq<Event>)
    requires b < n
    ensures Good(p) && p.n == n && !LinksHead(End(p), 1, Proceed) && OverCommitted(End(p), 1, Proceed)
    ensures GoesOn(p, 1, states, events) && WrongView(states[|events|], v)
  {
    hide Good, LinksHead, OverCommitted, AboutToInstall, GoesOn, WrongView, OthersPast;
    p := StaleReached(n, b, item0, item1, item2);
    v, states, events := ViewGoesWrong(p, 1);
  }

  /** The same replace, and a scan: a view is about to read a record that has been freed. */
  lemma UseAfterFree(n: nat, b: nat, item0: int, item1: int, item2: int)
    returns (p: Path, states: seq<State>, events: seq<Event>)
    requires b < n
    ensures Good(p) && p.n == n && !LinksHead(End(p), 1, Proceed)
    ensures GoesOn(p, 1, states, events) && ReadsFreed(states[|events|])
  {
    hide LinksHead, OverCommitted, AboutToInstall, GoesOn, ReadsFreed, OthersPast, Basic, Memory, Ordered, Settled,
         Goes, Install;
    p := StaleReached(n, b, item0, item1, item2);
    GoodEnd(p);
    RunSettled(p.n, p.states, p.events, |p.events|);
    hide Good;
    var s', who := StaleReads(End(p), 1);
    states, events := Extended(p, 1, s', who);
  }

  /** The same remove: the put's record comes to have a greater write epoch than the remove's
      record above it. */
  lemma EpochsFall(n: nat, b: nat, item: int) returns (p: Path, states: seq<State>, events: seq<Event>)
    requires b < n
    ensures Good(p) && p.n == n && !OverCommitted(End(p), 1, Proceed)
    ensures GoesOn(p, 1, states, events) && Falls(states[|events|])
  {
    hide Good, LinksHead, OverCommitted, AboutToInstall, GoesOn, Falls, Basic, Memory, Ordered, Goes, Install;
    p := UncommittedReached(n, b, item);
    GoodEnd(p);
    var s', who := UncommittedFalls(End(p), 1);
    states, events := Extended(p, 1, s', who);
  }
}
