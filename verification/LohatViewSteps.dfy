/** Every step over a committed head keeps the order of write epochs; every step that also links
    to that head keeps what views have seen. */
module LohatViewSteps {
  import opened Options
  import opened LohatModel
  import opened LohatBasic
  import opened LohatSteps
  import opened LohatMemory
  import opened LohatMemorySteps
  import opened LohatViews

  /** A log grows only by a successful CAS. */
  lemma StepLog(s: State, t: Tid, a: Action)
    requires Basic(s) && Enabled(s, t, a)
    ensures Shape(s)
    ensures Apply(s, t, a).log == s.log
            || (a.Proceed? && s.threads[t].loc.at.Installing? && LocalOk(s, s.threads[t].loc)
                && var l := s.threads[t].loc;
                Head(s, l.bucket) == l.head
                && Apply(s, t, a).log == s.log[l.bucket := s.log[l.bucket] + [l.mine.value]])
  {
    hide Basic;
    assert Shape(s) by { BasicShape(s); }
    if t in s.threads { BasicThread(s, t); }
  }

  lemma StepBump(s: State, t: Tid, a: Action)
    requires Basic(s) && Enabled(s, t, a)
    ensures Shape(s) && t in Apply(s, t, a).threads
    ensures Apply(s, t, a).threads[t].loc.ticket != 0 ==> Apply(s, t, a).recs == s.recs
  {
    hide Basic, Shape, LogsAgree, Stage, OnLog;
    assert Shape(s) by { BasicShape(s); }
    if t in s.threads { BasicThread(s, t); }
  }

  lemma CommittedBelowKept(s: State, t: Tid, a: Action)
    requires Basic(s) && Enabled(s, t, a) && Ordered(s) && OverCommitted(s, t, a)
    ensures Shape(s) && CommittedBelow(Apply(s, t, a))
  {
    hide Basic;
    StepBasic(s, t, a);
    StepLog(s, t, a);
    var s' := Apply(s, t, a);
    forall r: nat | r < |s'.recs| && s'.recs[r].installed && Covered(s', r) ensures s'.recs[r].write != 0 {
      assert r < |s.recs| by { BasicRecord(s', r); if r >= |s.recs| { EvolvesNew(s, s', t, r); } }
      assert RecordEvolves(s.recs[r], s'.recs[r], t);
      if s.recs[r].installed {
        BasicRecord(s, r);
        if !Covered(s, r) { HeadIsLast(s, r); }
      } else {
        InstalledOnTop(s, s', t, r);
      }
    }
  }

  lemma EvolvesNew(s: State, s': State, t: Tid, r: RecId)
    requires SharedEvolves(s, s', t) && |s.recs| <= r < |s'.recs|
    ensures !s'.recs[r].installed
  {
  }

  lemma HeadIsLast(s: State, r: RecId)
    requires OnLog(s, r) && !Covered(s, r)
    ensures Head(s, s.recs[r].bucket) == Some(r)
  {
  }

  lemma InstalledOnTop(s: State, s': State, t: Tid, r: RecId)
    requires Basic(s) && Basic(s') && Evolves(s, s', t) && r < |s.recs| && !s.recs[r].installed && s'.recs[r].installed
    requires |s'.log| == |s.log|
    requires forall b: nat :: b < |s.log| ==> |s'.log[b]| <= |s.log[b]| + 1
    ensures !Covered(s', r)
  {
  }

  lemma OrderedKept(s: State, t: Tid, a: Action)
    requires Basic(s) && Enabled(s, t, a) && Ordered(s) && OverCommitted(s, t, a)
    ensures Shape(s) && Ordered(Apply(s, t, a))
  {
    hide Basic, Evolves, OverCommitted;
    StepBasic(s, t, a);
    StepTicket(s, t, a);
    StepBump(s, t, a);
    var s' := Apply(s, t, a);
    RisingKept(s, s', t);
    CommittedBelowKept(s, t, a);
    forall u | u in s'.threads ensures TicketAbove(s', s'.threads[u].loc) && HelpedBefore(s', s'.threads[u].loc) {
      if u == t {
        OwnTicket(s, t, a);
        OwnHelped(s, t, a);
      } else {
        assert u in s.threads && s'.threads[u] == s.threads[u] by { EvolvesOthers(s, s', t, u); }
        OtherTicket(s, s', t, u);
        OtherHelped(s, s', t, u);
      }
    }
  }

  lemma EvolvesOthers(s: State, s': State, t: Tid, u: Tid)
    requires Evolves(s, s', t) && u in s'.threads && u != t
    ensures u in s.threads && s'.threads[u] == s.threads[u]
  {
  }

  lemma OtherTicket(s: State, s': State, t: Tid, u: Tid)
    requires Basic(s) && Basic(s') && Evolves(s, s', t) && Ordered(s) && u in s.threads && u != t
    ensures TicketAbove(s', s.threads[u].loc)
  {
    hide Basic;
    var l := s.threads[u].loc;
    if l.ticket != 0 {
      BasicThread(s, u);
      var r := Target(l).value;
      assert TicketAbove(s, l);
      forall q: nat | Older(s', q, r) ensures s'.recs[q].write < l.ticket {
        OlderTarget(s, s', t, q, r);
        BelowFixed(s, s', t, q, r);
      }
    }
  }

  lemma OlderTarget(s: State, s': State, t: Tid, q: RecId, r: RecId)
    requires Basic(s) && Basic(s') && Evolves(s, s', t) && Older(s', q, r) && r < |s.recs| && s.recs[r].installed
    ensures Older(s, q, r)
  {
    hide Basic;
    BasicRecord(s, r);
    BasicRecord(s', q);
    BasicRecord(s', r);
    assert RecordEvolves(s.recs[r], s'.recs[r], t);
    var b := s.recs[r].bucket;
    assert s.log[b] <= s'.log[b];
    assert s'.log[b][s'.recs[q].pos] == s.log[b][s'.recs[q].pos];
    assert LogEntry(s, b, s'.recs[q].pos) by { BasicShapeLogs(s); }
  }

  lemma OtherHelped(s: State, s': State, t: Tid, u: Tid)
    requires Basic(s) && Evolves(s, s', t) && Ordered(s) && u in s.threads && u != t
    ensures HelpedBefore(s', s.threads[u].loc)
  {
    hide Basic;
    BasicThread(s, u);
    var l := s.threads[u].loc;
    assert HelpedBefore(s, l);
    if l.head.Some? { assert RecordEvolves(s.recs[l.head.value], s'.recs[l.head.value], t); }
  }

  lemma OwnTicket(s: State, t: Tid, a: Action)
    requires Basic(s) && Enabled(s, t, a) && Shape(s)
    ensures t in Apply(s, t, a).threads && TicketAbove(Apply(s, t, a), Apply(s, t, a).threads[t].loc)
  {
    hide Basic;
    StepTicket(s, t, a);
    StepBump(s, t, a);
    hide Apply;
    BasicShapeLogs(s);
  }

  lemma OrderedHelped(s: State, t: Tid)
    requires Ordered(s) && t in s.threads
    ensures HelpedBefore(s, s.threads[t].loc)
  {
  }

  lemma OwnHelped(s: State, t: Tid, a: Action)
    requires Basic(s) && Enabled(s, t, a) && Shape(s) && Ordered(s)
    ensures t in Apply(s, t, a).threads && HelpedBefore(Apply(s, t, a), Apply(s, t, a).threads[t].loc)
  {
    hide Basic, Ordered;
    if t in s.threads { OrderedHelped(s, t); BasicThread(s, t); }
    hide ThreadOk, TicketOk;
    if a.Proceed? { HelpedAdvance(s, t); }
  }

  lemma HelpedAdvance(s: State, t: Tid)
    requires Shape(s) && t in s.threads && !s.threads[t].loc.at.Idle? && LocalOk(s, s.threads[t].loc)
    requires HelpedBefore(s, s.threads[t].loc)
    ensures t in Advance(s, t).threads && HelpedBefore(Advance(s, t), Advance(s, t).threads[t].loc)
  {
    hide Shape;
    match s.threads[t].loc.at
    case Helping => assert Advance(s, t) == HelpRead(s, t); hide Advance;
    case HelpSwapping => assert Advance(s, t) == HelpSwap(s, t); hide Advance;
    case AtHead => assert Advance(s, t) == ReadHead(s, t); hide Advance;
    case Checking => assert Advance(s, t) == Check(s, t); hide Advance;
    case Installing => assert Advance(s, t) == Install(s, t); hide Advance;
    case _ => hide ReadHead, Check, HelpRead, HelpSwap, Install, AfterHelp;
  }

  // ----- views -----

  lemma ReadHeadView(s: State, t: Tid)
    requires Basic(s) && t in s.threads && s.threads[t].loc.at.AtHead? && s.threads[t].loc.op.View?
    requires s.threads[t].loc.bucket < |s.log| && ViewOk(s, s.threads[t].loc)
    ensures ViewOk(ReadHead(s, t), ReadHead(s, t).threads[t].loc)
  {
    hide Basic;
    BasicShapeLogs(s);
    BasicThread(s, t);
    var l := s.threads[t].loc;
    var s' := ReadHead(s, t);
    if Head(s, l.bucket).Some? { HeadOnLog(s, l.bucket); }
    forall r: nat | r < |s.recs| && s.recs[r].installed && s.recs[r].bucket == l.bucket
      ensures s.recs[r].pos < |s.log[l.bucket]|
    {
      assert OnLog(s, r);
    }
    SeenSame(s, s', t, l);
  }

  /** A step that changes nothing shared, and no ticket. */
  ghost predicate OnlyMoves(s: State, s': State, t: Tid) {
    && s'.recs == s.recs && s'.log == s.log && t in s.threads
    && s'.threads.Keys == s.threads.Keys
    && (forall u :: u in s.threads && u != t ==> s'.threads[u] == s.threads[u])
    && s.threads[t].loc.ticket == 0 && s'.threads[t].loc.ticket == 0
  }

  lemma LateSame(s: State, s': State, t: Tid, b: nat, k: nat, L: nat)
    requires OnlyMoves(s, s', t) && LateFrom(s, b, k, L)
    ensures LateFrom(s', b, k, L)
  {
    forall r: nat | r < |s'.recs| && s'.recs[r].installed && s'.recs[r].bucket == b && k <= s'.recs[r].pos
      ensures Late(s', r, L)
    {
      assert Late(s, r, L);
    }
  }

  lemma SeenSame(s: State, s': State, t: Tid, l: Local)
    requires OnlyMoves(s, s', t) && Linearized(l) && ViewOk(s, l)
    ensures forall b: nat :: b < |l.op.out| ==> Seen(s', b, l.op.lin, l.op.out[b])
  {
    forall b: nat | b < |l.op.out| ensures Seen(s', b, l.op.lin, l.op.out[b]) {
      assert Seen(s, b, l.op.lin, l.op.out[b]);
      match l.op.out[b]
      case None => LateSame(s, s', t, b, 0, l.op.lin);
      case Some(r) => LateSame(s, s', t, b, s.recs[r].pos + 1, l.op.lin);
    }
  }

  lemma WalkView(s: State, t: Tid)
    requires Basic(s) && Memory(s) && CommittedBelow(s) && t in s.threads && s.threads[t].loc.at.Walking?
    requires LocalOk(s, s.threads[t].loc) && ViewOk(s, s.threads[t].loc)
    ensures ViewOk(Walk(s, t), Walk(s, t).threads[t].loc)
  {
    hide Basic, Memory;
    BasicThread(s, t);
    MemoryLinked(s);
    var l := s.threads[t].loc;
    var s' := Walk(s, t);
    SeenSame(s, s', t, l);
    if l.head.None? || s.recs[l.head.value].write <= l.op.lin {
      var k := if l.head.None? then 0 else s.recs[l.head.value].pos + 1;
      LateSame(s, s', t, l.bucket, k, l.op.lin);
      assert Seen(s', l.bucket, l.op.lin, l.head);
    } else {
      WalkDown(s, t, l.head.value);
      var x := s.recs[l.head.value].next;
      LateSame(s, s', t, l.bucket, if x.None? then 0 else s.recs[x.value].pos + 1, l.op.lin);
    }
  }

  /** Following a link: the record left behind is late, the one reached is committed. */
  lemma WalkDown(s: State, t: Tid, r: RecId)
    requires Basic(s) && Linked(s) && CommittedBelow(s) && t in s.threads && s.threads[t].loc.at.Walking?
    requires s.threads[t].loc.op.View? && ViewOk(s, s.threads[t].loc)
    requires var l := s.threads[t].loc;
             l.head == Some(r) && OnLog(s, r) && s.recs[r].bucket == l.bucket && s.recs[r].write > l.op.lin
    ensures var l, x := s.threads[t].loc, s.recs[r].next;
            && (x.None? ==> LateFrom(s, l.bucket, 0, l.op.lin))
            && (x.Some? ==>
                  OnLog(s, x.value) && s.recs[x.value].write != 0
                  && LateFrom(s, l.bucket, s.recs[x.value].pos + 1, l.op.lin))
  {
    hide Basic;
    BasicShapeLogs(s);
    var l := s.threads[t].loc;
    if Under(s, r).Some? {
      UnderOnLog(s, r);
      assert Covered(s, Under(s, r).value);
    }
    assert LateFrom(s, l.bucket, s.recs[r].pos, l.op.lin) by {
      forall q: nat | q < |s.recs| && s.recs[q].installed && s.recs[q].bucket == l.bucket
        && s.recs[r].pos <= s.recs[q].pos
        ensures Late(s, q, l.op.lin)
      {
        assert OnLog(s, q);
        if q != r { assert s.recs[r].pos + 1 <= s.recs[q].pos; }
      }
    }
  }

  lemma OwnView(s: State, t: Tid, a: Action)
    requires Basic(s) && Memory(s) && Ordered(s) && Views(s) && Enabled(s, t, a) && Shape(s)
    ensures t in Apply(s, t, a).threads && ViewOk(Apply(s, t, a), Apply(s, t, a).threads[t].loc)
  {
    hide Basic, Memory, Ordered, ViewOk, Evolves;
    StepTicket(s, t, a);
    StepBasic(s, t, a);
    var s' := Apply(s, t, a);
    if t in s.threads && Linearized(s.threads[t].loc) {
      BasicThread(s, t);
      MemoryScan(s, t);
      var l := s.threads[t].loc;
      if a.Proceed? && l.at.AtHead? {
        ReadHeadView(s, t);
      } else if a.Proceed? && l.at.Walking? {
        OrderedBelow(s);
        WalkView(s, t);
      } else {
        ViewKept(s, s', t, l);
        ViewMoves(s, t, a);
      }
    } else {
      ViewBegins(s, t, a);
    }
  }

  lemma OrderedBelow(s: State)
    requires Ordered(s)
    ensures CommittedBelow(s) && Rising(s)
  {
  }

  /** A thread that is not past mmm_start_linearized_op() has seen nothing. */
  lemma ViewBegins(s: State, t: Tid, a: Action)
    requires Basic(s) && Enabled(s, t, a) && Shape(s)
    requires t in s.threads ==> !Linearized(s.threads[t].loc)
    ensures t in Apply(s, t, a).threads && ViewOk(Apply(s, t, a), Apply(s, t, a).threads[t].loc)
  {
    hide Basic, Shape, Stage, ThreadOk;
    if t in s.threads { BasicThread(s, t); }
  }

  /** The remaining steps of a view: helping the head, scanning. */
  lemma ViewMoves(s: State, t: Tid, a: Action)
    requires Basic(s) && Enabled(s, t, a) && Shape(s) && t in s.threads && LocalOk(s, s.threads[t].loc)
    requires Linearized(s.threads[t].loc) && ViewOk(Apply(s, t, a), s.threads[t].loc)
    requires !(a.Proceed? && (s.threads[t].loc.at.AtHead? || s.threads[t].loc.at.Walking?))
    ensures t in Apply(s, t, a).threads && ViewOk(Apply(s, t, a), Apply(s, t, a).threads[t].loc)
  {
    hide Basic, Seen, LateFrom;
  }

  lemma ViewsKept(s: State, t: Tid, a: Action)
    requires Basic(s) && Memory(s) && Ordered(s) && Views(s) && Enabled(s, t, a)
    ensures Shape(s) && Views(Apply(s, t, a))
  {
    hide Basic, Memory, Ordered, ViewOk, Evolves;
    StepBasic(s, t, a);
    StepTicket(s, t, a);
    var s' := Apply(s, t, a);
    forall u | u in s'.threads ensures ViewOk(s', s'.threads[u].loc) {
      if u == t {
        OwnView(s, t, a);
      } else {
        EvolvesOthers(s, s', t, u);
        BasicThread(s, u);
        MemoryScan(s, u);
        ViewKept(s, s', t, s.threads[u].loc);
      }
    }
  }
}
