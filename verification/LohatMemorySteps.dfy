/** Every step whose CAS, if any, links to the head it replaces keeps the reclamation invariant. */
module LohatMemorySteps {
  import opened Options
  import opened LohatModel
  import opened LohatBasic
  import opened LohatSteps
  import opened LohatMemory

  /** A step inside an operation: reservation and scan untouched, nothing on a bucket freed. */
  ghost predicate Inner(s: State, s': State, t: Tid) {
    && t in s.threads && t in s'.threads
    && s'.threads[t].slot == s.threads[t].slot && s'.threads[t].snap == s.threads[t].snap
    && s.threads[t].scan.None? && s'.threads[t].scan.None?
    && (forall x: nat :: x < |s.recs| && x in s'.freed && x !in s.freed ==> !s.recs[x].installed)
    && !s'.threads[t].loc.at.Idle? && !s'.threads[t].loc.at.Reserving?
    && !s.threads[t].loc.at.Idle? && !s.threads[t].loc.at.Reserving?
  }

  lemma InnerStep(s: State, s': State, t: Tid)
    requires Basic(s) && Memory(s) && Evolves(s, s', t) && Inner(s, s', t)
    requires Linked(s') && CandidateLinked(s', s'.threads[t].loc)
    requires s'.threads[t].slot.Some? ==>
               Pointers(s', s'.threads[t].slot.value, s'.threads[t].snap, s'.threads[t].loc)
    ensures Memory(s')
  {
    hide Basic;
    MemoryScan(s, t);
    assert FreesSafely(s, s', t);
    ReservedKept(s, s', t, t);
    assert ScanSteps(s, s', t) by {
      forall u | u in s.threads && u != t && s.threads[u].scan.Some? && t !in s.threads[u].scan.value.todo
        ensures Respects(s.threads[u].scan.value.low, s.threads[u].retired, s'.threads[t])
      {
        MemoryScan(s, u);
        assert Respects(s.threads[u].scan.value.low, s.threads[u].retired, s.threads[t]);
      }
    }
    assert SlotOk(s', s'.threads[t]) by { hide Evolves; }
    hide Evolves, SlotOk;
    MemoryKept(s, s', t);
  }

  /** A step that drops pointers, keeps them, or adds a candidate that is not on a bucket. */
  lemma PointersKept(s: State, s': State, t: Tid)
    requires Basic(s) && Memory(s) && Evolves(s, s', t) && Inner(s, s', t)
    requires var l, l' := s.threads[t].loc, s'.threads[t].loc;
             && (l'.head == l.head || l'.head.None?)
             && (l'.mine == l.mine || l'.mine.None? || |s.recs| <= l'.mine.value)
             && (l.mine.Some? && l'.mine == l.mine && l.mine.value < |s.recs| && l.mine.value < |s'.recs| ==>
                   s'.recs[l.mine.value].installed == s.recs[l.mine.value].installed)
             && (l'.op == l.op || !l'.op.View?)
             && (Linearized(l') ==> Linearized(l))
    requires forall r: nat :: |s.recs| <= r < |s'.recs| ==> !s'.recs[r].installed
    ensures s'.threads[t].slot.Some? ==>
              Pointers(s', s'.threads[t].slot.value, s'.threads[t].snap, s'.threads[t].loc)
  {
    hide Basic;
    BasicThread(s, t);
    MemoryScan(s, t);
    var th := s.threads[t];
    var l, l' := th.loc, s'.threads[t].loc;
    if th.slot.Some? {
      assert Pointers(s, th.slot.value, th.snap, l) && Reserved(s, th.slot.value, th.snap);
      if l'.head.Some? { ProtectedKept(s, s', t, th.slot.value, th.snap, l.head.value); }
      if l'.mine.Some? && l'.mine == l.mine && s.recs[l.mine.value].installed {
        ProtectedKept(s, s', t, th.slot.value, th.snap, l.mine.value);
      }
      SnapKept(s, s', t, th.snap);
    }
  }

  lemma SnapKept(s: State, s': State, t: Tid, snap: set<RecId>)
    requires Evolves(s, s', t) && forall x :: x in snap ==> x < |s.recs| && s.recs[x].retire != 0
    ensures forall x: nat :: x in snap ==> x < |s.recs| && s'.recs[x].retire == s.recs[x].retire
  {
    forall x: nat | x in snap ensures x < |s.recs| && s'.recs[x].retire == s.recs[x].retire {
      assert RecordEvolves(s.recs[x], s'.recs[x], t);
    }
  }

  lemma LinkedKept(s: State, s': State, t: Tid)
    requires Linked(s) && LogsAgree(s') && SharedEvolves(s, s', t)
    requires forall r: nat :: r < |s'.recs| && s'.recs[r].installed ==> r < |s.recs| && s.recs[r].installed
    ensures Linked(s')
  {
    forall r: nat | r < |s'.recs| && s'.recs[r].installed ensures OnLog(s', r) && s'.recs[r].next == Under(s', r) {
      assert OnLog(s, r);
      OnLogKept(s, s', t, r);
      assert RecordEvolves(s.recs[r], s'.recs[r], t);
    }
  }

  /** The steps that leave the buckets alone. */
  lemma PlainStep(s: State, s': State, t: Tid)
    requires Basic(s) && Memory(s) && Evolves(s, s', t) && Inner(s, s', t) && Basic(s')
    requires forall r: nat :: r < |s'.recs| && s'.recs[r].installed ==> r < |s.recs| && s.recs[r].installed
    requires CandidateLinked(s', s'.threads[t].loc)
    requires var l, l' := s.threads[t].loc, s'.threads[t].loc;
             && (l'.head == l.head || l'.head.None?)
             && (l'.mine == l.mine || l'.mine.None? || |s.recs| <= l'.mine.value)
             && (l'.op == l.op || !l'.op.View?)
             && (Linearized(l') ==> Linearized(l))
    ensures Memory(s')
  {
    hide Basic;
    assert SharedEvolves(s, s', t) && LogsAgree(s') by { BasicLogs(s'); }
    assert Linked(s);
    LinkedKept(s, s', t);
    BasicThread(s, t);
    var l := s.threads[t].loc;
    if l.mine.Some? && l.mine.value < |s.recs| { assert RecordEvolves(s.recs[l.mine.value], s'.recs[l.mine.value], t); }
    PointersKept(s, s', t);
    hide Evolves, Memory, Linked, Pointers, CandidateLinked;
    InnerStep(s, s', t);
  }

  // ----- step by step -----

  lemma CheckMemory(s: State, t: Tid)
    requires Basic(s) && Memory(s) && t in s.threads && s.threads[t].scan.None? && s.threads[t].loc.at.Checking?
    ensures Memory(Check(s, t))
  {
    hide Basic, Evolves, Memory;
    BasicThread(s, t);
    MemoryScan(s, t);
    CheckBasic(s, t);
    PlainStep(s, Check(s, t), t);
  }

  lemma HelpReadMemory(s: State, t: Tid)
    requires Basic(s) && Memory(s) && t in s.threads && s.threads[t].scan.None? && s.threads[t].loc.at.Helping?
    ensures Memory(HelpRead(s, t))
  {
    hide Basic, Evolves, Memory;
    BasicThread(s, t);
    MemoryScan(s, t);
    HelpReadBasic(s, t);
    PlainStep(s, HelpRead(s, t), t);
  }

  lemma HelpBumpMemory(s: State, t: Tid)
    requires Basic(s) && Memory(s) && t in s.threads && s.threads[t].scan.None? && s.threads[t].loc.at.HelpBumping?
    ensures Memory(HelpBump(s, t))
  {
    hide Basic, Evolves, Memory;
    BasicThread(s, t);
    MemoryScan(s, t);
    HelpBumpBasic(s, t);
    PlainStep(s, HelpBump(s, t), t);
  }

  lemma HelpSwapMemory(s: State, t: Tid)
    requires Basic(s) && Memory(s) && t in s.threads && s.threads[t].scan.None? && s.threads[t].loc.at.HelpSwapping?
    ensures Memory(HelpSwap(s, t))
  {
    hide Basic, Evolves, Memory;
    BasicThread(s, t);
    MemoryScan(s, t);
    HelpSwapBasic(s, t);
    PlainStep(s, HelpSwap(s, t), t);
  }

  lemma CommitBumpMemory(s: State, t: Tid)
    requires Basic(s) && Memory(s) && t in s.threads && s.threads[t].scan.None? && s.threads[t].loc.at.Bumping?
    ensures Memory(CommitBump(s, t))
  {
    hide Basic, Evolves, Memory;
    BasicThread(s, t);
    MemoryScan(s, t);
    CommitBumpBasic(s, t);
    PlainStep(s, CommitBump(s, t), t);
  }

  lemma CommitSwapMemory(s: State, t: Tid)
    requires Basic(s) && Memory(s) && t in s.threads && s.threads[t].scan.None? && s.threads[t].loc.at.Swapping?
    ensures Memory(CommitSwap(s, t))
  {
    hide Basic, Evolves, Memory;
    BasicThread(s, t);
    MemoryScan(s, t);
    CommitSwapBasic(s, t);
    PlainStep(s, CommitSwap(s, t), t);
  }

  lemma RetireMemory(s: State, t: Tid)
    requires Basic(s) && Memory(s) && t in s.threads && s.threads[t].scan.None? && s.threads[t].loc.at.Retiring?
    ensures Memory(Retire(s, t))
  {
    hide Basic, Evolves, Memory;
    BasicThread(s, t);
    MemoryScan(s, t);
    RetireBasic(s, t);
    PlainStep(s, Retire(s, t), t);
  }

  /** The head of a bucket has not been retired. */
  lemma HeadProtected(s: State, b: nat, slot: nat, snap: set<RecId>)
    requires Basic(s) && b < |s.log| && Head(s, b).Some? && Reserved(s, slot, snap)
    ensures Protected(s, slot, snap, Head(s, b).value)
  {
    hide Basic;
    BasicShapeLogs(s);
    HeadOnLog(s, b);
    BasicRecord(s, Head(s, b).value);
  }

  lemma BasicShapeLogs(s: State)
    requires Basic(s)
    ensures LogsAgree(s) && EpochsOk(s)
  {
  }

  lemma ReadHeadMemory(s: State, t: Tid)
    requires Basic(s) && Memory(s) && t in s.threads && s.threads[t].scan.None? && s.threads[t].loc.at.AtHead?
    ensures Memory(ReadHead(s, t))
  {
    hide Basic, Evolves, Memory, Pointers, Reserved, LogsAgree, HeadOk, ScanOk;
    BasicThread(s, t);
    MemoryScan(s, t);
    var s' := ReadHead(s, t);
    assert Basic(s') && Evolves(s, s', t) by { AdvanceBasic(s, t); }
    BasicThread(s', t);
    BasicLogs(s');
    ReadHeadPointers(s, t, s');
    LinkedKept(s, s', t) by { EvolvesShared(s, s', t); MemoryLinked(s); }
    hide Linked, SharedEvolves, ThreadOk, LocalOk;
    InnerStep(s, s', t);
  }

  lemma ReadHeadPointers(s: State, t: Tid, s': State)
    requires t in s.threads && s.threads[t].scan.None? && s.threads[t].loc.at.AtHead? && s.threads[t].slot.Some?
    requires s.threads[t].loc.bucket < |s.log| && s' == ReadHead(s, t) && t in s'.threads
    requires LocalOk(s, s.threads[t].loc) && SlotOk(s, s.threads[t]) && Evolves(s, s', t) && Basic(s)
    ensures Pointers(s', s.threads[t].slot.value, s.threads[t].snap, s'.threads[t].loc)
  {
    hide Basic, Evolves;
    var th := s.threads[t];
    var b := th.loc.bucket;
    if Head(s, b).Some? {
      HeadProtected(s, b, th.slot.value, th.snap);
      ProtectedKept(s, s', t, th.slot.value, th.snap, Head(s, b).value);
    }
    SnapKept(s, s', t, th.snap);
  }

  lemma EvolvesShared(s: State, s': State, t: Tid)
    requires Evolves(s, s', t)
    ensures SharedEvolves(s, s', t)
  {
  }

  lemma MemoryLinked(s: State)
    requires Memory(s)
    ensures Linked(s)
  {
  }

  /** A view that follows a link from a record committed after its epoch. */
  lemma WalkProtected(s: State, slot: nat, snap: set<RecId>, l: Local)
    requires Basic(s) && Linked(s) && Reserved(s, slot, snap) && Pointers(s, slot, snap, l)
    requires l.at.Walking? && l.op.View? && l.head.Some? && OnLog(s, l.head.value)
    requires s.recs[l.head.value].write > l.op.lin && s.recs[l.head.value].next.Some?
    ensures Protected(s, slot, snap, s.recs[l.head.value].next.value)
  {
    hide Basic;
    BasicShapeLogs(s);
    var r := l.head.value;
    UnderOnLog(s, r);
    var x := s.recs[r].next.value;
    BasicRecord(s, x);
  }

  lemma UnderOnLog(s: State, r: RecId)
    requires LogsAgree(s) && OnLog(s, r) && Under(s, r).Some?
    ensures OnLog(s, Under(s, r).value) && s.recs[Under(s, r).value].bucket == s.recs[r].bucket
    ensures s.recs[Under(s, r).value].pos + 1 == s.recs[r].pos
  {
    assert LogEntry(s, s.recs[r].bucket, s.recs[r].pos - 1);
  }

  lemma WalkMemory(s: State, t: Tid)
    requires Basic(s) && Memory(s) && t in s.threads && s.threads[t].scan.None? && s.threads[t].loc.at.Walking?
    ensures Memory(Walk(s, t))
  {
    hide Basic, Evolves, Memory;
    BasicThread(s, t);
    MemoryScan(s, t);
    MemoryLinked(s);
    var l := s.threads[t].loc;
    var th := s.threads[t];
    var s' := Walk(s, t);
    WalkBasic(s, t);
    BasicThread(s', t);
    BasicLogs(s');
    if l.head.Some? && s.recs[l.head.value].write > l.op.lin && s.recs[l.head.value].next.Some? {
      WalkProtected(s, th.slot.value, th.snap, l);
    }
    assert Pointers(s', th.slot.value, th.snap, s'.threads[t].loc);
    LinkedKept(s, s', t) by { EvolvesShared(s, s', t); }
    InnerStep(s, s', t);
  }

  lemma LoadLinMemory(s: State, t: Tid)
    requires Basic(s) && Memory(s) && t in s.threads && s.threads[t].scan.None? && s.threads[t].loc.at.Linearizing?
    ensures Memory(LoadLin(s, t))
  {
    hide Basic, Evolves, Memory;
    BasicThread(s, t);
    BasicShapeLogs(s);
    MemoryScan(s, t);
    MemoryLinked(s);
    var th := s.threads[t];
    var s' := LoadLin(s, t);
    assert Basic(s') && Evolves(s, s', t) by { AdvanceBasic(s, t); }
    BasicThread(s', t);
    BasicLogs(s');
    assert Pointers(s', th.slot.value, th.snap, s'.threads[t].loc);
    LinkedKept(s, s', t) by { EvolvesShared(s, s', t); }
    InnerStep(s, s', t);
  }

  lemma InstallMemory(s: State, t: Tid)
    requires Basic(s) && Memory(s) && t in s.threads && s.threads[t].scan.None? && s.threads[t].loc.at.Installing?
    requires LinksHead(s, t, Proceed)
    ensures Memory(Install(s, t))
  {
    hide Basic, Evolves, Memory, Pointers, Reserved, Linked;
    BasicThread(s, t);
    MemoryScan(s, t);
    MemoryLinked(s);
    var s' := Install(s, t);
    InstallBasic(s, t);
    InstallPointers(s, t);
    InstallLinked(s, t);
    InnerStep(s, s', t);
  }

  lemma InstallPointers(s: State, t: Tid)
    requires Basic(s) && t in s.threads && s.threads[t].scan.None? && s.threads[t].loc.at.Installing?
    requires LocalOk(s, s.threads[t].loc) && SlotOk(s, s.threads[t]) && Evolves(s, Install(s, t), t)
    ensures var th := s.threads[t];
            Pointers(Install(s, t), th.slot.value, th.snap, Install(s, t).threads[t].loc)
  {
    hide Basic, Evolves;
    var th := s.threads[t];
    var l, s' := th.loc, Install(s, t);
    BasicThread(s, t);
    BasicRecord(s, l.mine.value);
    if Head(s, l.bucket).Some? {
      HeadProtected(s, l.bucket, th.slot.value, th.snap);
      ProtectedKept(s, s', t, th.slot.value, th.snap, Head(s, l.bucket).value);
    }
    if l.head.Some? { ProtectedKept(s, s', t, th.slot.value, th.snap, l.head.value); }
  }

  lemma InstallLinked(s: State, t: Tid)
    requires Basic(s) && Linked(s) && t in s.threads && s.threads[t].scan.None? && s.threads[t].loc.at.Installing?
    requires LocalOk(s, s.threads[t].loc) && LinksHead(s, t, Proceed)
    ensures Linked(Install(s, t))
  {
    hide Basic;
    BasicThread(s, t);
    var l := s.threads[t].loc;
    if Head(s, l.bucket) == l.head {
      InstallLinkedWon(s, t);
    } else {
      LinkedKept(s, Install(s, t), t) by {
        InstallBasic(s, t);
        BasicLogs(Install(s, t));
        EvolvesShared(s, Install(s, t), t);
      }
    }
  }

  lemma InstallLinkedWon(s: State, t: Tid)
    requires Basic(s) && Linked(s) && t in s.threads && s.threads[t].scan.None? && s.threads[t].loc.at.Installing?
    requires LocalOk(s, s.threads[t].loc) && Head(s, s.threads[t].loc.bucket) == s.threads[t].loc.head
    requires s.recs[s.threads[t].loc.mine.value].next == s.threads[t].loc.head
    ensures Linked(Install(s, t))
  {
    hide Basic;
    BasicThread(s, t);
    BasicLogs(s);
    var l := s.threads[t].loc;
    var c := l.mine.value;
    var s' := Install(s, t);
    InstallLogs(s, s', t, l.bucket, c);
    forall r: nat | r < |s'.recs| && s'.recs[r].installed ensures OnLog(s', r) && s'.recs[r].next == Under(s', r) {
      if r != c {
        assert OnLog(s, r);
        OnLogKept(s, s', t, r);
      }
    }
  }

  // ----- reservations and scans -----

  /** A step that changes the reservation or the scan of t, and nothing shared. */
  lemma ThreadMemory(s: State, t: Tid, th: Thread)
    requires Basic(s) && Memory(s) && Basic(WithThread(s, t, th)) && Evolves(s, WithThread(s, t, th), t)
    requires ScanSteps(s, WithThread(s, t, th), t)
    requires SlotOk(WithThread(s, t, th), th) && th.loc.mine.None?
    ensures Memory(WithThread(s, t, th))
  {
    hide Basic;
    var s' := WithThread(s, t, th);
    BasicShapeLogs(s');
    LinkedKept(s, s', t);
    hide Evolves;
    MemoryKept(s, s', t);
  }

  /** A reservation is stored: everything retired so far is out of this operation's reach. */
  lemma StoreSlotMemory(s: State, t: Tid)
    requires Basic(s) && Memory(s) && t in s.threads && s.threads[t].scan.None? && s.threads[t].loc.at.Reserving?
    ensures Memory(StoreSlot(s, t))
  {
    hide Basic, Evolves, Memory;
    BasicThread(s, t);
    BasicShapeLogs(s);
    MemoryScan(s, t);
    AdvanceBasic(s, t);
    var s' := StoreSlot(s, t);
    var th := s'.threads[t];
    assert s' == WithThread(s, t, th);
    assert Reserved(s', th.slot.value, th.snap) by { BasicFreed(s); }
    forall u | u in s.threads && u != t && s.threads[u].scan.Some?
      ensures Respects(s.threads[u].scan.value.low, s.threads[u].retired, th)
    {
      BasicList(s, u);
      forall i | 0 <= i < |s.threads[u].retired| ensures s.threads[u].retired[i] in th.snap {
        assert ListCell(s, u, s.threads[u].retired[i]);
      }
    }
    ThreadMemory(s, t, th);
  }

  lemma EndOpMemory(s: State, t: Tid)
    requires Basic(s) && Memory(s) && t in s.threads && s.threads[t].scan.None? && s.threads[t].loc.at.Returning?
    ensures Memory(EndOp(s, t))
  {
    hide Basic, Evolves, Memory;
    MemoryScan(s, t);
    AdvanceBasic(s, t);
    ThreadMemory(s, t, EndOp(s, t).threads[t]);
  }

  lemma ScanStepsOf(s: State, s': State, t: Tid)
    requires Memory(s) && t in s.threads && t in s'.threads && ScansOk(s', t)
    requires s'.threads[t].slot == s.threads[t].slot && s'.threads[t].snap == s.threads[t].snap
    ensures ScanSteps(s, s', t)
  {
    forall u | u in s.threads && u != t && s.threads[u].scan.Some? && t !in s.threads[u].scan.value.todo
      ensures Respects(s.threads[u].scan.value.low, s.threads[u].retired, s'.threads[t])
    {
      assert ScansOk(s, u);
      assert Respects(s.threads[u].scan.value.low, s.threads[u].retired, s.threads[t]);
    }
  }

  lemma StartOpMemory(s: State, t: Tid, op: Op, b: nat)
    requires Basic(s) && Memory(s) && Enabled(s, t, Start(op, b)) && s.threads[t].slot.None?
    ensures Memory(StartOp(s, t, op, b))
  {
    hide Basic, Evolves, Memory;
    MemoryScan(s, t);
    var s' := StartOp(s, t, op, b);
    assert Basic(s') && Evolves(s, s', t) by { StepBasic(s, t, Start(op, b)); }
    ScanStepsOf(s, s', t);
    ThreadMemory(s, t, s'.threads[t]);
  }

  lemma ScanReadMemory(s: State, t: Tid, u: Tid, s': State)
    requires Enabled(s, t, ReadSlot(u)) && u in s.threads && s.threads[t].loc.mine.None? && s' == ScanRead(s, t, u)
    requires Basic(s) && Memory(s)
    ensures Memory(s')
  {
    hide Basic, Evolves, Memory;
    MemoryScan(s, t);
    assert Basic(s') && Evolves(s, s', t) by { StepBasic(s, t, ReadSlot(u)); }
    assert ScansOk(s', t) by {
      var low, low' := s.threads[t].scan.value.low, s'.threads[t].scan.value.low;
      forall v | v in s'.threads && v !in s'.threads[t].scan.value.todo
        ensures Respects(low', s'.threads[t].retired, s'.threads[v])
      {
        if v != u { assert Respects(low, s.threads[t].retired, s.threads[v]); }
      }
    }
    ScanStepsOf(s, s', t);
    ThreadMemory(s, t, s'.threads[t]);
  }

  lemma ScanStartMemory(s: State, t: Tid)
    requires Basic(s) && Memory(s) && Enabled(s, t, BeginScan) && s.threads[t].loc.mine.None?
    ensures Memory(ScanStart(s, t))
  {
    hide Basic, Evolves, Memory;
    MemoryScan(s, t);
    var s' := ScanStart(s, t);
    assert Basic(s') && Evolves(s, s', t) by { StepBasic(s, t, BeginScan); }
    ScanStepsOf(s, s', t);
    ThreadMemory(s, t, s'.threads[t]);
  }

  /** mmm_empty() frees nothing that a reservation may still need. */
  lemma ScanFreeSafe(s: State, t: Tid)
    requires Enabled(s, t, FinishScan)
    requires forall i :: 0 <= i < |s.threads[t].retired| ==> s.threads[t].retired[i] < |s.recs|
    requires Basic(s) && Memory(s)
    ensures FreesSafely(s, ScanFree(s, t), t)
  {
    hide Basic, Memory;
    var cells := s.threads[t].retired;
    var low := s.threads[t].scan.value.low;
    var k := CutAt(s.recs, cells, low);
    forall x, u | x in cells[k..] && u in s.threads && s.threads[u].slot.Some?
      ensures x < |s.recs| && (s.recs[x].retire < s.threads[u].slot.value || x in s.threads[u].snap)
    {
      hide ScanFree;
      var i :| k <= i < |cells| && cells[i] == x;
      CutCell(s, t, u, k, i);
    }
  }

  /** A cell at or after the cut. */
  lemma CutCell(s: State, t: Tid, u: Tid, k: nat, i: nat)
    requires Enabled(s, t, FinishScan) && u in s.threads && s.threads[u].slot.Some?
    requires forall j :: 0 <= j < |s.threads[t].retired| ==> s.threads[t].retired[j] < |s.recs|
    requires k == CutAt(s.recs, s.threads[t].retired, s.threads[t].scan.value.low) && k <= i < |s.threads[t].retired|
    requires Basic(s) && Memory(s)
    ensures var x := s.threads[t].retired[i];
            s.recs[x].retire < s.threads[u].slot.value || x in s.threads[u].snap
  {
    hide Basic, Memory, SlotOk, CandidateLinked, ListCell, CutAt;
    MemoryScan(s, t);
    BasicList(s, t);
    var cells := s.threads[t].retired;
    assert s.recs[cells[i]].retire <= s.recs[cells[k]].retire;
    hide ListOk;
    assert Respects(s.threads[t].scan.value.low, cells, s.threads[u]);
  }

  lemma ScanFreeMemory(s: State, t: Tid, s': State)
    requires Enabled(s, t, FinishScan) && s.threads[t].loc.mine.None?
    requires forall i :: 0 <= i < |s.threads[t].retired| ==> s.threads[t].retired[i] < |s.recs|
    requires s' == ScanFree(s, t) && Basic(s) && Memory(s)
    ensures Memory(s')
  {
    hide Basic, Evolves, Memory, Linked;
    MemoryScan(s, t);
    BasicThread(s, t);
    MemoryLinked(s);
    assert Basic(s') && Evolves(s, s', t) by { StepBasic(s, t, FinishScan); }
    ScanFreeSafe(s, t);
    ScanStepsOf(s, s', t);
    EvolvesShared(s, s', t);
    BasicShapeLogs(s');
    LinkedKept(s, s', t);
    if s.threads[t].slot.Some? {
      ReservedKept(s, s', t, t);
      ScanFreePointers(s, s', t);
    }
    MemoryKept(s, s', t);
  }

  lemma ScanFreePointers(s: State, s': State, t: Tid)
    requires t in s.threads && s'.recs == s.recs && s'.epoch == s.epoch && s.threads[t].slot.Some?
    requires Pointers(s, s.threads[t].slot.value, s.threads[t].snap, s.threads[t].loc)
    ensures Pointers(s', s.threads[t].slot.value, s.threads[t].snap, s.threads[t].loc)
  {
  }

  lemma RegisterMemory(s: State, t: Tid)
    requires Basic(s) && Memory(s) && t !in s.threads
    ensures Memory(WithThread(s, t, Thread(Resting, None, [], None, {})))
  {
    hide Basic, Evolves, Memory;
    var th := Thread(Resting, None, [], None, {});
    StepBasic(s, t, Register);
    ThreadMemory(s, t, th);
  }

  lemma AdvanceMemory(s: State, t: Tid)
    requires Basic(s) && Memory(s) && Enabled(s, t, Proceed) && LinksHead(s, t, Proceed)
    ensures Shape(s) && Memory(Advance(s, t))
  {
    hide Basic, Memory, LinksHead;
    BasicThread(s, t);
    BasicShape(s);
    match s.threads[t].loc.at
    case Reserving => StoreSlotMemory(s, t);
    case Linearizing => LoadLinMemory(s, t);
    case AtHead => ReadHeadMemory(s, t);
    case Checking => CheckMemory(s, t);
    case Helping => HelpReadMemory(s, t);
    case HelpBumping => HelpBumpMemory(s, t);
    case HelpSwapping => HelpSwapMemory(s, t);
    case Installing => InstallMemory(s, t);
    case Bumping => CommitBumpMemory(s, t);
    case Swapping => CommitSwapMemory(s, t);
    case Retiring => RetireMemory(s, t);
    case Walking => WalkMemory(s, t);
    case Returning => EndOpMemory(s, t);
  }

  lemma StepMemory(s: State, t: Tid, a: Action)
    requires Basic(s) && Memory(s) && Enabled(s, t, a) && LinksHead(s, t, a)
    ensures Shape(s) && Memory(Apply(s, t, a))
  {
    hide Basic, Memory;
    assert Shape(s) by { BasicShape(s); }
    if t in s.threads { BasicThread(s, t); MemoryScan(s, t); }
    match a
    case Register => RegisterMemory(s, t);
    case Start(op, b) => StartOpMemory(s, t, op, b);
    case Proceed => AdvanceMemory(s, t);
    case BeginScan => ScanStartMemory(s, t);
    case ReadSlot(u) => ScanReadMemory(s, t, u, ScanRead(s, t, u));
    case FinishScan => ScanFreeMemory(s, t, ScanFree(s, t));
  }
}
