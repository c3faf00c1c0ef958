/** Every step of every operation keeps the `Basic` invariant. */
module LohatSteps {
  import opened Options
  import opened LohatModel
  import opened LohatBasic

  lemma ListKept(s: State, s': State, t: Tid)
    requires Basic(s) && SharedEvolves(s, s', t) && t in s.threads
    requires forall r :: r in s'.freed && r !in s.freed ==> r < |s.recs| && s.recs[r].retire == 0
    ensures ListOk(s', t, s.threads[t].retired)
  {
    var cells := s.threads[t].retired;
    assert ListOk(s, t, cells);
    forall i | 0 <= i < |cells|
      ensures ListCell(s', t, cells[i]) && s'.recs[cells[i]].retire == s.recs[cells[i]].retire
    {
      assert ListCell(s, t, cells[i]);
      OnLogKept(s, s', t, cells[i]);
      assert RecordEvolves(s.recs[cells[i]], s'.recs[cells[i]], t);
      assert CoveredBy(s, cells[i], t);
      assert CoveredBy(s', cells[i], t);
    }
  }

  lemma LogsKept(s: State, s': State, t: Tid)
    requires LogsAgree(s) && SharedEvolves(s, s', t) && s'.log == s.log
    requires forall r: nat :: r < |s.recs| ==> s'.recs[r].installed == s.recs[r].installed
    ensures LogsAgree(s')
  {
    forall b: nat, k: nat | b < |s'.log| && k < |s'.log[b]| ensures LogEntry(s', b, k) {
      assert LogEntry(s, b, k);
      assert RecordEvolves(s.recs[s.log[b][k]], s'.recs[s.log[b][k]], t);
    }
    forall r: nat | r < |s'.recs| && s'.recs[r].installed ensures OnLog(s', r) {
      assert r < |s.recs|;
      assert OnLog(s, r);
      OnLogKept(s, s', t, r);
    }
  }

  lemma HeadOnLog(s: State, b: nat)
    requires LogsAgree(s) && b < |s.log| && Head(s, b).Some?
    ensures OnLog(s, Head(s, b).value) && s.recs[Head(s, b).value].bucket == b
    ensures s.recs[Head(s, b).value].pos + 1 == |s.log[b]|
  {
    assert LogEntry(s, b, |s.log[b]| - 1);
  }

  lemma BasicThread(s: State, t: Tid)
    requires Basic(s) && t in s.threads
    ensures LocalOk(s, s.threads[t].loc) && ThreadOk(s, t, s.threads[t].loc) && ScanOk(s, s.threads[t])
  {
  }

  lemma BasicShape(s: State)
    requires Basic(s)
    ensures Shape(s)
  {
  }

  lemma BasicRecord(s: State, r: RecId)
    requires Basic(s) && r < |s.recs|
    ensures RetireOk(s, r) && LinkBack(s, r) && 1 <= s.epoch
    ensures s.recs[r].write <= s.epoch && s.recs[r].retire <= s.epoch
    ensures r in s.freed && s.recs[r].installed ==> s.recs[r].retire != 0
    ensures s.recs[r].write != 0 ==> s.recs[r].installed
    ensures s.recs[r].installed ==> OnLog(s, r)
  {
  }

  /** Only t moves; records may appear, and t may set the create epoch of its own candidate. */
  ghost predicate Quiet(s: State, s': State, t: Tid) {
    && s'.log == s.log && s'.freed == s.freed && s.epoch <= s'.epoch && |s.recs| <= |s'.recs|
    && (forall r: nat :: r < |s.recs| ==>
          s'.recs[r] == s.recs[r]
          || (s.recs[r].owner == t && !s.recs[r].installed && s'.recs[r] == s.recs[r].(create := s'.recs[r].create)))
    && (forall r: nat :: |s.recs| <= r < |s'.recs| ==>
          s'.recs[r].write == 0 && s'.recs[r].retire == 0 && !s'.recs[r].installed && LinkBack(s', r))
    && t in s'.threads && s'.threads == s.threads[t := s'.threads[t]]
    && s'.threads[t].retired == (if t in s.threads then s.threads[t].retired else [])
  }

  lemma QuietStep(s: State, s': State, t: Tid)
    requires Basic(s) && Quiet(s, s', t)
    requires LocalOk(s', s'.threads[t].loc) && ThreadOk(s', t, s'.threads[t].loc)
    requires ScanOk(s', s'.threads[t])
    requires s'.threads[t].loc.ticket != 0 ==>
               s'.threads[t].loc.ticket == s'.epoch == s.epoch + 1 && TicketOk(s', s'.threads[t].loc)
    ensures Evolves(s, s', t) && Basic(s')
  {
    hide Basic, Evolves;
    QuietEvolves(s, s', t);
    BasicLogs(s);
    LogsKept(s, s', t);
    hide LogsAgree, SharedEvolves, LocalOk, ThreadOk, ScanOk, TicketOk;
    if t in s.threads { ListKept(s, s', t); } else { EmptyList(s', t); }
    BasicKept(s, s', t);
  }

  lemma BasicFreed(s: State)
    requires Basic(s)
    ensures FreedOk(s)
  {
  }

  lemma BasicEpochs(s: State)
    requires Basic(s)
    ensures EpochsOk(s)
  {
  }

  lemma BasicLogs(s: State)
    requires Basic(s)
    ensures LogsAgree(s)
  {
  }

  lemma EmptyList(s: State, t: Tid)
    ensures ListOk(s, t, [])
  {
  }

  lemma QuietEvolves(s: State, s': State, t: Tid)
    requires Quiet(s, s', t)
    ensures SharedEvolves(s, s', t) && Evolves(s, s', t)
  {
    hide LinkBack, RetireOk, CoveredBy;
  }

  lemma GotoStep(s: State, t: Tid, l: Local)
    requires Basic(s) && t in s.threads && ScanOk(s, s.threads[t].(loc := l)) && l.ticket == 0
    requires LocalOk(s, l) && ThreadOk(s, t, l)
    ensures Evolves(s, Goto(s, t, l), t) && Basic(Goto(s, t, l))
  {
    hide Basic, Evolves;
    var s' := Goto(s, t, l);
    BasicThread(s, t);
    assert LocalOk(s', l);
    assert ThreadOk(s', t, l);
    hide LocalOk, ThreadOk, LogsAgree;
    QuietStep(s, s', t);
  }

  lemma AllocStep(s: State, t: Tid, b: nat, next: Option<RecId>, deleted: bool, item: int, l: Local)
    requires Basic(s) && t in s.threads && ScanOk(s, s.threads[t].(loc := l)) && l.ticket == 0
    requires var s1 := Alloc(s, t, b, next, deleted, item); LocalOk(s1, l) && HeadOk(s, l) && Stage(s1, l)
    requires l.mine == Some(|s.recs|) && l.bucket == b
    requires next.Some? ==> OnLog(s, next.value) && s.recs[next.value].bucket == b
    ensures var s' := Goto(Alloc(s, t, b, next, deleted, item), t, l); Evolves(s, s', t) && Basic(s')
  {
    hide Basic, Evolves;
    var s1 := Alloc(s, t, b, next, deleted, item);
    var s' := Goto(s1, t, l);
    BasicThread(s, t);
    BasicFreed(s);
    assert LocalOk(s', l);
    assert HeadOk(s', l);
    assert ThreadOk(s', t, l);
    hide LocalOk, ThreadOk, LogsAgree;
    QuietStep(s, s', t);
  }

  lemma ReadHeadAlloc(s: State, t: Tid)
    requires Basic(s) && t in s.threads && s.threads[t].scan.None? && s.threads[t].loc.at.AtHead?
    requires var l := s.threads[t].loc;
             l.bucket < |s.log| &&
             (l.op.Put? || (l.op.Replace? && Head(s, l.bucket).Some?) || (l.op.Add? && Head(s, l.bucket).None?))
    ensures Evolves(s, ReadHead(s, t), t) && Basic(ReadHead(s, t))
  {
    hide Basic, Evolves, LogsAgree;
    BasicThread(s, t);
    BasicLogs(s);
    var l := s.threads[t].loc;
    if Head(s, l.bucket).Some? { HeadOnLog(s, l.bucket); }
    AllocStep(s, t, l.bucket, Head(s, l.bucket), false, NewItem(l.op), ReadHead(s, t).threads[t].loc);
  }

  lemma ReadHeadGoto(s: State, t: Tid)
    requires Basic(s) && t in s.threads && s.threads[t].scan.None? && s.threads[t].loc.at.AtHead?
    requires var l := s.threads[t].loc;
             l.bucket < |s.log| &&
             !(l.op.Put? || (l.op.Replace? && Head(s, l.bucket).Some?) || (l.op.Add? && Head(s, l.bucket).None?))
    ensures Evolves(s, ReadHead(s, t), t) && Basic(ReadHead(s, t))
  {
    hide Basic, Evolves, LogsAgree;
    BasicThread(s, t);
    BasicLogs(s);
    var l := s.threads[t].loc;
    if Head(s, l.bucket).Some? { HeadOnLog(s, l.bucket); }
    GotoStep(s, t, ReadHead(s, t).threads[t].loc);
  }

  /** Freeing a candidate that no other thread has seen. */
  lemma FreeStep(s: State, t: Tid, c: RecId)
    requires Basic(s) && t in s.threads && s.threads[t].scan.None? && c < |s.recs| && s.recs[c].owner == t
             && !s.recs[c].installed
    ensures var s' := Free(Goto(s, t, Done(s.threads[t].loc)), c); Evolves(s, s', t) && Basic(s')
  {
    hide Basic, LogsAgree;
    var s' := Free(Goto(s, t, Done(s.threads[t].loc)), c);
    BasicThread(s, t);
    BasicLogs(s);
    BasicRecord(s, c);
    FreeLinks(s, s', t);
    ListKept(s, s', t);
    LogsKept(s, s', t);
    hide Evolves;
    BasicKept(s, s', t);
  }

  lemma FreeLinks(s: State, s': State, t: Tid)
    requires Basic(s) && s'.recs == s.recs && s'.log == s.log && s'.epoch == s.epoch
    ensures SharedEvolves(s, s', t)
  {
  }

  lemma CheckBasic(s: State, t: Tid)
    requires Basic(s) && t in s.threads && s.threads[t].scan.None? && s.threads[t].loc.at.Checking?
    ensures Evolves(s, Check(s, t), t) && Basic(Check(s, t))
  {
    hide Basic, Evolves;
    BasicThread(s, t);
    var l := s.threads[t].loc;
    var op, gone := l.op, s.recs[l.head.value].deleted;
    if l.mine.None? && ((op.Add? && gone) || (op.Remove? && !gone)) {
      AllocStep(s, t, l.bucket, l.head, op.Remove?, NewItem(op), l.(at := Installing, mine := Some(|s.recs|)));
    } else if l.mine.Some? && gone {
      FreeStep(s, t, l.mine.value);
    } else {
      GotoStep(s, t, Check(s, t).threads[t].loc);
    }
  }

  lemma CopyStep(s: State, t: Tid, l: Local)
    requires Basic(s) && t in s.threads && ScanOk(s, s.threads[t].(loc := l)) && l.ticket == 0 && LocalOk(s, l)
             && ThreadOk(s, t, l)
    requires l.at.Installing? && l.mine.Some? && l.head.Some?
    ensures var s' := CopyCreate(Goto(s, t, l), l.mine.value, l.head.value); Evolves(s, s', t) && Basic(s')
  {
    hide Basic, Evolves;
    var s' := CopyCreate(Goto(s, t, l), l.mine.value, l.head.value);
    BasicThread(s, t);
    assert LocalOk(s', l);
    assert ThreadOk(s', t, l);
    hide LocalOk, ThreadOk, LogsAgree;
    QuietStep(s, s', t);
  }

  lemma HelpReadBasic(s: State, t: Tid)
    requires Basic(s) && t in s.threads && s.threads[t].scan.None? && s.threads[t].loc.at.Helping?
    ensures Evolves(s, HelpRead(s, t), t) && Basic(HelpRead(s, t))
  {
    hide Basic, Evolves;
    BasicThread(s, t);
    var l := s.threads[t].loc;
    if s.recs[l.head.value].write != 0 && (l.op.Put? || l.op.Replace?) && !s.recs[l.head.value].deleted {
      CopyStep(s, t, l.(at := Installing, ticket := 0));
    } else {
      GotoStep(s, t, HelpRead(s, t).threads[t].loc);
    }
  }

  /** A fetch-and-add, whose value the thread keeps as its ticket. */
  lemma BumpStep(s: State, t: Tid, l: Local)
    requires Basic(s) && t in s.threads && ScanOk(s, s.threads[t].(loc := l)) && LocalOk(s, l) && ThreadOk(s, t, l)
    requires l.ticket == s.epoch + 1 && Target(l).Some? && OnLog(s, Target(l).value)
    ensures var s' := Goto(BumpEpoch(s), t, l); Evolves(s, s', t) && Basic(s')
  {
    hide Basic, Evolves;
    var s' := Goto(BumpEpoch(s), t, l);
    BasicThread(s, t);
    assert LocalOk(s', l);
    assert ThreadOk(s', t, l);
    assert TicketOk(s', l) by { BasicEpochs(s); }
    hide LocalOk, ThreadOk, LogsAgree, TicketOk;
    QuietStep(s, s', t);
  }

  lemma HelpBumpBasic(s: State, t: Tid)
    requires Basic(s) && t in s.threads && s.threads[t].scan.None? && s.threads[t].loc.at.HelpBumping?
    ensures Evolves(s, HelpBump(s, t), t) && Basic(HelpBump(s, t))
  {
    hide Basic, Evolves;
    BasicThread(s, t);
    BumpStep(s, t, s.threads[t].loc.(at := HelpSwapping, ticket := s.epoch + 1));
  }

  lemma CommitBumpBasic(s: State, t: Tid)
    requires Basic(s) && t in s.threads && s.threads[t].scan.None? && s.threads[t].loc.at.Bumping?
    ensures Evolves(s, CommitBump(s, t), t) && Basic(CommitBump(s, t))
  {
    hide Basic, Evolves;
    BasicThread(s, t);
    BumpStep(s, t, s.threads[t].loc.(at := Swapping, ticket := s.epoch + 1));
  }

  /** Stamping a record, then moving on. */
  lemma SwapStep(s: State, t: Tid, r: RecId, e: nat, l: Local)
    requires Basic(s) && TicketOf(s, t, r, e) && ScanOk(s, s.threads[t].(loc := l)) && r < |s.recs| && LocalOk(s, l)
             && l.ticket == 0
    requires HeadOk(s, l)
    requires l.mine.Some? ==> CandidateOk(s, t, l.bucket, l.head, l.mine.value)
    requires var s1 := CommitCas(s, r, e); Stage(s1, l)
    ensures var s' := Goto(CommitCas(s, r, e), t, l); Evolves(s, s', t) && Basic(s')
  {
    hide Basic, Evolves, LogsAgree;
    var s' := Goto(CommitCas(s, r, e), t, l);
    BasicThread(s, t);
    BasicLogs(s);
    SwapEvolves(s, t, r, e, l);
    ListKept(s, s', t);
    LogsKept(s, s', t);
    SwapOwn(s, s', t, l);
    assert LocalOk(s', l);
    hide LocalOk, ThreadOk, SharedEvolves;
    BasicKept(s, s', t);
  }

  lemma SwapEvolves(s: State, t: Tid, r: RecId, e: nat, l: Local)
    requires Basic(s) && TicketOf(s, t, r, e) && r < |s.recs|
    ensures var s' := Goto(CommitCas(s, r, e), t, l); Evolves(s, s', t) && SharedEvolves(s, s', t)
  {
    hide Shape, CandidateOk;
  }

  lemma SwapOwn(s: State, s': State, t: Tid, l: Local)
    requires SharedEvolves(s, s', t) && LogsAgree(s)
    requires forall r: nat :: r < |s.recs| ==>
               s'.recs[r].installed == s.recs[r].installed && s'.recs[r].retire == s.recs[r].retire
    requires s'.freed == s.freed
    requires HeadOk(s, l) && (l.mine.Some? ==> CandidateOk(s, t, l.bucket, l.head, l.mine.value)) && Stage(s', l)
    ensures ThreadOk(s', t, l)
  {
    if l.head.Some? {
      OnLogKept(s, s', t, l.head.value);
      assert RecordEvolves(s.recs[l.head.value], s'.recs[l.head.value], t);
    }
    if l.mine.Some? {
      assert RecordEvolves(s.recs[l.mine.value], s'.recs[l.mine.value], t);
      if s.recs[l.mine.value].installed { OnLogKept(s, s', t, l.mine.value); }
    }
  }

  lemma CommitSwapBasic(s: State, t: Tid)
    requires Basic(s) && t in s.threads && s.threads[t].scan.None? && s.threads[t].loc.at.Swapping?
    ensures Evolves(s, CommitSwap(s, t), t) && Basic(CommitSwap(s, t))
  {
    hide Basic, Evolves;
    BasicThread(s, t);
    var l := s.threads[t].loc;
    SwapStep(s, t, l.mine.value, l.ticket, CommitSwap(s, t).threads[t].loc);
  }

  lemma HelpSwapBasic(s: State, t: Tid)
    requires Basic(s) && t in s.threads && s.threads[t].scan.None? && s.threads[t].loc.at.HelpSwapping?
    ensures Evolves(s, HelpSwap(s, t), t) && Basic(HelpSwap(s, t))
  {
    hide Basic, Evolves, CandidateOk;
    BasicThread(s, t);
    var l := s.threads[t].loc;
    var l' := HelpSwap(s, t).threads[t].loc;
    SwapStep(s, t, l.head.value, l.ticket, l');
    if (l.op.Put? || l.op.Replace?) && !s.recs[l.head.value].deleted { HelpSwapCopy(s, t); }
  }

  lemma HelpSwapCopy(s: State, t: Tid)
    requires Basic(s) && t in s.threads && s.threads[t].scan.None? && s.threads[t].loc.at.HelpSwapping?
             && LocalOk(s, s.threads[t].loc)
    requires s.threads[t].loc.op.Put? || s.threads[t].loc.op.Replace?
    requires var l := s.threads[t].loc;
             var s1 := Goto(CommitCas(s, l.head.value, l.ticket), t, l.(at := Installing, ticket := 0));
             Basic(s1) && Evolves(s, s1, t)
    requires !s.recs[s.threads[t].loc.head.value].deleted
    ensures Evolves(s, HelpSwap(s, t), t) && Basic(HelpSwap(s, t))
  {
    hide Basic, Evolves, LogsAgree;
    var l := s.threads[t].loc;
    var l' := l.(at := Installing, ticket := 0);
    var s1 := Goto(CommitCas(s, l.head.value, l.ticket), t, l');
    BasicThread(s1, t);
    BasicThread(s, t);
    CopyStep(s1, t, l');
    var s2 := CopyCreate(Goto(s1, t, l'), l'.mine.value, l'.head.value);
    assert HelpSwap(s, t) == s2;
    BasicLogs(s2);
    hide LocalOk, HelpSwap, RetireOk;
    forall r: nat | r < |s1.recs| ensures RetireOk(s1, r) { BasicRecord(s1, r); }
    CopyAfter(s, s1, s2, t, l'.mine.value);
  }

  /** Setting the create epoch of a private candidate after another change. */
  lemma CopyAfter(s: State, s1: State, s2: State, t: Tid, c: RecId)
    requires Evolves(s, s1, t) && c < |s.recs| == |s1.recs| == |s2.recs|
    requires !s.recs[c].installed && s.recs[c].owner == t
    requires s2 == s1.(recs := s2.recs)
    requires s2.recs == s1.recs[c := s1.recs[c].(create := s2.recs[c].create)]
    requires LogsAgree(s2) && forall r: nat :: r < |s1.recs| ==> RetireOk(s1, r)
    ensures Evolves(s, s2, t)
  {
    hide RetireOk, LinkBack, LogsAgree, CoveredBy;
    forall r: nat | r < |s.recs| ensures RecordEvolves(s.recs[r], s2.recs[r], t) {
      assert RecordEvolves(s.recs[r], s1.recs[r], t);
    }
    assert SharedEvolves(s, s2, t);
    forall r: nat | r < |s.recs| && s2.recs[r].retire != s.recs[r].retire
      ensures CoveredBy(s, r, t) && s2.recs[r].retire == s.epoch && RetireOk(s2, r)
    {
      SameRetire(s1, s2, c, r);
    }
  }

  lemma SameRetire(s1: State, s2: State, c: RecId, r: RecId)
    requires c < |s1.recs| == |s2.recs| && s2 == s1.(recs := s2.recs)
    requires s2.recs == s1.recs[c := s1.recs[c].(create := s2.recs[c].create)]
    requires r < |s1.recs| && RetireOk(s1, r)
    ensures RetireOk(s2, r)
  {
  }

  lemma InstallLogs(s: State, s': State, t: Tid, b: nat, c: RecId)
    requires LogsAgree(s) && b < |s.log| && c < |s.recs| && !s.recs[c].installed
    requires s.recs[c].owner == t && s.recs[c].bucket == b
    requires s'.log == s.log[b := s.log[b] + [c]]
    requires s'.recs == s.recs[c := s.recs[c].(installed := true, pos := |s.log[b]|)]
    requires s'.epoch == s.epoch
    ensures SharedEvolves(s, s', t) && LogsAgree(s') && OnLog(s', c) && Under(s', c) == Head(s, b)
  {
    forall a: nat | a < |s.log| ensures s.log[a] <= s'.log[a] {}
    assert SharedEvolves(s, s', t);
    forall a: nat, k: nat | a < |s'.log| && k < |s'.log[a]| ensures LogEntry(s', a, k) {
      if a != b || k < |s.log[b]| { assert LogEntry(s, a, k); }
    }
    forall r: nat | r < |s'.recs| && s'.recs[r].installed ensures OnLog(s', r) {
      if r != c {
        assert OnLog(s, r);
        OnLogKept(s, s', t, r);
      }
    }
  }

  lemma InstallBasic(s: State, t: Tid)
    requires Basic(s) && t in s.threads && s.threads[t].scan.None? && s.threads[t].loc.at.Installing?
    ensures Evolves(s, Install(s, t), t) && Basic(Install(s, t))
  {
    hide Basic, Evolves, LogsAgree;
    BasicThread(s, t);
    BasicLogs(s);
    var l := s.threads[t].loc;
    if Head(s, l.bucket).Some? { HeadOnLog(s, l.bucket); }
    if Head(s, l.bucket) == l.head {
      InstallStep(s, t);
    } else if Head(s, l.bucket).Some? && (l.op.Replace? || l.op.Remove?) {
      GotoStep(s, t, l.(at := Checking, head := Head(s, l.bucket)));
    } else {
      FreeStep(s, t, l.mine.value);
    }
  }

  lemma InstallStep(s: State, t: Tid)
    requires Basic(s) && t in s.threads && s.threads[t].scan.None? && s.threads[t].loc.at.Installing?
    requires LocalOk(s, s.threads[t].loc) && Head(s, s.threads[t].loc.bucket) == s.threads[t].loc.head
    ensures Evolves(s, Install(s, t), t) && Basic(Install(s, t))
  {
    hide Basic, Evolves, LogsAgree, Shape;
    var l := s.threads[t].loc;
    BasicThread(s, t);
    BasicLogs(s);
    var s' := Install(s, t);
    var l' := s'.threads[t].loc;
    InstallLogs(s, s', t, l.bucket, l.mine.value);
    if l.head.Some? {
      HeadOnLog(s, l.bucket);
      OnLogKept(s, s', t, l.head.value);
      BasicRecord(s, l.head.value);
    }
    InstallEvolves(s, t);
    assert LocalOk(s', l') && ThreadOk(s', t, l');
    ListKept(s, s', t);
    hide LocalOk, ThreadOk, SharedEvolves, LogsAgree;
    BasicKept(s, s', t);
  }

  lemma InstallEvolves(s: State, t: Tid)
    requires Basic(s) && t in s.threads && s.threads[t].scan.None? && s.threads[t].loc.at.Installing?
    requires LocalOk(s, s.threads[t].loc) && Head(s, s.threads[t].loc.bucket) == s.threads[t].loc.head
    requires SharedEvolves(s, Install(s, t), t)
    ensures Evolves(s, Install(s, t), t)
  {
    hide Basic, SharedEvolves, Shape, RetireOk;
    BasicThread(s, t);
    BasicRecord(s, s.threads[t].loc.mine.value);
    hide LocalOk, HeadOk, OnLog;
  }

  lemma RetireBasic(s: State, t: Tid)
    requires Basic(s) && t in s.threads && s.threads[t].scan.None? && s.threads[t].loc.at.Retiring?
    ensures Evolves(s, Retire(s, t), t) && Basic(Retire(s, t))
  {
    hide Basic, Evolves, SharedEvolves, LogsAgree;
    BasicThread(s, t);
    BasicLogs(s);
    var h, s' := s.threads[t].loc.head.value, Retire(s, t);
    RetireEvolves(s, t);
    LogsKept(s, s', t);
    RetireOwn(s, t);
    RetireList(s, s', t, h);
    hide LocalOk, ThreadOk, ListOk, CoveredBy;
    BasicKept(s, s', t);
  }

  lemma RetireEvolves(s: State, t: Tid)
    requires Basic(s) && t in s.threads && s.threads[t].scan.None? && s.threads[t].loc.at.Retiring?
    ensures LocalOk(s, s.threads[t].loc)
    ensures SharedEvolves(s, Retire(s, t), t) && Evolves(s, Retire(s, t), t)
            && CoveredBy(s, s.threads[t].loc.head.value, t)
  {
    hide Basic;
    var l := s.threads[t].loc;
    BasicThread(s, t);
    var h, c, s' := l.head.value, l.mine.value, Retire(s, t);
    BasicRecord(s, c);
    assert SharedEvolves(s, s', t);
    hide SharedEvolves;
    HeadCovered(s, t);
    OnLogKept(s, s', t, h);
    assert RetireOk(s', h);
  }

  /** The head that a thread is to retire lies directly under its candidate. */
  lemma HeadCovered(s: State, t: Tid)
    requires Basic(s) && t in s.threads && s.threads[t].loc.at.Retiring? && LocalOk(s, s.threads[t].loc)
    ensures var l := s.threads[t].loc;
            && CoveredBy(s, l.head.value, t)
            && s.log[s.recs[l.head.value].bucket][s.recs[l.head.value].pos + 1] == l.mine.value
  {
    hide Basic;
    BasicThread(s, t);
    BasicLogs(s);
    var l := s.threads[t].loc;
    assert CandidateOk(s, t, l.bucket, l.head, l.mine.value);
    assert LogEntry(s, l.bucket, s.recs[l.mine.value].pos - 1);
  }

  lemma RetireOwn(s: State, t: Tid)
    requires Basic(s) && t in s.threads && s.threads[t].loc.at.Retiring? && LocalOk(s, s.threads[t].loc)
    ensures var s' := Retire(s, t);
            t in s'.threads && LocalOk(s', s'.threads[t].loc) && ThreadOk(s', t, s'.threads[t].loc)
  {
    hide Basic;
    BasicThread(s, t);
  }

  lemma RetireList(s: State, s': State, t: Tid, h: RecId)
    requires Basic(s) && SharedEvolves(s, s', t) && t in s.threads && s'.freed == s.freed
    requires h < |s.recs| && s.recs[h].retire == 0 && s'.recs[h].retire == s.epoch && CoveredBy(s, h, t)
    ensures ListOk(s', t, [h] + s.threads[t].retired)
  {
    hide Basic, Shape, SharedEvolves;
    var cells := s.threads[t].retired;
    var cells' := [h] + cells;
    BasicList(s, t);
    BasicRecord(s, h);
    NewCell(s, s', t, h);
    ListKept(s, s', t);
    forall i | 0 <= i < |cells'|
      ensures ListCell(s', t, cells'[i])
      ensures i > 0 ==> cells'[i] == cells[i - 1] && cells'[i] != h && s'.recs[cells'[i]].retire <= s.epoch
    {
      if i > 0 {
        assert ListCell(s', t, cells[i - 1]) && ListCell(s, t, cells[i - 1]);
        OldCell(s, s', t, cells[i - 1]);
      }
    }
  }

  lemma NewCell(s: State, s': State, t: Tid, h: RecId)
    requires Basic(s) && SharedEvolves(s, s', t) && s'.freed == s.freed
    requires h < |s.recs| && s.recs[h].retire == 0 && s'.recs[h].retire == s.epoch && CoveredBy(s, h, t)
    ensures ListCell(s', t, h)
  {
    hide Basic;
    BasicRecord(s, h);
    OnLogKept(s, s', t, h);
    assert CoveredBy(s', h, t);
  }

  lemma OldCell(s: State, s': State, t: Tid, x: RecId)
    requires Basic(s) && SharedEvolves(s, s', t) && x < |s.recs| && s.recs[x].retire != 0
    ensures s'.recs[x].retire == s.recs[x].retire <= s.epoch
  {
    hide Basic;
    BasicRecord(s, x);
    assert RecordEvolves(s.recs[x], s'.recs[x], t);
  }

  lemma WalkBasic(s: State, t: Tid)
    requires Basic(s) && t in s.threads && s.threads[t].scan.None? && s.threads[t].loc.at.Walking?
    ensures Evolves(s, Walk(s, t), t) && Basic(Walk(s, t))
  {
    hide Basic, Evolves;
    BasicThread(s, t);
    var l := s.threads[t].loc;
    if l.head.Some? { BasicRecord(s, l.head.value); }
    GotoStep(s, t, Walk(s, t).threads[t].loc);
  }

  /** The steps that change only the thread itself: reservation, end of an operation, scans. */
  lemma ThreadStep(s: State, t: Tid, th: Thread)
    requires Basic(s) && LocalOk(s, th.loc) && ThreadOk(s, t, th.loc) && th.loc.ticket == 0
    requires th.retired == (if t in s.threads then s.threads[t].retired else [])
    requires ScanOk(s, th)
    ensures Evolves(s, WithThread(s, t, th), t) && Basic(WithThread(s, t, th))
  {
    hide Basic, Evolves;
    var s' := WithThread(s, t, th);
    assert LocalOk(s', th.loc);
    assert ThreadOk(s', t, th.loc);
    QuietStep(s, s', t);
  }

  lemma ScanFreeBasic(s: State, t: Tid)
    requires Basic(s) && t in s.threads && s.threads[t].scan.Some? && s.threads[t].loc.ticket == 0
    requires forall i :: 0 <= i < |s.threads[t].retired| ==> s.threads[t].retired[i] < |s.recs|
    ensures Evolves(s, ScanFree(s, t), t) && Basic(ScanFree(s, t))
  {
    hide Basic, LogsAgree;
    BasicThread(s, t);
    BasicLogs(s);
    var s' := ScanFree(s, t);
    FreeLinks(s, s', t);
    LogsKept(s, s', t);
    ScanFreeList(s, t);
    ScanFreeEvolves(s, t);
    hide Evolves, ListOk, SharedEvolves, LogsAgree;
    ScanFreeOwn(s, s', t);
    assert ScanOk(s', s'.threads[t]);
    hide LocalOk, ThreadOk;
    BasicKept(s, s', t);
  }

  /** What is freed was retired, and covered by this thread. */
  lemma ScanFreed(s: State, t: Tid, x: RecId)
    requires Basic(s) && t in s.threads && s.threads[t].scan.Some?
    requires forall i :: 0 <= i < |s.threads[t].retired| ==> s.threads[t].retired[i] < |s.recs|
    requires x in ScanFree(s, t).freed && x !in s.freed
    ensures x < |s.recs| && CoveredBy(s, x, t) && s.recs[x].retire != 0 && s.recs[x].installed
  {
    hide Basic;
    BasicList(s, t);
    var cells := s.threads[t].retired;
    var i :| 0 <= i < |cells| && cells[i] == x;
    assert ListCell(s, t, cells[i]);
  }

  lemma ScanFreeEvolves(s: State, t: Tid)
    requires Basic(s) && t in s.threads && s.threads[t].scan.Some?
    requires forall i :: 0 <= i < |s.threads[t].retired| ==> s.threads[t].retired[i] < |s.recs|
    requires SharedEvolves(s, ScanFree(s, t), t)
    ensures Evolves(s, ScanFree(s, t), t)
    ensures forall x :: x in ScanFree(s, t).freed && x !in s.freed ==> x < |s.recs| && s.recs[x].installed
  {
    hide Basic, SharedEvolves, CoveredBy;
    forall x | x in ScanFree(s, t).freed && x !in s.freed
      ensures x < |s.recs| && CoveredBy(s, x, t) && s.recs[x].retire != 0 && s.recs[x].installed
    {
      ScanFreed(s, t, x);
    }
  }

  lemma ScanFreeList(s: State, t: Tid)
    requires Basic(s) && t in s.threads && s.threads[t].scan.Some?
    requires forall i :: 0 <= i < |s.threads[t].retired| ==> s.threads[t].retired[i] < |s.recs|
    ensures t in ScanFree(s, t).threads && ListOk(ScanFree(s, t), t, ScanFree(s, t).threads[t].retired)
  {
    hide Basic;
    BasicList(s, t);
    var s', cells := ScanFree(s, t), s.threads[t].retired;
    var k := CutAt(s.recs, cells, s.threads[t].scan.value.low);
    forall i | 0 <= i < k ensures ListCell(s', t, cells[..k][i]) {
      assert ListCell(s, t, cells[i]);
      assert cells[i] !in cells[k..];
    }
  }

  lemma ScanFreeOwn(s: State, s': State, t: Tid)
    requires Basic(s) && t in s.threads && s'.recs == s.recs && s'.log == s.log
    requires forall r :: r in s'.freed && r !in s.freed ==> r < |s.recs| && s.recs[r].installed
    ensures LocalOk(s', s.threads[t].loc) && ThreadOk(s', t, s.threads[t].loc)
  {
  }

  lemma BasicList(s: State, t: Tid)
    requires Basic(s) && t in s.threads
    ensures ListOk(s, t, s.threads[t].retired)
  {
  }

  lemma StoreSlotBasic(s: State, t: Tid)
    requires Basic(s) && t in s.threads && s.threads[t].scan.None? && s.threads[t].loc.at.Reserving?
    ensures Evolves(s, StoreSlot(s, t), t) && Basic(StoreSlot(s, t))
  {
    hide Basic, Evolves;
    BasicThread(s, t);
    ThreadStep(s, t, StoreSlot(s, t).threads[t]);
  }

  lemma LoadLinBasic(s: State, t: Tid)
    requires Basic(s) && t in s.threads && s.threads[t].scan.None? && s.threads[t].loc.at.Linearizing?
    ensures Evolves(s, LoadLin(s, t), t) && Basic(LoadLin(s, t))
  {
    hide Basic, Evolves;
    BasicThread(s, t);
    GotoStep(s, t, LoadLin(s, t).threads[t].loc);
  }

  lemma ReadHeadBasic(s: State, t: Tid)
    requires Basic(s) && t in s.threads && s.threads[t].scan.None? && s.threads[t].loc.at.AtHead?
    requires s.threads[t].loc.bucket < |s.log|
    ensures Evolves(s, ReadHead(s, t), t) && Basic(ReadHead(s, t))
  {
    hide Basic, Evolves;
    var l := s.threads[t].loc;
    if l.op.Put? || (l.op.Replace? && Head(s, l.bucket).Some?) || (l.op.Add? && Head(s, l.bucket).None?) {
      ReadHeadAlloc(s, t);
    } else {
      ReadHeadGoto(s, t);
    }
  }

  lemma EndOpBasic(s: State, t: Tid)
    requires Basic(s) && t in s.threads && s.threads[t].scan.None? && s.threads[t].loc.at.Returning?
    ensures Evolves(s, EndOp(s, t), t) && Basic(EndOp(s, t))
  {
    hide Basic, Evolves;
    BasicThread(s, t);
    ThreadStep(s, t, EndOp(s, t).threads[t]);
  }

  lemma AdvanceBasic(s: State, t: Tid)
    requires Basic(s) && t in s.threads && s.threads[t].scan.None? && !s.threads[t].loc.at.Idle?
    ensures Shape(s) && Evolves(s, Advance(s, t), t) && Basic(Advance(s, t))
  {
    hide Basic, Evolves, ThreadOk, TicketOk, LogsAgree;
    BasicThread(s, t);
    BasicShape(s);
    hide StoreSlot, LoadLin, ReadHead, Check, HelpRead, HelpBump, HelpSwap, Install, CommitBump, CommitSwap, Retire,
         Walk, EndOp;
    match s.threads[t].loc.at
    case Reserving => StoreSlotBasic(s, t);
    case Linearizing => LoadLinBasic(s, t);
    case AtHead => ReadHeadBasic(s, t);
    case Checking => CheckBasic(s, t);
    case Helping => HelpReadBasic(s, t);
    case HelpBumping => HelpBumpBasic(s, t);
    case HelpSwapping => HelpSwapBasic(s, t);
    case Installing => InstallBasic(s, t);
    case Bumping => CommitBumpBasic(s, t);
    case Swapping => CommitSwapBasic(s, t);
    case Retiring => RetireBasic(s, t);
    case Walking => WalkBasic(s, t);
    case Returning => EndOpBasic(s, t);
  }

  lemma StepBasic(s: State, t: Tid, a: Action)
    requires Basic(s) && Enabled(s, t, a)
    ensures Shape(s) && Evolves(s, Apply(s, t, a), t) && Basic(Apply(s, t, a))
  {
    hide Basic, Evolves;
    assert Shape(s) by { BasicShape(s); }
    if t in s.threads { BasicThread(s, t); }
    match a
    case Register => ThreadStep(s, t, Thread(Resting, None, [], None, {}));
    case Start(op, b) => GotoStep(s, t, Local(Reserving, op, b, s.epoch, None, None, 0));
    case Proceed => AdvanceBasic(s, t);
    case BeginScan => ThreadStep(s, t, ScanStart(s, t).threads[t]);
    case ReadSlot(u) => ThreadStep(s, t, ScanRead(s, t, u).threads[t]);
    case FinishScan => ScanFreeBasic(s, t);
  }
}
