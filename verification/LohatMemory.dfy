/** Reclamation: in every run in which records are linked to the head they replace, no thread
    ever holds a pointer to a freed record, however slow it is and whatever the others free. */
module LohatMemory {
  import opened Options
  import opened LohatModel
  import opened LohatBasic
  import opened LohatSteps

  /** The step is not a successful CAS that installs a candidate linked to anything but the
      head it replaces. Only a replace that has lost a CAS before can fail this. */
  predicate LinksHead(s: State, t: Tid, a: Action) {
    a.Proceed? && t in s.threads && s.threads[t].loc.at.Installing? ==>
      var l := s.threads[t].loc;
      l.bucket < |s.log| && l.mine.Some? && l.mine.value < |s.recs| && Head(s, l.bucket) == l.head ==>
        s.recs[l.mine.value].next == l.head
  }

  /** Every link leads to the record directly under it. */
  ghost predicate Linked(s: State) {
    forall r: nat :: r < |s.recs| && s.recs[r].installed ==> OnLog(s, r) && s.recs[r].next == Under(s, r)
  }

  /** A candidate that has lost no CAS is linked to the head its thread saw. */
  ghost predicate CandidateLinked(s: State, l: Local) {
    l.mine.Some? && l.mine.value < |s.recs| && !s.recs[l.mine.value].installed && !l.op.Replace? && !l.at.Checking? ==>
      s.recs[l.mine.value].next == l.head
  }

  predicate Linearized(l: Local) {
    l.op.View? && !l.at.Idle? && !l.at.Reserving? && !l.at.Linearizing?
  }

  /** Retired before t's reservation, or not retired since. */
  ghost predicate Protected(s: State, slot: nat, snap: set<RecId>, r: RecId) {
    r < |s.recs| && r !in snap && (s.recs[r].retire == 0 || slot <= s.recs[r].retire)
  }

  ghost predicate Reserved(s: State, slot: nat, snap: set<RecId>) {
    && slot <= s.epoch
    && (forall x :: x in snap ==> x < |s.recs| && s.recs[x].retire != 0)
    && (forall x: nat :: x < |s.recs| && x in s.freed && s.recs[x].installed ==> s.recs[x].retire < slot || x in snap)
  }

  ghost predicate Pointers(s: State, slot: nat, snap: set<RecId>, l: Local) {
    && (l.head.Some? ==> Protected(s, slot, snap, l.head.value))
    && (l.mine.Some? && l.mine.value < |s.recs| && s.recs[l.mine.value].installed ==>
       Protected(s, slot, snap, l.mine.value))
    && (Linearized(l) ==>
          slot <= l.op.lin <= s.epoch && forall x: nat :: x < |s.recs| && x in snap ==> s.recs[x].retire <= l.op.lin)
  }

  ghost predicate SlotOk(s: State, th: Thread) {
    && (!th.loc.at.Idle? && !th.loc.at.Reserving? ==> th.slot.Some?)
    && (th.loc.at.Idle? || th.loc.at.Reserving? ==> th.slot.None?)
    && (th.loc.at.Reserving? ==> th.loc.loaded <= s.epoch)
    && (th.slot.Some? ==> Reserved(s, th.slot.value, th.snap) && Pointers(s, th.slot.value, th.snap, th.loc))
  }

  /** A scan has taken thread th's reservation into account, or it was made after everything on
      the scanner's list had been retired. */
  ghost predicate Respects(low: Option<nat>, cells: seq<RecId>, th: Thread) {
    th.slot.Some? ==>
      (low.Some? && low.value <= th.slot.value) || (forall i :: 0 <= i < |cells| ==> cells[i] in th.snap)
  }

  ghost predicate ScansOk(s: State, u: Tid) {
    u in s.threads && s.threads[u].scan.Some? ==>
      forall t :: t in s.threads && t !in s.threads[u].scan.value.todo ==>
        Respects(s.threads[u].scan.value.low, s.threads[u].retired, s.threads[t])
  }

  ghost predicate Memory(s: State) {
    && Linked(s)
    && (forall t :: t in s.threads ==> SlotOk(s, s.threads[t]) && CandidateLinked(s, s.threads[t].loc) && ScansOk(s, t))
  }

  /** No pointer that a thread may follow, or compare in a CAS, has been freed. */
  ghost predicate NoDangling(s: State) {
    forall t :: t in s.threads ==>
      && (s.threads[t].loc.head.Some? ==> s.threads[t].loc.head.value !in s.freed)
      && (s.threads[t].loc.mine.Some? ==> s.threads[t].loc.mine.value !in s.freed)
  }

  lemma ProtectedNotFreed(s: State, slot: nat, snap: set<RecId>, r: RecId)
    requires Basic(s) && Reserved(s, slot, snap) && Protected(s, slot, snap, r) && s.recs[r].installed
    ensures r !in s.freed
  {
    BasicRecord(s, r);
  }

  lemma MemorySafe(s: State)
    requires Basic(s) && Memory(s)
    ensures NoDangling(s)
  {
    hide Basic;
    forall t | t in s.threads
      ensures s.threads[t].loc.head.Some? ==> s.threads[t].loc.head.value !in s.freed
      ensures s.threads[t].loc.mine.Some? ==> s.threads[t].loc.mine.value !in s.freed
    {
      var th := s.threads[t];
      BasicThread(s, t);
      if th.loc.head.Some? { ProtectedNotFreed(s, th.slot.value, th.snap, th.loc.head.value); }
      if th.loc.mine.Some? && s.recs[th.loc.mine.value].installed {
        ProtectedNotFreed(s, th.slot.value, th.snap, th.loc.mine.value);
      }
    }
  }

  // ----- the others -----

  /** What the step frees is below every reservation, or was retired before it. */
  ghost predicate FreesSafely(s: State, s': State, t: Tid) {
    forall x, u :: x in s'.freed && x !in s.freed && x < |s.recs| && s.recs[x].installed
                   && u in s.threads && s.threads[u].slot.Some? ==>
      s.recs[x].retire < s.threads[u].slot.value || x in s.threads[u].snap
  }

  lemma ReservedKept(s: State, s': State, t: Tid, u: Tid)
    requires Basic(s) && Memory(s) && Evolves(s, s', t) && FreesSafely(s, s', t)
    requires u in s.threads && s.threads[u].slot.Some?
    ensures Reserved(s', s.threads[u].slot.value, s.threads[u].snap)
  {
    hide Basic;
    var th := s.threads[u];
    assert SlotOk(s, th);
    forall x | x in th.snap ensures x < |s'.recs| && s'.recs[x].retire != 0 && s'.recs[x].retire == s.recs[x].retire {
      assert RecordEvolves(s.recs[x], s'.recs[x], t);
    }
    forall x: nat | x < |s'.recs| && x in s'.freed && s'.recs[x].installed
      ensures s'.recs[x].retire < th.slot.value || x in th.snap
    {
      assert x < |s.recs| by { if x in s.freed { assert FreedOk(s) by { BasicFreed(s); } } }
      assert RecordEvolves(s.recs[x], s'.recs[x], t);
      BasicRecord(s, x);
    }
  }

  lemma ProtectedKept(s: State, s': State, t: Tid, slot: nat, snap: set<RecId>, r: RecId)
    requires Evolves(s, s', t) && Protected(s, slot, snap, r) && slot <= s.epoch
    ensures Protected(s', slot, snap, r)
  {
    assert RecordEvolves(s.recs[r], s'.recs[r], t);
  }

  lemma OtherSlot(s: State, s': State, t: Tid, u: Tid)
    requires Basic(s) && Memory(s) && Evolves(s, s', t) && FreesSafely(s, s', t) && u in s.threads && u != t
    ensures SlotOk(s', s.threads[u]) && CandidateLinked(s', s.threads[u].loc)
  {
    hide Basic;
    BasicThread(s, u);
    var th := s.threads[u];
    var l := th.loc;
    assert SlotOk(s, th) && CandidateLinked(s, l);
    if l.mine.Some? { assert RecordEvolves(s.recs[l.mine.value], s'.recs[l.mine.value], t); }
    if th.slot.Some? {
      ReservedKept(s, s', t, u);
      if l.head.Some? { ProtectedKept(s, s', t, th.slot.value, th.snap, l.head.value); }
      if l.mine.Some? && s.recs[l.mine.value].installed {
        ProtectedKept(s, s', t, th.slot.value, th.snap, l.mine.value);
      }
      forall x: nat | x < |s'.recs| && x in th.snap
        ensures x < |s.recs| && s'.recs[x].retire == s.recs[x].retire
      {
        assert RecordEvolves(s.recs[x], s'.recs[x], t);
      }
    }
  }

  /** How the step of t may change what scans read: its own slot, its own scan. */
  ghost predicate ScanSteps(s: State, s': State, t: Tid) {
    && t in s'.threads
    && ScansOk(s', t)
    && (forall u :: u in s.threads && u != t && s.threads[u].scan.Some? && t !in s.threads[u].scan.value.todo ==>
          Respects(s.threads[u].scan.value.low, s.threads[u].retired, s'.threads[t]))
  }

  lemma MemoryKept(s: State, s': State, t: Tid)
    requires Basic(s) && Memory(s) && Evolves(s, s', t) && FreesSafely(s, s', t) && ScanSteps(s, s', t)
    requires Linked(s') && SlotOk(s', s'.threads[t]) && CandidateLinked(s', s'.threads[t].loc)
    ensures Memory(s')
  {
    hide Basic;
    forall u | u in s'.threads
      ensures SlotOk(s', s'.threads[u]) && CandidateLinked(s', s'.threads[u].loc) && ScansOk(s', u)
    {
      if u != t {
        hide Memory;
        OtherSlot(s, s', t, u);
        assert ScansOk(s, u) by { MemoryScan(s, u); }
      }
    }
  }

  lemma MemoryScan(s: State, u: Tid)
    requires Memory(s) && u in s.threads
    ensures ScansOk(s, u) && SlotOk(s, s.threads[u]) && CandidateLinked(s, s.threads[u].loc)
  {
  }
}
