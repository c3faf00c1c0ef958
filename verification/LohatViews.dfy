/** Linearized views: when every record is put on a head that already has its write epoch and is
    linked to it, each bucket's write epochs rise from bottom to top and a view at epoch L finds
    in every bucket the record with the greatest write epoch not above L. */
module LohatViews {
  import opened Options
  import opened LohatModel
  import opened LohatBasic
  import opened LohatSteps
  import opened LohatMemory
  import opened LohatMemorySteps

  /** The step is not a successful CAS over a head that has no write epoch yet. */
  predicate OverCommitted(s: State, t: Tid, a: Action) {
    a.Proceed? && t in s.threads && s.threads[t].loc.at.Installing? ==>
      var l := s.threads[t].loc;
      l.bucket < |s.log| && Head(s, l.bucket) == l.head && l.head.Some? && l.head.value < |s.recs| ==>
        s.recs[l.head.value].write != 0
  }

  // ----- the order of write epochs -----

  ghost predicate Covered(s: State, r: RecId) {
    OnLog(s, r) && s.recs[r].pos + 1 < |s.log[s.recs[r].bucket]|
  }

  /** Only the newest record of a bucket can be without a write epoch. */
  ghost predicate CommittedBelow(s: State) {
    forall r: nat :: r < |s.recs| && s.recs[r].installed && Covered(s, r) ==> s.recs[r].write != 0
  }

  ghost predicate Older(s: State, q: RecId, r: RecId) {
    && q < |s.recs| && r < |s.recs| && s.recs[q].installed && s.recs[r].installed
    && s.recs[q].bucket == s.recs[r].bucket && s.recs[q].pos < s.recs[r].pos
  }

  ghost predicate Rising(s: State) {
    forall q: nat, r: nat :: Older(s, q, r) && s.recs[r].write != 0 ==> s.recs[q].write < s.recs[r].write
  }

  /** A ticket is above everything below its target. */
  ghost predicate TicketAbove(s: State, l: Local) {
    l.ticket != 0 && Target(l).Some? ==>
      forall q: nat :: Older(s, q, Target(l).value) ==> s.recs[q].write < l.ticket
  }

  ghost predicate HelpedBefore(s: State, l: Local) {
    l.at.Installing? && (l.op.Put? || l.op.Replace?) && l.head.Some? && l.head.value < |s.recs| ==>
      s.recs[l.head.value].write != 0
  }

  ghost predicate Ordered(s: State) {
    && CommittedBelow(s) && Rising(s)
    && (forall t :: t in s.threads ==> TicketAbove(s, s.threads[t].loc) && HelpedBefore(s, s.threads[t].loc))
  }

  // ----- what a view has seen -----

  ghost predicate Aims(l: Local, r: RecId) {
    l.ticket != 0 && Target(l) == Some(r)
  }

  /** r is not, and will never be, committed at or before epoch L. */
  ghost predicate Late(s: State, r: RecId, L: nat) {
    && r < |s.recs|
    && (s.recs[r].write > L
        || (s.recs[r].write == 0 && forall t :: t in s.threads && Aims(s.threads[t].loc, r) ==>
           s.threads[t].loc.ticket > L))
  }

  ghost predicate LateFrom(s: State, b: nat, k: nat, L: nat) {
    forall r: nat :: r < |s.recs| && s.recs[r].installed && s.recs[r].bucket == b && k <= s.recs[r].pos ==>
      Late(s, r, L)
  }

  ghost predicate Seen(s: State, b: nat, L: nat, x: Option<RecId>) {
    match x
    case None => LateFrom(s, b, 0, L)
    case Some(r) =>
      && OnLog(s, r) && s.recs[r].bucket == b && 0 < s.recs[r].write <= L
      && LateFrom(s, b, s.recs[r].pos + 1, L)
  }

  ghost predicate Looking(s: State, l: Local)
    requires l.op.View?
  {
    match l.head
    case None => l.at.Walking? ==> LateFrom(s, l.bucket, 0, l.op.lin)
    case Some(r) =>
      r < |s.recs| ==>
        && LateFrom(s, l.bucket, s.recs[r].pos + 1, l.op.lin)
        && (l.at.Walking? ==> s.recs[r].write != 0)
  }

  ghost predicate ViewOk(s: State, l: Local) {
    Linearized(l) ==>
      && |l.op.out| <= |s.log|
      && (forall b: nat :: b < |l.op.out| ==> Seen(s, b, l.op.lin, l.op.out[b]))
      && (InHelp(l.at) || l.at.Walking? ==> Looking(s, l))
      && (l.at.Returning? ==> |l.op.out| == |s.log|)
  }

  ghost predicate Views(s: State) {
    forall t :: t in s.threads ==> ViewOk(s, s.threads[t].loc)
  }

  /** The state of bucket b at epoch L, said without reference to any view: the record with the
      greatest write epoch not above L, if there is one. */
  ghost predicate Snapshot(s: State, b: nat, L: nat, x: Option<RecId>) {
    match x
    case None =>
      forall q: nat :: q < |s.recs| && s.recs[q].installed && s.recs[q].bucket == b && s.recs[q].write != 0 ==>
        s.recs[q].write > L
    case Some(r) =>
      && r < |s.recs| && s.recs[r].installed && s.recs[r].bucket == b && 0 < s.recs[r].write <= L
      && forall q: nat :: q < |s.recs| && s.recs[q].installed && s.recs[q].bucket == b && s.recs[q].write != 0 ==>
           s.recs[q].write > L || s.recs[q].write <= s.recs[r].write
  }

  /** What a view has seen of a bucket is that bucket's state at the view's epoch. */
  lemma SeenIsSnapshot(s: State, b: nat, L: nat, x: Option<RecId>)
    requires LogsAgree(s) && Rising(s) && Seen(s, b, L, x)
    ensures Snapshot(s, b, L, x)
  {
    forall q: nat | q < |s.recs| && s.recs[q].installed && s.recs[q].bucket == b && s.recs[q].write != 0
      ensures x.None? ==> s.recs[q].write > L
      ensures x.Some? ==> s.recs[q].write > L || s.recs[q].write <= s.recs[x.value].write
    {
      if x.None? {
        assert Late(s, q, L);
      } else if s.recs[q].pos <= s.recs[x.value].pos {
        assert OnLog(s, q);
        assert q == x.value || Older(s, q, x.value);
      } else {
        assert Late(s, q, L);
      }
    }
  }

  /** There is only one such state. */
  lemma SnapshotUnique(s: State, b: nat, L: nat, x: Option<RecId>, y: Option<RecId>)
    requires EpochsOk(s) && Snapshot(s, b, L, x) && Snapshot(s, b, L, y)
    ensures x == y
  {
  }

  // ----- preservation -----

  /** A thread's ticket is fresh from its last step, if it has one. */
  lemma StepTicket(s: State, t: Tid, a: Action)
    requires Basic(s) && Enabled(s, t, a)
    ensures Shape(s) && t in Apply(s, t, a).threads
    ensures Apply(s, t, a).threads[t].loc.ticket in {0, s.epoch + 1}
  {
    hide Basic, Shape, Stage, ThreadOk, Head;
    assert Shape(s) by { BasicShape(s); }
    if t in s.threads { BasicThread(s, t); }
  }

  lemma LateKept(s: State, s': State, t: Tid, r: RecId, L: nat)
    requires Basic(s) && Evolves(s, s', t) && L <= s.epoch && Late(s, r, L)
    requires t in s'.threads && s'.threads[t].loc.ticket in {0, s.epoch + 1}
    ensures Late(s', r, L)
  {
    hide Basic;
    assert RecordEvolves(s.recs[r], s'.recs[r], t);
    if s'.recs[r].write != s.recs[r].write { assert TicketOf(s, t, r, s'.recs[r].write); }
    if s'.recs[r].write == 0 {
      forall u | u in s'.threads && Aims(s'.threads[u].loc, r)
        ensures s'.threads[u].loc.ticket > L
      {
        if u != t { assert s'.threads[u] == s.threads[u]; }
      }
    }
  }

  lemma LateNew(s: State, s': State, t: Tid, r: RecId, L: nat)
    requires Basic(s) && Evolves(s, s', t) && L <= s.epoch && r < |s'.recs|
    requires s'.recs[r].installed && (r < |s.recs| ==> !s.recs[r].installed)
    requires t in s'.threads && s'.threads[t].loc.ticket in {0, s.epoch + 1}
    ensures Late(s', r, L)
  {
    hide Basic;
    assert r < |s.recs|;
    assert RecordEvolves(s.recs[r], s'.recs[r], t);
    BasicRecord(s, r);
    forall u | u in s.threads ensures !Aims(s.threads[u].loc, r) {
      BasicThread(s, u);
    }
    assert s'.recs[r].write == s.recs[r].write by {
      if t in s.threads { assert !Aims(s.threads[t].loc, r); }
    }
  }

  lemma LateFromKept(s: State, s': State, t: Tid, b: nat, k: nat, L: nat)
    requires Basic(s) && Evolves(s, s', t) && L <= s.epoch && LateFrom(s, b, k, L)
    requires t in s'.threads && s'.threads[t].loc.ticket in {0, s.epoch + 1}
    ensures LateFrom(s', b, k, L)
  {
    hide Basic;
    forall r: nat | r < |s'.recs| && s'.recs[r].installed && s'.recs[r].bucket == b && k <= s'.recs[r].pos
      ensures Late(s', r, L)
    {
      if r < |s.recs| && s.recs[r].installed {
        assert RecordEvolves(s.recs[r], s'.recs[r], t);
        LateKept(s, s', t, r, L);
      } else {
        LateNew(s, s', t, r, L);
      }
    }
  }

  /** Once seen, always seen: no later commit changes the bucket's state at epoch L. */
  lemma SeenKept(s: State, s': State, t: Tid, b: nat, L: nat, x: Option<RecId>)
    requires Basic(s) && Evolves(s, s', t) && L <= s.epoch && Seen(s, b, L, x)
    requires t in s'.threads && s'.threads[t].loc.ticket in {0, s.epoch + 1}
    ensures Seen(s', b, L, x)
  {
    hide Basic;
    match x
    case None => LateFromKept(s, s', t, b, 0, L);
    case Some(r) =>
      OnLogKept(s, s', t, r);
      assert RecordEvolves(s.recs[r], s'.recs[r], t);
      LateFromKept(s, s', t, b, s.recs[r].pos + 1, L);
  }

  lemma ViewKept(s: State, s': State, t: Tid, l: Local)
    requires Basic(s) && Evolves(s, s', t) && ViewOk(s, l) && LocalOk(s, l)
    requires Linearized(l) ==> l.op.lin <= s.epoch
    requires l.head.Some? ==> OnLog(s, l.head.value)
    requires t in s'.threads && s'.threads[t].loc.ticket in {0, s.epoch + 1}
    ensures ViewOk(s', l)
  {
    hide Basic;
    if Linearized(l) {
      forall b: nat | b < |l.op.out| ensures Seen(s', b, l.op.lin, l.op.out[b]) {
        SeenKept(s, s', t, b, l.op.lin, l.op.out[b]);
      }
      if InHelp(l.at) || l.at.Walking? {
        match l.head
        case None => LateFromKept(s, s', t, l.bucket, 0, l.op.lin);
        case Some(r) =>
          assert RecordEvolves(s.recs[r], s'.recs[r], t);
          LateFromKept(s, s', t, l.bucket, s.recs[r].pos + 1, l.op.lin);
      }
    }
  }

  /** The new head's write epoch, and the tickets, keep each bucket rising. */
  lemma RisingKept(s: State, s': State, t: Tid)
    requires Basic(s) && Basic(s') && Ordered(s) && Evolves(s, s', t)
    ensures Rising(s')
  {
    hide Basic;
    forall q: nat, r: nat | Older(s', q, r) && s'.recs[r].write != 0 ensures s'.recs[q].write < s'.recs[r].write {
      OlderBefore(s, s', t, q, r);
      if s'.recs[r].write != s.recs[r].write {
        assert TicketOf(s, t, r, s'.recs[r].write);
        assert TicketAbove(s, s.threads[t].loc);
      }
      BelowFixed(s, s', t, q, r);
    }
  }

  /** A record that has something above it has its final write epoch. */
  lemma BelowFixed(s: State, s': State, t: Tid, q: RecId, r: RecId)
    requires Basic(s) && CommittedBelow(s) && Evolves(s, s', t) && Older(s, q, r)
    ensures s'.recs[q].write == s.recs[q].write != 0
  {
    hide Basic;
    BasicRecord(s, q);
    BasicRecord(s, r);
    assert RecordEvolves(s.recs[q], s'.recs[q], t);
  }

  lemma OlderBefore(s: State, s': State, t: Tid, q: RecId, r: RecId)
    requires Basic(s) && Basic(s') && Evolves(s, s', t) && Older(s', q, r) && s'.recs[r].write != 0
    ensures Older(s, q, r)
  {
    hide Basic;
    assert r < |s.recs| && q < |s.recs|;
    assert RecordEvolves(s.recs[r], s'.recs[r], t) && RecordEvolves(s.recs[q], s'.recs[q], t);
    BasicRecord(s, r);
    if !s.recs[r].installed {
      assert TicketOf(s, t, r, s'.recs[r].write);
      BasicThread(s, t);
      assert false;
    }
    BasicRecord(s, r);
  }
}
