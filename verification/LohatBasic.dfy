/** What holds in every run of the protocol, whatever the operations: the logs and the records
    agree, write epochs are handed out once and never change, a record is retired by exactly one
    thread and only under a committed successor, and retire lists are ordered. */
module LohatBasic {
  import opened Options
  import opened LohatModel

  /** The record a thread that holds a ticket is about to stamp. */
  function Target(l: Local): Option<RecId> {
    if l.at.HelpSwapping? then l.head else l.mine
  }

  // ----- the invariant -----

  ghost predicate OnLog(s: State, r: RecId) {
    && r < |s.recs| && s.recs[r].installed
    && s.recs[r].bucket < |s.log|
    && s.recs[r].pos < |s.log[s.recs[r].bucket]|
    && s.log[s.recs[r].bucket][s.recs[r].pos] == r
  }

  ghost predicate LogEntry(s: State, b: nat, k: nat)
    requires b < |s.log| && k < |s.log[b]|
  {
    var r := s.log[b][k];
    r < |s.recs| && s.recs[r].installed && s.recs[r].bucket == b && s.recs[r].pos == k
  }

  ghost predicate LogsAgree(s: State) {
    && (forall b: nat, k: nat :: b < |s.log| && k < |s.log[b]| ==> LogEntry(s, b, k))
    && (forall r: nat :: r < |s.recs| && s.recs[r].installed ==> OnLog(s, r))
  }

  ghost predicate EpochsOk(s: State) {
    && 1 <= s.epoch
    && (forall r: nat :: r < |s.recs| ==>
          s.recs[r].write <= s.epoch && s.recs[r].retire <= s.epoch && (s.recs[r].write != 0 ==> s.recs[r].installed))
    && (forall q: nat, r: nat :: q < r < |s.recs| && s.recs[q].write != 0 ==> s.recs[q].write != s.recs[r].write)
  }

  ghost predicate TicketOk(s: State, l: Local) {
    l.ticket != 0 ==>
      && l.ticket <= s.epoch
      && Target(l).Some? && Target(l).value < |s.recs| && s.recs[Target(l).value].installed
      && (forall r: nat :: r < |s.recs| ==> s.recs[r].write != l.ticket)
  }

  ghost predicate TicketsOk(s: State) {
    && (forall t :: t in s.threads ==> TicketOk(s, s.threads[t].loc))
    && (forall t, u :: t in s.threads && u in s.threads && t != u && s.threads[t].loc.ticket != 0 ==>
          s.threads[t].loc.ticket != s.threads[u].loc.ticket)
  }

  /** The record directly under r in its bucket's log. */
  ghost function Under(s: State, r: RecId): Option<RecId>
    requires OnLog(s, r)
  {
    if s.recs[r].pos == 0 then None else Some(s.log[s.recs[r].bucket][s.recs[r].pos - 1])
  }

  /** The record a thread points to is on the thread's bucket. */
  ghost predicate HeadOk(s: State, l: Local) {
    l.head.Some? ==> OnLog(s, l.head.value) && s.recs[l.head.value].bucket == l.bucket
  }

  /** A candidate belongs to its thread; once on the bucket it covers the thread's `head`, which
      nobody has retired. */
  ghost predicate CandidateOk(s: State, t: Tid, b: nat, head: Option<RecId>, c: RecId) {
    && c < |s.recs| && s.recs[c].owner == t && s.recs[c].bucket == b
    && if s.recs[c].installed then
         && OnLog(s, c) && Under(s, c) == head
         && (head.Some? ==> head.value < |s.recs| && s.recs[head.value].retire == 0)
       else c !in s.freed
  }

  /** Before which points the candidate is on the bucket. */
  ghost predicate Stage(s: State, l: Local) {
    l.mine.Some? && l.mine.value < |s.recs| ==>
      var r := s.recs[l.mine.value];
      && (r.installed <==> OnBucketAt(l))
      && (l.at.Retiring? ==> r.write != 0)
  }

  predicate OnBucketAt(l: Local) {
    || l.at.Bumping? || l.at.Swapping? || l.at.Retiring?
    || (InHelp(l.at) && (l.op.Add? || l.op.Remove?))
  }

  ghost predicate ThreadOk(s: State, t: Tid, l: Local) {
    && HeadOk(s, l)
    && (l.mine.Some? ==> CandidateOk(s, t, l.bucket, l.head, l.mine.value))
    && Stage(s, l)
  }

  /** A retired record lies under a committed one, and was retired no earlier than that commit. */
  ghost predicate RetireOk(s: State, r: RecId)
    requires r < |s.recs|
  {
    s.recs[r].retire != 0 ==>
      && OnLog(s, r)
      && s.recs[r].pos + 1 < |s.log[s.recs[r].bucket]|
      && var n := s.log[s.recs[r].bucket][s.recs[r].pos + 1];
      n < |s.recs| && 0 < s.recs[n].write <= s.recs[r].retire
  }

  ghost predicate ListCell(s: State, t: Tid, r: RecId) {
    && r < |s.recs| && s.recs[r].retire != 0 && r !in s.freed
    && OnLog(s, r) && s.recs[r].pos + 1 < |s.log[s.recs[r].bucket]|
    && var n := s.log[s.recs[r].bucket][s.recs[r].pos + 1];
    n < |s.recs| && s.recs[n].owner == t
  }

  ghost predicate ListOk(s: State, t: Tid, cells: seq<RecId>) {
    && (forall i :: 0 <= i < |cells| ==> ListCell(s, t, cells[i]))
    && (forall i, j :: 0 <= i < j < |cells| ==> cells[i] != cells[j])
    && (forall i, j :: 0 <= i < j < |cells| && cells[i] < |s.recs| && cells[j] < |s.recs| ==>
          s.recs[cells[j]].retire <= s.recs[cells[i]].retire)
  }

  /** A record's link leads to an older record of the same bucket. */
  ghost predicate LinkBack(s: State, r: RecId)
    requires r < |s.recs|
  {
    s.recs[r].next.Some? ==>
      var n := s.recs[r].next.value;
      && OnLog(s, n) && s.recs[n].bucket == s.recs[r].bucket
      && (s.recs[r].installed ==> s.recs[n].pos < s.recs[r].pos)
  }

  ghost predicate FreedOk(s: State) {
    forall r :: r in s.freed ==> r < |s.recs| && (s.recs[r].installed ==> s.recs[r].retire != 0)
  }

  ghost predicate Basic(s: State) {
    && Shape(s) && LogsAgree(s) && EpochsOk(s) && TicketsOk(s) && FreedOk(s)
    && (forall r: nat :: r < |s.recs| ==> RetireOk(s, r) && LinkBack(s, r))
    && (forall t :: t in s.threads ==> ThreadOk(s, t, s.threads[t].loc))
    && (forall t :: t in s.threads ==> ListOk(s, t, s.threads[t].retired))
  }

  // ----- how a step of t may change what the others see -----

  ghost predicate RecordEvolves(r: Record, r': Record, t: Tid) {
    && r'.next == r.next && r'.deleted == r.deleted && r'.item == r.item
    && r'.bucket == r.bucket && r'.owner == r.owner
    && (r.installed ==> r'.installed && r'.pos == r.pos && r'.create == r.create)
    && (r.write != 0 ==> r'.write == r.write)
    && (r.retire != 0 ==> r'.retire == r.retire)
    && (r.owner != t ==> r'.installed == r.installed && r'.create == r.create)
  }

  /** The record on top of r belongs to t. */
  ghost predicate CoveredBy(s: State, r: RecId, t: Tid) {
    && OnLog(s, r) && s.recs[r].pos + 1 < |s.log[s.recs[r].bucket]|
    && var n := s.log[s.recs[r].bucket][s.recs[r].pos + 1];
    n < |s.recs| && s.recs[n].owner == t
  }

  ghost predicate TicketOf(s: State, t: Tid, r: RecId, e: nat) {
    t in s.threads && s.threads[t].loc.ticket == e != 0 && Target(s.threads[t].loc) == Some(r)
  }

  ghost predicate SharedEvolves(s: State, s': State, t: Tid) {
    && s.epoch <= s'.epoch && |s.recs| <= |s'.recs| && |s.log| == |s'.log|
    && (forall b: nat :: b < |s.log| ==> s.log[b] <= s'.log[b])
    && (forall r: nat :: r < |s.recs| ==> RecordEvolves(s.recs[r], s'.recs[r], t))
    && (forall r: nat :: |s.recs| <= r < |s'.recs| ==>
          s'.recs[r].write == 0 && s'.recs[r].retire == 0 && !s'.recs[r].installed && LinkBack(s', r))
    && (forall r: nat :: r < |s.recs| && !s.recs[r].installed && s'.recs[r].installed ==>
          s.recs[r].bucket < |s.log| && s'.recs[r].pos == |s.log[s.recs[r].bucket]|)
  }

  ghost predicate Evolves(s: State, s': State, t: Tid) {
    && SharedEvolves(s, s', t)
    && (forall r: nat :: r < |s.recs| && s'.recs[r].write != s.recs[r].write ==> TicketOf(s, t, r, s'.recs[r].write))
    && (forall r: nat :: r < |s.recs| && s'.recs[r].retire != s.recs[r].retire ==>
          CoveredBy(s, r, t) && s'.recs[r].retire == s.epoch && RetireOk(s', r))
    && s.freed <= s'.freed
    && (forall r: nat :: r < |s.recs| && r in s.freed ==> s'.recs[r].installed == s.recs[r].installed)
    && (forall r :: r in s'.freed && r !in s.freed ==>
          r < |s.recs| && (if s.recs[r].installed then s.recs[r].retire != 0 && CoveredBy(s, r, t)
                           else s.recs[r].owner == t && !s'.recs[r].installed))
    && (forall u :: u in s.threads && u != t ==> u in s'.threads && s'.threads[u] == s.threads[u])
    && (forall u :: u in s'.threads && u != t ==> u in s.threads)
  }

  ghost predicate Own(s: State, s': State, t: Tid) {
    t in s'.threads ==>
      var th := s'.threads[t];
      && LocalOk(s', th.loc) && ThreadOk(s', t, th.loc) && ListOk(s', t, th.retired)
      && ScanOk(s', th)
      && (th.loc.ticket != 0 ==> th.loc.ticket == s'.epoch == s.epoch + 1 && TicketOk(s', th.loc))
  }

  // ----- the others are not disturbed -----

  lemma OnLogKept(s: State, s': State, t: Tid, r: RecId)
    requires SharedEvolves(s, s', t) && OnLog(s, r)
    ensures OnLog(s', r) && Under(s', r) == Under(s, r)
    ensures forall u :: CoveredBy(s, r, u) ==> CoveredBy(s', r, u)
  {
    assert RecordEvolves(s.recs[r], s'.recs[r], t);
    var b := s.recs[r].bucket;
    assert s.log[b] <= s'.log[b];
    if s.recs[r].pos + 1 < |s.log[b]| {
      var n := s.log[b][s.recs[r].pos + 1];
      assert s'.log[b][s.recs[r].pos + 1] == n;
      assert n < |s.recs| ==> RecordEvolves(s.recs[n], s'.recs[n], t);
    }
  }

  lemma OtherCandidate(s: State, s': State, t: Tid, u: Tid, b: nat, head: Option<RecId>, c: RecId)
    requires Basic(s) && Evolves(s, s', t) && u != t && CandidateOk(s, u, b, head, c)
    ensures CandidateOk(s', u, b, head, c)
  {
    assert RecordEvolves(s.recs[c], s'.recs[c], t);
    if s.recs[c].installed {
      OnLogKept(s, s', t, c);
      if head.Some? {
        assert LogEntry(s, s.recs[c].bucket, s.recs[c].pos - 1);
        assert !CoveredBy(s, head.value, t);
      }
    }
  }

  lemma OtherThread(s: State, s': State, t: Tid, u: Tid, l: Local)
    requires Basic(s) && Evolves(s, s', t) && u != t && ThreadOk(s, u, l)
    ensures ThreadOk(s', u, l)
  {
    if l.head.Some? {
      OnLogKept(s, s', t, l.head.value);
      assert RecordEvolves(s.recs[l.head.value], s'.recs[l.head.value], t);
    }
    if l.mine.Some? {
      OtherCandidate(s, s', t, u, l.bucket, l.head, l.mine.value);
      assert RecordEvolves(s.recs[l.mine.value], s'.recs[l.mine.value], t);
    }
  }

  lemma OtherList(s: State, s': State, t: Tid, u: Tid)
    requires Basic(s) && Evolves(s, s', t) && u in s.threads && u != t
    ensures ListOk(s', u, s.threads[u].retired)
  {
    var cells := s.threads[u].retired;
    assert ListOk(s, u, cells);
    forall i | 0 <= i < |cells|
      ensures ListCell(s', u, cells[i]) && s'.recs[cells[i]].retire == s.recs[cells[i]].retire
    {
      assert ListCell(s, u, cells[i]);
      OnLogKept(s, s', t, cells[i]);
      assert RecordEvolves(s.recs[cells[i]], s'.recs[cells[i]], t);
      assert CoveredBy(s, cells[i], u);
      assert CoveredBy(s', cells[i], u);
    }
  }

  lemma EpochsKept(s: State, s': State, t: Tid)
    requires Basic(s) && Evolves(s, s', t)
    ensures EpochsOk(s')
  {
    forall r: nat | r < |s'.recs|
      ensures s'.recs[r].write <= s'.epoch && s'.recs[r].retire <= s'.epoch
      ensures s'.recs[r].write != 0 ==> s'.recs[r].installed
    {
      if r < |s.recs| {
        assert RecordEvolves(s.recs[r], s'.recs[r], t);
        if s'.recs[r].write != s.recs[r].write {
          assert TicketOf(s, t, r, s'.recs[r].write);
          assert TicketOk(s, s.threads[t].loc);
        }
      }
    }
    forall q: nat, r: nat | q < r < |s'.recs| && s'.recs[q].write != 0
      ensures s'.recs[q].write != s'.recs[r].write
    {
      if r < |s.recs| {
        if s'.recs[r].write != s.recs[r].write {
          assert TicketOf(s, t, r, s'.recs[r].write);
          assert TicketOk(s, s.threads[t].loc);
        }
        if s'.recs[q].write != s.recs[q].write {
          assert TicketOf(s, t, q, s'.recs[q].write);
          assert TicketOk(s, s.threads[t].loc);
        }
      }
    }
  }

  lemma RetireKept(s: State, s': State, t: Tid, r: RecId)
    requires Basic(s) && Evolves(s, s', t) && r < |s'.recs|
    ensures RetireOk(s', r)
  {
    if r < |s.recs| && s'.recs[r].retire == s.recs[r].retire && s.recs[r].retire != 0 {
      assert RetireOk(s, r);
      OnLogKept(s, s', t, r);
      assert RecordEvolves(s.recs[r], s'.recs[r], t);
      var b := s.recs[r].bucket;
      var n := s.log[b][s.recs[r].pos + 1];
      assert s.log[b] <= s'.log[b];
      assert RecordEvolves(s.recs[n], s'.recs[n], t);
    }
  }

  lemma LinkKept(s: State, s': State, t: Tid, r: RecId)
    requires Basic(s) && SharedEvolves(s, s', t) && r < |s'.recs|
    ensures LinkBack(s', r)
  {
    if r < |s.recs| && s.recs[r].next.Some? {
      assert LinkBack(s, r);
      OnLogKept(s, s', t, s.recs[r].next.value);
      assert RecordEvolves(s.recs[r], s'.recs[r], t);
      assert RecordEvolves(s.recs[s.recs[r].next.value], s'.recs[s.recs[r].next.value], t);
    }
  }

  lemma TicketsKept(s: State, s': State, t: Tid)
    requires Basic(s) && Evolves(s, s', t) && Own(s, s', t)
    ensures TicketsOk(s')
  {
    forall u | u in s'.threads
      ensures TicketOk(s', s'.threads[u].loc)
      ensures u != t ==> s'.threads[u].loc.ticket <= s.epoch
    {
      var l := s'.threads[u].loc;
      if u != t && l.ticket != 0 {
        assert TicketOk(s, l);
        assert RecordEvolves(s.recs[Target(l).value], s'.recs[Target(l).value], t);
        forall r: nat | r < |s'.recs| ensures s'.recs[r].write != l.ticket {
          if r < |s.recs| && s'.recs[r].write != s.recs[r].write { assert TicketOf(s, t, r, s'.recs[r].write); }
        }
      }
    }
  }

  lemma FreedKept(s: State, s': State, t: Tid)
    requires Basic(s) && Evolves(s, s', t)
    ensures FreedOk(s')
  {
    forall r | r in s'.freed ensures r < |s'.recs| && (s'.recs[r].installed ==> s'.recs[r].retire != 0) {
      if r in s.freed {
        assert s'.recs[r].installed == s.recs[r].installed;
      }
      assert RecordEvolves(s.recs[r], s'.recs[r], t);
    }
  }

  lemma ShapeKept(s: State, s': State, t: Tid)
    requires Basic(s) && Evolves(s, s', t) && Own(s, s', t)
    requires t in s.threads ==> t in s'.threads
    ensures Shape(s')
  {
    forall u | u in s'.threads
      ensures LocalOk(s', s'.threads[u].loc)
      ensures forall i :: 0 <= i < |s'.threads[u].retired| ==> s'.threads[u].retired[i] < |s'.recs|
      ensures ScanOk(s', s'.threads[u])
    {
      if u == t {
        assert ListOk(s', t, s'.threads[t].retired);
        forall i | 0 <= i < |s'.threads[t].retired| ensures s'.threads[t].retired[i] < |s'.recs| {
          assert ListCell(s', t, s'.threads[t].retired[i]);
        }
      } else {
        assert u in s.threads && LocalOk(s, s.threads[u].loc);
      }
    }
  }

  /** What is left to show for one step: how it changes the shared state, and the stepping thread. */
  lemma BasicKept(s: State, s': State, t: Tid)
    requires Basic(s) && Evolves(s, s', t) && Own(s, s', t) && LogsAgree(s')
    requires t in s.threads ==> t in s'.threads
    ensures Basic(s')
  {
    EpochsKept(s, s', t);
    TicketsKept(s, s', t);
    FreedKept(s, s', t);
    ShapeKept(s, s', t);
    forall r: nat | r < |s'.recs| ensures RetireOk(s', r) && LinkBack(s', r) {
      RetireKept(s, s', t, r);
      LinkKept(s, s', t, r);
    }
    forall u | u in s'.threads
      ensures ThreadOk(s', u, s'.threads[u].loc) && ListOk(s', u, s'.threads[u].retired)
    {
      if u != t { OtherThread(s, s', t, u, s.threads[u].loc); OtherList(s, s', t, u); }
    }
  }

}
