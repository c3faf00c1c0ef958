/** Exactly when the code keeps its promise. lohat.h promises that a record gets its epoch before
    any other writer covers it, and that the link of a record leads to what it replaced.
    add() and remove() help the head only after their CAS, and replace() sets its link only once,
    before its retry loop. A view that starts right after an install is right if and only if that
    install did neither. */
module LohatFaults {
  import opened Options
  import opened LohatModel
  import opened LohatBasic
  import opened LohatSteps
  import opened LohatMemory
  import opened LohatMemorySteps
  import opened LohatViews
  import opened LohatViewSteps
  import opened LohatRuns

  // ----- a view of one bucket that runs alone -----

  /** mmm_help_commit() on the bucket's head, run without interruption. */
  function HelpAlone(s: State, b: nat): State
    requires b < |s.log|
  {
    match Head(s, b)
    case None => s
    case Some(h) => if h < |s.recs| && s.recs[h].write == 0 then CommitCas(BumpEpoch(s), h, s.epoch + 1) else s
  }

  /** The view's inner loop, run without interruption. */
  function Descend(s: State, x: Option<RecId>, L: nat, fuel: nat): Option<RecId>
    decreases fuel
  {
    match x
    case None => None
    case Some(r) =>
      if fuel == 0 || r >= |s.recs| || s.recs[r].write <= L then x
      else Descend(s, s.recs[r].next, L, fuel - 1)
  }

  /** What a view that starts now, and runs alone, finds in bucket b. Links lead downwards, so
      one step per record of the bucket is enough. */
  function Solo(s: State, b: nat): Option<RecId>
    requires b < |s.log|
  {
    Descend(HelpAlone(s, b), Head(s, b), s.epoch, |s.log[b]|)
  }

  /** It is the bucket's state at the epoch at which the view starts. */
  ghost predicate SoloRight(s: State, b: nat)
    requires b < |s.log|
  {
    Snapshot(HelpAlone(s, b), b, s.epoch, Solo(s, b))
  }

  /** Descending never leaves the bucket and never goes up. */
  lemma {:induction false} DescendBelow(s: State, r: RecId, L: nat, fuel: nat)
    requires Basic(s) && OnLog(s, r) && s.recs[r].pos < fuel
    ensures var y := Descend(s, Some(r), L, fuel);
            y.Some? ==> OnLog(s, y.value) && s.recs[y.value].bucket == s.recs[r].bucket
                        && s.recs[y.value].pos <= s.recs[r].pos && s.recs[y.value].write <= L
    decreases fuel
  {
    hide Basic;
    BasicRecord(s, r);
    if s.recs[r].write > L && s.recs[r].next.Some? {
      DescendBelow(s, s.recs[r].next.value, L, fuel - 1);
    }
  }

  /** Helping a head that has no epoch gives it one above every other. */
  lemma HelpAloneSame(s: State, b: nat)
    requires Basic(s) && b < |s.log|
    ensures var s1 := HelpAlone(s, b);
            && s1.log == s.log && |s1.recs| == |s.recs|
            && (forall r: nat :: r < |s.recs| ==> s1.recs[r].(write := 0) == s.recs[r].(write := 0))
            && (forall r: nat :: r < |s.recs| && Some(r) != Head(s, b) ==> s1.recs[r] == s.recs[r])
            && (Head(s, b).Some? ==> Head(s, b).value < |s.recs| && OnLog(s, Head(s, b).value)
                                     && s.recs[Head(s, b).value].bucket == b
                                     && s.recs[Head(s, b).value].pos + 1 == |s.log[b]|
                                     && s1.recs[Head(s, b).value].write ==
                                          (if s.recs[Head(s, b).value].write == 0 then s.epoch + 1
                                            else s.recs[Head(s, b).value].write))
  {
    hide Basic;
    BasicShapeLogs(s);
    if Head(s, b).Some? { HeadOnLog(s, b); }
  }

  /** The links of a good table lead a lone view to the newest committed record. */
  lemma SoloFinds(s: State, b: nat)
    requires Basic(s) && Linked(s) && CommittedBelow(s) && b < |s.log|
    ensures Solo(s, b) ==
            (match Head(s, b)
             case None => None
             case Some(h) => if h < |s.recs| && s.recs[h].write == 0 && OnLog(s, h) then Under(s, h) else Some(h))
  {
    hide Basic;
    HelpAloneSame(s, b);
    var s1 := HelpAlone(s, b);
    match Head(s, b)
    case None =>
    case Some(h) =>
      BasicRecord(s, h);
      if s.recs[h].write == 0 {
        assert s1.recs[h].next == Under(s, h);
        if Under(s, h).Some? {
          var x := Under(s, h).value;
          BasicShapeLogs(s);
          UnderOnLog(s, h);
          BasicRecord(s, x);
          assert s1.recs[x] == s.recs[x];
          assert Descend(s1, Some(x), s.epoch, |s.log[b]| - 1) == Some(x);
        }
      }
  }

  lemma SoloRightWhenGood(s: State, b: nat)
    requires Basic(s) && Linked(s) && CommittedBelow(s) && Rising(s) && b < |s.log|
    ensures SoloRight(s, b)
  {
    hide Basic;
    SoloFinds(s, b);
    HelpAloneSame(s, b);
    var s1 := HelpAlone(s, b);
    var x := Solo(s, b);
    if x.Some? {
      BasicShapeLogs(s);
      if x != Head(s, b) {
        UnderOnLog(s, Head(s, b).value);
        assert Covered(s, x.value);
      }
      BasicRecord(s, x.value);
    }
    forall q: nat | q < |s1.recs| && s1.recs[q].installed && s1.recs[q].bucket == b && s1.recs[q].write != 0
      ensures s1.recs[q].write > s.epoch || (x.Some? && s1.recs[q].write <= s1.recs[x.value].write)
    {
      SoloGreatest(s, b, q);
    }
  }

  lemma SoloGreatest(s: State, b: nat, q: RecId)
    requires Basic(s) && Linked(s) && CommittedBelow(s) && Rising(s) && b < |s.log|
    requires q < |s.recs| && s.recs[q].installed && s.recs[q].bucket == b && HelpAlone(s, b).recs[q].write != 0
    ensures HelpAlone(s, b).recs[q].write > s.epoch
            || (Solo(s, b).Some? && Solo(s, b).value < |s.recs|
                && HelpAlone(s, b).recs[q].write <= HelpAlone(s, b).recs[Solo(s, b).value].write)
  {
    hide Basic, Linked, Solo, HelpAlone;
    SoloFinds(s, b);
    HelpAloneSame(s, b);
    BasicRecord(s, q);
    BasicShapeLogs(s);
    var h := Head(s, b).value;
    if q != h {
      if s.recs[h].write == 0 {
        UnderOnLog(s, h);
        var u := Under(s, h).value;
        if q != u {
          assert s.recs[q].pos < s.recs[u].pos;
          assert Older(s, q, u) && Covered(s, u);
        }
      } else {
        assert Older(s, q, h);
      }
    }
  }

  // ----- right after an install -----

  /** The install that is about to succeed keeps the two conditions. */
  predicate Faithful(s: State, t: Tid) {
    LinksHead(s, t, Proceed) && OverCommitted(s, t, Proceed)
  }

  ghost predicate AboutToInstall(s: State, t: Tid) {
    && t in s.threads && s.threads[t].scan.None? && s.threads[t].loc.at.Installing?
    && LocalOk(s, s.threads[t].loc) && Head(s, s.threads[t].loc.bucket) == s.threads[t].loc.head
  }

  /** In a run that has been good so far: after a successful install, a view that starts at once
      is right about every bucket if and only if the candidate is linked to the head it replaced
      and that head had its write epoch. */
  lemma InstallRightIff(s: State, t: Tid)
    requires Basic(s) && Memory(s) && Ordered(s) && AboutToInstall(s, t)
    ensures |Install(s, t).log| == |s.log|
    ensures (forall b: nat :: b < |s.log| ==> SoloRight(Install(s, t), b)) <==> Faithful(s, t)
  {
    hide Basic, Memory, Ordered, Faithful, SoloRight;
    if Faithful(s, t) {
      InstallRight(s, t);
    } else {
      InstallWrong(s, t);
      assert !SoloRight(Install(s, t), s.threads[t].loc.bucket);
    }
  }

  lemma InstallRight(s: State, t: Tid)
    requires Basic(s) && Memory(s) && Ordered(s) && AboutToInstall(s, t) && Faithful(s, t)
    ensures |Install(s, t).log| == |s.log|
    ensures forall b: nat :: b < |s.log| ==> SoloRight(Install(s, t), b)
  {
    hide Basic, Memory, Ordered, SoloRight, OverCommitted, LinksHead;
    var s' := Install(s, t);
    StepBasic(s, t, Proceed);
    StepMemory(s, t, Proceed);
    OrderedKept(s, t, Proceed);
    assert s' == Apply(s, t, Proceed);
    MemoryLinked(s');
    OrderedBelow(s');
    forall b: nat | b < |s.log| ensures SoloRight(s', b) { SoloRightWhenGood(s', b); }
  }

  /** What an install that breaks a condition does to a view that starts right after it: the
      view finds either a record without an epoch, or not the one that is current. */
  lemma InstallWrong(s: State, t: Tid)
    requires Basic(s) && Memory(s) && Ordered(s) && AboutToInstall(s, t) && !Faithful(s, t)
    ensures |Install(s, t).log| == |s.log| && !SoloRight(Install(s, t), s.threads[t].loc.bucket)
  {
    hide Basic, Memory, Ordered;
    BasicThread(s, t);
    MemoryScan(s, t);
    OrderedHelped(s, t);
    var l := s.threads[t].loc;
    var c, b := l.mine.value, l.bucket;
    BasicRecord(s, c);
    assert s.recs[c].next.Some? ==> s.log[b] != [];
    if s.recs[l.head.value].write == 0 {
      assert s.recs[c].next == l.head by { assert !l.op.Replace?; }
      UncommittedSeen(s, t);
    } else {
      StaleSkips(s, t);
    }
  }

  lemma InstalledShape(s: State, t: Tid)
    requires Basic(s) && AboutToInstall(s, t)
    ensures var s', l := Install(s, t), s.threads[t].loc;
            && Basic(s') && |s'.log| == |s.log| && Head(s', l.bucket) == l.mine && s'.epoch == s.epoch
            && s'.recs == s.recs[l.mine.value := s.recs[l.mine.value].(installed := true, pos := |s.log[l.bucket]|)]
            && s.recs[l.mine.value].write == 0 && OnLog(s', l.mine.value) && !s.recs[l.mine.value].installed
            && s'.log == s.log[l.bucket := s.log[l.bucket] + [l.mine.value]]
  {
    hide Basic;
    BasicThread(s, t);
    InstallBasic(s, t);
    var l := s.threads[t].loc;
    BasicRecord(s, l.mine.value);
    BasicRecord(Install(s, t), l.mine.value);
  }

  /** Over an uncommitted head: the view helps the new record past its own epoch, goes down, and
      takes the head whose write epoch is still 0 for an old one. */
  lemma UncommittedSeen(s: State, t: Tid)
    requires Basic(s) && AboutToInstall(s, t)
    requires var l := s.threads[t].loc;
             l.head.Some? && s.recs[l.head.value].write == 0 && s.recs[l.mine.value].next == l.head
    ensures |Install(s, t).log| == |s.log|
    ensures var s', l := Install(s, t), s.threads[t].loc;
            Solo(s', l.bucket) == l.head && !SoloRight(s', l.bucket)
  {
    hide Basic;
    InstalledShape(s, t);
    var s', l := Install(s, t), s.threads[t].loc;
    HelpAloneSame(s', l.bucket);
    var s1 := HelpAlone(s', l.bucket);
    BasicThread(s, t);
    assert l.head != l.mine;
    assert s1.recs[l.head.value].write == 0;
    assert Descend(s1, l.head, s'.epoch, |s'.log[l.bucket]| - 1) == l.head;
  }

  /** Over a head that the candidate is not linked to: the view skips that head, although it is
      the bucket's current record. */
  lemma StaleSkips(s: State, t: Tid)
    requires Basic(s) && Ordered(s) && AboutToInstall(s, t)
    requires var l := s.threads[t].loc;
             l.head.Some? && s.recs[l.head.value].write != 0 && s.recs[l.mine.value].next != l.head
    ensures |Install(s, t).log| == |s.log|
    ensures var s', l := Install(s, t), s.threads[t].loc;
            && Solo(s', l.bucket) != l.head && !SoloRight(s', l.bucket)
            && Snapshot(HelpAlone(s', l.bucket), l.bucket, s'.epoch, l.head)
  {
    hide Basic;
    InstalledShape(s, t);
    BasicThread(s, t);
    var s', l := Install(s, t), s.threads[t].loc;
    var h, c := l.head.value, l.mine.value;
    HelpAloneSame(s', l.bucket);
    var s1 := HelpAlone(s', l.bucket);
    StaleResult(s, t);
    CurrentIsHead(s, t);
    assert h != c;
    BasicShapeLogs(s');
    if Solo(s', l.bucket).Some? {
      var x := Solo(s', l.bucket).value;
      assert s1.recs[x] == s'.recs[x] && s1.recs[h] == s'.recs[h];
      assert s'.recs[x].write != s'.recs[h].write;
    }
  }

  /** The lone view ends strictly below the head that was replaced. */
  lemma StaleResult(s: State, t: Tid)
    requires Basic(s) && AboutToInstall(s, t)
    requires var l := s.threads[t].loc; l.head.Some? && s.recs[l.mine.value].next != l.head
    ensures |Install(s, t).log| == |s.log|
    ensures var s', l := Install(s, t), s.threads[t].loc;
            && Solo(s', l.bucket) != l.head && Solo(s', l.bucket) != l.mine
            && (Solo(s', l.bucket).Some? ==> Solo(s', l.bucket).value < |s'.recs|)
  {
    hide Basic, Install;
    InstalledShape(s, t);
    var s', l := Install(s, t), s.threads[t].loc;
    var b, c := l.bucket, l.mine.value;
    SoloStepsPast(s', b, c);
    BasicThread(s, t);
    BasicRecord(s, c);
    BasicShapeLogs(s);
    HeadOnLog(s, b);
    var next := s.recs[c].next;
    if next.Some? {
      LastIsHead(s, next.value, b);
      BasicRecord(s', next.value);
      SoloSame(s', HelpAlone(s', b), b, c, next.value, s'.epoch, |s'.log[b]| - 1);
      DescendBelow(s', next.value, s'.epoch, |s'.log[b]| - 1);
    }
  }

  /** Over a new head without an epoch the lone view goes on to what that head is linked to. */
  lemma SoloStepsPast(s: State, b: nat, c: RecId)
    requires Basic(s) && b < |s.log| && Head(s, b) == Some(c) && c < |s.recs| && s.recs[c].write == 0
    ensures |s.log[b]| > 0 && Solo(s, b) == Descend(HelpAlone(s, b), s.recs[c].next, s.epoch, |s.log[b]| - 1)
    ensures var s1 := HelpAlone(s, b);
            |s1.recs| == |s.recs| && forall q: nat :: q < |s.recs| && q != c ==> s1.recs[q] == s.recs[q]
  {
    hide Basic;
    HelpAloneSame(s, b);
    var s1 := HelpAlone(s, b);
    assert s1.recs[c].next == s.recs[c].next by { assert s1.recs[c].(write := 0) == s.recs[c].(write := 0); }
  }

  lemma LastIsHead(s: State, r: RecId, b: nat)
    requires OnLog(s, r) && s.recs[r].bucket == b && b < |s.log| && Head(s, b) != Some(r)
    ensures s.recs[r].pos + 1 < |s.log[b]|
  {
  }

  /** Helping the head does not change a descent from below it. */
  lemma {:induction false} SoloSame(s: State, s1: State, b: nat, c: RecId, r: RecId, L: nat, fuel: nat)
    requires Basic(s) && OnLog(s, r) && OnLog(s, c) && s.recs[c].bucket == s.recs[r].bucket
             && s.recs[r].pos < s.recs[c].pos
    requires |s1.recs| == |s.recs| && forall q: nat :: q < |s.recs| && q != c ==> s1.recs[q] == s.recs[q]
    ensures Descend(s1, Some(r), L, fuel) == Descend(s, Some(r), L, fuel)
    decreases fuel
  {
    hide Basic;
    BasicRecord(s, r);
    if fuel > 0 && s.recs[r].write > L && s.recs[r].next.Some? {
      SoloSame(s, s1, b, c, s.recs[r].next.value, L, fuel - 1);
    }
  }

  /** Before the install the head was current, and it still is at the epoch the view starts. */
  lemma CurrentIsHead(s: State, t: Tid)
    requires Basic(s) && Ordered(s) && AboutToInstall(s, t)
    requires s.threads[t].loc.head.Some? && s.recs[s.threads[t].loc.head.value].write != 0
    ensures |Install(s, t).log| == |s.log|
    ensures var s', l := Install(s, t), s.threads[t].loc;
            Snapshot(HelpAlone(s', l.bucket), l.bucket, s'.epoch, l.head)
  {
    hide Basic;
    InstalledShape(s, t);
    BasicThread(s, t);
    var s', l := Install(s, t), s.threads[t].loc;
    var h, c := l.head.value, l.mine.value;
    HelpAloneSame(s', l.bucket);
    var s1 := HelpAlone(s', l.bucket);
    BasicShapeLogs(s);
    HeadOnLog(s, l.bucket);
    BasicRecord(s, h);
    assert h != c;
    forall q: nat | q < |s1.recs| && s1.recs[q].installed && s1.recs[q].bucket == l.bucket && s1.recs[q].write != 0
      ensures s1.recs[q].write > s'.epoch || s1.recs[q].write <= s1.recs[h].write
    {
      if q != c {
        BasicRecord(s, q);
        assert q == h || Older(s, q, h);
      }
    }
  }
}
