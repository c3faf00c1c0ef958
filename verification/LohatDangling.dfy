/** Reclamation and links. While the links are good, a CAS is about to succeed and every other
    thread is outside an operation, in get or view, or past its CAS: a view can come to read a freed
    record if and only if the candidate is not linked to the head it replaces. */
module LohatDangling {
  import opened Options
  import opened LohatModel
  import opened LohatBasic
  import opened LohatSteps
  import opened LohatMemory
  import opened LohatMemorySteps
  import opened LohatViews
  import opened LohatRuns
  import opened LohatFaults
  import opened LohatAlone
  import opened LohatSettled
  import opened LohatEnding

  /** A view is about to read a record that has been freed. */
  ghost predicate ReadsFreed(s: State) {
    exists v :: v in s.threads && WalksFreed(s, v)
  }

  predicate WalksFreed(s: State, v: Tid)
    requires v in s.threads
  {
    var th := s.threads[v];
    th.loc.at.Walking? && th.scan.None? && th.loc.head.Some? && th.loc.head.value in s.freed
  }

  /** No other thread has a CAS on a head before it. */
  ghost predicate OthersPast(s: State, t: Tid) {
    forall u :: u in s.threads && u != t ==> PastCas(s.threads[u].loc)
  }

  // ----- a scan that frees x -----

  /** View v is about to leave c for x, which was retired before v's epoch. */
  ghost predicate Heading(s: State, v: Tid, c: RecId, x: RecId, L: nat) {
    && v in s.threads && s.threads[v].scan.None? && s.threads[v].slot == Some(L)
    && s.threads[v].loc.at.Walking? && s.threads[v].loc.op.View? && s.threads[v].loc.op.lin == L
    && s.threads[v].loc.head == Some(c)
    && c < |s.recs| && s.recs[c].installed && s.recs[c].write > L && s.recs[c].next == Some(x)
    && x < |s.recs| && 0 < s.recs[x].retire < L
  }

  /** And it holds the only reservation. */
  ghost predicate Poised(s: State, v: Tid, c: RecId, x: RecId, L: nat) {
    Heading(s, v, c, x, L) && forall w :: w in s.threads && w != v ==> s.threads[w].slot.None?
  }

  ghost predicate Scanned(s: State, s': State, v: Tid, u: Tid, todo: set<Tid>, L: nat) {
    && v in s.threads && u in s'.threads && s' == s.(threads := s'.threads) && Only(s, s', u)
    && s'.threads[u] == s.threads[u].(scan := s'.threads[u].scan)
    && s'.threads[u].scan.Some? && s'.threads[u].scan.value.todo == todo && todo <= s.threads.Keys
    && (s'.threads[u].scan.value.low.Some? ==> s'.threads[u].scan.value.low == Some(L))
    && (v !in todo ==> s'.threads[u].scan.value.low == Some(L))
  }

  /** Thread u reads every reservation. */
  lemma ScansAll(s0: State, s: State, v: Tid, u: Tid, c: RecId, x: RecId, L: nat, who: set<Tid>) returns (s': State)
    requires Goes(s0, s, who) && u in who && u != v && Poised(s, v, c, x, L)
    requires u in s.threads && AtRest(s.threads[u]) && x in s.threads[u].retired
    ensures Goes(s0, s', who) && Scanned(s, s', v, u, {}, L)
  {
    hide Goes, Shape;
    Next(s0, s, u, BeginScan, who);
    s' := ScanStart(s, u);
    var todo := s.threads.Keys;
    while todo != {}
      invariant Goes(s0, s', who) && Scanned(s, s', v, u, todo, L)
      decreases todo
    {
      var w :| w in todo;
      s' := ScansOne(s0, s, s', v, u, todo, w, c, x, L, who);
      todo := todo - {w};
    }
  }

  lemma ScansOne(s0: State, s: State, s1: State, v: Tid, u: Tid, todo: set<Tid>, w: Tid, c: RecId, x: RecId, L: nat,
          who: set<Tid>)
    returns (s': State)
    requires Goes(s0, s1, who) && u in who && u != v && Poised(s, v, c, x, L) && u in s.threads
    requires Scanned(s, s1, v, u, todo, L) && w in todo
    ensures Goes(s0, s', who) && Scanned(s, s', v, u, todo - {w}, L)
  {
    hide Goes, Shape;
    Next(s0, s1, u, ReadSlot(w), who);
    s' := ScanRead(s1, u, w);
  }

  lemma ScanFrees(s0: State, s: State, v: Tid, u: Tid, c: RecId, x: RecId, L: nat, who: set<Tid>) returns (s': State)
    requires Goes(s0, s, who) && u in who && u != v && Poised(s, v, c, x, L)
    requires u in s.threads && AtRest(s.threads[u]) && x in s.threads[u].retired
    ensures Goes(s0, s', who) && x in s'.freed && Only(s, s', u) && s'.recs == s.recs
  {
    hide Goes, Shape, Poised, Basic;
    assert s.recs[x].retire < L && x < |s.recs| by { PoisedFacts(s, v, c, x, L); }
    s' := ScansAll(s0, s, v, u, c, x, L, who);
    assert Basic(s') by { GoesBasic(s0, s'); }
    Next(s0, s', u, FinishScan, who);
    ListInside(s', u);
    ScanFreesBelow(s', u, x, ScanFree(s', u));
    var s1 := s';
    s' := ScanFree(s', u);
    assert s'.recs == s1.recs && Only(s1, s', u);
  }

  lemma PoisedFacts(s: State, v: Tid, c: RecId, x: RecId, L: nat)
    requires Poised(s, v, c, x, L)
    ensures x < |s.recs| && s.recs[x].retire < L
  {
  }

  /** The rest of the schedule: u scans, unless x is free already, and the view moves on to x. */
  lemma PoisedReads(s0: State, s: State, v: Tid, u: Tid, c: RecId, x: RecId, L: nat, who: set<Tid>) returns (s': State)
    requires Goes(s0, s, who) && v in who && Poised(s, v, c, x, L)
    requires x in s.freed || (u in s.threads && u in who && u != v && AtRest(s.threads[u]) && x in s.threads[u].retired)
    ensures Goes(s0, s', who) && ReadsFreed(s')
  {
    hide Goes;
    s' := s;
    if x !in s.freed {
      s' := ScanFrees(s0, s, v, u, c, x, L, who);
    }
    s' := Walks(s0, s', v, who);
    assert WalksFreed(s', v);
  }

  // ----- the schedule -----

  /** Thread t has put c over h and is at the given point of its commit. */
  ghost predicate Over(s: State, t: Tid, at: Point, h: RecId, c: RecId) {
    Runs(s, t, at) && s.threads[t].loc.mine == Some(c) && s.threads[t].loc.head == Some(h)
  }

  /** c is bucket b's head, without an epoch, and is linked to x, which lies under another record. */
  ghost predicate Stale(s: State, b: nat, c: RecId, x: RecId) {
    && b < |s.log| && Head(s, b) == Some(c)
    && c < |s.recs| && s.recs[c].installed && s.recs[c].write == 0 && s.recs[c].next == Some(x)
    && Covered(s, x) && Above(s, x) != c && Above(s, x) < |s.recs|
  }

  function Writers(s: State, t: Tid): set<Tid> {
    set u | u in s.threads && u != t && !Reads(s.threads[u].loc)
  }

  function Readers(s: State, t: Tid): set<Tid> {
    set u | u in s.threads && u != t && Reads(s.threads[u].loc)
  }

  /** In a good state only a replace can have a candidate that is not linked to the head it is
      about to replace. What it is linked to lies further down. */
  lemma StaleTarget(s: State, t: Tid) returns (h: RecId, c: RecId, x: RecId)
    requires Basic(s) && Memory(s) && Settled(s) && AboutToInstall(s, t) && !LinksHead(s, t, Proceed)
    ensures s.threads[t].loc.op.Replace? && s.threads[t].loc.head == Some(h) && s.threads[t].loc.mine == Some(c)
    ensures c < |s.recs| && !s.recs[c].installed && s.recs[c].next == Some(x) && x != h && OnLog(s, x)
    ensures s.recs[x].bucket == s.threads[t].loc.bucket && s.recs[x].pos + 1 < |s.log[s.recs[x].bucket]|
  {
    hide LogsAgree, ListOk;
    var l := s.threads[t].loc;
    c := l.mine.value;
    BasicThread(s, t);
    BasicRecord(s, c);
    BasicShapeLogs(s);
    assert CandidateLinked(s, l) by { MemoryScan(s, t); }
    assert ReplaceLinked(s, t);
    hide Basic, Memory;
    h := l.head.value;
    x := s.recs[c].next.value;
    HeadOnLog(s, l.bucket);
  }

  lemma InstallsStale(s: State, t: Tid) returns (h: RecId, c: RecId, x: RecId)
    requires Basic(s) && Memory(s) && Settled(s) && AboutToInstall(s, t) && !LinksHead(s, t, Proceed)
    ensures var s1 := Install(s, t);
            Basic(s1) && Settled(s1) && Over(s1, t, Bumping, h, c) && Stale(s1, s.threads[t].loc.bucket, c, x)
  {
    h, c, x := StaleTarget(s, t);
    SettledInstalled(s, t);
    InstalledShape(s, t);
    InstallsOver(s, t);
    assert x != c by { hide Basic, Memory, Settled, LinksHead, Install; }
    CoversTarget(s, t, c, x);
    hide Basic, Memory, Settled, LinksHead, Install, Covered, LocalOk, Over;
  }

  lemma InstallsOver(s: State, t: Tid)
    requires AboutToInstall(s, t)
    ensures var l := s.threads[t].loc;
            l.op.Replace? && l.head.Some? ==> Over(Install(s, t), t, Bumping, l.head.value, l.mine.value)
  {
  }

  /** A record under t's head lies under the same record after the CAS. */
  lemma CoversTarget(s: State, t: Tid, c: RecId, x: RecId)
    requires Basic(s) && AboutToInstall(s, t) && s.threads[t].loc.mine == Some(c) && !s.recs[c].installed
    requires OnLog(s, x) && s.recs[x].pos + 1 < |s.log[s.recs[x].bucket]|
    ensures var s1 := Install(s, t); Covered(s1, x) && Above(s1, x) != c && Above(s1, x) < |s1.recs|
  {
    InstalledShape(s, t);
    BasicShapeLogs(s);
    assert LogEntry(s, s.recs[x].bucket, s.recs[x].pos + 1);
    hide Basic, LogsAgree, Install;
  }

  lemma SettledInstalled(s: State, t: Tid)
    requires Basic(s) && Settled(s) && AboutToInstall(s, t)
    ensures Settled(Install(s, t))
  {
    SettledKept(s, t, Proceed);
    assert Apply(s, t, Proceed) == Install(s, t) by { hide Basic, Settled; }
  }

  /** The CAS leaves the others as they were: they have to do with records that are on a bucket
      already, or with candidates of their own. */
  lemma OthersEnd(s: State, t: Tid)
    requires Basic(s) && Memory(s) && AboutToInstall(s, t) && OthersPast(s, t)
    ensures var s1 := Install(s, t);
            && CanEnd(s1, Writers(s, t)) && CanEnd(s1, Readers(s, t)) && s1.threads.Keys == s.threads.Keys
            && AllAway(s1, Writers(s, t), s.threads[t].loc.mine.value)
            && forall u :: u in Readers(s, t) ==> s1.threads[u] == s.threads[u]
  {
    var c, s1 := s.threads[t].loc.mine.value, Install(s, t);
    InstalledShape(s, t);
    InstallsThread(s, t);
    forall u | u in s.threads && u != t
      ensures SlotFree(s.threads[u]) && (!Reads(s.threads[u].loc) ==> Away(s.threads[u].loc, c))
    {
      assert SlotOk(s, s.threads[u]) by { MemoryScan(s, u); }
      hide Basic, Memory, Install, Away;
      if !Reads(s.threads[u].loc) { OtherAway(s, t, u); }
    }
    hide Basic, Memory, Install, AboutToInstall, Away, OnLog;
  }

  lemma InstallsThread(s: State, t: Tid)
    requires AboutToInstall(s, t)
    ensures Only(s, Install(s, t), t) && |Install(s, t).recs| == |s.recs|
  {
  }

  lemma OtherAway(s: State, t: Tid, u: Tid)
    requires Basic(s) && AboutToInstall(s, t) && u in s.threads && u != t && PastCas(s.threads[u].loc)
    requires !s.recs[s.threads[t].loc.mine.value].installed && !Reads(s.threads[u].loc)
    ensures Away(s.threads[u].loc, s.threads[t].loc.mine.value)
  {
    BasicThread(s, t);
    BasicThread(s, u);
    hide Basic, Stage;
  }

  lemma StaleKept(s: State, s': State, who: set<Tid>, t: Tid, at: Point, b: nat, h: RecId, c: RecId, x: RecId)
    requires Kept(s, s', who) && t !in who && Over(s, t, at, h, c) && Stale(s, b, c, x)
    requires c < |s'.recs| && s'.recs[c].write == 0
    ensures Over(s', t, at, h, c) && Stale(s', b, c, x)
  {
    hide Settled;
    assert Later(s, s', c) && Later(s, s', x) && Later(s, s', Above(s, x));
  }

  lemma RestKept(s: State, s': State, who: set<Tid>, us: set<Tid>)
    requires Kept(s, s', who) && who !! us && AllRest(s, us)
    ensures AllRest(s', us)
  {
    hide Settled;
  }

  /** Once the writers have ended, what c is linked to has been retired. */
  lemma TargetRetired(s: State, t: Tid, h: RecId, b: nat, c: RecId, x: RecId)
    requires Basic(s) && Settled(s) && Over(s, t, Bumping, h, c) && Stale(s, b, c, x)
    requires forall u :: u in s.threads && u != t ==> Reads(s.threads[u].loc)
    ensures x < |s.recs| && 0 < s.recs[x].retire <= s.epoch
  {
    BasicRecord(s, x);
    var u := s.recs[Above(s, x)].owner;
    assert Retirable(s, x);
    if u in s.threads { BasicThread(s, u); }
    hide Basic, Settled;
  }

  /** A new thread takes a view at the epoch that t has taken, and helps c past it. */
  lemma ViewsPast(s: State, t: Tid, h: RecId, b: nat, c: RecId, x: RecId, v: Tid) returns (s': State)
    requires Basic(s) && Over(s, t, Bumping, h, c) && Stale(s, b, c, x) && v !in s.threads
    requires x < |s.recs| && 0 < s.recs[x].retire <= s.epoch
    ensures Goes(s, s', {t, v}) && Heading(s', v, c, x, s.epoch + 1) && Over(s', t, Swapping, h, c)
  {
    hide Basic, Goes, Covered;
    GoesSelf(s, {t});
    var s1 := Bumps(s, s, t, {t});
    assert Basic(s1) by { GoesBasic(s, s1); }
    assert Head(s1, b) == Some(c);
    s' := ViewReaches(s1, v, b, c);
    assert s'.recs[c].(write := 0) == s1.recs[c].(write := 0) && s'.recs[x].(write := 0) == s1.recs[x].(write := 0);
    GoesMore(s, s1, {t}, {t, v});
    GoesMore(s1, s', {v}, {t, v});
    GoesFurther(s, s1, s', {t, v});
  }

  lemma HeadingKept(s: State, s': State, who: set<Tid>, v: Tid, c: RecId, x: RecId, L: nat)
    requires Kept(s, s', who) && v !in who && Heading(s, v, c, x, L)
    ensures Heading(s', v, c, x, L)
  {
    hide Settled;
    assert Later(s, s', c) && Later(s, s', x);
  }

  /** t finds its record committed, retires h and ends its operation. */
  lemma Finishes(s: State, t: Tid, h: RecId, c: RecId) returns (s': State)
    requires Basic(s) && Over(s, t, Swapping, h, c) && c < |s.recs| && s.recs[c].write != 0
    ensures Goes(s, s', {t}) && AllRest(s', {t})
  {
    hide Goes, Basic;
    GoesSelf(s, {t});
    s' := Swaps(s, s, t, {t});
    s' := Retires(s, s', t, {t});
    s' := Ends(s, s', t, {t});
  }

  /** x is free by now, or waits on the list of a thread that was there before the view. */
  lemma StillListed(s: State, s': State, who: set<Tid>, b: nat, c: RecId, x: RecId) returns (u: Tid)
    requires Basic(s) && Kept(s, s', who) && Settled(s) && Stale(s, b, c, x) && s.recs[x].retire != 0
    ensures x in s'.freed || (u in s.threads && u in s'.threads && x in s'.threads[u].retired)
  {
    u := s.recs[Above(s, x)].owner;
    BasicShapeLogs(s);
    assert LogEntry(s, s.recs[x].bucket, s.recs[x].pos + 1);
    StillUnder(s, s', who, x);
    assert Freeable(s, x) by { hide Basic, LogsAgree, Freeable; }
    assert Freeable(s', x) by { hide Basic, LogsAgree, Freeable; }
    hide Basic, LogsAgree, EpochsOk, Settled;
    assert Later(s, s', x);
  }

  lemma StillUnder(s: State, s': State, who: set<Tid>, x: RecId)
    requires Kept(s, s', who) && Covered(s, x) && Above(s, x) < |s.recs| && s.recs[Above(s, x)].installed
    ensures Covered(s', x) && Above(s', x) == Above(s, x) && Above(s', x) < |s'.recs|
    ensures s'.recs[Above(s, x)].owner == s.recs[Above(s, x)].owner
    ensures s.recs[x].retire != 0 ==> s'.recs[x].retire == s.recs[x].retire
  {
    hide Settled;
    assert Later(s, s', x) && Later(s, s', Above(s, x));
  }

  /** Everybody but t and the readers rs is outside an operation, and x has been retired. */
  ghost predicate Waiting(s: State, t: Tid, rs: set<Tid>, h: RecId, b: nat, c: RecId, x: RecId) {
    && Settled(s) && Over(s, t, Bumping, h, c) && Stale(s, b, c, x)
    && x < |s.recs| && 0 < s.recs[x].retire <= s.epoch
    && t !in rs && CanEnd(s, rs) && AllRest(s, s.threads.Keys - rs - {t})
  }

  /** After the CAS the writers end, and have retired what they had covered. */
  lemma WritersEnd(s: State, t: Tid) returns (s': State, h: RecId, c: RecId, x: RecId)
    requires Basic(s) && Memory(s) && Settled(s) && AboutToInstall(s, t) && OthersPast(s, t)
             && !LinksHead(s, t, Proceed)
    ensures Goes(Install(s, t), s', Writers(s, t))
    ensures Waiting(s', t, Readers(s, t), h, s.threads[t].loc.bucket, c, x)
  {
    h, c, x := InstallsStale(s, t);
    OthersEnd(s, t);
    assert s.threads[t].loc.mine == Some(c) by { hide Basic, Memory, Settled, Stale, LinksHead; }
    var s1, b, ws, rs := Install(s, t), s.threads[t].loc.bucket, Writers(s, t), Readers(s, t);
    hide Basic, Memory, Settled, Install, Goes, Kept, Stale, CanEnd, AllAway, PastCas, Away, LinksHead, AboutToInstall,
         OthersPast;
    assert c < |s1.recs| && s1.recs[c].write == 0 by { StaleFacts(s1, b, c, x); }
    s' := DrivesAll(s1, ws, c);
    StaleKept(s1, s', ws, t, Bumping, b, h, c, x);
    KeptOthers(s1, s', ws, rs, c);
    KeptReaders(s, s1, s', ws, t);
    assert Basic(s') by { GoesBasic(s1, s'); }
    TargetRetired(s', t, h, b, c, x);
  }

  lemma StaleFacts(s: State, b: nat, c: RecId, x: RecId)
    requires Stale(s, b, c, x)
    ensures c < |s.recs| && s.recs[c].write == 0
  {
  }

  lemma KeptReaders(s: State, s1: State, s': State, ws: set<Tid>, t: Tid)
    requires Kept(s1, s', ws) && ws == Writers(s, t) && AllRest(s', ws) && Settled(s1)
    requires s1.threads.Keys == s.threads.Keys
    requires forall u :: u in Readers(s, t) ==> s1.threads[u] == s.threads[u]
    ensures Settled(s') && AllRest(s', s'.threads.Keys - Readers(s, t) - {t})
    ensures forall u :: u in s'.threads && u != t ==> Reads(s'.threads[u].loc)
  {
    hide Settled;
  }

  /** The view starts, the readers end, and t ends. */
  lemma ReadersEnd(s: State, t: Tid, rs: set<Tid>, h: RecId, b: nat, c: RecId, x: RecId, v: Tid) returns (s': State)
    requires Basic(s) && Waiting(s, t, rs, h, b, c, x) && v !in s.threads
    ensures Goes(s, s', rs + {t, v}) && Heading(s', v, c, x, s.epoch + 1)
    ensures s'.threads.Keys == s.threads.Keys + {v} && AllRest(s', s.threads.Keys)
  {
    hide Basic, Settled, Goes, Kept, Stale, CanEnd, AllRest, AllAway, Heading, Over;
    var ws := s.threads.Keys - rs - {t};
    assert rs <= s.threads.Keys && t in s.threads by { CanEndKnown(s, rs); OverKnown(s, t, Bumping, h, c); }
    var s1 := ViewsPast(s, t, h, b, c, x, v);
    assert Basic(s1) by { GoesBasic(s, s1); }
    GoesKept(s, s1, {t, v});
    KeptOthers(s, s1, {t, v}, rs, c);
    RestKept(s, s1, {t, v}, ws);
    HeadingFacts(s1, v, c, x, s.epoch + 1);
    var s2 := DrivesAll(s1, rs, c);
    assert Basic(s2) by { GoesBasic(s1, s2); }
    HeadingKept(s1, s2, rs, v, c, x, s.epoch + 1);
    OverKept(s1, s2, rs, t, Swapping, h, c);
    RestKept(s1, s2, rs, ws);
    HeadingFacts(s2, v, c, x, s.epoch + 1);
    s' := Finishes(s2, t, h, c);
    GoesKept(s2, s', {t});
    HeadingKept(s2, s', {t}, v, c, x, s.epoch + 1);
    RestKept(s2, s', {t}, ws);
    RestKept(s2, s', {t}, rs);
    HeadingFacts(s', v, c, x, s.epoch + 1);
    AllEnded(s, s1, s2, s', t, v, ws, rs);
    GoesMore(s, s1, {t, v}, rs + {t, v});
    GoesMore(s1, s2, rs, rs + {t, v});
    GoesMore(s2, s', {t}, rs + {t, v});
    GoesFurther(s, s1, s2, rs + {t, v});
    GoesFurther(s, s2, s', rs + {t, v});
  }

  lemma CanEndKnown(s: State, us: set<Tid>)
    requires CanEnd(s, us)
    ensures us <= s.threads.Keys
  {
  }

  lemma OverKept(s: State, s': State, who: set<Tid>, t: Tid, at: Point, h: RecId, c: RecId)
    requires Kept(s, s', who) && t !in who && Over(s, t, at, h, c)
    ensures Over(s', t, at, h, c)
  {
    hide Settled;
  }

  lemma HeadingFacts(s: State, v: Tid, c: RecId, x: RecId, L: nat)
    requires Heading(s, v, c, x, L)
    ensures c < |s.recs| && s.recs[c].write != 0 && v in s.threads
  {
  }

  lemma AllEnded(s: State, s1: State, s2: State, s3: State, t: Tid, v: Tid, ws: set<Tid>, rs: set<Tid>)
    requires Kept(s, s1, {t, v}) && Kept(s1, s2, rs) && Kept(s2, s3, {t})
    requires rs <= s.threads.Keys && ws == s.threads.Keys - rs - {t} && t in s.threads && v in s3.threads
    requires AllRest(s3, ws) && AllRest(s3, rs) && AllRest(s3, {t})
    ensures s3.threads.Keys == s.threads.Keys + {v} && AllRest(s3, s.threads.Keys)
  {
    hide Settled, Later;
  }

  /** A CAS that installs a candidate over a head it is not linked to: the writers end; t takes an
      epoch, a new thread takes a view at that epoch and helps t's record past it; the readers and t
      end; the owner of the list scans; and the view moves on to what the owner has freed. */
  lemma StaleReads(s: State, t: Tid) returns (s': State, who: set<Tid>)
    requires Basic(s) && Memory(s) && Settled(s) && AboutToInstall(s, t) && OthersPast(s, t)
             && !LinksHead(s, t, Proceed)
    ensures Goes(Install(s, t), s', who) && ReadsFreed(s')
  {
    hide Basic, Memory, Settled, Goes, OthersPast, LinksHead, ReadsFreed, Kept, Stale, CanEnd, Over, Install, Heading;
    var s1, h, c, x := WritersEnd(s, t);
    var b, rs, L := s.threads[t].loc.bucket, Readers(s, t), s1.epoch + 1;
    assert Basic(s1) by { GoesBasic(Install(s, t), s1); }
    var v := Unused(s1.threads.Keys);
    who := s1.threads.Keys + Writers(s, t) + {v};
    assert rs + {t, v} <= who by { CanEndKnown(s1, rs); OverKnown(s1, t, Bumping, h, c); }
    var s2 := ReadersEnd(s1, t, rs, h, b, c, x, v);
    GoesMore(s1, s2, rs + {t, v}, who);
    GoesKept(s1, s2, who);
    var u := StillListed(s1, s2, who, b, c, x);
    GoesMore(Install(s, t), s1, Writers(s, t), who);
    GoesFurther(Install(s, t), s1, s2, who);
    s' := PoisedReads(Install(s, t), s2, v, u, c, x, L, who);
  }

  lemma OverKnown(s: State, t: Tid, at: Point, h: RecId, c: RecId)
    requires Over(s, t, at, h, c)
    ensures t in s.threads
  {
  }

  // ----- the condition -----

  /** Continuations of a state in which every CAS links to the head it replaces keep every pointer
      away from freed records. */
  lemma {:induction false} LinkedSafe(states: seq<State>, events: seq<Event>, i: nat)
    requires |states| == |events| + 1 && i < |states| && Basic(states[0]) && Memory(states[0])
    requires TakesAll(states, events) && AllLinked(states, events)
    ensures Basic(states[i]) && Memory(states[i]) && NoDangling(states[i])
  {
    hide Basic, Memory, NoDangling;
    if i > 0 {
      LinkedSafe(states, events, i - 1);
      assert Takes(states[i - 1], events[i - 1], states[i]);
      StepBasic(states[i - 1], events[i - 1].who, events[i - 1].act);
      StepMemory(states[i - 1], events[i - 1].who, events[i - 1].act);
    }
    MemorySafe(states[i]);
  }

  /** After t's CAS: some continuation in which every further CAS links to the head it replaces
      comes to a view that is about to read a freed record. */
  ghost predicate MayReadFreed(s: State, t: Tid)
    requires AboutToInstall(s, t)
  {
    exists states, events ::
      && |states| == |events| + 1 && states[0] == Install(s, t) && TakesAll(states, events) && AllLinked(states, events)
      && ReadsFreed(states[|events|])
  }

  /** In a good state, with every other thread outside an operation, in get or view, or past its
      CAS: after a successful CAS a view can come to read a freed record if and only if the candidate
      was not linked to the head it replaced. */
  lemma ReadsFreedIff(s: State, t: Tid)
    requires Basic(s) && Memory(s) && Settled(s) && AboutToInstall(s, t) && OthersPast(s, t)
    ensures MayReadFreed(s, t) <==> !LinksHead(s, t, Proceed)
  {
    hide Basic, Memory, Settled, OthersPast, ReadsFreed, LinksHead, MayReadFreed, Install;
    if LinksHead(s, t, Proceed) {
      LinkedNever(s, t);
    } else {
      var s', who := StaleReads(s, t);
      StaleMay(s, t, s', who);
    }
  }

  lemma LinkedNever(s: State, t: Tid)
    requires Basic(s) && Memory(s) && AboutToInstall(s, t) && LinksHead(s, t, Proceed)
    ensures !MayReadFreed(s, t)
  {
    LinkedInstall(s, t);
    hide Basic, Memory, Install, TakesAll, AllLinked, ReadsFreed, LinksHead;
    if MayReadFreed(s, t) {
      var states: seq<State>, events: seq<Event> :|
        && |states| == |events| + 1 && states[0] == Install(s, t) && TakesAll(states, events)
        && AllLinked(states, events)
        && ReadsFreed(states[|events|]);
      LinkedSafe(states, events, |events|);
      SafeReads(states[|events|]);
    }
  }

  lemma StaleMay(s: State, t: Tid, s': State, who: set<Tid>)
    requires AboutToInstall(s, t) && Goes(Install(s, t), s', who) && ReadsFreed(s')
    ensures MayReadFreed(s, t)
  {
    hide Basic, Install, TakesAll, AllLinked, ReadsFreed, Takes, Installs;
    var states: seq<State>, events: seq<Event> :|
      Continues(states, events, who) && states[0] == Install(s, t) && states[|events|] == s';
    NoInstallsLinked(states, events, who);
  }

  lemma SafeReads(s: State)
    requires NoDangling(s)
    ensures !ReadsFreed(s)
  {
  }

  lemma NoInstallsLinked(states: seq<State>, events: seq<Event>, who: set<Tid>)
    requires Continues(states, events, who)
    ensures TakesAll(states, events) && AllLinked(states, events)
  {
    hide Takes;
    forall k | 0 <= k < |events| ensures LinksHead(states[k], events[k].who, events[k].act) {
      assert !Installs(states[k], events[k]);
    }
  }

  lemma LinkedInstall(s: State, t: Tid)
    requires Basic(s) && Memory(s) && AboutToInstall(s, t) && LinksHead(s, t, Proceed)
    ensures Basic(Install(s, t)) && Memory(Install(s, t))
  {
    hide Basic, Memory;
    BasicThread(s, t);
    StepBasic(s, t, Proceed);
    StepMemory(s, t, Proceed);
    hide LocalOk, Install;
  }
}
