/** The lohat protocol of src/hatrack/hash/lohat.c on top of the epoch scheme of
    src/hatrack/support/mmm.c, as a transition system: any number of threads, any fixed
    number of buckets, one atomic shared-memory access per step.

    A record identifier names one allocation, not one address: identifiers are never reused.
    Where no thread holds an identifier that has been freed (`LohatMemory`), allocations and
    addresses are interchangeable.

    Fields and components marked "auxiliary" are history variables: no branch of the
    protocol reads them. */
module LohatModel {
  import opened Options

  type RecId = nat
  type Tid = nat

  /** A lohat_record_t with its hidden mmm_header_t. An epoch of 0 means "not set". */
  datatype Record = Record(
    next: Option<RecId>,
    deleted: bool,
    item: int,
    create: nat,
    write: nat,
    retire: nat,
    bucket: nat,      // auxiliary: the bucket the record was allocated for
    installed: bool,  // auxiliary: a CAS has put the record on its bucket
    pos: nat,         // auxiliary: its index in the bucket's log
    owner: Tid)       // auxiliary: the thread that allocated it

  /** The operations of the table. `View` carries its linearization epoch and the record
      found in each bucket visited so far. */
  datatype Op =
    | Get
    | Put(item: int)
    | Replace(item: int)
    | Add(item: int)
    | Remove
    | View(lin: nat, out: seq<Option<RecId>>)

  /** Where a thread is in its operation. */
  datatype Point =
    | Idle
    | Reserving    // epoch loaded, reservation not yet stored
    | Linearizing  // a view: second load of the epoch
    | AtHead       // about to read the bucket's head
    | Checking     // about to branch on head->deleted
    | Helping      // mmm_help_commit(head): about to read its write epoch
    | HelpBumping  //   about to fetch-and-add
    | HelpSwapping //   about to CAS
    | Installing   // about to CAS the bucket's head
    | Bumping      // mmm_commit_write(candidate): about to fetch-and-add
    | Swapping     //   about to CAS
    | Retiring     // mmm_retire(head)
    | Walking      // a view: looking at a record of the current bucket
    | Returning    // about to use what it holds for the last time, then mmm_end_op()

  /** The local variables of an operation. `head` is the shared record the thread points to
      (`rec` in a view), `mine` its candidate, `ticket` the value its last fetch-and-add gave
      it while the CAS is still to come. */
  datatype Local = Local(
    at: Point, op: Op, bucket: nat, loaded: nat,
    head: Option<RecId>, mine: Option<RecId>, ticket: nat)

  const Resting := Local(Idle, Get, 0, 0, None, None, 0)

  /** A run of mmm_empty(): the slots still to read and the lowest reservation read so far.
      `low == None` stands for HATRACK_EPOCH_MAX. */
  datatype Scan = Scan(todo: set<Tid>, low: Option<nat>)

  /** `slot` is mmm_reservations[tid], `None` for HATRACK_EPOCH_UNRESERVED; `retired` is the
      retire list, newest first. `snap` is auxiliary: what had been retired when the slot was
      last written. */
  datatype Thread = Thread(loc: Local, slot: Option<nat>, retired: seq<RecId>, scan: Option<Scan>, snap: set<RecId>)

  /** `log[b]` lists the records ever put on bucket b, oldest first; the bucket's head pointer
      is its last element. */
  datatype State = State(
    epoch: nat,
    recs: seq<Record>,
    log: seq<seq<RecId>>,
    freed: set<RecId>,
    threads: map<Tid, Thread>)

  function Init(buckets: nat): State {
    State(1, [], seq(buckets, i => []), {}, map[])
  }

  function Head(s: State, b: nat): Option<RecId>
    requires b < |s.log|
  {
    if s.log[b] == [] then None else Some(s.log[b][|s.log[b]| - 1])
  }

  function Retired(s: State): set<RecId> {
    set r: nat | r < |s.recs| && s.recs[r].retire != 0
  }

  function WithThread(s: State, t: Tid, th: Thread): State {
    s.(threads := s.threads[t := th])
  }

  function Goto(s: State, t: Tid, l: Local): State
    requires t in s.threads
  {
    WithThread(s, t, s.threads[t].(loc := l))
  }

  /** Nothing left to do but end the operation. */
  function Done(l: Local): Local {
    l.(at := Returning, head := None, mine := None, ticket := 0)
  }

  // ----- mmm.c -----

  /** atomic_fetch_add(&mmm_epoch, 1); the caller uses the new value. */
  function BumpEpoch(s: State): State {
    s.(epoch := s.epoch + 1)
  }

  /** The CAS of mmm_commit_write() and mmm_help_commit(): from 0 to the ticket, or no change. */
  function CommitCas(s: State, r: RecId, ticket: nat): State
    requires r < |s.recs|
  {
    if s.recs[r].write == 0 then s.(recs := s.recs[r := s.recs[r].(write := ticket)]) else s
  }

  /** mmm_get_create_epoch() */
  function CreateEpoch(r: Record): nat {
    if r.create != 0 then r.create else r.write
  }

  function CopyCreate(s: State, dst: RecId, src: RecId): State
    requires dst < |s.recs| && src < |s.recs|
  {
    s.(recs := s.recs[dst := s.recs[dst].(create := CreateEpoch(s.recs[src]))])
  }

  /** mmm_alloc() for a record of thread t. Its identifier is |s.recs|. */
  function Alloc(s: State, t: Tid, b: nat, next: Option<RecId>, deleted: bool, item: int): State {
    s.(recs := s.recs + [Record(next, deleted, item, 0, 0, 0, b, false, 0, t)])
  }

  function Free(s: State, r: RecId): State {
    s.(freed := s.freed + {r})
  }

  // ----- the steps -----

  function NewItem(op: Op): int {
    match op
    case Put(i) => i
    case Replace(i) => i
    case Add(i) => i
    case _ => 0
  }

  /** Start of an operation: the first load of the epoch in mmm_start_*_op(). */
  function StartOp(s: State, t: Tid, op: Op, b: nat): State
    requires t in s.threads
  {
    Goto(s, t, Local(Reserving, op, b, s.epoch, None, None, 0))
  }

  /** The store into mmm_reservations. */
  function StoreSlot(s: State, t: Tid): State
    requires t in s.threads
  {
    var l := s.threads[t].loc;
    WithThread(s, t, s.threads[t].(loc := l.(at := if l.op.View? then Linearizing else AtHead),
                                   slot := Some(l.loaded), snap := Retired(s)))
  }

  /** The view's outer loop: the next bucket, or the end. */
  function NextBucket(s: State, l: Local, op: Op): Local
    requires op.View?
  {
    l.(at := if |op.out| < |s.log| then AtHead else Returning, op := op, bucket := |op.out|,
       head := None, mine := None, ticket := 0)
  }

  /** The second load of mmm_start_linearized_op(). */
  function LoadLin(s: State, t: Tid): State
    requires t in s.threads
  {
    Goto(s, t, NextBucket(s, s.threads[t].loc, View(s.epoch, [])))
  }

  /** atomic_read(&bucket->head), and what each operation does with it first. */
  function ReadHead(s: State, t: Tid): State
    requires t in s.threads && s.threads[t].loc.bucket < |s.log|
  {
    var l := s.threads[t].loc;
    var op, b, head := l.op, l.bucket, Head(s, l.bucket);
    if op.View? then
      Goto(s, t, l.(at := if head.None? then Walking else Helping, head := head))
    else if head.None? && !op.Put? && !op.Add? then
      Goto(s, t, Done(l))
    else if op.Put? || op.Replace? || head.None? then
      var at := if head.None? then Installing else if op.Put? then Helping else Checking;
      Goto(Alloc(s, t, b, head, false, NewItem(op)), t, l.(at := at, head := head, mine := Some(|s.recs|)))
    else
      Goto(s, t, l.(at := Checking, head := head))
  }

  /** The branch on head->deleted. */
  function Check(s: State, t: Tid): State
    requires t in s.threads && s.threads[t].loc.head.Some? && s.threads[t].loc.head.value < |s.recs|
  {
    var l := s.threads[t].loc;
    var op, gone := l.op, s.recs[l.head.value].deleted;
    if l.mine.None? then
      if op.Get? && !gone then Goto(s, t, l.(at := Helping))
      else if (op.Add? && gone) || (op.Remove? && !gone) then
        Goto(Alloc(s, t, l.bucket, l.head, op.Remove?, NewItem(op)), t, l.(at := Installing, mine := Some(|s.recs|)))
      else Goto(s, t, Done(l))
    else if op.Replace? && !gone then Goto(s, t, l.(at := Helping))
    else if op.Replace? || gone then Free(Goto(s, t, Done(l)), l.mine.value)
    else Goto(s, t, Done(l))  // a remove that lost its CAS to a live record keeps no track of its candidate
  }

  /** What follows mmm_help_commit(), once the head has a write epoch. */
  function AfterHelp(s: State, t: Tid): State
    requires t in s.threads && s.threads[t].loc.head.Some? && s.threads[t].loc.head.value < |s.recs|
    requires s.threads[t].loc.mine.Some? ==> s.threads[t].loc.mine.value < |s.recs|
  {
    var l := s.threads[t].loc.(ticket := 0);
    match l.op
    case View(_, _) => Goto(s, t, l.(at := Walking))
    case Get => Goto(s, t, l.(at := Returning))
    case Add(_) => Goto(s, t, l.(at := Bumping))
    case Remove => Goto(s, t, l.(at := Bumping))
    case _ =>
      var s' := Goto(s, t, l.(at := Installing));
      if l.mine.None? || s.recs[l.head.value].deleted then s' else CopyCreate(s', l.mine.value, l.head.value)
  }

  /** The read of write_epoch in mmm_help_commit(). */
  function HelpRead(s: State, t: Tid): State
    requires t in s.threads && s.threads[t].loc.head.Some? && s.threads[t].loc.head.value < |s.recs|
    requires s.threads[t].loc.mine.Some? ==> s.threads[t].loc.mine.value < |s.recs|
  {
    var l := s.threads[t].loc;
    if s.recs[l.head.value].write != 0 then AfterHelp(s, t) else Goto(s, t, l.(at := HelpBumping))
  }

  function HelpBump(s: State, t: Tid): State
    requires t in s.threads
  {
    var l := s.threads[t].loc;
    Goto(BumpEpoch(s), t, l.(at := HelpSwapping, ticket := s.epoch + 1))
  }

  function HelpSwap(s: State, t: Tid): State
    requires t in s.threads && s.threads[t].loc.head.Some? && s.threads[t].loc.head.value < |s.recs|
    requires s.threads[t].loc.mine.Some? ==> s.threads[t].loc.mine.value < |s.recs|
  {
    var l := s.threads[t].loc;
    AfterHelp(CommitCas(s, l.head.value, l.ticket), t)
  }

  /** The CAS on bucket->head. */
  function Install(s: State, t: Tid): State
    requires t in s.threads && s.threads[t].loc.bucket < |s.log|
    requires s.threads[t].loc.mine.Some? && s.threads[t].loc.mine.value < |s.recs|
  {
    var l := s.threads[t].loc;
    var b, c := l.bucket, l.mine.value;
    if Head(s, b) == l.head then
      var s' := s.(log := s.log[b := s.log[b] + [c]],
                   recs := s.recs[c := s.recs[c].(installed := true, pos := |s.log[b]|)]);
      Goto(s', t, l.(at := if l.head.Some? && (l.op.Add? || l.op.Remove?) then Helping else Bumping))
    else if (l.op.Replace? || l.op.Remove?) && Head(s, b).Some? then
      Goto(s, t, l.(at := Checking, head := Head(s, b)))
    else
      Free(Goto(s, t, Done(l)), c)
  }

  function CommitBump(s: State, t: Tid): State
    requires t in s.threads
  {
    var l := s.threads[t].loc;
    Goto(BumpEpoch(s), t, l.(at := Swapping, ticket := s.epoch + 1))
  }

  function CommitSwap(s: State, t: Tid): State
    requires t in s.threads && s.threads[t].loc.mine.Some? && s.threads[t].loc.mine.value < |s.recs|
  {
    var l := s.threads[t].loc;
    Goto(CommitCas(s, l.mine.value, l.ticket), t,
         if l.head.None? then Done(l) else l.(at := Retiring, ticket := 0))
  }

  /** mmm_retire() up to the call of mmm_empty(). */
  function Retire(s: State, t: Tid): State
    requires t in s.threads && s.threads[t].loc.head.Some? && s.threads[t].loc.head.value < |s.recs|
  {
    var l := s.threads[t].loc;
    var h := l.head.value;
    WithThread(s.(recs := s.recs[h := s.recs[h].(retire := s.epoch)]), t,
               s.threads[t].(loc := l.(at := Returning, mine := None), retired := [h] + s.threads[t].retired))
  }

  /** One iteration of the view's inner loop, or the end of a bucket. */
  function Walk(s: State, t: Tid): State
    requires t in s.threads && s.threads[t].loc.op.View?
    requires s.threads[t].loc.head.Some? ==> s.threads[t].loc.head.value < |s.recs|
  {
    var l := s.threads[t].loc;
    if l.head.None? || s.recs[l.head.value].write <= l.op.lin then
      Goto(s, t, NextBucket(s, l, l.op.(out := l.op.out + [l.head])))
    else
      Goto(s, t, l.(head := s.recs[l.head.value].next))
  }

  /** mmm_end_op(). */
  function EndOp(s: State, t: Tid): State
    requires t in s.threads
  {
    WithThread(s, t, s.threads[t].(loc := Resting, slot := None, snap := {}))
  }

  /** mmm_empty(): the load of mmm_nexttid. */
  function ScanStart(s: State, t: Tid): State
    requires t in s.threads
  {
    WithThread(s, t, s.threads[t].(scan := Some(Scan(s.threads.Keys, None))))
  }

  function Lower(low: Option<nat>, slot: Option<nat>): Option<nat> {
    match slot
    case None => low
    case Some(x) => if low.None? || x < low.value then slot else low
  }

  /** mmm_empty(): one iteration of the loop over the reservations. */
  function ScanRead(s: State, t: Tid, u: Tid): State
    requires t in s.threads && s.threads[t].scan.Some? && u in s.threads
  {
    var sc := s.threads[t].scan.value;
    WithThread(s, t, s.threads[t].(scan := Some(Scan(sc.todo - {u}, Lower(sc.low, s.threads[u].slot)))))
  }

  predicate Below(epoch: nat, low: Option<nat>) {
    low.None? || epoch < low.value
  }

  /** Where mmm_empty() cuts the retire list: at the first cell below the lowest reservation. */
  function CutAt(recs: seq<Record>, cells: seq<RecId>, low: Option<nat>): (k: nat)
    requires forall i :: 0 <= i < |cells| ==> cells[i] < |recs|
    ensures k <= |cells|
    ensures forall i :: 0 <= i < k ==> !Below(recs[cells[i]].retire, low)
    ensures k < |cells| ==> Below(recs[cells[k]].retire, low)
  {
    if cells == [] || Below(recs[cells[0]].retire, low) then 0
    else 1 + CutAt(recs, cells[1..], low)
  }

  /** mmm_empty(): the cut cell and everything after it on the list is freed. */
  function ScanFree(s: State, t: Tid): State
    requires t in s.threads && s.threads[t].scan.Some?
    requires forall i :: 0 <= i < |s.threads[t].retired| ==> s.threads[t].retired[i] < |s.recs|
  {
    var th := s.threads[t];
    var k := CutAt(s.recs, th.retired, th.scan.value.low);
    WithThread(s.(freed := s.freed + (set x | x in th.retired[k..])), t,
               th.(scan := None, retired := th.retired[..k]))
  }

  // ----- runs -----

  datatype Action =
    | Register
    | Start(op: Op, bucket: nat)
    | Proceed
    | BeginScan
    | ReadSlot(of: Tid)
    | FinishScan

  predicate InHelp(at: Point) {
    at.Helping? || at.HelpBumping? || at.HelpSwapping?
  }

  predicate BeforeHead(at: Point) {
    at.Idle? || at.Reserving? || at.Linearizing? || at.AtHead?
  }

  predicate NeedsHead(at: Point) {
    at.Checking? || InHelp(at) || at.Retiring?
  }

  predicate NeedsMine(at: Point) {
    at.Installing? || at.Bumping? || at.Swapping? || at.Retiring?
  }

  predicate InBucket(at: Point) {
    at.AtHead? || at.Checking? || InHelp(at) || NeedsMine(at) || at.Walking?
  }

  predicate CheckedOp(op: Op, mine: Option<RecId>) {
    match op
    case Put(_) => false
    case View(_, _) => false
    case Replace(_) => mine.Some?
    case Remove => true
    case _ => mine.None?
  }

  /** What each point of an operation has in its local variables. */
  predicate LocalOk(s: State, l: Local) {
    && (l.head.Some? ==> l.head.value < |s.recs|)
    && (l.mine.Some? ==> l.mine.value < |s.recs| && !l.op.View? && !l.op.Get?)
    && (l.ticket != 0 <==> l.at.HelpSwapping? || l.at.Swapping?)
    && (InBucket(l.at) || (l.at.Reserving? && !l.op.View?) ==> l.bucket < |s.log|)
    && (l.at.Idle? ==> l == Resting)
    && (BeforeHead(l.at) ==> l.head.None? && l.mine.None?)
    && (NeedsHead(l.at) ==> l.head.Some?)
    && (NeedsMine(l.at) ==> l.mine.Some?)
    && (l.at.Checking? ==> CheckedOp(l.op, l.mine))
    && (InHelp(l.at) && l.mine.None? ==> l.op.View? || l.op.Get?)
    && (l.op.View? && InBucket(l.at) ==> l.bucket == |l.op.out|)
    && (l.at.Linearizing? || l.at.Walking? ==> l.op.View?)
    && (l.at.Returning? ==> l.mine.None?)
  }

  predicate Shape(s: State) {
    forall t :: t in s.threads ==>
      && LocalOk(s, s.threads[t].loc)
      && (forall i :: 0 <= i < |s.threads[t].retired| ==> s.threads[t].retired[i] < |s.recs|)
      && ScanOk(s, s.threads[t])
  }

  /** mmm_empty() runs at the end of an operation or between operations. */
  predicate ScanOk(s: State, th: Thread) {
    th.scan.Some? ==> th.scan.value.todo <= s.threads.Keys && (th.loc.at.Returning? || th.loc.at.Idle?)
  }

  predicate CanScan(th: Thread) {
    th.scan.None? && th.retired != [] && (th.loc.at.Returning? || th.loc.at.Idle?)
  }

  /** A thread runs mmm_empty() to its end before it goes on. */
  predicate Enabled(s: State, t: Tid, a: Action) {
    match a
    case Register => t !in s.threads
    case Start(op, b) =>
      && t in s.threads && s.threads[t].scan.None? && s.threads[t].loc.at.Idle?
      && (op.View? ==> op == View(0, []))
      && (!op.View? ==> b < |s.log|)
    case Proceed => t in s.threads && s.threads[t].scan.None? && !s.threads[t].loc.at.Idle?
    case BeginScan => t in s.threads && CanScan(s.threads[t])
    case ReadSlot(u) => t in s.threads && s.threads[t].scan.Some? && u in s.threads[t].scan.value.todo
    case FinishScan => t in s.threads && s.threads[t].scan.Some? && s.threads[t].scan.value.todo == {}
  }

  /** The one step that a thread inside an operation can take. */
  function Advance(s: State, t: Tid): State
    requires Shape(s) && t in s.threads && !s.threads[t].loc.at.Idle?
  {
    match s.threads[t].loc.at
    case Reserving => StoreSlot(s, t)
    case Linearizing => LoadLin(s, t)
    case AtHead => ReadHead(s, t)
    case Checking => Check(s, t)
    case Helping => HelpRead(s, t)
    case HelpBumping => HelpBump(s, t)
    case HelpSwapping => HelpSwap(s, t)
    case Installing => Install(s, t)
    case Bumping => CommitBump(s, t)
    case Swapping => CommitSwap(s, t)
    case Retiring => Retire(s, t)
    case Walking => Walk(s, t)
    case Returning => EndOp(s, t)
  }

  function Apply(s: State, t: Tid, a: Action): State
    requires Shape(s) && Enabled(s, t, a)
  {
    match a
    case Register => WithThread(s, t, Thread(Resting, None, [], None, {}))
    case Start(op, b) => StartOp(s, t, op, b)
    case Proceed => Advance(s, t)
    case BeginScan => ScanStart(s, t)
    case ReadSlot(u) => ScanRead(s, t, u)
    case FinishScan => ScanFree(s, t)
  }
}
