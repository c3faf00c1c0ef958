/** The TRY / EXCEPT / FINALLY / TRY_END macros of include/core/exception.h and the functions of
    src/core/exceptions.nc behind them, as a machine: a heap of exception frames with a free
    list, the C call stack of TRY activations, one jump buffer for each activation that is armed
    anew for each phase, and longjmp(). */
module Exceptions {
  import opened Options

  type Exn = nat
  type Tag = nat

  /** Code that uses the macros. Code of called functions stands in the place of the call. */
  datatype Stmt =
    | Skip
    | Emit(n: nat)
    | Seq(first: Stmt, second: Stmt)
    | Raise(exn: Exn)          // n00b_exception_raise()
    | RaiseCurrent             // n00b_exception_raise() of N00B_X_CUR()
    | JumpToFinally
    | JumpToTryEnd
    | Try(tag: Tag, body: Stmt, handler: Stmt, fin: Option<Stmt>)

  /** The block a statement stands in, and whether that TRY has a FINALLY. */
  datatype Block = Outside | Body(hasFin: bool) | Handler(hasFin: bool) | Final

  /** What compiles and does not raise a null exception. A TRY without EXCEPT does not compile,
      one without FINALLY does. */
  predicate Allowed(s: Stmt, b: Block) {
    match s
    case Seq(x, y) => Allowed(x, b) && Allowed(y, b)
    case RaiseCurrent => b.Handler?
    case JumpToFinally => (b.Body? || b.Handler?) && b.hasFin
    case JumpToTryEnd => !b.Outside?
    case Try(_, body, handler, fin) =>
      && Allowed(body, Body(fin.Some?)) && Allowed(handler, Handler(fin.Some?))
      && (fin.Some? ==> Allowed(fin.value, Final))
    case _ => true
  }

  /** Something observable: output, the start of a TRY, the start of its FINALLY block. */
  datatype Event = Out(n: nat) | Entered(tag: Tag) | Finalized(tag: Tag)

  // ----- the machine -----

  /** n00b_exception_frame_t. A jump buffer is named by the activation it belongs to. */
  datatype Frame = Frame(buf: Option<nat>, exn: Option<Exn>, next: Option<nat>)

  datatype Phase = InBody | InHandler | InFinally

  /** The locals that N00B_TRY declares, the rest of the blocks, and what follows N00B_TRY_END.
      `armed` is where the last setjmp() on the activation's buffer was; `pending` is
      _n00bx_exception_state == N00B_EXCEPTION_IN_HANDLER. */
  datatype Act = Act(
    id: nat, frame: nat, armed: Phase, pending: bool, cur: Option<Exn>,
    tag: Tag, handler: Stmt, fin: Option<Stmt>, rest: seq<Stmt>)

  /** Where the innermost activation is: in a block with statements left, at the FINALLY label,
      at the TRY_END label, or returning from setjmp() for the second time. */
  datatype Place = Code(todo: seq<Stmt>) | AtFinally | AtTryEnd | Landing

  /** How a run has stopped. `NullTop` is the report about an uncaught exception that reads the
      frame on top of an empty exception stack; `Broken` is every other use of a null or wild
      pointer. */
  datatype Halt = Running | Finished | Uncaught(exn: Exn) | NullTop(exn: Exn) | Broken

  /** `links` maps an exception to its `previous` field, when that is not NULL. */
  datatype Machine = Machine(
    halt: Halt, place: Place, acts: seq<Act>,
    frames: seq<Frame>, top: Option<nat>, free: Option<nat>, nextAct: nat,
    links: map<Exn, Exn>, trace: seq<Event>)

  function Load(s: Stmt): Machine {
    Machine(Running, Code([s]), [], [], None, None, 0, map[], [])
  }

  function Innermost(m: Machine): Act
    requires m.acts != []
  {
    m.acts[|m.acts| - 1]
  }

  function WithInnermost(m: Machine, a: Act): Machine
    requires m.acts != []
  {
    m.(acts := m.acts[..|m.acts| - 1] + [a])
  }

  /** A dereference of a null or wild frame pointer breaks the machine. */
  predicate Points(m: Machine, f: Option<nat>) {
    f.Some? && f.value < |m.frames|
  }

  /** e->previous = p */
  function Link(links: map<Exn, Exn>, e: Exn, p: Option<Exn>): map<Exn, Exn> {
    if p.Some? then links[e := p.value] else links - {e}
  }

  /** N00B_TRY up to its setjmp(), with n00b_exception_push_frame(). */
  function PushTry(m: Machine, s: Stmt, rest: seq<Stmt>): Machine
    requires s.Try?
  {
    if m.free.Some? && !Points(m, m.free) then m.(halt := Broken)
    else
      var f := if m.free.Some? then m.free.value else |m.frames|;
      var frames := if m.free.Some? then m.frames else m.frames + [Frame(None, None, None)];
      m.(free := if m.free.Some? then m.frames[f].next else None,
         frames := frames[f := frames[f].(buf := Some(m.nextAct), next := m.top)],
         top := Some(f),
         nextAct := m.nextAct + 1,
         acts := m.acts + [Act(m.nextAct, f, InBody, false, None, s.tag, s.handler, s.fin, rest)],
         place := Code([s.body]),
         trace := m.trace + [Entered(s.tag)])
  }

  /** n00b_exception_free_frame() */
  function FreeFrame(m: Machine, f: nat): Machine
    requires f < |m.frames|
  {
    m.(top := if m.top == Some(f) then None else m.top,
       frames := m.frames[f := Frame(None, None, m.free)],
       free := Some(f))
  }

  /** The activations up to the one that owns the buffer; None when it is gone. */
  function UnwindTo(acts: seq<Act>, buf: nat): Option<seq<Act>> {
    if acts == [] then None
    else if acts[|acts| - 1].id == buf then Some(acts)
    else UnwindTo(acts[..|acts| - 1], buf)
  }

  /** longjmp(*(stack->top->buf), 1) */
  function LongJump(m: Machine): Machine {
    if !Points(m, m.top) || m.frames[m.top.value].buf.None? then m.(halt := Broken)
    else
      match UnwindTo(m.acts, m.frames[m.top.value].buf.value)
      case None => m.(halt := Broken)
      case Some(acts) => m.(acts := acts, place := Landing)
  }

  /** n00b_exception_raise() */
  function RaiseExn(m: Machine, e: Exn): Machine {
    if m.top.None? then m.(halt := Uncaught(e))
    else if !Points(m, m.top) then m.(halt := Broken)
    else LongJump(m.(frames := m.frames[m.top.value := m.frames[m.top.value].(exn := Some(e))]))
  }

  /** n00b_exception_uncaught(): the report starts from the exception of the frame on top. */
  function ReportUncaught(m: Machine, e: Exn): Machine {
    if m.top.None? then m.(halt := NullTop(e))
    else if !Points(m, m.top) || m.frames[m.top.value].exn.None? then m.(halt := Broken)
    else m.(halt := Uncaught(e))
  }

  function Exec(m: Machine, s: Stmt, rest: seq<Stmt>): Machine {
    match s
    case Skip => m.(place := Code(rest))
    case Emit(n) => m.(place := Code(rest), trace := m.trace + [Out(n)])
    case Seq(x, y) => m.(place := Code([x, y] + rest))
    case Raise(e) => RaiseExn(m, e)
    case RaiseCurrent =>
      if m.acts == [] || Innermost(m).cur.None? then m.(halt := Broken) else RaiseExn(m, Innermost(m).cur.value)
    case JumpToFinally => m.(place := AtFinally)
    case JumpToTryEnd => m.(place := AtTryEnd)
    case Try(_, _, _, _) => PushTry(m, s, rest)
  }

  /** Control reaches the end of a block. */
  function EndBlock(m: Machine): Machine {
    if m.acts == [] then m.(halt := Finished)
    else m.(place := if Innermost(m).armed.InFinally? || Innermost(m).fin.None? then AtTryEnd else AtFinally)
  }

  /** The FINALLY label: setjmp() again, then the block. */
  function EnterFinally(m: Machine): Machine {
    if m.acts == [] || Innermost(m).fin.None? then m.(halt := Broken)
    else
      var a := Innermost(m);
      WithInnermost(m, a.(armed := InFinally)).(place := Code([a.fin.value]), trace := m.trace + [Finalized(a.tag)])
  }

  /** setjmp() returns 1: EXCEPT in the first phase, the `else` branches of FINALLY and TRY_END
      in the others. */
  function Land(m: Machine): Machine {
    if m.acts == [] || !Points(m, m.top) then m.(halt := Broken)
    else
      var a, arrived := Innermost(m), m.frames[m.top.value].exn;
      if a.armed.InBody? then
        WithInnermost(m, a.(armed := InHandler, cur := arrived)).(place := Code([a.handler]))
      else if !Points(m, Some(a.frame)) || m.frames[a.frame].exn.None? then m.(halt := Broken)
      else
        WithInnermost(m, a.(pending := true, cur := arrived))
        .(links := Link(m.links, m.frames[a.frame].exn.value, a.cur),
          place := if a.armed.InHandler? && a.fin.Some? then AtFinally else AtTryEnd)
  }

  /** N00B_TRY_END */
  function EndTry(m: Machine): Machine {
    if m.acts == [] || !Points(m, Some(Innermost(m).frame)) then m.(halt := Broken)
    else
      var a := Innermost(m);
      var next := m.frames[a.frame].next;
      var freed := FreeFrame(m.(top := next), a.frame);
      if !a.pending then
        freed.(acts := m.acts[..|m.acts| - 1], place := Code(a.rest))
      else if a.cur.None? then m.(halt := Broken)
      else if next.None? then ReportUncaught(m.(top := next), a.cur.value)
      else if !Points(freed, freed.top) then m.(halt := Broken)
      else
        LongJump(freed.(frames := freed.frames[freed.top.value := freed.frames[freed.top.value].(exn := a.cur)]))
  }

  function Step(m: Machine): Machine {
    if !m.halt.Running? then m
    else
      match m.place
      case Code(todo) => if todo == [] then EndBlock(m) else Exec(m, todo[0], todo[1..])
      case AtFinally => EnterFinally(m)
      case AtTryEnd => EndTry(m)
      case Landing => Land(m)
  }

  function Run(m: Machine, n: nat): Machine
    decreases n
  {
    if n == 0 then m else Run(Step(m), n - 1)
  }

  // ----- the meaning of the same code, without frames, buffers or jumps -----

  datatype Outcome = Normal | Raised(exn: Exn) | ToFinally | ToTryEnd

  datatype Result = Result(out: Outcome, links: map<Exn, Exn>, trace: seq<Event>)

  /** A block that ended in `r`: an exception that leaves it while `cur` is the current one gets
      that as its `previous`. */
  function Supersede(r: Result, cur: Option<Exn>): Result {
    if r.out.Raised? then r.(links := Link(r.links, r.out.exn, cur)) else r
  }

  /** The meaning of s where `cur` is N00B_X_CUR(). */
  function Eval(s: Stmt, cur: Option<Exn>, links: map<Exn, Exn>): Result
    decreases s, 3
  {
    match s
    case Skip => Result(Normal, links, [])
    case Emit(n) => Result(Normal, links, [Out(n)])
    case Seq(x, y) =>
      var r := Eval(x, cur, links);
      if r.out.Normal? then AndThen(r, Eval(y, cur, r.links)) else r
    case Raise(e) => Result(Raised(e), links, [])
    case RaiseCurrent => if cur.Some? then Result(Raised(cur.value), links, []) else Result(Normal, links, [])
    case JumpToFinally => Result(ToFinally, links, [])
    case JumpToTryEnd => Result(ToTryEnd, links, [])
    case Try(tag, _, _, _) =>
      var r := AllBlocks(s, links);
      Result(if r.out.Raised? then r.out else Normal, r.links, [Entered(tag)] + r.trace)
  }

  /** The TRY block and, after an exception, the EXCEPT block. */
  function Blocks(s: Stmt, links: map<Exn, Exn>): Result
    requires s.Try?
    decreases s, 0
  {
    var r := Eval(s.body, None, links);
    if r.out.Raised? then AndThen(r, Supersede(Eval(s.handler, Some(r.out.exn), r.links), Some(r.out.exn))) else r
  }

  /** The exception that is current when FINALLY starts: waiting, or handled by EXCEPT. */
  function CurInFinally(s: Stmt, links: map<Exn, Exn>): Option<Exn>
    requires s.Try?
    decreases s, 1
  {
    var r, b := Eval(s.body, None, links), Blocks(s, links);
    if b.out.Raised? then Some(b.out.exn) else if r.out.Raised? then Some(r.out.exn) else None
  }

  function AllBlocks(s: Stmt, links: map<Exn, Exn>): Result
    requires s.Try?
    decreases s, 2
  {
    var b, cur := Blocks(s, links), CurInFinally(s, links);
    if s.fin.None? || b.out.ToTryEnd? then b
    else AndFinally(b, s.tag, Supersede(Eval(s.fin.value, cur, b.links), cur))
  }

  /** The exception that escapes s has left a TRY on its way out. */
  predicate LeftTry(s: Stmt, cur: Option<Exn>, links: map<Exn, Exn>) {
    match s
    case Seq(x, y) =>
      var r := Eval(x, cur, links);
      if r.out.Normal? then LeftTry(y, cur, r.links) else LeftTry(x, cur, links)
    case Try(_, _, _, _) => Eval(s, cur, links).out.Raised?
    case _ => false
  }

  function AndThen(r: Result, next: Result): Result {
    next.(trace := r.trace + next.trace)
  }

  /** After FINALLY an exception that was on its way goes on, unless another has replaced it. */
  function AndFinally(r: Result, tag: Tag, f: Result): Result {
    Result(if r.out.Raised? && !f.out.Raised? then r.out else f.out, f.links, r.trace + [Finalized(tag)] + f.trace)
  }
}
