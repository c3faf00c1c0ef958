/** The macro machine refines the meaning: whatever the nesting, it ends with the same outcome, the
    same `previous` links and the same trace. It uses no null or wild pointer until an exception
    leaves the outermost TRY; there it reads the frame on top of the empty exception stack. */
module ExceptionRefinement {
  import opened Options
  import opened Exceptions

  // ----- the frames -----

  /** The frame of activation i has its buffer, and is chained to the frame of the one around it. */
  ghost predicate LiveAt(m: Machine, i: nat)
    requires i < |m.acts|
  {
    var a := m.acts[i];
    a.id < m.nextAct && a.frame < |m.frames| && m.frames[a.frame].buf == Some(a.id)
    && m.frames[a.frame].next == (if i == 0 then None else Some(m.acts[i - 1].frame))
  }

  ghost predicate Apart(a: Act, b: Act) {
    a.frame != b.frame && a.id != b.id
  }

  /** The live frames are those of the activations, from the innermost outwards. */
  ghost predicate Live(m: Machine) {
    && m.top == (if m.acts == [] then None else Some(m.acts[|m.acts| - 1].frame))
    && (forall i: nat :: i < |m.acts| ==> LiveAt(m, i))
    && (forall i: nat, j: nat :: i < j < |m.acts| ==> Apart(m.acts[i], m.acts[j]))
  }

  ghost predicate FreeAt(m: Machine, cells: seq<nat>, i: nat)
    requires i < |cells|
  {
    && cells[i] < |m.frames|
    && m.frames[cells[i]].next == (if i + 1 == |cells| then None else Some(cells[i + 1]))
    && (forall j: nat :: j < |m.acts| ==> m.acts[j].frame != cells[i])
  }

  /** The free list runs through `cells`, none of them live. */
  ghost predicate FreeList(m: Machine, cells: seq<nat>) {
    && m.free == (if cells == [] then None else Some(cells[0]))
    && (forall i: nat :: i < |cells| ==> FreeAt(m, cells, i))
    && (forall i: nat, j: nat :: i < j < |cells| ==> cells[i] != cells[j])
  }

  ghost predicate Sound(m: Machine) {
    m.halt.Running? && Live(m) && exists cells :: FreeList(m, cells)
  }

  // ----- running -----

  ghost predicate Reaches(m: Machine, m': Machine) {
    exists n: nat :: Run(m, n) == m'
  }

  lemma {:induction false} RunAdd(m: Machine, a: nat, b: nat)
    ensures Run(Run(m, a), b) == Run(m, a + b)
    decreases a
  {
    if a > 0 { RunAdd(Step(m), a - 1, b); }
  }

  lemma ReachesStep(m: Machine)
    ensures Reaches(m, Step(m))
  {
    assert Run(m, 1) == Step(m) by { assert Run(Step(m), 0) == Step(m); }
  }

  lemma ReachesTrans(m: Machine, m1: Machine, m2: Machine)
    requires Reaches(m, m1) && Reaches(m1, m2)
    ensures Reaches(m, m2)
  {
    var a: nat :| Run(m, a) == m1;
    var b: nat :| Run(m1, b) == m2;
    RunAdd(m, a, b);
  }

  // ----- what a block does -----

  function Current(m: Machine): Option<Exn> {
    if m.acts == [] then None else Innermost(m).cur
  }

  /** From m, with the statements `rest` still to come, the machine does what `r` says; `left` says
      whether the exception that escapes has left a TRY. */
  ghost predicate Does(m: Machine, rest: seq<Stmt>, r: Result, left: bool, m': Machine) {
    && Reaches(m, m') && m'.links == r.links && m'.trace == m.trace + r.trace
    && match r.out
       case Normal => Sound(m') && m'.acts == m.acts && m'.place == Code(rest)
       case ToFinally => Sound(m') && m'.acts == m.acts && m'.place == AtFinally
       case ToTryEnd => Sound(m') && m'.acts == m.acts && m'.place == AtTryEnd
       case Raised(e) => Arrived(m, e, left, m')
  }

  /** The exception is where the innermost TRY will look for it, or the process ends: in the
      handler for uncaught exceptions, or in the report at the end of the outermost TRY. */
  ghost predicate Arrived(m: Machine, e: Exn, left: bool, m': Machine) {
    if m.acts == [] then m'.halt == (if left then NullTop(e) else Uncaught(e))
    else
      && Sound(m') && m'.acts == m.acts && m'.place == Landing
      && Innermost(m).frame < |m'.frames| && m'.frames[Innermost(m).frame].exn == Some(e)
  }

  predicate BlockOf(m: Machine, b: Block) {
    match b
    case Outside => m.acts == []
    case Body(f) => m.acts != [] && Innermost(m).armed.InBody? && Innermost(m).fin.Some? == f
    case Handler(f) => m.acts != [] && Innermost(m).armed.InHandler? && Innermost(m).fin.Some? == f
      && Innermost(m).cur.Some?
    case Final => m.acts != [] && Innermost(m).armed.InFinally?
  }

  // ----- the primitive steps -----

  /** A live buffer is found. */
  lemma RaiseLands(m: Machine, e: Exn)
    requires Sound(m)
    ensures Arrived(m, e, false, RaiseExn(m, e))
    ensures RaiseExn(m, e).links == m.links && RaiseExn(m, e).trace == m.trace
  {
    if m.acts != [] {
      assert LiveAt(m, |m.acts| - 1);
      LocalsSound(m, RaiseExn(m, e));
    }
  }

  lemma PushSound(m: Machine, s: Stmt, rest: seq<Stmt>)
    requires Sound(m) && s.Try?
    ensures var m' := PushTry(m, s, rest);
            && Sound(m') && |m'.acts| == |m.acts| + 1 && m'.acts[..|m.acts|] == m.acts
            && m'.links == m.links && m'.trace == m.trace + [Entered(s.tag)] && m'.place == Code([s.body])
            && Innermost(m') == Act(m.nextAct, Innermost(m').frame, InBody, false, None, s.tag, s.handler, s.fin, rest)
  {
    var cells :| FreeList(m, cells);
    hide Live, FreeList;
    PushLive(m, s, rest, cells);
    PushFree(m, s, rest, cells);
  }

  lemma PushLive(m: Machine, s: Stmt, rest: seq<Stmt>, cells: seq<nat>)
    requires m.halt.Running? && Live(m) && FreeList(m, cells) && s.Try?
    ensures PushTry(m, s, rest).halt.Running? && Live(PushTry(m, s, rest))
  {
    var m' := PushTry(m, s, rest);
    assert cells != [] ==> FreeAt(m, cells, 0);
    forall i: nat | i < |m'.acts| ensures LiveAt(m', i) {
      if i < |m.acts| { assert LiveAt(m, i); }
    }
    forall i: nat, j: nat | i < j < |m'.acts| ensures Apart(m'.acts[i], m'.acts[j]) {
      assert LiveAt(m, i);
      if j < |m.acts| { assert Apart(m.acts[i], m.acts[j]); }
    }
  }

  lemma PushFree(m: Machine, s: Stmt, rest: seq<Stmt>, cells: seq<nat>)
    requires m.halt.Running? && Live(m) && FreeList(m, cells) && s.Try?
    ensures FreeList(PushTry(m, s, rest), if cells == [] then [] else cells[1..])
  {
    var m' := PushTry(m, s, rest);
    if cells != [] {
      assert FreeAt(m, cells, 0);
      var cells' := cells[1..];
      forall i: nat | i < |cells'| ensures FreeAt(m', cells', i) {
        assert FreeAt(m, cells, i + 1);
        assert cells[0] != cells[i + 1];
      }
      forall i: nat, j: nat | i < j < |cells'| ensures cells'[i] != cells'[j] {
        assert cells[i + 1] != cells[j + 1];
      }
    }
  }

  function Pop(m: Machine, place: Place): Machine
    requires m.acts != [] && Innermost(m).frame < |m.frames|
  {
    var f := Innermost(m).frame;
    FreeFrame(m.(top := m.frames[f].next), f).(acts := m.acts[..|m.acts| - 1], place := place)
  }

  /** Popping the innermost activation gives its frame back, and the one around it is on top. */
  lemma PopSound(m: Machine, place: Place)
    requires Sound(m) && m.acts != []
    ensures Innermost(m).frame < |m.frames| && Sound(Pop(m, place))
    ensures m.frames[Innermost(m).frame].next == Pop(m, place).top
  {
    var cells :| FreeList(m, cells);
    assert LiveAt(m, |m.acts| - 1);
    var m', f := Pop(m, place), Innermost(m).frame;
    forall i: nat | i < |m'.acts| ensures LiveAt(m', i) {
      assert LiveAt(m, i) && Apart(m.acts[i], m.acts[|m.acts| - 1]);
    }
    assert |m.acts| > 1 ==> Apart(m.acts[|m.acts| - 2], m.acts[|m.acts| - 1]);
    PopFree(m, place, cells);
  }

  lemma PopFree(m: Machine, place: Place, cells: seq<nat>)
    requires Live(m) && FreeList(m, cells) && m.acts != [] && Innermost(m).frame < |m.frames|
    ensures FreeList(Pop(m, place), [Innermost(m).frame] + cells)
  {
    var m', f := Pop(m, place), Innermost(m).frame;
    var cells' := [f] + cells;
    PopFirst(m, place, cells);
    forall i: nat | i < |cells| ensures FreeAt(m', cells', i + 1) && cells[i] != f {
      PopRest(m, place, cells, i);
    }
    hide FreeAt, Live, Pop;
    forall i: nat | i < |cells'| ensures FreeAt(m', cells', i) {
      if i > 0 { assert FreeAt(m', cells', (i - 1) + 1); }
    }
  }

  lemma PopFirst(m: Machine, place: Place, cells: seq<nat>)
    requires Live(m) && FreeList(m, cells) && m.acts != [] && Innermost(m).frame < |m.frames|
    ensures var m', f := Pop(m, place), Innermost(m).frame;
            FreeAt(m', [f] + cells, 0) && m'.free == Some(f)
  {
    var m', f := Pop(m, place), Innermost(m).frame;
    forall j: nat | j < |m'.acts| ensures m'.acts[j].frame != f { assert Apart(m.acts[j], m.acts[|m.acts| - 1]); }
  }

  lemma PopRest(m: Machine, place: Place, cells: seq<nat>, i: nat)
    requires FreeList(m, cells) && m.acts != [] && Innermost(m).frame < |m.frames| && i < |cells|
    ensures var m', f := Pop(m, place), Innermost(m).frame;
            FreeAt(m', [f] + cells, i + 1) && cells[i] != f
  {
    assert FreeAt(m, cells, i);
  }

  /** Writing an exception into a frame, or changing an activation's locals, disturbs nothing. */
  lemma LocalsSound(m: Machine, m': Machine)
    requires Sound(m) && m'.halt.Running? && |m'.acts| == |m.acts| && |m'.frames| == |m.frames|
    requires forall i: nat :: i < |m.acts| ==> m'.acts[i].id == m.acts[i].id && m'.acts[i].frame == m.acts[i].frame
    requires forall f: nat :: f < |m.frames| ==>
             m'.frames[f].buf == m.frames[f].buf && m'.frames[f].next == m.frames[f].next
    requires m'.top == m.top && m'.free == m.free && m'.nextAct == m.nextAct
    ensures Sound(m')
  {
    var cells :| FreeList(m, cells);
    forall i: nat | i < |m'.acts| ensures LiveAt(m', i) {
      assert LiveAt(m, i);
    }
    forall i: nat, j: nat | i < j < |m'.acts| ensures Apart(m'.acts[i], m'.acts[j]) {
      assert Apart(m.acts[i], m.acts[j]);
    }
    assert FreeList(m', cells) by {
      forall i: nat | i < |cells| ensures FreeAt(m', cells, i) { assert FreeAt(m, cells, i); }
    }
  }

  // ----- one TRY -----

  ghost predicate InTry(a: Act, s: Stmt, rest: seq<Stmt>, pending: bool, cur: Option<Exn>)
    requires s.Try?
  {
    a.pending == pending && a.cur == cur && a.tag == s.tag && a.handler == s.handler && a.fin == s.fin && a.rest == rest
  }

  function CurAfter(r: Result, cur: Option<Exn>): Option<Exn> {
    if r.out.Raised? then Some(r.out.exn) else cur
  }

  /** Inside the TRY s that m is about to start: its blocks so far have done what r says. */
  ghost predicate Joined(m: Machine, s: Stmt, rest: seq<Stmt>, r: Result, cur: Option<Exn>, place: Place, m': Machine)
    requires s.Try?
  {
    && Reaches(m, m') && Sound(m') && m'.links == r.links && m'.trace == m.trace + [Entered(s.tag)] + r.trace
    && |m'.acts| == |m.acts| + 1 && m'.acts[..|m.acts|] == m.acts && m'.place == place
    && InTry(Innermost(m'), s, rest, r.out.Raised?, CurAfter(r, cur))
  }

  /** Where a TRY goes after its TRY and EXCEPT blocks. */
  function After(s: Stmt, r: Result): Place
    requires s.Try?
  {
    if s.fin.None? || r.out.ToTryEnd? then AtTryEnd else AtFinally
  }

  /** A block of the TRY, started at m1 with `cur` current, has ended without an exception. */
  lemma BlockEnds(m1: Machine, r: Result, left: bool, m2: Machine) returns (m': Machine)
    requires m1.acts != [] && !Innermost(m1).armed.InFinally?
    requires Does(m1, [], r, left, m2) && !r.out.Raised? && (r.out.ToFinally? ==> Innermost(m1).fin.Some?)
    ensures Reaches(m1, m') && Sound(m') && m'.acts == m1.acts && m'.links == r.links && m'.trace == m1.trace + r.trace
    ensures m'.place == if Innermost(m1).fin.None? || r.out.ToTryEnd? then AtTryEnd else AtFinally
  {
    m' := m2;
    if r.out.Normal? {
      m' := Step(m2);
      ReachesStep(m2);
      ReachesTrans(m1, m2, m');
      LocalsSound(m2, m');
    }
  }

  /** An exception from the TRY block starts the EXCEPT block, with the exception current. */
  lemma Caught(m1: Machine, r: Result, left: bool, m2: Machine) returns (m': Machine)
    requires m1.acts != [] && Innermost(m1).armed.InBody? && Does(m1, [], r, left, m2) && r.out.Raised?
    ensures Reaches(m1, m') && Sound(m') && m'.links == r.links && m'.trace == m1.trace + r.trace
    ensures m'.acts == m1.acts[..|m1.acts| - 1] + [Innermost(m1).(armed := InHandler, cur := Some(r.out.exn))]
    ensures m'.place == Code([Innermost(m1).handler])
  {
    assert LiveAt(m2, |m2.acts| - 1);
    m' := Step(m2);
    ReachesStep(m2);
    ReachesTrans(m1, m2, m');
    LocalsSound(m2, m');
  }

  /** An exception from EXCEPT or FINALLY is linked to the current one, becomes current, and waits. */
  lemma Superseded(m1: Machine, r: Result, left: bool, m2: Machine) returns (m': Machine)
    requires m1.acts != [] && !Innermost(m1).armed.InBody? && Does(m1, [], r, left, m2) && r.out.Raised?
    ensures Reaches(m1, m') && Sound(m') && m'.trace == m1.trace + r.trace
    ensures m'.links == Link(r.links, r.out.exn, Innermost(m1).cur)
    ensures m'.acts == m1.acts[..|m1.acts| - 1] + [Innermost(m1).(pending := true, cur := Some(r.out.exn))]
    ensures m'.place == if Innermost(m1).armed.InHandler? && Innermost(m1).fin.Some? then AtFinally else AtTryEnd
  {
    assert LiveAt(m2, |m2.acts| - 1);
    m' := Step(m2);
    ReachesStep(m2);
    ReachesTrans(m1, m2, m');
    LocalsSound(m2, m');
  }

  /** TRY_END: the frame goes back, and a waiting exception goes to the TRY around. */
  lemma TryEnds(m: Machine, s: Stmt, rest: seq<Stmt>, r: Result, cur: Option<Exn>, m1: Machine) returns (m': Machine)
    requires s.Try? && Joined(m, s, rest, r, cur, AtTryEnd, m1)
    ensures Does(m, rest,
                 Result(if r.out.Raised? then r.out else Normal, r.links, [Entered(s.tag)] + r.trace), true, m')
  {
    m' := Step(m1);
    ReachesStep(m1);
    ReachesTrans(m, m1, m');
    PopSound(m1, Code(rest));
    PopSound(m1, Landing);
    assert m1.acts[..|m1.acts| - 1] == m.acts;
    assert m1.trace == m.trace + ([Entered(s.tag)] + r.trace);
    if r.out.Raised? && m.acts != [] {
      EscapeLands(m1);
      LocalsSound(Pop(m1, Landing), m');
    }
  }

  lemma EscapeLands(m: Machine)
    requires Sound(m) && |m.acts| > 1 && Innermost(m).pending && Innermost(m).cur.Some?
    ensures var m', f, g := EndTry(m), Innermost(m).frame, m.acts[|m.acts| - 2].frame;
            && f < |m.frames| && g < |m.frames|
            && var p := Pop(m, Landing);
            m' == p.(frames := p.frames[g := p.frames[g].(exn := Innermost(m).cur)])
  {
    var k := |m.acts| - 1;
    assert LiveAt(m, k) && LiveAt(m, k - 1) && Apart(m.acts[k - 1], m.acts[k]);
    assert UnwindTo(m.acts[..k], m.acts[k - 1].id) == Some(m.acts[..k]);
    assert UnwindTo(m.acts, m.acts[k - 1].id) == Some(m.acts[..k]);
  }

  // ----- the refinement -----

  /** The machine, started on s inside any stack of TRYs, does what s means and leaves the stack as
      it was. */
  lemma {:induction false} Refines(m: Machine, s: Stmt, b: Block, rest: seq<Stmt>) returns (m': Machine)
    requires Sound(m) && m.place == Code([s] + rest) && Allowed(s, b) && BlockOf(m, b)
    ensures Does(m, rest, Eval(s, Current(m), m.links), LeftTry(s, Current(m), m.links), m')
    decreases s, 3
  {
    ReachesStep(m);
    assert ([s] + rest)[0] == s && ([s] + rest)[1..] == rest;
    match s
    case Seq(x, y) => m' := RefinesSeq(m, x, y, b, rest);
    case Try(_, _, _, _) => m' := RefinesTry(m, s, rest);
    case Raise(e) => m' := Step(m); RaiseLands(m, e);
    case RaiseCurrent => m' := Step(m); RaiseLands(m, Innermost(m).cur.value);
    case _ => m' := Step(m); LocalsSound(m, m');
  }

  lemma {:induction false} RefinesSeq(m: Machine, x: Stmt, y: Stmt, b: Block, rest: seq<Stmt>) returns (m': Machine)
    requires Sound(m) && m.place == Code([Seq(x, y)] + rest) && Allowed(Seq(x, y), b) && BlockOf(m, b)
    ensures Does(m, rest, Eval(Seq(x, y), Current(m), m.links), LeftTry(Seq(x, y), Current(m), m.links), m')
    decreases Seq(x, y), 2
  {
    hide Sound, Reaches;
    var m1 := Step(m);
    SeqOpens(m, x, y, rest);
    hide Step;
    m' := Refines(m1, x, b, [y] + rest);
    ReachesTrans(m, m1, m');
    var r := Eval(x, Current(m), m.links);
    if r.out.Normal? {
      var m2 := m';
      m' := Refines(m2, y, b, rest);
      SeqJoins(m, m2, rest, r, Eval(y, Current(m), r.links), LeftTry(y, Current(m), r.links), m');
    }
  }

  lemma SeqJoins(m: Machine, m2: Machine, rest: seq<Stmt>, r: Result, r2: Result, left: bool, m': Machine)
    requires Reaches(m, m2) && m2.acts == m.acts && m2.trace == m.trace + r.trace && Does(m2, rest, r2, left, m')
    ensures Does(m, rest, AndThen(r, r2), left, m')
  {
    hide Sound, Reaches;
    ReachesTrans(m, m2, m');
  }

  lemma SeqOpens(m: Machine, x: Stmt, y: Stmt, rest: seq<Stmt>)
    requires Sound(m) && m.place == Code([Seq(x, y)] + rest)
    ensures Sound(Step(m)) && Reaches(m, Step(m)) && Step(m) == m.(place := Code([x] + ([y] + rest)))
  {
    hide Sound, Reaches;
    assert ([Seq(x, y)] + rest)[0] == Seq(x, y) && ([Seq(x, y)] + rest)[1..] == rest;
    assert [x, y] + rest == [x] + ([y] + rest);
    Running(m);
    LocalsSound(m, Step(m));
    ReachesStep(m);
  }

  lemma Running(m: Machine)
    requires Sound(m)
    ensures m.halt.Running?
  {
  }

  lemma {:induction false} RefinesTry(m: Machine, s: Stmt, rest: seq<Stmt>) returns (m': Machine)
    requires s.Try? && Sound(m) && m.place == Code([s] + rest)
    requires Allowed(s.body, Body(s.fin.Some?)) && Allowed(s.handler, Handler(s.fin.Some?))
    requires s.fin.Some? ==> Allowed(s.fin.value, Final)
    ensures Does(m, rest, Eval(s, Current(m), m.links), true, m')
    decreases s, 2
  {
    hide Does, Joined;
    m' := RefinesBlocks(m, s, rest);
    var r := Blocks(s, m.links);
    var cur := CurInFinally(s, m.links);
    if s.fin.Some? && !r.out.ToTryEnd? {
      m' := RefinesFinally(m, s, rest, r, cur, m');
    }
    m' := TryEnds(m, s, rest, AllBlocks(s, m.links), cur, m');
  }

  lemma {:induction false} RefinesBlocks(m: Machine, s: Stmt, rest: seq<Stmt>) returns (m': Machine)
    requires s.Try? && Sound(m) && m.place == Code([s] + rest)
    requires Allowed(s.body, Body(s.fin.Some?)) && Allowed(s.handler, Handler(s.fin.Some?))
    ensures Joined(m, s, rest, Blocks(s, m.links), CurInFinally(s, m.links), After(s, Blocks(s, m.links)), m')
    decreases s, 1
  {
    hide Sound, Reaches, Does, Allowed;
    var m1 := StartsTry(m, s, rest);
    var r1 := Eval(s.body, None, m.links);
    assert [s.body] == [s.body] + [];
    var m2 := Refines(m1, s.body, Body(s.fin.Some?), []);
    BodyOutcomes(s.body, Body(s.fin.Some?), None, m.links);
    if !r1.out.Raised? {
      m' := BlockEnds(m1, r1, LeftTry(s.body, None, m.links), m2);
      ReachesTrans(m, m1, m');
    } else {
      var m3 := Caught(m1, r1, LeftTry(s.body, None, m.links), m2);
      ReachesTrans(m, m1, m3);
      m' := RefinesHandler(m3, s, r1.out.exn);
      ReachesTrans(m, m3, m');
    }
  }

  lemma StartsTry(m: Machine, s: Stmt, rest: seq<Stmt>) returns (m1: Machine)
    requires s.Try? && Sound(m) && m.place == Code([s] + rest)
    ensures Reaches(m, m1) && Sound(m1) && |m1.acts| == |m.acts| + 1 && m1.acts[..|m.acts|] == m.acts
    ensures m1.links == m.links && m1.trace == m.trace + [Entered(s.tag)] && m1.place == Code([s.body])
    ensures Innermost(m1).armed.InBody? && InTry(Innermost(m1), s, rest, false, None)
  {
    m1 := Step(m);
    assert ([s] + rest)[0] == s && ([s] + rest)[1..] == rest;
    Running(m);
    PushSound(m, s, rest);
    ReachesStep(m);
  }

  lemma {:induction false} RefinesHandler(m: Machine, s: Stmt, e: Exn) returns (m': Machine)
    requires s.Try? && Sound(m) && m.place == Code([s.handler]) && Allowed(s.handler, Handler(s.fin.Some?))
    requires m.acts != [] && Innermost(m).armed.InHandler? && Innermost(m).cur == Some(e) && Innermost(m).fin == s.fin
    requires !Innermost(m).pending
    ensures var r := Supersede(Eval(s.handler, Some(e), m.links), Some(e));
            && Reaches(m, m') && Sound(m') && m'.links == r.links && m'.trace == m.trace + r.trace
            && m'.acts == m.acts[..|m.acts| - 1]
                          + [Innermost(m).(pending := r.out.Raised?, cur := CurAfter(r, Some(e)))]
            && m'.place == After(s, r)
    decreases s, 0
  {
    hide Sound, Reaches;
    var r := Eval(s.handler, Some(e), m.links);
    assert [s.handler] == [s.handler] + [];
    var m1 := Refines(m, s.handler, Handler(s.fin.Some?), []);
    BodyOutcomes(s.handler, Handler(s.fin.Some?), Some(e), m.links);
    if r.out.Raised? {
      m' := Superseded(m, r, LeftTry(s.handler, Some(e), m.links), m1);
    } else {
      m' := BlockEnds(m, r, LeftTry(s.handler, Some(e), m.links), m1);
    }
  }

  /** Only a block of a TRY that has FINALLY jumps there, and only a block of a TRY to its end. */
  lemma {:induction false} BodyOutcomes(s: Stmt, b: Block, cur: Option<Exn>, links: map<Exn, Exn>)
    requires Allowed(s, b)
    ensures Eval(s, cur, links).out.ToFinally? ==> (b.Body? || b.Handler?) && b.hasFin
    ensures Eval(s, cur, links).out.ToTryEnd? ==> !b.Outside?
  {
    if s.Seq? {
      BodyOutcomes(s.first, b, cur, links);
      BodyOutcomes(s.second, b, cur, Eval(s.first, cur, links).links);
    }
  }

  lemma {:induction false} RefinesFinally(m: Machine, s: Stmt, rest: seq<Stmt>, r: Result, cur: Option<Exn>,
          m1: Machine)
    returns (m': Machine)
    requires s.Try? && s.fin.Some? && Allowed(s.fin.value, Final) && Joined(m, s, rest, r, cur, AtFinally, m1)
    ensures var cur' := CurAfter(r, cur);
            Joined(m, s, rest, AndFinally(r, s.tag, Supersede(Eval(s.fin.value, cur', r.links), cur')),
                   cur', AtTryEnd, m')
    decreases s, 1
  {
    hide Sound, Reaches, Allowed;
    var cur' := CurAfter(r, cur);
    var m2 := EnterFinally(m1);
    FinallyOpens(m, m1);
    assert [s.fin.value] == [s.fin.value] + [];
    var m3 := Refines(m2, s.fin.value, Final, []);
    BodyOutcomes(s.fin.value, Final, cur', r.links);
    var f := Eval(s.fin.value, cur', r.links);
    if f.out.Raised? {
      m' := Superseded(m2, f, LeftTry(s.fin.value, cur', r.links), m3);
    } else {
      m' := FinalEnds(m2, f, LeftTry(s.fin.value, cur', r.links), m3);
    }
    ReachesTrans(m, m2, m');
    assert m.trace + [Entered(s.tag)] + r.trace + [Finalized(s.tag)] + f.trace
        == m.trace + [Entered(s.tag)] + (r.trace + [Finalized(s.tag)] + f.trace);
  }

  lemma FinallyOpens(m: Machine, m1: Machine)
    requires Reaches(m, m1) && Sound(m1) && m1.place == AtFinally && m1.acts != [] && Innermost(m1).fin.Some?
    ensures Sound(EnterFinally(m1)) && Reaches(m, EnterFinally(m1))
  {
    hide Sound, Reaches;
    Running(m1);
    LocalsSound(m1, EnterFinally(m1));
    ReachesStep(m1);
    ReachesTrans(m, m1, EnterFinally(m1));
  }

  lemma FinalEnds(m1: Machine, r: Result, left: bool, m2: Machine) returns (m': Machine)
    requires m1.acts != [] && Innermost(m1).armed.InFinally?
    requires Does(m1, [], r, left, m2) && !r.out.Raised? && !r.out.ToFinally?
    ensures Reaches(m1, m') && Sound(m') && m'.acts == m1.acts && m'.links == r.links && m'.trace == m1.trace + r.trace
    ensures m'.place == AtTryEnd
  {
    m' := m2;
    if r.out.Normal? {
      m' := Step(m2);
      ReachesStep(m2);
      ReachesTrans(m1, m2, m');
      LocalsSound(m2, m');
    }
  }

  /** Between two sound states with the same activations the exception stack is the same: its
      top, and the buffer and the next of every frame on it. */
  lemma StackRestored(m: Machine, m': Machine)
    requires Sound(m) && Sound(m') && m'.acts == m.acts
    ensures m'.top == m.top
    ensures forall i: nat :: i < |m.acts| ==>
              var f := m.acts[i].frame;
              f < |m.frames| && f < |m'.frames|
              && m'.frames[f].buf == m.frames[f].buf && m'.frames[f].next == m.frames[f].next
  {
    forall i: nat | i < |m.acts|
      ensures m.acts[i].frame < |m.frames| && m.acts[i].frame < |m'.frames|
      ensures m'.frames[m.acts[i].frame].buf == m.frames[m.acts[i].frame].buf
      ensures m'.frames[m.acts[i].frame].next == m.frames[m.acts[i].frame].next
    {
      assert LiveAt(m, i) && LiveAt(m', i);
    }
  }

  /** A halted machine stays as it is. */
  lemma {:induction false} HaltedStays(m: Machine, n: nat)
    requires !m.halt.Running?
    ensures Run(m, n) == m
  {
    if n > 0 { HaltedStays(m, n - 1); }
  }

  /** A machine that halts has one end. */
  lemma OneEnd(m: Machine, n: nat, k: nat)
    requires !Run(m, n).halt.Running?
    ensures Run(m, k).halt.Running? || Run(m, k) == Run(m, n)
  {
    if n <= k {
      RunAdd(m, n, k - n);
      HaltedStays(Run(m, n), k - n);
    } else if !Run(m, k).halt.Running? {
      RunAdd(m, k, n - k);
      HaltedStays(Run(m, k), n - k);
    }
  }

  /** A whole program: the machine stops, and stops as the program's meaning says; at any number
      of steps it is still running or at that one end. A normal end leaves an empty exception
      stack. An exception that is raised outside every TRY reaches the handler for uncaught
      exceptions. One that leaves a TRY ends in the report that reads the frame on top, when there
      is none: the only null or wild pointer that a program uses. */
  lemma ProgramRefines(s: Stmt) returns (n: nat)
    requires Allowed(s, Outside)
    ensures var r, m := Eval(s, None, map[]), Run(Load(s), n);
            && m.links == r.links && m.trace == r.trace
            && (match r.out
                case Raised(e) => m.halt == if LeftTry(s, None, map[]) then NullTop(e) else Uncaught(e)
                case _ => m.halt == Finished && m.acts == [] && m.top == None)
    ensures forall k: nat :: Run(Load(s), k).halt.Running? || Run(Load(s), k) == Run(Load(s), n)
  {
    var m0 := Load(s);
    assert FreeList(m0, []);
    assert [s] + [] == [s];
    var m1 := Refines(m0, s, Outside, []);
    BodyOutcomes(s, Outside, None, map[]);
    var m2 := m1;
    if Eval(s, None, map[]).out.Normal? {
      m2 := Step(m1);
      ReachesStep(m1);
      ReachesTrans(m0, m1, m2);
    }
    n :| Run(m0, n) == m2;
    forall k: nat ensures Run(m0, k).halt.Running? || Run(m0, k) == Run(m0, n) { OneEnd(m0, n, k); }
  }

  lemma {:induction false} LeftTryRaised(s: Stmt, cur: Option<Exn>, links: map<Exn, Exn>)
    ensures LeftTry(s, cur, links) ==> Eval(s, cur, links).out.Raised?
  {
    if s.Seq? {
      LeftTryRaised(s.first, cur, links);
      LeftTryRaised(s.second, cur, Eval(s.first, cur, links).links);
    }
  }

  /** A program's run comes to read the frame on top of an empty exception stack if and only if an
      exception escapes that has left a TRY. It comes to no other null or wild pointer. */
  lemma NullTopIff(s: Stmt)
    requires Allowed(s, Outside)
    ensures (exists k: nat :: Run(Load(s), k).halt.NullTop?) <==> LeftTry(s, None, map[])
    ensures forall k: nat :: !Run(Load(s), k).halt.Broken?
  {
    var n := ProgramRefines(s);
    LeftTryRaised(s, None, map[]);
    forall k: nat ensures Run(Load(s), k).halt.Running? || Run(Load(s), k) == Run(Load(s), n) {
    }
  }

  /** A TRY whose EXCEPT raises a new exception, with no TRY around it. */
  lemma NullTopReached(t: Tag, e1: Exn, e2: Exn) returns (s: Stmt, n: nat)
    ensures Allowed(s, Outside) && Run(Load(s), n).halt == NullTop(e2)
  {
    s := Try(t, Raise(e1), Raise(e2), None);
    n := ProgramRefines(s);
    EscapesHandler(t, e1, e2);
  }

  lemma EscapesHandler(t: Tag, e1: Exn, e2: Exn)
    ensures Eval(Try(t, Raise(e1), Raise(e2), None), None, map[]).out == Raised(e2)
  {
    var s := Try(t, Raise(e1), Raise(e2), None);
    assert Eval(s.body, None, map[]).out == Raised(e1);
    assert Blocks(s, map[]).out == Raised(e2);
    assert AllBlocks(s, map[]) == Blocks(s, map[]);
  }
}
