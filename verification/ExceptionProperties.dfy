/** What the documentation promises about TRY, EXCEPT and FINALLY, over the meaning that the
    macro machine refines. */
module ExceptionProperties {
  import opened Options
  import opened Exceptions
  import opened ExceptionRefinement

  // ----- FINALLY runs exactly once -----

  /** Reads a trace as brackets: the start of a TRY opens one, the start of its FINALLY closes it.
      None when a FINALLY starts that does not belong to the innermost open TRY. */
  function Brackets(t: seq<Event>, open: seq<Tag>): Option<seq<Tag>> {
    if t == [] then Some(open)
    else
      match t[0]
      case Out(_) => Brackets(t[1..], open)
      case Entered(tag) => Brackets(t[1..], [tag] + open)
      case Finalized(tag) => if open != [] && open[0] == tag then Brackets(t[1..], open[1..]) else None
  }

  /** Every TRY has a FINALLY, and JUMP_TO_TRY_END is used in FINALLY blocks only, as the header
      asks. */
  predicate Disciplined(s: Stmt, inFinally: bool) {
    match s
    case Seq(x, y) => Disciplined(x, inFinally) && Disciplined(y, inFinally)
    case JumpToTryEnd => inFinally
    case Try(_, body, handler, fin) =>
      Disciplined(body, false) && Disciplined(handler, false) && fin.Some? && Disciplined(fin.value, true)
    case _ => true
  }

  lemma {:induction false} BracketsSplit(t: seq<Event>, u: seq<Event>, open: seq<Tag>)
    ensures Brackets(t + u, open) ==
            (match Brackets(t, open) case None => None case Some(o) => Brackets(u, o))
  {
    if t == [] {
      assert t + u == u;
    } else {
      assert (t + u)[1..] == t[1..] + u;
      match t[0]
      case Out(_) => BracketsSplit(t[1..], u, open);
      case Entered(tag) => BracketsSplit(t[1..], u, [tag] + open);
      case Finalized(tag) => if open != [] { BracketsSplit(t[1..], u, open[1..]); }
    }
  }

  /** The TRY is left by JUMP_TO_TRY_END, from its TRY or its EXCEPT block. */
  predicate EndsEarly(s: Stmt, links: map<Exn, Exn>)
    requires s.Try?
  {
    var r := Eval(s.body, None, links);
    r.out.ToTryEnd? || (r.out.Raised? && Eval(s.handler, Some(r.out.exn), r.links).out.ToTryEnd?)
  }

  /** No TRY on the executed path is left early or is without a FINALLY. */
  predicate Finishes(s: Stmt, cur: Option<Exn>, links: map<Exn, Exn>)
    decreases s
  {
    match s
    case Seq(x, y) =>
      var r := Eval(x, cur, links);
      Finishes(x, cur, links) && (r.out.Normal? ==> Finishes(y, cur, r.links))
    case Try(_, body, handler, fin) =>
      var r := Eval(body, None, links);
      && fin.Some? && !EndsEarly(s, links)
      && Finishes(body, None, links)
      && (r.out.Raised? ==> Finishes(handler, Some(r.out.exn), r.links))
      && Finishes(fin.value, CurInFinally(s, links), Blocks(s, links).links)
    case _ => true
  }

  // ----- a run that finishes has balanced brackets -----

  lemma TryAsBrackets(tag: Tag, b: seq<Event>, f: seq<Event>, open: seq<Tag>)
    requires Brackets(b, [tag] + open) == Some([tag] + open) && Brackets(f, open) == Some(open)
    ensures Brackets([Entered(tag)] + (b + [Finalized(tag)] + f), open) == Some(open)
  {
    var close := [Finalized(tag)] + f;
    assert ([Entered(tag)] + (b + [Finalized(tag)] + f))[1..] == b + close;
    BracketsSplit(b, close, [tag] + open);
    assert close[1..] == f && ([tag] + open)[1..] == open;
  }

  lemma {:induction false} FinishedBrackets(s: Stmt, cur: Option<Exn>, links: map<Exn, Exn>, open: seq<Tag>)
    requires Finishes(s, cur, links)
    ensures Brackets(Eval(s, cur, links).trace, open) == Some(open)
    decreases s, 1
  {
    match s
    case Emit(n) =>
      assert [Out(n)][1..] == [];
    case Seq(x, y) =>
      var r := Eval(x, cur, links);
      FinishedBrackets(x, cur, links, open);
      if r.out.Normal? {
        FinishedBrackets(y, cur, r.links, open);
        BracketsSplit(r.trace, Eval(y, cur, r.links).trace, open);
      }
    case Try(_, _, _, _) =>
      FinishedTry(s, cur, links, open);
    case _ =>
  }

  lemma {:induction false} FinishedBlocks(s: Stmt, links: map<Exn, Exn>, open: seq<Tag>)
    requires s.Try? && Finishes(s.body, None, links)
    requires var r := Eval(s.body, None, links); r.out.Raised? ==> Finishes(s.handler, Some(r.out.exn), r.links)
    ensures Brackets(Blocks(s, links).trace, open) == Some(open)
    decreases s, -1
  {
    var r := Eval(s.body, None, links);
    FinishedBrackets(s.body, None, links, open);
    if r.out.Raised? {
      var e := Some(r.out.exn);
      FinishedBrackets(s.handler, e, r.links, open);
      BracketsSplit(r.trace, Eval(s.handler, e, r.links).trace, open);
    }
  }

  lemma {:induction false} FinishedTry(s: Stmt, cur: Option<Exn>, links: map<Exn, Exn>, open: seq<Tag>)
    requires s.Try? && Finishes(s, cur, links)
    ensures Brackets(Eval(s, cur, links).trace, open) == Some(open)
    decreases s, 0
  {
    var b, c := Blocks(s, links), CurInFinally(s, links);
    BlocksEnd(s, links);
    hide Blocks, CurInFinally;
    FinishedBlocks(s, links, [s.tag] + open);
    FinishedBrackets(s.fin.value, c, b.links, open);
    TryTrace(s, cur, links);
    TryAsBrackets(s.tag, b.trace, Eval(s.fin.value, c, b.links).trace, open);
  }

  lemma BlocksEnd(s: Stmt, links: map<Exn, Exn>)
    requires s.Try?
    ensures Blocks(s, links).out.ToTryEnd? <==> EndsEarly(s, links)
  {
  }

  /** The trace of a TRY: its start, its blocks and, unless it is left early, its FINALLY. */
  lemma TryTrace(s: Stmt, cur: Option<Exn>, links: map<Exn, Exn>)
    requires s.Try?
    ensures var b := Blocks(s, links);
            Eval(s, cur, links).trace ==
            [Entered(s.tag)] +
            if s.fin.None? || b.out.ToTryEnd? then b.trace
            else b.trace + [Finalized(s.tag)] + Eval(s.fin.value, CurInFinally(s, links), b.links).trace
  {
    hide Blocks, CurInFinally;
  }

  // ----- a run that does not finish opens more brackets than it closes -----

  /** How many more TRYs than FINALLYs a trace starts. */
  function Excess(t: seq<Event>): int {
    if t == [] then 0 else (if t[0].Entered? then 1 else if t[0].Finalized? then -1 else 0) + Excess(t[1..])
  }

  lemma {:induction false} ExcessSplit(t: seq<Event>, u: seq<Event>)
    ensures Excess(t + u) == Excess(t) + Excess(u)
  {
    if t == [] {
      assert t + u == u;
    } else {
      assert (t + u)[1..] == t[1..] + u;
      ExcessSplit(t[1..], u);
    }
  }

  lemma {:induction false} BracketsExcess(t: seq<Event>, open: seq<Tag>)
    requires Brackets(t, open).Some?
    ensures |Brackets(t, open).value| == |open| + Excess(t)
  {
    if t != [] {
      match t[0]
      case Out(_) => BracketsExcess(t[1..], open);
      case Entered(tag) => BracketsExcess(t[1..], [tag] + open);
      case Finalized(tag) => BracketsExcess(t[1..], open[1..]);
    }
  }

  lemma {:induction false} ExcessIff(s: Stmt, cur: Option<Exn>, links: map<Exn, Exn>)
    ensures Excess(Eval(s, cur, links).trace) >= 0
    ensures Excess(Eval(s, cur, links).trace) == 0 <==> Finishes(s, cur, links)
    decreases s, 1
  {
    match s
    case Emit(n) =>
      assert [Out(n)][1..] == [];
    case Seq(x, y) =>
      var r := Eval(x, cur, links);
      ExcessIff(x, cur, links);
      if r.out.Normal? {
        ExcessIff(y, cur, r.links);
        ExcessSplit(r.trace, Eval(y, cur, r.links).trace);
      }
    case Try(_, _, _, _) =>
      ExcessTry(s, cur, links);
    case _ =>
  }

  lemma {:induction false} ExcessBlocks(s: Stmt, links: map<Exn, Exn>)
    requires s.Try?
    ensures Excess(Blocks(s, links).trace) >= 0
    ensures Excess(Blocks(s, links).trace) == 0 <==>
              && Finishes(s.body, None, links)
              && var r := Eval(s.body, None, links); r.out.Raised? ==> Finishes(s.handler, Some(r.out.exn), r.links)
    decreases s, -1
  {
    var r := Eval(s.body, None, links);
    ExcessIff(s.body, None, links);
    if r.out.Raised? {
      ExcessIff(s.handler, Some(r.out.exn), r.links);
      ExcessSplit(r.trace, Eval(s.handler, Some(r.out.exn), r.links).trace);
    }
  }

  lemma {:induction false} ExcessTry(s: Stmt, cur: Option<Exn>, links: map<Exn, Exn>)
    requires s.Try?
    ensures Excess(Eval(s, cur, links).trace) >= 0
    ensures Excess(Eval(s, cur, links).trace) == 0 <==> Finishes(s, cur, links)
    decreases s, 0
  {
    var b, c := Blocks(s, links), CurInFinally(s, links);
    BlocksEnd(s, links);
    ExcessBlocks(s, links);
    TryTrace(s, cur, links);
    hide Blocks, CurInFinally;
    OneEvent(Entered(s.tag));
    OneEvent(Finalized(s.tag));
    if s.fin.None? || b.out.ToTryEnd? {
      ExcessSplit([Entered(s.tag)], b.trace);
    } else {
      var f := Eval(s.fin.value, c, b.links).trace;
      ExcessIff(s.fin.value, c, b.links);
      ExcessSplit([Entered(s.tag)], b.trace + [Finalized(s.tag)] + f);
      ExcessSplit(b.trace + [Finalized(s.tag)], f);
      ExcessSplit(b.trace, [Finalized(s.tag)]);
    }
  }

  lemma OneEvent(e: Event)
    ensures Excess([e]) == if e.Entered? then 1 else if e.Finalized? then -1 else 0
  {
    assert [e][1..] == [];
  }

  // ----- the theorems -----

  /** For any code: every TRY that starts has its FINALLY started exactly once, after everything
      inside its blocks and inner ones first, if and only if no TRY on the executed path is left by
      JUMP_TO_TRY_END or is without a FINALLY. */
  lemma FinallyOnceIff(s: Stmt, cur: Option<Exn>, links: map<Exn, Exn>, open: seq<Tag>)
    ensures Brackets(Eval(s, cur, links).trace, open) == Some(open) <==> Finishes(s, cur, links)
  {
    if Finishes(s, cur, links) {
      FinishedBrackets(s, cur, links, open);
    } else if Brackets(Eval(s, cur, links).trace, open) == Some(open) {
      BracketsExcess(Eval(s, cur, links).trace, open);
      ExcessIff(s, cur, links);
    }
  }

  lemma {:induction false} NoEarlyEnd(s: Stmt, cur: Option<Exn>, links: map<Exn, Exn>)
    requires Disciplined(s, false)
    ensures !Eval(s, cur, links).out.ToTryEnd?
  {
    if s.Seq? {
      NoEarlyEnd(s.first, cur, links);
      NoEarlyEnd(s.second, cur, Eval(s.first, cur, links).links);
    }
  }

  /** Code that follows the header's rules always finishes, whatever it raises and catches. */
  lemma {:induction false} DisciplinedFinishes(s: Stmt, f: bool, cur: Option<Exn>, links: map<Exn, Exn>)
    requires Disciplined(s, f)
    ensures Finishes(s, cur, links)
  {
    match s
    case Seq(x, y) =>
      DisciplinedFinishes(x, f, cur, links);
      DisciplinedFinishes(y, f, cur, Eval(x, cur, links).links);
    case Try(_, body, handler, fin) =>
      var r := Eval(body, None, links);
      DisciplinedFinishes(body, false, None, links);
      NoEarlyEnd(body, None, links);
      if r.out.Raised? {
        DisciplinedFinishes(handler, false, Some(r.out.exn), r.links);
        NoEarlyEnd(handler, Some(r.out.exn), r.links);
      }
      DisciplinedFinishes(fin.value, true, CurInFinally(s, links), Blocks(s, links).links);
    case _ =>
  }

  /** So in such code every TRY that starts has its FINALLY started exactly once. */
  lemma FinallyExactlyOnce(s: Stmt, f: bool, cur: Option<Exn>, links: map<Exn, Exn>, open: seq<Tag>)
    requires Disciplined(s, f)
    ensures Brackets(Eval(s, cur, links).trace, open) == Some(open)
  {
    DisciplinedFinishes(s, f, cur, links);
    FinallyOnceIff(s, cur, links, open);
  }

  /** For the machine: when a program has stopped, even by an uncaught exception, the FINALLY of
      every TRY that started has started exactly once if and only if no TRY on its path was left
      early or has no FINALLY; in a disciplined program that is always so. */
  lemma MachineFinally(s: Stmt) returns (n: nat)
    requires Allowed(s, Outside)
    ensures var m := Run(Load(s), n);
            !m.halt.Running? && !m.halt.Broken? && (Brackets(m.trace, []) == Some([]) <==> Finishes(s, None, map[]))
    ensures Disciplined(s, false) ==> Brackets(Run(Load(s), n).trace, []) == Some([])
  {
    n := ProgramRefines(s);
    FinallyOnceIff(s, None, map[], []);
    if Disciplined(s, false) { FinallyExactlyOnce(s, false, None, map[], []); }
  }

  // ----- previous -----

  /** The exceptions that s can raise. */
  function Ids(s: Stmt): set<Exn> {
    match s
    case Seq(x, y) => Ids(x) + Ids(y)
    case Raise(e) => {e}
    case Try(_, body, handler, fin) => Ids(body) + Ids(handler) + (if fin.Some? then Ids(fin.value) else {})
    case _ => {}
  }

  /** Every raise is of a new exception. */
  predicate Fresh(s: Stmt) {
    match s
    case Seq(x, y) => Fresh(x) && Fresh(y) && Ids(x) !! Ids(y)
    case RaiseCurrent => false
    case Try(_, body, handler, fin) =>
      && Fresh(body) && Fresh(handler) && Ids(body) !! Ids(handler)
      && (fin.Some? ==> Fresh(fin.value) && (Ids(body) + Ids(handler)) !! Ids(fin.value))
    case _ => true
  }

  function Ends(s: Stmt): Outcome {
    Eval(s, None, map[]).out
  }

  /** How fresh code ends does not depend on what went before it. */
  lemma {:induction false} EndsSame(s: Stmt, cur: Option<Exn>, links: map<Exn, Exn>)
    requires Fresh(s)
    ensures Eval(s, cur, links).out == Ends(s)
    ensures Ends(s).Raised? ==> Ends(s).exn in Ids(s)
    decreases s, 1
  {
    match s
    case Seq(x, y) =>
      EndsSame(x, cur, links);
      EndsSame(y, cur, Eval(x, cur, links).links);
      EndsSame(y, None, Eval(x, None, map[]).links);
    case Try(_, _, _, _) =>
      TryEndsSame(s, links);
      TryEndsSame(s, map[]);
    case _ =>
  }

  /** How a TRY ends, from how its blocks end. */
  function TryEnding(s: Stmt): Outcome
    requires s.Try?
  {
    var b := if Ends(s.body).Raised? then Ends(s.handler) else Ends(s.body);
    if s.fin.Some? && !b.ToTryEnd? && Ends(s.fin.value).Raised? then Ends(s.fin.value)
    else if b.Raised? then b
    else Normal
  }

  lemma {:induction false} TryEndsSame(s: Stmt, links: map<Exn, Exn>)
    requires s.Try? && Fresh(s)
    ensures (if AllBlocks(s, links).out.Raised? then AllBlocks(s, links).out else Normal) == TryEnding(s)
    ensures Blocks(s, links).out == if Ends(s.body).Raised? then Ends(s.handler) else Ends(s.body)
    ensures TryEnding(s).Raised? ==> TryEnding(s).exn in Ids(s)
    ensures CurInFinally(s, links) ==
            (if Waiting(s).Some? then Waiting(s) else if Ends(s.body).Raised? then Some(Ends(s.body).exn) else None)
    decreases s, 0
  {
    hide Ends;
    EndsSame(s.body, None, links);
    var r := Eval(s.body, None, links);
    EndsSame(s.handler, if r.out.Raised? then Some(r.out.exn) else None, r.links);
    if s.fin.Some? { EndsSame(s.fin.value, CurInFinally(s, links), Blocks(s, links).links); }
  }

  /** The exceptions that the one leaving s has replaced on its way, newest first: one raised in
      EXCEPT replaces the one being handled, one raised in FINALLY the one that was waiting. */
  function Replaced(s: Stmt): seq<Exn>
    decreases s, 1
  {
    match s
    case Seq(x, y) => if Ends(x).Normal? then Replaced(y) else Replaced(x)
    case Try(_, _, _, fin) =>
      if FinallyRaises(s) then
        Replaced(fin.value) + (if Waiting(s).Some? then [Waiting(s).value] + ReplacedBefore(s) else [])
      else ReplacedBefore(s)
    case _ => []
  }

  function ReplacedBefore(s: Stmt): seq<Exn>
    requires s.Try?
    decreases s, 0
  {
    if Waiting(s).Some? then Replaced(s.handler) + [Ends(s.body).exn] + Replaced(s.body) else []
  }

  /** FINALLY starts, and an exception leaves it. */
  predicate FinallyRaises(s: Stmt)
    requires s.Try?
  {
    s.fin.Some? && !LeftEarly(s) && Ends(s.fin.value).Raised?
  }

  /** The TRY is left by JUMP_TO_TRY_END before its FINALLY. */
  predicate LeftEarly(s: Stmt)
    requires s.Try?
  {
    Ends(s.body).ToTryEnd? || (Ends(s.body).Raised? && Ends(s.handler).ToTryEnd?)
  }

  /** The exception that waits for FINALLY to end. */
  function Waiting(s: Stmt): Option<Exn>
    requires s.Try?
  {
    if Ends(s.body).Raised? && Ends(s.handler).Raised? then Some(Ends(s.handler).exn) else None
  }

  /** Following `previous` from e gives exactly `list`. */
  predicate IsChain(links: map<Exn, Exn>, e: Exn, list: seq<Exn>)
    decreases list
  {
    if list == [] then e !in links
    else e in links && links[e] == list[0] && IsChain(links, list[0], list[1..])
  }

  /** Nothing on the way had a `previous` to lose, and no FINALLY raised after its EXCEPT had
      handled an exception. */
  predicate NothingLost(s: Stmt)
    decreases s, 1
  {
    match s
    case Seq(x, y) => if Ends(x).Normal? then NothingLost(y) else NothingLost(x)
    case Try(_, body, _, fin) =>
      if FinallyRaises(s) then
        Replaced(fin.value) == [] && (if Waiting(s).Some? then NothingLostBefore(s) else !Ends(body).Raised?)
      else
        Waiting(s).Some? ==> NothingLostBefore(s)
    case _ => true
  }

  predicate NothingLostBefore(s: Stmt)
    requires s.Try?
    decreases s, 0
  {
    Replaced(s.handler) == [] && NothingLost(s.body)
  }

  ghost predicate SameAt(links: map<Exn, Exn>, links': map<Exn, Exn>, k: Exn) {
    (k in links <==> k in links') && (k in links ==> links[k] == links'[k])
  }

  /** Code changes the `previous` of no exception but its own. */
  lemma {:induction false} LinksOutside(s: Stmt, cur: Option<Exn>, links: map<Exn, Exn>, k: Exn)
    requires Fresh(s) && k !in Ids(s)
    ensures SameAt(links, Eval(s, cur, links).links, k)
    decreases s, 1
  {
    match s
    case Seq(x, y) =>
      LinksOutside(x, cur, links, k);
      LinksOutside(y, cur, Eval(x, cur, links).links, k);
    case Try(_, _, _, fin) =>
      BlocksOutside(s, links, k);
      if fin.Some? {
        var b, c := Blocks(s, links), CurInFinally(s, links);
        LinksOutside(fin.value, c, b.links, k);
        EndsSame(fin.value, c, b.links);
      }
    case _ =>
  }

  lemma {:induction false} BlocksOutside(s: Stmt, links: map<Exn, Exn>, k: Exn)
    requires s.Try? && Fresh(s.body) && Fresh(s.handler) && k !in Ids(s.body) + Ids(s.handler)
    ensures SameAt(links, Blocks(s, links).links, k)
    decreases s, 0
  {
    var r := Eval(s.body, None, links);
    LinksOutside(s.body, None, links, k);
    if r.out.Raised? {
      LinksOutside(s.handler, Some(r.out.exn), r.links, k);
      EndsSame(s.handler, Some(r.out.exn), r.links);
    }
  }

  lemma {:induction false} ReplacedInside(s: Stmt, k: Exn)
    requires Fresh(s) && k in Replaced(s)
    ensures k in Ids(s)
    decreases s
  {
    hide Ends;
    match s
    case Seq(x, y) =>
      if Ends(x).Normal? { ReplacedInside(y, k); } else { ReplacedInside(x, k); }
    case Try(_, body, handler, fin) =>
      EndsSame(body, None, map[]);
      EndsSame(handler, None, map[]);
      assert k in Replaced(s) ==>
          || k in Replaced(body) || k in Replaced(handler) || (fin.Some? && k in Replaced(fin.value))
          || (Ends(body).Raised? && k == Ends(body).exn) || (Ends(handler).Raised? && k == Ends(handler).exn)
      by { assert k in ReplacedBefore(s) ==> Waiting(s).Some?; }
      if k in Replaced(body) { ReplacedInside(body, k); }
      if k in Replaced(handler) { ReplacedInside(handler, k); }
      if fin.Some? && k in Replaced(fin.value) { ReplacedInside(fin.value, k); }
    case _ =>
  }

  lemma {:induction false} ChainSame(links: map<Exn, Exn>, links': map<Exn, Exn>, e: Exn, list: seq<Exn>)
    requires forall k :: k == e || k in list ==> SameAt(links, links', k)
    ensures IsChain(links, e, list) == IsChain(links', e, list)
    decreases list
  {
    assert SameAt(links, links', e);
    if list != [] {
      assert list[0] in list;
      ChainSame(links, links', list[0], list[1..]);
    }
  }

  /** After the code in which it ended, a chain is not touched again. */
  lemma ChainKept(x: Stmt, y: Stmt, cur: Option<Exn>, links: map<Exn, Exn>)
    requires Fresh(x) && Fresh(y) && Ids(x) !! Ids(y) && Ends(x).Raised?
    ensures IsChain(Eval(y, cur, links).links, Ends(x).exn, Replaced(x)) == IsChain(links, Ends(x).exn, Replaced(x))
  {
    hide Ends;
    var e := Ends(x).exn;
    EndsSame(x, None, map[]);
    forall k | k == e || k in Replaced(x) ensures SameAt(links, Eval(y, cur, links).links, k) {
      if k in Replaced(x) { ReplacedInside(x, k); }
      LinksOutside(y, cur, links, k);
    }
    ChainSame(links, Eval(y, cur, links).links, e, Replaced(x));
  }

  /** Linking e' to e puts e' in front of e's chain; it makes the chain of all that e' has
      replaced exactly when e' had replaced nothing before. */
  lemma LinkOver(links: map<Exn, Exn>, e': Exn, e: Exn, front: seq<Exn>, list: seq<Exn>)
    requires e' != e && e' !in list && e !in front
    ensures IsChain(Link(links, e', Some(e)), e', front + ([e] + list)) <==> front == [] && IsChain(links, e, list)
  {
    var whole := front + ([e] + list);
    if front == [] {
      assert whole[1..] == list;
      ChainSame(links, Link(links, e', Some(e)), e, list);
    } else {
      assert whole[0] == front[0];
    }
  }

  /** The exception that leaves fresh code has, along `previous`, exactly what it has replaced, in
      order, if and only if nothing was lost: no exception arrived in an EXCEPT or FINALLY block
      with a `previous` of its own, and none was raised in FINALLY after EXCEPT had handled one. */
  lemma {:induction false} PreviousInOrderIff(s: Stmt, cur: Option<Exn>, links: map<Exn, Exn>)
    requires Fresh(s) && Ends(s).Raised? && forall k :: k in Ids(s) ==> k !in links
    ensures IsChain(Eval(s, cur, links).links, Ends(s).exn, Replaced(s)) <==> NothingLost(s)
    decreases s, 1
  {
    EndsSame(s, cur, links);
    match s
    case Seq(x, y) =>
      PreviousSeq(x, y, cur, links);
    case Try(_, _, _, fin) =>
      TryEndsSame(s, links);
      TryEndsSame(s, map[]);
      if Waiting(s).Some? { PreviousBefore(s, links); }
      if FinallyRaises(s) { PreviousFinally(s, links); } else { PreviousThrough(s, links); }
    case _ =>
  }

  lemma {:induction false} PreviousSeq(x: Stmt, y: Stmt, cur: Option<Exn>, links: map<Exn, Exn>)
    requires Fresh(Seq(x, y)) && Ends(Seq(x, y)).Raised? && forall k :: k in Ids(Seq(x, y)) ==> k !in links
    ensures IsChain(Eval(Seq(x, y), cur, links).links, Ends(Seq(x, y)).exn, Replaced(Seq(x, y))) <==>
            NothingLost(Seq(x, y))
    decreases Seq(x, y), 0
  {
    EndsSame(x, cur, links);
    EndsSame(x, None, map[]);
    var r := Eval(x, cur, links);
    if Ends(x).Normal? {
      EndsSame(y, None, Eval(x, None, map[]).links);
      EndsSame(y, cur, r.links);
      forall k | k in Ids(y) ensures k !in r.links { LinksOutside(x, cur, links, k); }
      PreviousInOrderIff(y, cur, r.links);
    } else {
      PreviousInOrderIff(x, cur, links);
    }
  }

  /** The exception that waits for FINALLY. */
  lemma {:induction false} PreviousBefore(s: Stmt, links: map<Exn, Exn>)
    requires s.Try? && Fresh(s) && Waiting(s).Some? && forall k :: k in Ids(s) ==> k !in links
    ensures IsChain(Blocks(s, links).links, Waiting(s).value, ReplacedBefore(s)) <==> NothingLostBefore(s)
    ensures Waiting(s).value in Ids(s.handler) && forall k :: k in ReplacedBefore(s) ==>
            k in Ids(s.body) + Ids(s.handler)
    decreases s, 0
  {
    hide Ends;
    var r, e := Eval(s.body, None, links), Ends(s.body).exn;
    EndsSame(s.body, None, links);
    EndsSame(s.handler, Some(e), r.links);
    PreviousInOrderIff(s.body, None, links);
    ChainKept(s.body, s.handler, Some(e), r.links);
    forall k ensures k in Replaced(s.body) ==> k in Ids(s.body)
             ensures k in Replaced(s.handler) ==> k in Ids(s.handler)
    {
      if k in Replaced(s.body) { ReplacedInside(s.body, k); }
      if k in Replaced(s.handler) { ReplacedInside(s.handler, k); }
    }
    LinkOver(Eval(s.handler, Some(e), r.links).links, Waiting(s).value, e, Replaced(s.handler), Replaced(s.body));
    assert ReplacedBefore(s) == Replaced(s.handler) + ([e] + Replaced(s.body));
  }

  /** FINALLY raises. */
  lemma PreviousFinally(s: Stmt, links: map<Exn, Exn>)
    requires s.Try? && Fresh(s) && FinallyRaises(s) && forall k :: k in Ids(s) ==> k !in links
    requires Waiting(s).Some? ==>
               && (IsChain(Blocks(s, links).links, Waiting(s).value, ReplacedBefore(s)) <==> NothingLostBefore(s))
               && Waiting(s).value in Ids(s.handler) && forall k :: k in ReplacedBefore(s) ==>
                  k in Ids(s.body) + Ids(s.handler)
    ensures IsChain(AllBlocks(s, links).links, Ends(s.fin.value).exn, Replaced(s)) <==> NothingLost(s)
  {
    hide Ends, Blocks, CurInFinally, NothingLostBefore, ReplacedBefore;
    var fin, b, c := s.fin.value, Blocks(s, links), CurInFinally(s, links);
    TryEndsSame(s, links);
    EndsSame(s.body, None, map[]);
    EndsSame(fin, c, b.links);
    var e, f := Ends(fin).exn, Eval(fin, c, b.links).links;
    assert AllBlocks(s, links).links == Link(f, e, c);
    forall k ensures k in Replaced(fin) ==> k in Ids(fin) {
      if k in Replaced(fin) { ReplacedInside(fin, k); }
    }
    if Waiting(s).Some? {
      WaitingKept(s, c, b.links);
      LinkOver(f, e, c.value, Replaced(fin), ReplacedBefore(s));
      assert Replaced(s) == Replaced(fin) + ([c.value] + ReplacedBefore(s));
    } else {
      assert Replaced(s) == Replaced(fin);
      if Replaced(fin) != [] { assert Replaced(fin)[0] in Replaced(fin); }
    }
  }

  /** The waiting exception's chain is not touched by FINALLY. */
  lemma WaitingKept(s: Stmt, cur: Option<Exn>, links: map<Exn, Exn>)
    requires s.Try? && Fresh(s) && s.fin.Some? && Waiting(s).Some?
    requires Waiting(s).value in Ids(s.handler) && forall k :: k in ReplacedBefore(s) ==>
             k in Ids(s.body) + Ids(s.handler)
    ensures IsChain(Eval(s.fin.value, cur, links).links, Waiting(s).value, ReplacedBefore(s))
            == IsChain(links, Waiting(s).value, ReplacedBefore(s))
  {
    hide Ends, ReplacedBefore;
    forall k | k == Waiting(s).value || k in ReplacedBefore(s)
      ensures SameAt(links, Eval(s.fin.value, cur, links).links, k)
    {
      LinksOutside(s.fin.value, cur, links, k);
    }
    ChainSame(links, Eval(s.fin.value, cur, links).links, Waiting(s).value, ReplacedBefore(s));
  }

  /** FINALLY, if there is one, lets the waiting exception go on. */
  lemma PreviousThrough(s: Stmt, links: map<Exn, Exn>)
    requires s.Try? && Fresh(s) && !FinallyRaises(s) && Waiting(s).Some?
    requires IsChain(Blocks(s, links).links, Waiting(s).value, ReplacedBefore(s)) <==> NothingLostBefore(s)
    requires Waiting(s).value in Ids(s.handler) && forall k :: k in ReplacedBefore(s) ==>
             k in Ids(s.body) + Ids(s.handler)
    ensures IsChain(AllBlocks(s, links).links, Waiting(s).value, Replaced(s)) <==> NothingLost(s)
  {
    hide Ends, Blocks, CurInFinally, NothingLostBefore, ReplacedBefore;
    TryEndsSame(s, links);
    if s.fin.Some? {
      var b, c := Blocks(s, links), CurInFinally(s, links);
      EndsSame(s.fin.value, c, b.links);
      WaitingKept(s, c, b.links);
    }
  }

  /** An exception that leaves the EXCEPT block of an inner TRY and arrives in the EXCEPT block of
      an outer one: what it was linked to inside is gone. */
  lemma LinkLost(t: Tag, u: Tag, e1: Exn, e2: Exn, e3: Exn) returns (s: Stmt)
    requires e1 != e2 && e2 != e3 && e1 != e3
    ensures Allowed(s, Outside) && Fresh(s) && Ends(s) == Raised(e3)
    ensures Replaced(s) == [e2, e1] && Eval(s, None, map[]).links == map[e3 := e1]
    ensures !NothingLost(s)
  {
    var inner := Try(u, Raise(e2), Raise(e3), None);
    s := Try(t, Raise(e1), inner, None);
    var l: map<Exn, Exn> := map[];
    RaiseAlone(e1);
    RaiseAlone(e2);
    RaiseAlone(e3);
    assert Blocks(inner, l) == Result(Raised(e3), map[e3 := e2], []);
    assert Eval(inner, Some(e1), l) == Result(Raised(e3), map[e3 := e2], [Entered(u)]);
    assert Ends(inner) == Raised(e3);
    assert Waiting(inner) == Some(e3) && Replaced(inner) == [e2];
    assert Blocks(s, l) == Result(Raised(e3), map[e3 := e1], [Entered(u)]);
    assert AllBlocks(s, l) == Blocks(s, l);
    assert Eval(s, None, l).out == Raised(e3);
    assert Waiting(s) == Some(e3);
    assert Replaced(s) == ReplacedBefore(s) == [e2] + [e1] + [];
  }

  lemma RaiseAlone(e: Exn)
    ensures Ends(Raise(e)) == Raised(e) && Replaced(Raise(e)) == []
    ensures forall cur, links :: Eval(Raise(e), cur, links) == Result(Raised(e), links, [])
  {
  }

  /** An exception raised in FINALLY points to the one that EXCEPT has already handled. */
  lemma HandledLinked(t: Tag, e1: Exn, e2: Exn) returns (s: Stmt)
    requires e1 != e2
    ensures Allowed(s, Outside) && Disciplined(s, false) && Fresh(s) && Ends(s) == Raised(e2)
    ensures Replaced(s) == [] && Eval(s, None, map[]).links == map[e2 := e1] && !NothingLost(s)
  {
    s := Try(t, Raise(e1), Skip, Some(Raise(e2)));
    var l: map<Exn, Exn> := map[];
    RaiseAlone(e1);
    RaiseAlone(e2);
    assert Ends(Skip) == Normal && Eval(Skip, Some(e1), l) == Result(Normal, l, []);
    assert Blocks(s, l) == Result(Normal, l, []);
    assert CurInFinally(s, l) == Some(e1);
    assert AllBlocks(s, l) == Result(Raised(e2), map[e2 := e1], [Finalized(t)]);
    assert FinallyRaises(s) && Waiting(s) == None;
  }

  /** Raising the exception at hand again: EXCEPT that ends in the current exception makes it its
      own `previous`, and a walk along `previous` from it never ends. */
  lemma RaisedAgain(s: Stmt, e: Exn, links: map<Exn, Exn>)
    requires s.Try? && Eval(s.body, None, links).out == Raised(e)
    requires Eval(s.handler, Some(e), Eval(s.body, None, links).links).out == Raised(e)
    ensures Blocks(s, links).out == Raised(e) && e in Blocks(s, links).links && Blocks(s, links).links[e] == e
    ensures forall list :: !IsChain(Blocks(s, links).links, e, list)
  {
    forall list ensures !IsChain(Blocks(s, links).links, e, list) { SelfLinked(Blocks(s, links).links, e, list); }
  }

  lemma {:induction false} SelfLinked(links: map<Exn, Exn>, e: Exn, list: seq<Exn>)
    requires e in links && links[e] == e
    ensures !IsChain(links, e, list)
    decreases list
  {
    if list != [] && list[0] == e { SelfLinked(links, e, list[1..]); }
  }
}
