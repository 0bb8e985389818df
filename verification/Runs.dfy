/** Runs of a state machine, given by what a move does in a world; None where the move is not possible. */
module Runs {
  import opened Services

  function Run<W, M>(step: (W, M) -> Option<W>, w: W, moves: seq<M>): Option<W>
    decreases moves
  {
    if moves == [] then Some(w)
    else match step(w, moves[0])
      case None => None
      case Some(w') => Run(step, w', moves[1..])
  }

  ghost predicate Leads<W, M(!new)>(step: (W, M) -> Option<W>, w: W, w': W) {
    exists moves: seq<M> :: Run(step, w, moves) == Some(w')
  }

  /** Every move keeps the property. */
  ghost predicate Keeps<W(!new), M(!new)>(step: (W, M) -> Option<W>, property: W -> bool) {
    forall w, m :: property(w) && step(w, m).Some? ==> property(step(w, m).value)
  }

  /** Everything `step` can do, `wider` can do too. */
  ghost predicate Within<W(!new), M(!new)>(step: (W, M) -> Option<W>, wider: (W, M) -> Option<W>) {
    forall w, m :: step(w, m).Some? ==> wider(w, m) == step(w, m)
  }

  lemma {:induction false} KeptInRun<W(!new), M(!new)>(
    step: (W, M) -> Option<W>, property: W -> bool, w: W, moves: seq<M>)
    requires Keeps(step, property) && property(w) && Run(step, w, moves).Some?
    ensures property(Run(step, w, moves).value)
    decreases moves
  {
    if moves != [] { KeptInRun(step, property, step(w, moves[0]).value, moves[1..]); }
  }

  /** What every move keeps holds of every world that is reached. */
  lemma Kept<W(!new), M(!new)>(step: (W, M) -> Option<W>, property: W -> bool, w: W, w': W)
    requires Keeps(step, property) && property(w) && Leads(step, w, w')
    ensures property(w')
  {
    var moves: seq<M> :| Run(step, w, moves) == Some(w');
    KeptInRun(step, property, w, moves);
  }

  lemma {:induction false} RunAppend<W, M>(step: (W, M) -> Option<W>, w: W, moves: seq<M>, more: seq<M>)
    requires Run(step, w, moves).Some?
    ensures Run(step, w, moves + more) == Run(step, Run(step, w, moves).value, more)
    decreases moves
  {
    if moves == [] {
      assert moves + more == more;
    } else {
      assert (moves + more)[1..] == moves[1..] + more;
      RunAppend(step, step(w, moves[0]).value, moves[1..], more);
    }
  }

  lemma RunLeads<W, M(!new)>(step: (W, M) -> Option<W>, w: W, moves: seq<M>)
    requires Run(step, w, moves).Some?
    ensures Leads(step, w, Run(step, w, moves).value)
  {
  }

  lemma Here<W, M(!new)>(step: (W, M) -> Option<W>, w: W)
    ensures Leads(step, w, w)
  {
    var none: seq<M> := [];
    assert Run(step, w, none) == Some(w);
  }

  lemma Follow<W, M(!new)>(step: (W, M) -> Option<W>, start: W, w: W, m: M) returns (w': W)
    requires Leads(step, start, w) && step(w, m).Some?
    ensures Leads(step, start, w') && w' == step(w, m).value
  {
    var moves: seq<M> :| Run(step, start, moves) == Some(w);
    RunAppend(step, start, moves, [m]);
    w' := step(w, m).value;
    assert Run(step, w, [m]) == Some(w');
  }

  lemma Onwards<W, M(!new)>(step: (W, M) -> Option<W>, start: W, w: W, w': W)
    requires Leads(step, start, w) && Leads(step, w, w')
    ensures Leads(step, start, w')
  {
    var moves: seq<M> :| Run(step, start, moves) == Some(w);
    var more: seq<M> :| Run(step, w, more) == Some(w');
    RunAppend(step, start, moves, more);
  }

  lemma {:induction false} RunsWithin<W(!new), M(!new)>(
    step: (W, M) -> Option<W>, wider: (W, M) -> Option<W>, w: W, moves: seq<M>)
    requires Within(step, wider) && Run(step, w, moves).Some?
    ensures Run(wider, w, moves) == Run(step, w, moves)
    decreases moves
  {
    if moves != [] { RunsWithin(step, wider, step(w, moves[0]).value, moves[1..]); }
  }

  lemma LeadsWithin<W(!new), M(!new)>(step: (W, M) -> Option<W>, wider: (W, M) -> Option<W>, w: W, w': W)
    requires Within(step, wider) && Leads(step, w, w')
    ensures Leads(wider, w, w')
  {
    var moves: seq<M> :| Run(step, w, moves) == Some(w');
    RunsWithin(step, wider, w, moves);
  }
}
