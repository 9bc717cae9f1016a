/** Finite runs of any transition relation. */
module Runs {

  ghost predicate Follows<W(!new)>(step: (W, W) -> bool, w: W, ws: seq<W>, w': W)
    decreases ws
  {
    if ws == [] then w == w' else step(w, ws[0]) && Follows(step, ws[0], ws[1..], w')
  }

  ghost predicate Leads<W(!new)>(step: (W, W) -> bool, w: W, w': W) {
    exists ws :: Follows(step, w, ws, w')
  }

  lemma LeadsToItself<W(!new)>(step: (W, W) -> bool, w: W)
    ensures Leads(step, w, w)
  {
    assert Follows(step, w, [], w);
  }

  lemma {:induction false} FollowsMore<W(!new)>(step: (W, W) -> bool, w: W, ws: seq<W>, w': W, more: seq<W>, w'': W)
    requires Follows(step, w, ws, w') && Follows(step, w', more, w'')
    ensures Follows(step, w, ws + more, w'')
    decreases ws
  {
    if ws == [] {
      assert ws + more == more;
    } else {
      FollowsMore(step, ws[0], ws[1..], w', more, w'');
      assert (ws + more)[1..] == ws[1..] + more;
    }
  }

  lemma LeadsFurther<W(!new)>(step: (W, W) -> bool, w: W, w': W, w'': W)
    requires Leads(step, w, w') && step(w', w'')
    ensures Leads(step, w, w'')
  {
    var ws :| Follows(step, w, ws, w');
    assert Follows(step, w'', [], w'');
    assert Follows(step, w', [w''], w'');
    FollowsMore(step, w, ws, w', [w''], w'');
  }

  lemma LeadsOn<W(!new)>(step: (W, W) -> bool, w: W, w': W, w'': W)
    requires Leads(step, w, w') && Leads(step, w', w'')
    ensures Leads(step, w, w'')
  {
    var ws :| Follows(step, w, ws, w');
    var more :| Follows(step, w', more, w'');
    FollowsMore(step, w, ws, w', more, w'');
  }

  /** The worlds a run passes through, its start included, are linked by steps. */
  lemma {:induction false} FollowsLinks<W(!new)>(step: (W, W) -> bool, w: W, ws: seq<W>, w': W)
    requires Follows(step, w, ws, w')
    ensures var chain := [w] + ws;
            chain[|chain| - 1] == w' && forall i: nat | i + 1 < |chain| :: LinkedAt(step, chain, i)
    decreases ws
  {
    if ws != [] {
      FollowsLinks(step, ws[0], ws[1..], w');
      var rest, chain := [ws[0]] + ws[1..], [w] + ws;
      forall i: nat | i + 1 < |chain| ensures LinkedAt(step, chain, i) {
        if i > 0 {
          assert LinkedAt(step, rest, i - 1);
        }
      }
    }
  }

  ghost predicate LinkedAt<W(!new)>(step: (W, W) -> bool, ws: seq<W>, i: nat)
    requires i + 1 < |ws|
  {
    step(ws[i], ws[i + 1])
  }

  /** What every step keeps holds wherever a run leads. */
  lemma {:induction false} FollowsKeeps<W(!new)>(step: (W, W) -> bool, keep: W -> bool, w: W, ws: seq<W>, w': W)
    requires Follows(step, w, ws, w') && keep(w)
    requires forall a, b :: keep(a) && step(a, b) ==> keep(b)
    ensures keep(w')
    decreases ws
  {
    if ws != [] {
      FollowsKeeps(step, keep, ws[0], ws[1..], w');
    }
  }

  lemma LeadsKeeps<W(!new)>(step: (W, W) -> bool, keep: W -> bool, w: W, w': W)
    requires Leads(step, w, w') && keep(w)
    requires forall a, b :: keep(a) && step(a, b) ==> keep(b)
    ensures keep(w')
  {
    var ws :| Follows(step, w, ws, w');
    FollowsKeeps(step, keep, w, ws, w');
  }
}
