/** A role row deleted and inserted again is another row: what a removal compares its snapshot by. */
module TupleIdentity {
  import opened Wrappers
  import opened ApprovalTypes
  import opened ApprovalMachine
  import opened AuditTrail
  import opened ApprovalInvariant
  import opened ApprovalTheorems

  predicate TuplesDrawn(t: Tables) {
    forall g :: g in t.grants ==> t.grants[g] < t.nextTuple
  }

  /** Tuple `x` of this role existed and is not in the table. */
  predicate Gone(t: Tables, g: Grant, x: TupleId) {
    x < t.nextTuple && !(g in t.grants && t.grants[g] == x)
  }

  lemma InstallDraws(t: Tables, ws: Writes, g: Grant, x: TupleId)
    requires Sound(t, ws) && TuplesDrawn(t)
    ensures TuplesDrawn(Install(t, ws)) && (Gone(t, g, x) ==> Gone(Install(t, ws), g, x))
  {
  }

  lemma StepDraws(ws: seq<World>, i: nat, g: Grant, x: TupleId)
    requires Run(ws) && i + 1 < |ws| && TuplesDrawn(ws[i].tables)
    ensures TuplesDrawn(ws[i + 1].tables) && (Gone(ws[i].tables, g, x) ==> Gone(ws[i + 1].tables, g, x))
  {
    RunStep(ws, i);
    var a := StepAction(ws[i], ws[i + 1]);
    StepTables(ws[i], a);
    if Commits(ws[i], a) {
      InstallDraws(ws[i].tables, ws[i].calls[a.session].writes, g, x);
    }
  }

  lemma {:induction false} RunDraws(ws: seq<World>, i: nat)
    requires Run(ws) && i < |ws|
    ensures TuplesDrawn(ws[i].tables)
  {
    if i > 0 {
      var m := i - 1;
      RunDraws(ws, m);
      StepDraws(ws, m, Grant(0, ""), 0);
    }
  }

  lemma {:induction false} GoneForGood(ws: seq<World>, i: nat, j: nat, g: Grant, x: TupleId)
    requires Run(ws) && i <= j < |ws| && Gone(ws[i].tables, g, x)
    ensures Gone(ws[j].tables, g, x)
    decreases j
  {
    if i < j {
      var m := j - 1;
      GoneForGood(ws, i, m, g, x);
      RunDraws(ws, m);
      StepDraws(ws, m, g, x);
    }
  }

  /**
   * A role that has one and the same tuple in two states of a run was in the table all the time in between. So a removal
   * whose delete still finds the tuple of its snapshot removes a row that nobody has removed or given again since.
   */
  lemma TupleIsNeverReused(ws: seq<World>, i: nat, j: nat, g: Grant, k: nat)
    requires Run(ws) && i <= k <= j < |ws|
    requires g in ws[i].tables.grants && g in ws[j].tables.grants && ws[i].tables.grants[g] == ws[j].tables.grants[g]
    ensures g in ws[k].tables.grants && ws[k].tables.grants[g] == ws[i].tables.grants[g]
  {
    var x := ws[i].tables.grants[g];
    RunDraws(ws, i);
    DrawnStays(ws, i, k, x);
    if Gone(ws[k].tables, g, x) {
      GoneForGood(ws, k, j, g, x);
    }
  }

  lemma NeverFewer(ws: seq<World>, i: nat)
    requires Run(ws) && i + 1 < |ws|
    ensures ws[i].tables.nextTuple <= ws[i + 1].tables.nextTuple
  {
    RunStep(ws, i);
    StepTables(ws[i], StepAction(ws[i], ws[i + 1]));
  }

  lemma {:induction false} DrawnStays(ws: seq<World>, i: nat, k: nat, x: TupleId)
    requires Run(ws) && i <= k < |ws| && x < ws[i].tables.nextTuple
    ensures x < ws[k].tables.nextTuple
    decreases k
  {
    if i < k {
      var m := k - 1;
      DrawnStays(ws, i, m, x);
      NeverFewer(ws, m);
    }
  }
}
