/** Runs of the approval machine between two of its worlds, for relating the service methods to it. */
module ApprovalRuns {
  import opened Wrappers
  import opened ApprovalTypes
  import opened ApprovalMachine
  import opened AuditTrail
  import opened ApprovalInvariant
  import opened ApprovalTheorems
  import opened ApprovalAuthority
  import Runs

  ghost function Steps(): (World, World) -> bool {
    (w: World, w': World) => Step(w, w')
  }

  ghost predicate Reaches(w: World, w': World) {
    Runs.Leads(Steps(), w, w')
  }

  lemma ReachesItself(w: World)
    ensures Reaches(w, w)
  {
    Runs.LeadsToItself(Steps(), w);
  }

  lemma ReachesStep(w: World, w': World, a: Action)
    requires Reaches(w, w') && Allowed(w', a)
    ensures Reaches(w, Apply(w', a))
  {
    assert Step(w', Apply(w', a));
    Runs.LeadsFurther(Steps(), w, w', Apply(w', a));
  }

  lemma ReachesFrom(w: World, w': World, w'': World)
    requires Step(w, w') && Reaches(w', w'')
    ensures Reaches(w, w'')
  {
    ReachesItself(w);
    Runs.LeadsFurther(Steps(), w, w, w');
    Runs.LeadsOn(Steps(), w, w', w'');
  }

  lemma ReachesOn(w: World, w': World, w'': World)
    requires Reaches(w, w') && Reaches(w', w'')
    ensures Reaches(w, w'')
  {
    Runs.LeadsOn(Steps(), w, w', w'');
  }

  /** Time only goes on. */
  lemma ReachesLater(w: World, w': World)
    requires Reaches(w, w')
    ensures w.clock <= w'.clock
  {
    ghost var keep := (x: World) => w.clock <= x.clock;
    forall a, b | keep(a) && Steps()(a, b) ensures keep(b) {
      var act :| Allowed(a, act) && b == Apply(a, act);
      ApplyKeepsCatalog(a, act);
    }
    Runs.LeadsKeeps(Steps(), keep, w, w');
  }

  lemma StepKeeps(w: World, w': World)
    requires Inv(w) && Step(w, w')
    ensures Inv(w')
  {
    var a := StepAction(w, w');
    ApplyKeeps(w, a);
  }

  /** Everything reachable from a good state is good, and its approvals only moved forward. */
  lemma ReachesKeeps(w: World, w': World)
    requires Inv(w) && Reaches(w, w')
    ensures Inv(w') && Evolves(w.tables, w'.tables)
  {
    ghost var keep := (x: World) => Inv(x) && Evolves(w.tables, x.tables);
    forall a, b | keep(a) && Steps()(a, b) ensures keep(b) {
      StepEvolves(a, b);
      StepKeeps(a, b);
      EvolvesTrans(w.tables, a.tables, b.tables);
    }
    Runs.LeadsKeeps(Steps(), keep, w, w');
  }
}
