/** Runs of the watcher protocol between two of its worlds, for relating the scripts to it. */
module DispatchRuns {
  import opened DispatchMachine
  import opened DispatchInvariant
  import Runs

  ghost function Steps(env: Env): (World, World) -> bool {
    (w: World, w': World) => Step(env, w, w')
  }

  ghost predicate Reaches(env: Env, w: World, w': World) {
    Runs.Leads(Steps(env), w, w')
  }

  lemma ReachesItself(env: Env, w: World)
    ensures Reaches(env, w, w)
  {
    Runs.LeadsToItself(Steps(env), w);
  }

  lemma ReachesStep(env: Env, w: World, w': World, a: Action)
    requires Reaches(env, w, w') && Allowed(w', a)
    ensures Reaches(env, w, Apply(env, w', a))
  {
    assert Step(env, w', Apply(env, w', a));
    Runs.LeadsFurther(Steps(env), w, w', Apply(env, w', a));
  }

  lemma ReachesOn(env: Env, w: World, w': World, w'': World)
    requires Reaches(env, w, w') && Reaches(env, w', w'')
    ensures Reaches(env, w, w'')
  {
    Runs.LeadsOn(Steps(env), w, w', w'');
  }

  lemma ApplyGrows(env: Env, w: World, a: Action)
    requires Allowed(w, a)
    ensures w.remote <= Apply(env, w, a).remote
  {
  }

  /** Everything reachable from a good world is good, and its branch only grew. */
  lemma ReachesKeeps(env: Env, w: World, w': World)
    requires Inv(env, w) && Reaches(env, w, w')
    ensures Inv(env, w') && w.remote <= w'.remote
  {
    ghost var keep := (x: World) => Inv(env, x) && w.remote <= x.remote;
    forall a, b | keep(a) && Steps(env)(a, b) ensures keep(b) {
      var act :| Allowed(a, act) && b == Apply(env, a, act);
      ApplyKeeps(env, a, act);
      ApplyGrows(env, a, act);
    }
    Runs.LeadsKeeps(Steps(env), keep, w, w');
  }
}
