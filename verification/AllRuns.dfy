/** What every run keeps, with the drain as written as well as with a first-in first-out one. */
module AllRuns {
  import opened Domain
  import opened Expression
  import opened Broker
  import opened Cluster
  import opened Capacity
  import opened Soundness
  import opened Ledger
  import opened Termination

  /** Messages and records are right, no receiver is ahead of its sender, capacities are conserved, the
      manager's books agree, and what waits at the broker is served. */
  ghost predicate Regular(world: World, s: Cluster) {
    Sound(world, s) && Counted(s) && WorkersFit(s.broker, s.workers) && Managed(s) && Served(s.broker)
  }

  lemma StepKeepsRegular(drain: Drain, world: World, s: Cluster, a: Action)
    requires Regular(world, s) && Enabled(world, s, a)
    ensures Regular(world, Next(drain, world, s, a))
  {
    StepKeepsSound(drain, world, s, a);
    StepKeepsCounted(drain, world, s, a);
    StepKeepsFits(drain, world, s, a);
    StepKeepsManaged(drain, world, s, a);
    StepServes(drain, world, s, a);
  }

  lemma RunIsRegular(drain: Drain, world: World, run: seq<Action>, s: Cluster)
    requires Run(drain, world, run) == Some(s)
    ensures Regular(world, s)
  {
    RunIsSound(drain, world, run);
    RunIsCounted(drain, world, run);
    RunFits(drain, world, run);
    RunIsManaged(drain, world, run);
    RunServes(drain, world, run);
  }
}
