/** How runs of the engine are put together step by step. */
module EngineRuns {
  import opened Wrappers
  import opened Engine
  import opened EngineSafety

  /** The last state of a run. */
  function Last(run: Run): State
    requires run.states != []
  {
    run.states[|run.states| - 1]
  }

  ghost predicate Panics(run: Run, why: Crash) {
    run.states != [] && Last(run).crash == Some(why)
  }

  /** A run that meets all conditions but the waived ones and ends in st. */
  ghost predicate Leads(cfg: Config, run: Run, waived: set<Condition>, st: State) {
    AdmissibleBut(cfg, run, waived) && Last(run) == st
  }

  lemma Start(cfg: Config, waived: set<Condition>) returns (run: Run)
    ensures Leads(cfg, run, waived, INIT) && run.states == [INIT]
  {
    run := Run([], [INIT]);
  }

  /** The step from st to st' is enabled and meets the conditions. */
  ghost predicate Fits(cfg: Config, st: State, step: Step, st': State, waived: set<Condition>) {
    Wf(st) && Enabled(cfg, st, step) && st' == Next(cfg, st, step) && Meets(st, step, st', waived)
  }

  lemma Extend(cfg: Config, run: Run, step: Step, st': State, waived: set<Condition>) returns (run': Run)
    requires AdmissibleBut(cfg, run, waived) && Fits(cfg, Last(run), step, st', waived)
    ensures Leads(cfg, run', waived, st')
    ensures run'.steps == run.steps + [step] && run'.states == run.states + [st']
  {
    run' := Run(run.steps + [step], run.states + [st']);
    forall n | 0 <= n < |run'.steps|
      ensures run'.Linked(cfg, n) && Meets(run'.states[n], run'.steps[n], run'.states[n + 1], waived)
    {
      if n < |run.steps| { assert run.Linked(cfg, n); }
    }
  }
}
