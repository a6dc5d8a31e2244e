/** How a run can go on from a state while the key of a job does not expire. */
module Continuations {
  import opened JobPipeline
  import opened Wrappers
  import opened NoLoss
  import opened SubmissionAccounts

  const LOST := Choice(Lost, 0, None, false)
  const ACK := Choice(Acknowledged, 0, None, false)

  function After(d: Deployment, s: System, more: seq<Action>): System {
    if more == [] then s else Next(d, After(d, s, more[..|more| - 1]), more[|more| - 1])
  }

  /** The run goes on from where it stands. */
  lemma {:induction false} RunGoesOn(d: Deployment, actions: seq<Action>, more: seq<Action>)
    ensures After(d, Run(d, actions), more) == Run(d, actions + more)
  {
    if more == [] {
      assert actions + more == actions;
    } else {
      var n := |more| - 1;
      var whole := actions + more;
      RunGoesOn(d, actions, more[..n]);
      assert whole != [] && whole[|whole| - 1] == more[n];
      assert whole[..|whole| - 1] == actions + more[..n];
    }
  }

  /** The key of the job does not expire in the continuation. */
  predicate KeyStays(d: Deployment, s: System, more: seq<Action>, j: string) {
    if more == [] then j in s.world.store
    else KeyStays(d, s, more[..|more| - 1], j) && j in After(d, s, more).world.store
  }

  lemma Further(d: Deployment, s: System, before: seq<Action>, a: Action, j: string) returns (more: seq<Action>)
    requires KeyStays(d, s, before, j) && j in Next(d, After(d, s, before), a).world.store
    ensures |more| == |before| + 1 && KeyStays(d, s, more, j)
    ensures After(d, s, more) == Next(d, After(d, s, before), a)
  {
    more := before + [a];
    assert more[..|more| - 1] == before;
  }

  lemma {:induction false} SoundAfter(d: Deployment, s: System, more: seq<Action>)
    requires Sound(d, s)
    ensures Sound(d, After(d, s, more)) && s.world.log <= After(d, s, more).world.log
  {
    if more == [] {
    } else {
      SoundAfter(d, s, more[..|more| - 1]);
      StepSound(d, After(d, s, more[..|more| - 1]), more[|more| - 1]);
    }
  }
}
