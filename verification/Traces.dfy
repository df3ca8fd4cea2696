/** Runs given by their actions alone. */
module Traces {
  import opened Payments
  import opened Protocol

  function After(acts: seq<Action>): State {
    if acts == [] then START else Apply(After(acts[..|acts| - 1]), acts[|acts| - 1])
  }

  ghost predicate Possible(fleet: set<Config>, acts: seq<Action>) {
    acts != [] ==> Possible(fleet, acts[..|acts| - 1]) && Enabled(fleet, After(acts[..|acts| - 1]), acts[|acts| - 1])
  }

  ghost function StatesOf(acts: seq<Action>): (r: seq<State>)
    ensures |r| == |acts| + 1 && r[|acts|] == After(acts)
  {
    if acts == [] then [START] else StatesOf(acts[..|acts| - 1]) + [After(acts)]
  }

  lemma {:induction false} PossibleIsRun(fleet: set<Config>, acts: seq<Action>)
    requires Possible(fleet, acts)
    ensures Run(fleet, StatesOf(acts), acts)
  {
    hide Enabled, Apply;
    if acts != [] {
      var prior := acts[..|acts| - 1];
      PossibleIsRun(fleet, prior);
      var states := StatesOf(acts);
      forall i | 0 <= i < |acts|
        ensures Next(fleet, states[i], acts[i], states[i + 1])
      {
        if i < |prior| { assert Next(fleet, StatesOf(prior)[i], prior[i], StatesOf(prior)[i + 1]); }
      }
    }
  }

  lemma Do(fleet: set<Config>, acts: seq<Action>, act: Action) returns (acts': seq<Action>)
    requires Possible(fleet, acts) && Enabled(fleet, After(acts), act)
    ensures Possible(fleet, acts') && After(acts') == Apply(After(acts), act)
  {
    hide Enabled, Apply;
    acts' := acts + [act];
    assert acts'[..|acts|] == acts;
  }

  lemma {:induction false} StatesOfPrefix(done: seq<Action>, acts: seq<Action>)
    requires done <= acts
    ensures StatesOf(acts)[|done|] == After(done)
    decreases |acts|
  {
    hide Apply, After;
    if done == acts {
    } else {
      var prior := acts[..|acts| - 1];
      StatesOfPrefix(done, prior);
    }
  }

  /** The calls actor `a` has made, in order. */
  ghost function Calls(acts: seq<Action>, a: ActorId): seq<Pc> {
    if acts == [] then []
    else
      var k := |acts| - 1;
      var prior, s := Calls(acts[..k], a), After(acts[..k]);
      if acts[k].Step? && acts[k].a == a && a in s.actors then prior + [s.actors[a].pc] else prior
  }

  lemma CallsGrow(acts: seq<Action>, act: Action, a: ActorId)
    ensures Calls(acts + [act], a) ==
      if act.Step? && act.a == a && a in After(acts).actors
      then Calls(acts, a) + [After(acts).actors[a].pc]
      else Calls(acts, a)
  {
    hide After;
    assert (acts + [act])[..|acts|] == acts;
  }
}
