/** Runs seen from one operation: which events are its own, and what the others cannot do to its task. */
module Interleaving {
  import opened SagaProtocol
  import opened SagaFrames

  /** Events of other operations only, as far as the tasks `mine` are concerned. */
  predicate Foreign(es: seq<Event>, mine: set<nat>) {
    forall e, k :: e in es && k in mine ==> !Touches(e, k)
  }

  /** The events of a run that continue the task `k`, in order. */
  function Own(es: seq<Event>, k: nat): seq<Event>
    decreases |es|
  {
    if es == [] then []
    else (if Touches(es[0], k) then [es[0]] else []) + Own(es[1..], k)
  }

  lemma {:induction false} OwnAppend(es: seq<Event>, fs: seq<Event>, k: nat)
    ensures Own(es + fs, k) == Own(es, k) + Own(fs, k)
    decreases |es|
  {
    hide Touches;
    if es == [] {
      assert es + fs == fs;
    } else {
      assert (es + fs)[1..] == es[1..] + fs;
      OwnAppend(es[1..], fs, k);
      var head := if Touches(es[0], k) then [es[0]] else [];
      assert head + (Own(es[1..], k) + Own(fs, k)) == (head + Own(es[1..], k)) + Own(fs, k);
    }
  }

  lemma {:induction false} OwnForeign(es: seq<Event>, mine: set<nat>, k: nat)
    requires Foreign(es, mine) && k in mine
    ensures Own(es, k) == []
    decreases |es|
  {
    if es != [] {
      assert es[0] in es;
      OwnForeign(es[1..], mine, k);
    }
  }

  /** Whatever others do, an operation finds its task as it left it. */
  lemma {:induction false} ForeignRunKeepsTask(w: World, es: seq<Event>, mine: set<nat>, k: nat)
    requires Foreign(es, mine) && k in mine && k in w.tasks && k < w.nextTask
    ensures k in Run(w, es).tasks && Run(w, es).tasks[k] == w.tasks[k] && Run(w, es).nextTask >= w.nextTask
    decreases |es|
  {
    if es != [] {
      assert es[0] in es;
      TaskUnder(w, es[0], k);
      hide Next;
      ForeignRunKeepsTask(Next(w, es[0]), es[1..], mine, k);
    }
  }

  lemma OwnSnoc(es: seq<Event>, e: Event, k: nat)
    ensures Own(es + [e], k) == Own(es, k) + (if Touches(e, k) then [e] else [])
  {
    OwnAppend(es, [e], k);
    assert [e][1..] == [];
    assert Own([e], k) == (if Touches(e, k) then [e] else []);
  }

  lemma EmptyTrace(w: World)
    ensures Run(w, []) == w && (forall j :: Own([], j) == []) && forall keep :: Foreign([], keep)
  {
  }

  /** One more own event at the end of a run. */
  lemma Extend(w: World, es: seq<Event>, e: Event, k: nat, keep: set<nat>)
    requires Foreign(es, keep) && (forall j :: j in keep ==> !Touches(e, j))
    ensures Run(w, es + [e]) == Next(Run(w, es), e)
    ensures Own(es + [e], k) == Own(es, k) + (if Touches(e, k) then [e] else [])
    ensures Foreign(es + [e], keep)
  {
    RunLast(w, es, e);
    OwnSnoc(es, e, k);
  }

  /** Events of others at the end of a run. */
  lemma ExtendForeign(w: World, es: seq<Event>, env: seq<Event>, k: nat, keep: set<nat>)
    requires Foreign(es, keep) && Foreign(env, keep + {k})
    ensures Run(w, es + env) == Run(Run(w, es), env)
    ensures Own(es + env, k) == Own(es, k)
    ensures Foreign(es + env, keep)
  {
    RunAppend(w, es, env);
    OwnAppend(es, env, k);
    OwnForeign(env, keep + {k}, k);
  }
}
