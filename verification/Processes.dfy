/** Every process of a network run is a process run of its own, so what is proved of those holds of the
    host and of each process connected to it. */
module Processes {
  import opened Model
  import opened Instance
  import opened Network
  import opened NetworkInvariant
  import opened Lifecycle

  ghost predicate IsProcess(i: Inst) {
    exists steps :: LocalRun(steps) == i
  }

  lemma OneMoreStep(i: Inst, st: LocalStep)
    requires IsProcess(i)
    ensures IsProcess(Local(i, st))
  {
    var steps :| LocalRun(steps) == i;
    assert (steps + [st])[..|steps|] == steps;
    assert LocalRun(steps + [st]) == Local(i, st);
  }

  /** A post by the network thread, of a task with an id that the process knows. */
  lemma OnePost(i: Inst, t: Task)
    requires IsProcess(i) && !t.TInit? && TasksOk(Post(i, t))
    ensures IsProcess(Post(i, t))
  {
    var j := Post(i, t);
    assert t in j.tasks && TaskIdOk(j, t);
    assert Possible(i, Arrive(t));
    OneMoreStep(i, Arrive(t));
  }

  lemma HostStays(s: Sys, e: Event)
    requires Can(s, e) && IsProcess(s.host) && TasksOk(Do(s, e).host)
    ensures IsProcess(Do(s, e).host)
  {
    if e.HostApp? {
      OneMoreStep(s.host, App(e.app));
    } else if e.HostRun? {
      assert Do(s, e).host == RunHead(s.host).0;
      OneMoreStep(s.host, Loop);
    } else {
      OthersPost(s, e);
      if PostedBy(s, e) != [] {
        assert s.host.tasks + PostedBy(s, e) == s.host.tasks + [PostedBy(s, e)[0]];
        OnePost(s.host, PostedBy(s, e)[0]);
      } else {
        assert s.host.tasks + [] == s.host.tasks;
      }
    }
  }

  lemma PeerStays(s: Sys, e: Event, p: nat)
    requires Can(s, e) && p < |Do(s, e).peers| && TasksOk(Do(s, e).peers[p].inst)
    requires p < |s.peers| ==> IsProcess(s.peers[p].inst)
    ensures IsProcess(Do(s, e).peers[p].inst)
  {
    var i' := Do(s, e).peers[p].inst;
    if p >= |s.peers| {
      assert i' == FRESH && LocalRun([]) == FRESH;
    } else {
      var i := s.peers[p].inst;
      if e.PeerApp? && e.peer == p {
        OneMoreStep(i, App(e.app));
      } else if e.PeerRun? && e.peer == p {
        OneMoreStep(i, Loop);
      } else if e.PeerReceive? && e.peer == p {
        OnePost(i, TPass(s.peers[p].down[0]));
      } else {
        assert i' == i;
      }
    }
  }

  lemma {:induction false} ProcessesOfARun(es: seq<Event>)
    ensures IsProcess(Run(es).host)
    ensures forall p :: 0 <= p < |Run(es).peers| ==> IsProcess(Run(es).peers[p].inst)
    decreases |es|
  {
    if es == [] {
      assert LocalRun([]) == FRESH;
    } else {
      var s, e := Run(es[..|es| - 1]), es[|es| - 1];
      ProcessesOfARun(es[..|es| - 1]);
      RunsKeep(es);
      if Can(s, e) {
        HostStays(s, e);
        forall p | 0 <= p < |Run(es).peers| ensures IsProcess(Run(es).peers[p].inst) {
          PeerStays(s, e, p);
        }
      }
    }
  }

  /** So in every reachable state of the network, at the host and at every process: the messages sent
      followed by those queued are those handled, the mode is the one decision, ids are announced once,
      in order and first, and every module has the shape and the read-only values it was announced
      with. */
  lemma {:induction false} EveryProcessOfARun(es: seq<Event>, i: Inst)
    requires i == Run(es).host || exists p :: 0 <= p < |Run(es).peers| && i == Run(es).peers[p].inst
    ensures i.sent + i.queue == i.handled && (i.mode.Some? ==> i.queue == [] && i.mode == i.decided)
    ensures AnnouncedOnce(i.handled) && AnnouncedFirst(i.handled) && -1 !in i.modules
    ensures forall id :: id in i.modules ==>
              exists j :: 0 <= j < |i.handled| && i.handled[j].Added? && i.handled[j].id == id
                          && ShapeOf(i.modules[id]) == Shape(i.handled[j].name, FrozenAll(i.handled[j].properties))
  {
    ProcessesOfARun(es);
    var steps :| LocalRun(steps) == i;
    EveryRunOfAProcess(steps);
    assert TableOk(i) by { LocalRunsKeep(steps); }
    forall id | id in i.modules
      ensures exists j :: 0 <= j < |i.handled| && i.handled[j].Added? && i.handled[j].id == id
                          && ShapeOf(i.modules[id]) == Shape(i.handled[j].name, FrozenAll(i.handled[j].properties))
    {
      assert id in TableOf(i.modules) && TableOf(i.modules)[id] == ShapeOf(i.modules[id]);
      var j := ReplayedShape(i.handled, id);
    }
  }
}
