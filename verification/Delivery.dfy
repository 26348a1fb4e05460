/** That requests run their callbacks: the host's loop takes every request once, calls the module or sends
    the request on, and the loop of the process it was sent to takes it once and calls the module, each if
    and only if the module is in the table then. */
module Delivery {
  import opened Model
  import opened Instance
  import opened Network
  import opened NetworkInvariant
  import opened Routing
  import opened Requests

  /* ---- One request on one loop ---- */

  /** The module that is asked for is there and has a callback, and there is something to tell it. */
  ghost predicate Answers(i: Inst, a: Apply) {
    a.id in i.modules && i.modules[a.id].hasCallback && a.updates != []
  }

  predicate HeadIs(i: Inst, a: Apply) {
    i.tasks != [] && i.tasks[0] == TPass(a)
  }

  /** The loop takes the request: the module is called with it, as it is, if and only if it answers. */
  lemma LoopCalls(i: Inst, a: Apply)
    requires HeadIs(i, a)
    ensures RunHead(i).0.calls == if Answers(i, a) then i.calls + [a] else i.calls
    ensures RunHead(i).1 == if a.id in i.modules && !i.modules[a.id].hasCallback && a.updates != [] then Some(a) else None
  {}

  /** One call has the tag, and it is this one. */
  ghost predicate CalledOnce(calls: seq<Apply>, a: Apply) {
    exists k :: 0 <= k < |calls| && calls[k] == a && forall j :: 0 <= j < |calls| && calls[j].tag == a.tag ==> j == k
  }

  predicate NotCalled(calls: seq<Apply>, t: nat) {
    forall x <- calls :: x.tag != t
  }

  /* ---- When a loop takes a request ---- */

  ghost predicate HostTakes(es: seq<Event>, a: Apply, n: nat) {
    n < |es| && es[n].HostRun? && HeadIs(Run(es[..n]).host, a)
  }

  ghost predicate ProcessTakes(es: seq<Event>, p: nat, a: Apply, n: nat) {
    n < |es| && es[n] == PeerRun(p) && p < |Run(es[..n]).peers| && HeadIs(Run(es[..n]).peers[p].inst, a)
  }

  lemma {:induction false} Before(es: seq<Event>, n: nat)
    requires n < |es|
    ensures Run(es[..n + 1]) == Step(Run(es[..n]), es[n])
  {
    assert es[..n + 1][..n] == es[..n];
  }

  /* ---- Calls stay on record ---- */

  lemma HeadKeepsCalls(i: Inst)
    requires i.tasks != []
    ensures i.calls <= RunHead(i).0.calls
  {}

  lemma AppKeepsCalls(i: Inst, e: AppEvent)
    requires Enabled(i, e)
    ensures AppStep(i, e).calls == i.calls
  {}

  lemma HostCallsStay(s: Sys, e: Event)
    ensures s.host.calls <= Step(s, e).host.calls
  {
    if Can(s, e) {
      if e.HostApp? {
        AppKeepsCalls(s.host, e.app);
      } else if e.HostRun? {
        RunsHead(s);
        HeadKeepsCalls(s.host);
      } else {
        OthersPost(s, e);
      }
    }
  }

  lemma ProcessCallsStay(s: Sys, e: Event, p: nat)
    requires p < |s.peers|
    ensures p < |Step(s, e).peers| && s.peers[p].inst.calls <= Step(s, e).peers[p].inst.calls
  {
    if Can(s, e) {
      if e.PeerApp? && e.peer == p {
        AppKeepsCalls(s.peers[p].inst, e.app);
      } else if e.PeerRun? && e.peer == p {
        HeadKeepsCalls(s.peers[p].inst);
      } else if !(e.PeerReceive? && e.peer == p) {
        OthersKeepProcess(s, e, p);
      }
    }
  }

  lemma {:induction false} HostCallsStayOn(es: seq<Event>, n: nat)
    requires n <= |es|
    ensures Run(es[..n]).host.calls <= Run(es).host.calls
    decreases |es|
  {
    assert es[..|es|] == es;
    if n < |es| {
      var m := |es| - 1;
      assert es[..m][..n] == es[..n];
      HostCallsStayOn(es[..m], n);
      HostCallsStay(Run(es[..m]), es[m]);
    }
  }

  lemma {:induction false} ProcessCallsStayOn(es: seq<Event>, n: nat, p: nat)
    requires n <= |es| && p < |Run(es[..n]).peers|
    ensures p < |Run(es).peers| && Run(es[..n]).peers[p].inst.calls <= Run(es).peers[p].inst.calls
    decreases |es|
  {
    assert es[..|es|] == es;
    if n < |es| {
      var m := |es| - 1;
      assert es[..m][..n] == es[..n];
      ProcessCallsStayOn(es[..m], n, p);
      ProcessCallsStay(Run(es[..m]), es[m], p);
    }
  }

  /* ---- A tag that is nowhere stays nowhere ---- */

  ghost predicate NotAtHost(s: Sys, t: nat) {
    t < |s.applies| && NotCalled(s.host.calls, t) && NotCalled(Passes(s.host.tasks), t)
  }

  ghost predicate NotAtProcess(s: Sys, p: nat, t: nat) {
    && t < |s.applies| && NotCalled(Passes(s.host.tasks), t)
    && (p < |s.peers| ==> NotCalled(Routing.Own(s.peers[p]), t))
  }

  lemma PostedTags(s: Sys, e: Event, t: nat)
    requires Can(s, e) && !e.HostApp? && !e.HostRun? && t < |s.applies| && NotCalled(Passes(s.host.tasks), t)
    ensures NotCalled(Passes(Do(s, e).host.tasks), t)
  {
    OthersPost(s, e);
    PostedAreNew(s, e);
    if PostedBy(s, e) == [] {
      assert s.host.tasks + [] == s.host.tasks;
    } else {
      var x := PostedBy(s, e)[0];
      assert PostedBy(s, e) == [x];
      PassesPost(s.host.tasks, x);
    }
  }

  lemma PostedAreNew(s: Sys, e: Event)
    requires Can(s, e)
    ensures forall x <- PostedBy(s, e) :: x.TPass? ==> x.apply.tag == |s.applies|
  {}

  lemma TailTags(ts: seq<Task>, t: nat)
    requires ts != [] && NotCalled(Passes(ts), t)
    ensures NotCalled(Passes(ts[1..]), t) && (ts[0].TPass? ==> ts[0].apply.tag != t)
  {
    PopOther(ts);
    assert forall x <- Passes(ts[1..]) :: x in Passes(ts);
    assert ts[0].TPass? ==> ts[0].apply in Passes(ts);
  }

  lemma HostQueueWithout(s: Sys, e: Event, t: nat)
    requires Can(s, e) && SendsOnly(s.host) && -1 !in s.host.modules && t < |s.applies| && NotCalled(Passes(s.host.tasks), t)
    ensures NotCalled(Passes(Do(s, e).host.tasks), t)
  {
    if e.HostApp? {
      PeerOwnApp(s.host, e.app);
    } else if e.HostRun? {
      RunsHead(s);
      RunCalls(s.host);
      TailTags(s.host.tasks, t);
    } else {
      PostedTags(s, e, t);
    }
  }

  lemma HostCallsWithout(s: Sys, e: Event, t: nat)
    requires Can(s, e) && -1 !in s.host.modules && NotAtHost(s, t)
    ensures NotCalled(Do(s, e).host.calls, t)
  {
    if e.HostApp? {
      AppKeepsCalls(s.host, e.app);
    } else if e.HostRun? {
      RunsHead(s);
      RunCalls(s.host);
      TailTags(s.host.tasks, t);
    } else {
      OthersPost(s, e);
    }
  }

  lemma OwnWithout(q: Peer, t: nat)
    ensures NotCalled(Routing.Own(q), t) <==> NotCalled(q.inst.calls, t) && NotCalled(Passes(q.inst.tasks), t) && NotCalled(q.down, t)
  {
    assert forall a :: a in Routing.Own(q) <==> a in q.inst.calls || a in Passes(q.inst.tasks) || a in q.down;
  }

  lemma OwnStepWithout(s: Sys, e: Event, p: nat, t: nat)
    requires Can(s, e) && (e.PeerApp? || e.PeerRun? || e.PeerReceive?) && e.peer == p && PeerOk(s.peers[p]) && NotCalled(Routing.Own(s.peers[p]), t)
    ensures NotCalled(Routing.Own(Do(s, e).peers[p]), t)
  {
    var q := s.peers[p];
    NoModuleIsUnknown(q.inst);
    OwnWithout(q, t);
    if e.PeerApp? {
      PeerOwnApp(q.inst, e.app);
    } else if e.PeerRun? {
      RunCalls(q.inst);
      TailTags(q.inst.tasks, t);
    } else {
      PassesPost(q.inst.tasks, TPass(q.down[0]));
    }
    OwnWithout(Do(s, e).peers[p], t);
  }

  lemma ForwardWithout(s: Sys, p: nat, t: nat)
    requires s.host.tasks != [] && -1 !in s.host.modules && p < |s.peers| && NotCalled(Routing.Own(s.peers[p]), t) && NotCalled(Passes(s.host.tasks), t)
    ensures p < |RunHost(s).peers| && NotCalled(Routing.Own(RunHost(s).peers[p]), t)
  {
    OwnWithout(s.peers[p], t);
    TailTags(s.host.tasks, t);
    if s.host.tasks[0].TPass? { PassMoves(s, p, s.host.tasks[0].apply); } else { OtherRun(s); }
    OwnWithout(RunHost(s).peers[p], t);
  }

  lemma ProcessWithout(s: Sys, e: Event, p: nat, t: nat)
    requires Can(s, e) && -1 !in s.host.modules && (p < |s.peers| ==> PeerOk(s.peers[p])) && NotAtProcess(s, p, t)
    ensures p < |Do(s, e).peers| ==> NotCalled(Routing.Own(Do(s, e).peers[p]), t)
  {
    PeersJoin(s, e);
    if p >= |s.peers| {
      if e.Join? { OwnWithout(Do(s, e).peers[|s.peers|], t); }
    } else if (e.PeerApp? || e.PeerRun? || e.PeerReceive?) && e.peer == p {
      OwnStepWithout(s, e, p, t);
    } else if e.HostRun? {
      ForwardWithout(s, p, t);
    } else {
      OthersKeepProcess(s, e, p);
      OthersKeepIds(s, e, p);
    }
  }

  lemma {:induction false} StaysAway(es: seq<Event>, n: nat, t: nat)
    requires n <= |es|
    ensures NotAtHost(Run(es[..n]), t) ==> NotAtHost(Run(es), t)
    ensures forall p: nat :: NotAtProcess(Run(es[..n]), p, t) ==> NotAtProcess(Run(es), p, t)
    decreases |es|
  {
    if n < |es| {
      var m := |es| - 1;
      var s, e := Run(es[..m]), es[m];
      assert es[..m][..n] == es[..n];
      StaysAway(es[..m], n, t);
      if Can(s, e) {
        if NotAtHost(s, t) { AwayFromHost(es[..m], e, t); }
        forall p: nat | NotAtProcess(s, p, t) ensures NotAtProcess(Do(s, e), p, t) { AwayFromProcess(es[..m], e, p, t); }
      }
    } else {
      assert es[..n] == es;
    }
  }

  lemma {:induction false} HostIsSound(es: seq<Event>)
    ensures SendsOnly(Run(es).host) && -1 !in Run(es).host.modules
  {
    RunsKeep(es);
    NoModuleIsUnknown(Run(es).host);
  }

  lemma {:induction false} AwayFromHost(es: seq<Event>, e: Event, t: nat)
    requires Can(Run(es), e) && NotAtHost(Run(es), t)
    ensures NotAtHost(Do(Run(es), e), t)
  {
    HostIsSound(es);
    Asks(Run(es), e);
    HostQueueWithout(Run(es), e, t);
    HostCallsWithout(Run(es), e, t);
  }

  lemma {:induction false} AwayFromProcess(es: seq<Event>, e: Event, p: nat, t: nat)
    requires Can(Run(es), e) && NotAtProcess(Run(es), p, t)
    ensures NotAtProcess(Do(Run(es), e), p, t)
  {
    HostIsSound(es);
    assert p < |Run(es).peers| ==> PeerOk(Run(es).peers[p]) by { RunsKeep(es); }
    Asks(Run(es), e);
    HostQueueWithout(Run(es), e, t);
    ProcessWithout(Run(es), e, p, t);
  }

  /* ---- What the order of tags says when a request is taken ---- */

  lemma Apart(before: seq<Apply>, a: Apply, rest: seq<Apply>)
    requires Increasing(before + ([a] + rest))
    ensures NotCalled(before, a.tag) && NotCalled(rest, a.tag)
  {
    var js := before + ([a] + rest);
    assert js[|before|] == a;
    assert forall j :: 0 <= j < |before| ==> js[j] == before[j];
    assert forall j :: 0 <= j < |rest| ==> js[|before| + 1 + j] == rest[j];
  }

  lemma {:induction false} OnceInOrder(calls: seq<Apply>, k: nat)
    requires k < |calls| && Increasing(calls)
    ensures CalledOnce(calls, calls[k])
  {
    assert forall j :: 0 <= j < |calls| && j != k ==> calls[j].tag != calls[k].tag;
  }

  lemma PrefixIncreases(a: seq<Apply>, b: seq<Apply>)
    requires Increasing(a + b)
    ensures Increasing(a)
  {
    assert forall j :: 0 <= j < |a| ==> (a + b)[j] == a[j];
  }

  lemma {:induction false} CallsIncrease(es: seq<Event>)
    ensures Increasing(Run(es).host.calls)
    ensures forall p :: 0 <= p < |Run(es).peers| ==> Increasing(Run(es).peers[p].inst.calls)
  {
    RunsRoute(es);
    var s := Run(es);
    PrefixIncreases(s.host.calls, Passes(s.host.tasks));
    forall p | 0 <= p < |s.peers| ensures Increasing(s.peers[p].inst.calls) {
      var q := s.peers[p];
      assert PeerRoutes(s, p, q);
      var rest := Passes(q.inst.tasks) + q.down + Passes(s.host.tasks);
      assert Journey(s, q) == q.inst.calls + rest;
      PrefixIncreases(q.inst.calls, rest);
    }
  }

  /* ---- At the host ---- */

  lemma {:induction false} TakenAtHost(es: seq<Event>, a: Apply, n: nat)
    requires HostTakes(es, a, n)
    ensures var s, z := Run(es[..n]), Run(es[..n + 1]);
            && z == RunHost(s) && a.tag < |s.applies| && z.applies == s.applies && s.applies[a.tag] == a
            && z.host.calls == (if Answers(s.host, a) then s.host.calls + [a] else s.host.calls)
            && NotCalled(s.host.calls, a.tag) && NotCalled(Passes(z.host.tasks), a.tag)
  {
    var s := Run(es[..n]);
    Before(es, n);
    RunsHead(s);
    LoopCalls(s.host, a);
    RunHeadGrows(s.host);
    PopOther(s.host.tasks);
    assert HostRoutes(s) by { RunsRoute(es[..n]); }
    assert a in Passes(s.host.tasks);
    Apart(s.host.calls, a, Passes(s.host.tasks[1..]));
  }

  /** The host's loop takes a request for a module: when the run ends, one callback has got it, as it was
      made, if the module was there with a callback and the list not empty, and none at the host if not. */
  lemma {:induction false} HostCallsIff(es: seq<Event>, a: Apply, n: nat)
    requires HostTakes(es, a, n)
    ensures if Answers(Run(es[..n]).host, a) then CalledOnce(Run(es).host.calls, a) else NotCalled(Run(es).host.calls, a.tag)
  {
    TakenAtHost(es, a, n);
    if Answers(Run(es[..n]).host, a) {
      HostCallsStayOn(es, n + 1);
      CallsIncrease(es);
      var k := |Run(es[..n]).host.calls|;
      assert Run(es).host.calls[k] == a;
      OnceInOrder(Run(es).host.calls, k);
    } else {
      StaysAway(es, n + 1, a.tag);
    }
  }

  /* ---- At a process ---- */

  lemma {:induction false} TakenAtProcess(es: seq<Event>, p: nat, a: Apply, n: nat)
    requires ProcessTakes(es, p, a, n)
    ensures var s, z := Run(es[..n]), Run(es[..n + 1]);
            && p < |z.peers| && a.tag < |s.applies| && z.applies == s.applies && z.host == s.host
            && z.peers[p] == s.peers[p].(inst := RunHead(s.peers[p].inst).0)
            && z.peers[p].inst.calls == (if Answers(s.peers[p].inst, a) then s.peers[p].inst.calls + [a] else s.peers[p].inst.calls)
            && NotCalled(s.peers[p].inst.calls, a.tag) && NotCalled(Passes(s.peers[p].inst.tasks[1..]), a.tag)
            && NotCalled(s.peers[p].down, a.tag) && NotCalled(Passes(s.host.tasks), a.tag)
  {
    var s := Run(es[..n]);
    var q := s.peers[p];
    Before(es, n);
    LoopCalls(q.inst, a);
    PopOther(q.inst.tasks);
    assert PeerRoutes(s, p, q) by { RunsRoute(es[..n]); }
    assert a in Passes(q.inst.tasks) && Justified(s, p, a);
    var later := Passes(q.inst.tasks[1..]) + q.down + Passes(s.host.tasks);
    assert Journey(s, q) == q.inst.calls + ([a] + later);
    Apart(q.inst.calls, a, later);
    assert forall x :: x in later <==> x in Passes(q.inst.tasks[1..]) || x in q.down || x in Passes(s.host.tasks);
  }

  lemma {:induction false} ProcessHasCallbacks(es: seq<Event>, p: nat, a: Apply)
    requires p < |Run(es).peers|
    ensures Answers(Run(es).peers[p].inst, a) <==> a.id in Run(es).peers[p].inst.modules && a.updates != []
  {
    RunsKeep(es);
    assert PeerOk(Run(es).peers[p]);
  }

  /** The loop of a process takes a request that was sent to it: when the run ends, one callback of the
      process has got it, if the module was there, and none if not. */
  lemma {:induction false} ProcessCallsIff(es: seq<Event>, p: nat, a: Apply, n: nat)
    requires ProcessTakes(es, p, a, n)
    ensures p < |Run(es).peers|
    ensures if a.id in Run(es[..n]).peers[p].inst.modules && a.updates != []
            then CalledOnce(Run(es).peers[p].inst.calls, a) else NotCalled(Run(es).peers[p].inst.calls, a.tag)
  {
    TakenAtProcess(es, p, a, n);
    ProcessHasCallbacks(es[..n], p, a);
    ProcessCallsStayOn(es, n + 1, p);
    var s, z := Run(es[..n]), Run(es[..n + 1]);
    if Answers(s.peers[p].inst, a) {
      CallsIncrease(es);
      var k := |s.peers[p].inst.calls|;
      assert Run(es).peers[p].inst.calls[k] == a;
      OnceInOrder(Run(es).peers[p].inst.calls, k);
    } else {
      RunHeadGrows(s.peers[p].inst);
      OwnWithout(z.peers[p], a.tag);
      assert NotAtProcess(z, p, a.tag);
      StaysAway(es, n + 1, a.tag);
      OwnWithout(Run(es).peers[p], a.tag);
    }
  }

  /* ---- What was posted is taken ---- */

  ghost predicate WaitsAtHost(s: Sys, a: Apply) {
    TPass(a) in s.host.tasks
  }

  ghost predicate WaitsAtProcess(s: Sys, p: nat, a: Apply) {
    p < |s.peers| && (a in s.peers[p].down || TPass(a) in s.peers[p].inst.tasks)
  }

  lemma StaysInQueue(ts: seq<Task>, t: Task)
    requires ts != [] && t in ts && ts[0] != t
    ensures t in ts[1..]
  {
    var k :| 0 <= k < |ts| && ts[k] == t;
    assert ts[1..][k - 1] == t;
  }

  lemma AppKeepsTasks(i: Inst, e: AppEvent)
    requires Enabled(i, e)
    ensures i.tasks <= AppStep(i, e).tasks
  {}

  lemma HostStillWaits(s: Sys, e: Event, a: Apply)
    requires Can(s, e) && WaitsAtHost(s, a) && !(e.HostRun? && HeadIs(s.host, a))
    ensures WaitsAtHost(Do(s, e), a)
  {
    if e.HostApp? {
      AppKeepsTasks(s.host, e.app);
    } else if e.HostRun? {
      RunsHead(s);
      RunHeadGrows(s.host);
      StaysInQueue(s.host.tasks, TPass(a));
    } else {
      OthersPost(s, e);
    }
  }

  lemma HostKeepsDown(s: Sys, p: nat)
    requires s.host.tasks != [] && p < |s.peers|
    ensures p < |RunHost(s).peers| && s.peers[p].down <= RunHost(s).peers[p].down
  {}

  lemma ProcessStillWaits(s: Sys, e: Event, p: nat, a: Apply)
    requires Can(s, e) && WaitsAtProcess(s, p, a) && !(e == PeerRun(p) && HeadIs(s.peers[p].inst, a))
    ensures WaitsAtProcess(Do(s, e), p, a)
  {
    var q := s.peers[p];
    if e.PeerApp? && e.peer == p {
      AppKeepsTasks(q.inst, e.app);
    } else if e.PeerRun? && e.peer == p {
      RunHeadGrows(q.inst);
      if TPass(a) in q.inst.tasks { StaysInQueue(q.inst.tasks, TPass(a)); }
    } else if e.PeerReceive? && e.peer == p {
      assert q.down == [q.down[0]] + q.down[1..];
    } else if e.HostRun? {
      RunsHead(s);
      HostKeepsDown(s, p);
    } else {
      OthersKeepProcess(s, e, p);
      OthersKeepIds(s, e, p);
    }
  }

  lemma HostTakesOrWaits(s: Sys, e: Event, a: Apply)
    requires WaitsAtHost(s, a)
    ensures WaitsAtHost(Step(s, e), a) || (e.HostRun? && HeadIs(s.host, a))
  {
    if Can(s, e) && !(e.HostRun? && HeadIs(s.host, a)) { HostStillWaits(s, e, a); }
  }

  lemma {:induction false} TakenLater(es: seq<Event>, n: nat, a: Apply) returns (m: nat)
    requires n <= |es| && WaitsAtHost(Run(es[..n]), a) && !WaitsAtHost(Run(es), a)
    ensures n <= m && HostTakes(es, a, m)
    decreases |es|
  {
    assert es[..|es|] == es;
    var l := |es| - 1;
    assert es[..l][..n] == es[..n];
    if WaitsAtHost(Run(es[..l]), a) {
      HostTakesOrWaits(Run(es[..l]), es[l], a);
      m := l;
    } else {
      m := TakenLater(es[..l], n, a);
      assert es[..l][..m] == es[..m];
    }
  }

  lemma ProcessTakesOrWaits(s: Sys, e: Event, p: nat, a: Apply)
    requires WaitsAtProcess(s, p, a)
    ensures WaitsAtProcess(Step(s, e), p, a) || (e == PeerRun(p) && HeadIs(s.peers[p].inst, a))
  {
    if Can(s, e) && !(e == PeerRun(p) && HeadIs(s.peers[p].inst, a)) { ProcessStillWaits(s, e, p, a); }
  }

  lemma {:induction false} TakenThere(es: seq<Event>, n: nat, p: nat, a: Apply) returns (m: nat)
    requires n <= |es| && WaitsAtProcess(Run(es[..n]), p, a) && !WaitsAtProcess(Run(es), p, a)
    ensures n <= m && ProcessTakes(es, p, a, m)
    decreases |es|
  {
    assert es[..|es|] == es;
    var l := |es| - 1;
    assert es[..l][..n] == es[..n];
    if WaitsAtProcess(Run(es[..l]), p, a) {
      ProcessTakesOrWaits(Run(es[..l]), es[l], p, a);
      m := l;
    } else {
      m := TakenThere(es[..l], n, p, a);
      assert es[..l][..m] == es[..m];
    }
  }

  /* ---- From the request to the callback ---- */

  /** A request that no longer waits was taken by the host's loop, after it was made and once, and a
      callback of the host has got it if and only if the module was there with one. */
  lemma {:induction false} RequestRunsItsCallback(es: seq<Event>, t: nat, n: nat) returns (m: nat)
    requires MadeAt(es, t, n) && !WaitsAtHost(Run(es), Apply(es[n].id, es[n].updates, t))
    ensures var a := Apply(es[n].id, es[n].updates, t);
            && n < m && HostTakes(es, a, m)
            && if Answers(Run(es[..m]).host, a) then CalledOnce(Run(es).host.calls, a) else NotCalled(Run(es).host.calls, t)
  {
    var a := Apply(es[n].id, es[n].updates, t);
    Before(es, n);
    m := TakenLater(es, n + 1, a);
    HostCallsIff(es, a, m);
  }

  /** The host sends the request to process p: the module is a copy that is translated, and its client is
      connected. */
  ghost predicate SendsTo(s: Sys, a: Apply, p: nat) {
    && a.id in s.host.modules && !s.host.modules[a.id].hasCallback && a.updates != []
    && a.id in s.remotes && s.remotes[a.id].client in s.live && s.live[s.remotes[a.id].client] == p
  }

  lemma {:induction false} SentIsWaiting(es: seq<Event>, a: Apply, n: nat, p: nat)
    requires HostTakes(es, a, n) && SendsTo(Run(es[..n]), a, p)
    ensures var s := Run(es[..n]); WaitsAtProcess(Run(es[..n + 1]), p, a.(id := s.remotes[a.id].id))
  {
    var s := Run(es[..n]);
    Before(es, n);
    LoopCalls(s.host, a);
    assert p < |s.peers| by { RunsKeep(es[..n]); }
    var b := a.(id := s.remotes[a.id].id);
    assert b in s.peers[p].down + [b];
  }

  lemma {:induction false} SentBelongsThere(es: seq<Event>, a: Apply, n: nat, p: nat)
    requires HostTakes(es, a, n) && SendsTo(Run(es[..n]), a, p)
    ensures var s, z := Run(es[..n]), Run(es);
            && a.tag < |z.applies| && z.applies[a.tag] == a
            && 0 <= a.id < |z.host.origins| && z.host.origins[a.id] == Of(p, s.remotes[a.id].id)
  {
    TakenAtHost(es, a, n);
    assert 0 <= a.id < |Run(es[..n]).host.origins| && Run(es[..n]).host.origins[a.id] == Of(p, Run(es[..n]).remotes[a.id].id) by {
      RunsKeep(es[..n]);
      EntryBelongs(Run(es[..n]), a.id);
    }
    assert es == es[..n] + es[n..];
    IdsAreNeverReused(es[..n], es[n..]);
  }

  lemma EntryBelongs(s: Sys, l: int)
    requires RemotesOk(s) && NetOk(s) && l in s.remotes && s.remotes[l].client in s.live
    ensures 0 <= l < |s.host.origins| && s.host.origins[l] == Of(s.live[s.remotes[l].client], s.remotes[l].id)
  {
    assert s.host.origins[l] == Of(PeerOf(s, s.remotes[l].client), s.remotes[l].id);
  }

  /** A request that the host has sent to a process and that waits there no longer was taken by that
      process's loop, later and once; a callback of the process has got it, with the same updates, if and
      only if the module was still there; and no callback anywhere else. */
  lemma {:induction false} SentRequestRunsItsCallback(es: seq<Event>, a: Apply, n: nat, p: nat) returns (m: nat)
    requires HostTakes(es, a, n) && SendsTo(Run(es[..n]), a, p)
    requires !WaitsAtProcess(Run(es), p, a.(id := Run(es[..n]).remotes[a.id].id))
    ensures var b := a.(id := Run(es[..n]).remotes[a.id].id);
            && n < m && ProcessTakes(es, p, b, m) && p < |Run(es).peers|
            && (if b.id in Run(es[..m]).peers[p].inst.modules then CalledOnce(Run(es).peers[p].inst.calls, b)
                else NotCalled(Run(es).peers[p].inst.calls, a.tag))
    ensures NotCalled(Run(es).host.calls, a.tag)
    ensures forall q :: 0 <= q < |Run(es).peers| && q != p ==> NotCalled(Run(es).peers[q].inst.calls, a.tag)
  {
    var b := a.(id := Run(es[..n]).remotes[a.id].id);
    SentIsWaiting(es, a, n, p);
    m := TakenThere(es, n + 1, p, b);
    ProcessCallsIff(es, p, b, m);
    HostCallsIff(es, a, n);
    SentBelongsThere(es, a, n, p);
    forall q | 0 <= q < |Run(es).peers| && q != p ensures NotCalled(Run(es).peers[q].inst.calls, a.tag) {
      forall x | x in Run(es).peers[q].inst.calls ensures x.tag != a.tag {
        var k :| 0 <= k < |Run(es).peers[q].inst.calls| && Run(es).peers[q].inst.calls[k] == x;
        CallbacksStemFromRequests(es, q, k);
      }
    }
  }

  lemma {:induction false} NotForwarded(es: seq<Event>, a: Apply, n: nat, p: nat)
    requires HostTakes(es, a, n) && !SendsTo(Run(es[..n]), a, p)
    ensures NotAtProcess(Run(es[..n + 1]), p, a.tag)
  {
    var s, z := Run(es[..n]), Run(es[..n + 1]);
    TakenAtHost(es, a, n);
    if p < |s.peers| {
      assert PeerRoutes(s, p, s.peers[p]) by { RunsRoute(es[..n]); }
      RoutesByOwn(s, p, s.peers[p]);
      PopOther(s.host.tasks);
      Apart(Routing.Own(s.peers[p]), a, Passes(s.host.tasks[1..]));
      LoopCalls(s.host, a);
      assert z.peers[p].down == s.peers[p].down && z.peers[p].inst == s.peers[p].inst;
    } else {
      RunsHead(s);
    }
  }

  /** A request that the host's loop takes, does not call a module with and does not send on runs no
      callback anywhere. */
  lemma {:induction false} DroppedRequestRunsNothing(es: seq<Event>, a: Apply, n: nat)
    requires HostTakes(es, a, n) && !Answers(Run(es[..n]).host, a) && forall p: nat :: !SendsTo(Run(es[..n]), a, p)
    ensures NotCalled(Run(es).host.calls, a.tag)
    ensures forall p :: 0 <= p < |Run(es).peers| ==> NotCalled(Run(es).peers[p].inst.calls, a.tag)
  {
    HostCallsIff(es, a, n);
    forall p | 0 <= p < |Run(es).peers| ensures NotCalled(Run(es).peers[p].inst.calls, a.tag) {
      NotForwarded(es, a, n, p);
      StaysAway(es, n + 1, a.tag);
      OwnWithout(Run(es).peers[p], a.tag);
    }
  }
}
