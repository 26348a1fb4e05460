/** Nothing gets stuck: from every reachable state the loops and the network thread can go on, without
    any new request, until nothing is pending between a connected process and the host. */
module Draining {
  import opened Model
  import opened Instance
  import opened Network
  import opened NetworkInvariant
  import opened Replication
  import opened Order

  /** Steps by which what is already there goes on: the loops, the network thread, and the end of the
      connection attempt. */
  predicate GoesOn(es: seq<Event>) {
    forall e <- es :: e.HostRun? || e.PeerRun? || e.Read? || e.Continue? || e.CloseNext? || e.CloseDone?
                      || (e.PeerApp? && e.app == Decide(false))
  }

  lemma {:induction false} GoOn(es: seq<Event>, a: seq<Event>, b: seq<Event>)
    requires GoesOn(a) && GoesOn(b)
    ensures GoesOn(a + b) && es + (a + b) == es + a + b
  {}

  /** The processes and connections are as they were, what goes down to the processes aside. */
  ghost predicate SameProcesses(s: Sys, z: Sys) {
    && z.live == s.live && |z.peers| == |s.peers|
    && forall p :: 0 <= p < |s.peers| ==> z.peers[p].inst == s.peers[p].inst && z.peers[p].taken == s.peers[p].taken
  }

  /* ---- The host's loop ---- */

  lemma HostRunMoves(s: Sys)
    requires s.host.tasks != []
    ensures var z := RunHost(s);
            && z.host.tasks == s.host.tasks[1..] && z.remotes == s.remotes && SameProcesses(s, z)
            && (s.net.Registering? || z.net == s.net)
  {
    RunHeadGrows(s.host);
    assert RunHost(s).host == RunHead(s.host).0;
  }

  lemma {:induction false} HostSettles(es: seq<Event>) returns (more: seq<Event>)
    ensures var s, z := Run(es), Run(es + more);
            && z.host.tasks == [] && !z.net.Registering? && SameProcesses(s, z)
            && z.remotes == s.remotes && (s.net.Registering? || z.net == s.net)
    ensures GoesOn(more)
    decreases |Run(es).host.tasks|
  {
    var s := Run(es);
    if s.host.tasks == [] {
      more := [];
      assert es + [] == es;
      assert NetOk(s) by { RunsKeep(es); }
    } else {
      RunNext(es, HostRun);
      HostRunMoves(s);
      var rest := HostSettles(es + [HostRun]);
      more := [HostRun] + rest;
      assert es + [HostRun] + rest == es + more;
    }
  }

  /* ---- The network thread ---- */

  ghost function ClientKeys(s: Sys): set<int> {
    if s.net.Closing? || s.net.ClosingErase? then set l | l in s.remotes && s.remotes[l].client == s.net.client else {}
  }

  /** How many steps the network thread is away from idling. */
  ghost function Rank(s: Sys): nat {
    if s.net.Idle? then 0
    else if s.net.Closing? then 2 * |ClientKeys(s)| + 1
    else if s.net.ClosingErase? then 2 * |ClientKeys(s)|
    else 1
  }

  /** What it does next when the host's loop is idle. */
  lemma NextOfNet(s: Sys) returns (e: Event)
    requires NetOk(s) && !s.net.Idle? && !s.net.Registering?
    ensures Can(s, e) && !Do(s, e).net.Registering? && Rank(Do(s, e)) < Rank(s) && SameProcesses(s, Do(s, e))
    ensures GoesOn([e])
  {
    if s.net.Closing? {
      var ks := ClientKeys(s);
      if ks == {} {
        e := CloseDone;
        assert forall k :: k in s.remotes && s.remotes[k].client == s.net.client ==> k in ks;
      } else {
        HasLeast(ks);
        var l :| l in ks && forall k :: k in ks ==> l <= k;
        assert forall k :: k in s.remotes && s.remotes[k].client == s.net.client ==> k in ks;
        e := CloseNext(l);
        assert ClientKeys(Do(s, e)) == ks;
      }
    } else {
      e := Continue;
      if s.net.ClosingErase? { EraseShrinks(s); }
    }
  }

  lemma EraseShrinks(s: Sys)
    requires NetOk(s) && s.net.ClosingErase?
    ensures |ClientKeys(ContinueNet(s))| == |ClientKeys(s)| - 1 && |ClientKeys(s)| > 0
  {
    var l := s.net.local;
    assert l in ClientKeys(s);
    assert ClientKeys(ContinueNet(s)) == ClientKeys(s) - {l};
  }

  lemma SameProcessesTrans(s: Sys, y: Sys, z: Sys)
    requires SameProcesses(s, y) && SameProcesses(y, z)
    ensures SameProcesses(s, z)
  {}

  lemma {:induction false} NetSettles(es: seq<Event>) returns (more: seq<Event>)
    requires !Run(es).net.Registering?
    ensures var s, z := Run(es), Run(es + more); z.net.Idle? && SameProcesses(s, z)
    ensures GoesOn(more)
    decreases Rank(Run(es))
  {
    var s := Run(es);
    if s.net.Idle? {
      more := [];
      assert es + [] == es;
    } else {
      assert NetOk(s) by { RunsKeep(es); }
      var e := NextOfNet(s);
      RunNext(es, e);
      var rest := NetSettles(es + [e]);
      more := [e] + rest;
      assert es + [e] + rest == es + more;
      SameProcessesTrans(s, Do(s, e), Run(es + more));
    }
  }

  lemma {:induction false} NetThenLoop(es: seq<Event>) returns (more: seq<Event>)
    requires !Run(es).net.Registering?
    ensures var s, z := Run(es), Run(es + more); z.host.tasks == [] && z.net.Idle? && SameProcesses(s, z)
    ensures GoesOn(more)
  {
    var a := NetSettles(es);
    var b := HostSettles(es + a);
    more := a + b;
    GoOn(es, a, b);
    SameProcessesTrans(Run(es), Run(es + a), Run(es + more));
  }

  /** The host comes to rest: its loop is idle and so is its network thread. */
  lemma {:induction false} HostRests(es: seq<Event>) returns (more: seq<Event>)
    ensures var s, z := Run(es), Run(es + more); z.host.tasks == [] && z.net.Idle? && SameProcesses(s, z)
    ensures GoesOn(more)
  {
    var a := HostSettles(es);
    var b := NetThenLoop(es + a);
    more := a + b;
    GoOn(es, a, b);
    SameProcessesTrans(Run(es), Run(es + a), Run(es + more));
  }

  /* ---- A process ---- */

  /** What the connection attempt decided is on its way to the loop until it arrives. */
  ghost predicate InitOk(i: Inst) {
    i.decided.Some? && i.mode.None? ==> exists t <- i.tasks :: t.TInit?
  }

  lemma InitPosted(i: Inst, j: Inst, t: Task)
    requires InitOk(i) && j.decided == i.decided && j.mode == i.mode && j.tasks == i.tasks + [t]
    ensures InitOk(j)
  {
    assert forall u <- i.tasks :: u in j.tasks;
  }

  lemma InitApp(i: Inst, e: AppEvent)
    requires InitOk(i) && Enabled(i, e)
    ensures InitOk(AppStep(i, e))
  {
    var j := AppStep(i, e);
    if e.Decide? {
      assert TInit(e.hostMode) in j.tasks;
    } else if e.CallbackUnregister? || e.CallbackUpdate? {
      assert j.tasks == i.tasks && j.mode == i.mode && j.decided == i.decided;
    } else {
      InitPosted(i, j, j.tasks[|i.tasks|]);
    }
  }

  lemma RunKeepsDecision(i: Inst)
    requires i.tasks != []
    ensures var j := RunHead(i).0;
            j.decided == i.decided && (if i.tasks[0].TInit? then j.mode.Some? else j.mode == i.mode)
  {}

  lemma InitRun(i: Inst)
    requires InitOk(i) && i.tasks != []
    ensures InitOk(RunHead(i).0)
  {
    RunHeadGrows(i);
    RunKeepsDecision(i);
    assert i.tasks == [i.tasks[0]] + i.tasks[1..];
  }

  ghost predicate InitsOk(s: Sys) {
    forall p :: 0 <= p < |s.peers| ==> InitOk(s.peers[p].inst)
  }

  lemma {:induction false} InitStep(s: Sys, e: Event, p: nat)
    requires InitsOk(s) && Can(s, e) && p < |Do(s, e).peers|
    ensures InitOk(Do(s, e).peers[p].inst)
  {
    if p >= |s.peers| {
      assert Do(s, e).peers[p].inst == FRESH;
    } else if e.PeerApp? && e.peer == p {
      InitApp(s.peers[p].inst, e.app);
    } else if e.PeerRun? && e.peer == p {
      InitRun(s.peers[p].inst);
    } else if e.PeerReceive? && e.peer == p {
      InitPosted(s.peers[p].inst, Do(s, e).peers[p].inst, TPass(s.peers[p].down[0]));
    } else {
      assert Do(s, e).peers[p].inst == s.peers[p].inst;
    }
  }

  lemma {:induction false} InitsAreOnTheirWay(es: seq<Event>)
    ensures InitsOk(Run(es))
    decreases |es|
  {
    if es != [] {
      var s, e := Run(es[..|es| - 1]), es[|es| - 1];
      InitsAreOnTheirWay(es[..|es| - 1]);
      if Can(s, e) {
        forall p | 0 <= p < |Run(es).peers| ensures InitOk(Run(es).peers[p].inst) { InitStep(s, e, p); }
      }
    }
  }

  /** The process goes on alone: everything but what it holds itself is as it was. */
  ghost predicate OnlyInst(s: Sys, z: Sys, p: nat) {
    && p < |s.peers| == |z.peers|
    && z == s.(peers := s.peers[p := s.peers[p].(inst := z.peers[p].inst)])
  }

  lemma {:induction false} LoopSettles(es: seq<Event>, p: nat) returns (more: seq<Event>)
    requires p < |Run(es).peers|
    ensures var s, z := Run(es), Run(es + more);
            OnlyInst(s, z, p) && z.peers[p].inst.tasks == [] && z.peers[p].inst.decided == s.peers[p].inst.decided
    ensures GoesOn(more)
    decreases |Run(es).peers[p].inst.tasks|
  {
    var s := Run(es);
    if s.peers[p].inst.tasks == [] {
      more := [];
      assert es + [] == es;
      assert s.peers[p := s.peers[p].(inst := s.peers[p].inst)] == s.peers;
    } else {
      RunNext(es, PeerRun(p));
      RunHeadGrows(s.peers[p].inst);
      RunKeepsDecision(s.peers[p].inst);
      var rest := LoopSettles(es + [PeerRun(p)], p);
      more := [PeerRun(p)] + rest;
      assert es + [PeerRun(p)] + rest == es + more;
    }
  }

  lemma {:induction false} Decides(es: seq<Event>, p: nat) returns (more: seq<Event>)
    requires p < |Run(es).peers|
    ensures var s, z := Run(es), Run(es + more);
            OnlyInst(s, z, p) && z.peers[p].inst.decided.Some?
    ensures GoesOn(more)
  {
    var s := Run(es);
    if s.peers[p].inst.decided.None? {
      more := [PeerApp(p, Decide(false))];
      RunNext(es, PeerApp(p, Decide(false)));
    } else {
      more := [];
      assert es + [] == es;
      assert s.peers[p := s.peers[p].(inst := s.peers[p].inst)] == s.peers;
    }
  }

  lemma OnlyInstTrans(s: Sys, y: Sys, z: Sys, p: nat)
    requires OnlyInst(s, y, p) && OnlyInst(y, z, p)
    ensures OnlyInst(s, z, p)
  {
    assert z.peers == s.peers[p := s.peers[p].(inst := z.peers[p].inst)];
  }

  lemma {:induction false} ProcessRests(es: seq<Event>, p: nat) returns (more: seq<Event>)
    requires p < |Run(es).peers|
    ensures var s, z := Run(es), Run(es + more);
            OnlyInst(s, z, p) && z.peers[p].inst.tasks == [] && z.peers[p].inst.mode.Some?
    ensures GoesOn(more)
  {
    var first := Decides(es, p);
    var rest := LoopSettles(es + first, p);
    more := first + rest;
    GoOn(es, first, rest);
    OnlyInstTrans(Run(es), Run(es + first), Run(es + more), p);
    assert InitOk(Run(es + more).peers[p].inst) by { InitsAreOnTheirWay(es + more); }
  }

  /* ---- What the process has sent ---- */

  lemma {:induction false} AllIsRead(es: seq<Event>, c: nat) returns (more: seq<Event>)
    requires var s := Run(es); c in s.live && s.live[c] < |s.peers| && s.net.Idle? && s.host.tasks == []
    ensures var s, z := Run(es), Run(es + more);
            && c in z.live && z.live == s.live && |z.peers| == |s.peers| && z.net.Idle? && z.host.tasks == []
            && z.peers[s.live[c]].inst == s.peers[s.live[c]].inst && z.peers[s.live[c]].taken >= |s.peers[s.live[c]].inst.sent|
    ensures GoesOn(more)
    decreases var s := Run(es); |s.peers[s.live[c]].inst.sent| - s.peers[s.live[c]].taken
  {
    var s := Run(es);
    var p := s.live[c];
    if s.peers[p].taken >= |s.peers[p].inst.sent| {
      more := [];
      assert es + [] == es;
    } else {
      var some := ReadOne(es, c);
      var rest := AllIsRead(es + some, c);
      more := some + rest;
      GoOn(es, some, rest);
    }
  }

  /** One more message is read, and the host comes to rest again. */
  lemma {:induction false} ReadOne(es: seq<Event>, c: nat) returns (more: seq<Event>)
    requires CanRead(Run(es), c)
    ensures var s, z := Run(es), Run(es + more);
            && z.live == s.live && |z.peers| == |s.peers| && z.net.Idle? && z.host.tasks == []
            && z.peers[s.live[c]].inst == s.peers[s.live[c]].inst && z.peers[s.live[c]].taken == s.peers[s.live[c]].taken + 1
    ensures GoesOn(more)
  {
    var read: seq<Event> := [Read(c)];
    RunNext(es, Read(c));
    ReadTakesOne(Run(es), c);
    var rest := HostRests(es + read);
    more := read + rest;
    GoOn(es, read, rest);
  }

  lemma ReadTakesOne(s: Sys, c: nat)
    requires CanRead(s, c)
    ensures var p, z := s.live[c], ReadMsg(s, c);
            && z.live == s.live && |z.peers| == |s.peers|
            && z.peers[p].inst == s.peers[p].inst && z.peers[p].taken == s.peers[p].taken + 1
  {}

  lemma {:induction false} HostReadsAll(es: seq<Event>, c: nat) returns (more: seq<Event>)
    requires c in Run(es).live && Run(es).live[c] < |Run(es).peers|
    ensures var s, z := Run(es), Run(es + more);
            && c in z.live && z.live == s.live && |z.peers| == |s.peers| && z.net.Idle? && z.host.tasks == []
            && z.peers[s.live[c]].inst == s.peers[s.live[c]].inst && z.peers[s.live[c]].taken >= |s.peers[s.live[c]].inst.sent|
    ensures GoesOn(more)
  {
    var a := HostRests(es);
    var b := AllIsRead(es + a, c);
    more := a + b;
    GoOn(es, a, b);
  }

  lemma {:induction false} Drain(es: seq<Event>, c: nat) returns (more: seq<Event>)
    requires c in Run(es).live && Run(es).live[c] < |Run(es).peers|
    ensures var s, z := Run(es), Run(es + more);
            c in z.live && z.live[c] == s.live[c] < |z.peers| && Drained(z, z.peers[z.live[c]])
    ensures GoesOn(more)
  {
    var a := ProcessRests(es, Run(es).live[c]);
    var b := HostReadsAll(es + a, c);
    more := a + b;
    GoOn(es, a, b);
    AllWasHandled(es + more, Run(es).live[c]);
  }

  /** From every reachable state and for every connected process there is a way on that makes no new
      request and ends with nothing pending between the process and the host; their tables correspond
      then. */
  lemma {:induction false} EveryStateCanBeDrained(es: seq<Event>, c: nat) returns (more: seq<Event>)
    requires c in Run(es).live
    ensures var s, z := Run(es), Run(es + more);
            && c in z.live && z.live[c] == s.live[c] < |z.peers| && Drained(z, z.peers[z.live[c]])
            && forall r :: r in z.peers[z.live[c]].inst.modules ==>
                 var l := LocalId(z.remotes, r, c);
                 Maps(z.remotes, l, r, c) && l in z.host.modules
                 && ShapeOf(z.host.modules[l]) == ShapeOf(z.peers[z.live[c]].inst.modules[r])
    ensures GoesOn(more)
  {
    assert LiveOk(Run(es)) by { RunsKeep(es); }
    more := Drain(es, c);
    DrainedTablesCorrespond(es + more, c);
  }

  lemma {:induction false} AllWasHandled(es: seq<Event>, p: nat)
    requires p < |Run(es).peers| && Run(es).peers[p].inst.mode.Some? && Run(es).peers[p].taken >= |Run(es).peers[p].inst.sent|
    ensures Run(es).peers[p].taken == |Run(es).peers[p].inst.handled|
  {
    RunsKeep(es);
    assert PeerOk(Run(es).peers[p]);
  }
}
