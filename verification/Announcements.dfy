/** How a module was announced: the host announces each replicated module with exactly the name and the
    property list that its owner announced. */
module Announcements {
  import opened Model
  import opened Instance
  import opened Network
  import opened NetworkInvariant

  /** The first announcement of the id. */
  function Announcement(log: seq<Msg>, id: int): Option<Msg> {
    if log == [] then None
    else
      var n := |log| - 1;
      var before := Announcement(log[..n], id);
      if before.None? && log[n].Added? && log[n].id == id then Some(log[n]) else before
  }

  lemma {:induction false} AnnouncementIn(log: seq<Msg>, id: int)
    ensures Announcement(log, id).Some? ==>
              var m := Announcement(log, id).value; m in log && m.Added? && m.id == id
    decreases |log|
  {
    if log != [] { AnnouncementIn(log[..|log| - 1], id); }
  }

  lemma AnnouncementNext(log: seq<Msg>, m: Msg, id: int)
    ensures Announcement(log + [m], id)
            == if Announcement(log, id).None? && m.Added? && m.id == id then Some(m) else Announcement(log, id)
  {
    assert (log + [m])[..|log|] == log;
  }

  lemma {:induction false} AnnouncementStays(log: seq<Msg>, more: seq<Msg>, id: int)
    requires log <= more && Announcement(log, id).Some?
    ensures Announcement(more, id) == Announcement(log, id)
    decreases |more|
  {
    if log == more {
    } else {
      AnnouncementStays(log, more[..|more| - 1], id);
    }
  }

  /** Ids are announced once: any announcement of the id is the first one. */
  lemma {:induction false} AnnouncementIs(log: seq<Msg>, id: int, j: nat)
    requires WellNumbered(log) && j < |log| && log[j].Added? && log[j].id == id
    ensures Announcement(log, id) == Some(log[j])
    decreases |log|
  {
    var n := |log| - 1;
    if j == n {
      NotYetAnnounced(log[..n], id);
    } else {
      AnnouncementIs(log[..n], id, j);
    }
  }

  lemma {:induction false} NotYetAnnounced(log: seq<Msg>, id: int)
    requires WellNumbered(log) && id >= NumAdds(log)
    ensures Announcement(log, id) == None
    decreases |log|
  {
    if log != [] { NotYetAnnounced(log[..|log| - 1], id); }
  }

  /** Same name, same properties with the same initial values, in the same order. */
  predicate SameModule(a: Option<Msg>, b: Option<Msg>) {
    a.Some? && b.Some? && a.value.Added? && b.value.Added?
    && a.value.name == b.value.name && a.value.properties == b.value.properties
  }

  /* ---- Over runs ---- */

  ghost predicate Echoed(s: Sys, l: int, o: Origin) {
    o.Of? ==>
      && o.peer < |s.peers|
      && SameModule(Announcement(s.host.handled, l), Announcement(s.peers[o.peer].inst.handled, o.remote))
  }

  /** The registration that the network thread waits for is that of the announced module. */
  ghost predicate AwaitsAnnounced(s: Sys) {
    s.net.Registering? ==>
      && s.net.peer < |s.peers|
      && Announcement(s.peers[s.net.peer].inst.handled, s.net.remote)
         == Some(Added(s.net.remote, s.net.mod.name, s.net.mod.properties))
  }

  ghost predicate EchoOk(s: Sys) {
    (forall l :: 0 <= l < |s.host.origins| ==> Echoed(s, l, s.host.origins[l])) && AwaitsAnnounced(s)
  }

  ghost predicate LogsGrow(s: Sys, z: Sys) {
    && s.host.handled <= z.host.handled && |s.peers| <= |z.peers|
    && forall p :: 0 <= p < |s.peers| ==> s.peers[p].inst.handled <= z.peers[p].inst.handled
  }

  lemma HostLogGrows(s: Sys, e: Event)
    requires Can(s, e)
    ensures s.host.handled <= Do(s, e).host.handled
  {
    if e.HostApp? {
      AppStepGrows(s.host, e.app);
    } else if e.HostRun? {
      RunHeadGrows(s.host);
      RunsHead(s);
    } else {
      OthersPost(s, e);
    }
  }

  lemma PeerLogGrows(s: Sys, e: Event, p: nat)
    requires Can(s, e) && p < |s.peers|
    ensures p < |Do(s, e).peers| && s.peers[p].inst.handled <= Do(s, e).peers[p].inst.handled
  {
    if e.PeerApp? && e.peer == p {
      AppStepGrows(s.peers[p].inst, e.app);
    } else if e.PeerRun? && e.peer == p {
      RunHeadGrows(s.peers[p].inst);
    } else if e.PeerReceive? && e.peer == p {
    } else {
      OthersKeepProcess(s, e, p);
    }
  }

  lemma StepGrowsLogs(s: Sys, e: Event)
    requires Can(s, e)
    ensures LogsGrow(s, Do(s, e))
  {
    HostLogGrows(s, e);
    PeersJoin(s, e);
    forall p | 0 <= p < |s.peers| ensures s.peers[p].inst.handled <= Do(s, e).peers[p].inst.handled { PeerLogGrows(s, e, p); }
  }

  lemma EchoStays(s: Sys, z: Sys, l: int, o: Origin)
    requires LogsGrow(s, z) && Echoed(s, l, o)
    ensures Echoed(z, l, o)
  {
    if o.Of? {
      AnnouncementStays(s.host.handled, z.host.handled, l);
      AnnouncementStays(s.peers[o.peer].inst.handled, z.peers[o.peer].inst.handled, o.remote);
    }
  }

  /** Only a registration asked for by the network thread makes a replicated id. */
  lemma NewOrigins(s: Sys, e: Event)
    requires Can(s, e) && !(e.HostRun? && s.host.tasks[0].TRegister? && s.host.tasks[0].origin.Of?)
    ensures s.host.origins <= Do(s, e).host.origins
    ensures forall l :: |s.host.origins| <= l < |Do(s, e).host.origins| ==> Do(s, e).host.origins[l].Own?
  {
    if e.HostRun? {
      RunsHead(s);
      HeadOrigins(s.host);
    } else {
      OriginsStay(s, e);
    }
  }

  /** Only a read makes the network thread wait for a registration. */
  lemma OnlyReadsAwait(s: Sys, e: Event)
    requires Can(s, e) && !e.Read? && !(e.HostRun? && s.host.tasks[0].TRegister? && s.host.tasks[0].origin.Of?)
    ensures Do(s, e).net == s.net || !Do(s, e).net.Registering?
  {}

  /** What a step leaves to show. */
  ghost predicate NewAreEchoed(s: Sys, z: Sys) {
    && s.host.origins <= z.host.origins && AwaitsAnnounced(z)
    && forall l :: |s.host.origins| <= l < |z.host.origins| ==> Echoed(z, l, z.host.origins[l])
  }

  lemma NewEcho(s: Sys)
    requires NetOk(s) && TableOk(s.host) && TasksOk(s.host) && RemotesOk(s) && AwaitsAnnounced(s)
    requires s.host.tasks != [] && s.host.tasks[0].TRegister? && s.host.tasks[0].origin.Of?
    ensures NewAreEchoed(s, RunHost(s))
  {
    HostRegisters(s);
    RegistrationIsTheNets(s);
    StepGrowsLogs(s, HostRun);
    NewIsAnnounced(s.host);
  }

  lemma NewIsAnnounced(h: Inst)
    requires TableOk(h) && h.tasks != [] && h.tasks[0].TRegister?
    ensures Announcement(RunHead(h).0.handled, |h.origins|) == Some(AddedMsg(|h.origins|, h.tasks[0].mod))
  {
    var l, m := |h.origins|, h.tasks[0].mod;
    assert RunHead(h).0.handled == h.handled + [AddedMsg(l, m)];
    NotYetAnnounced(h.handled, l);
    AnnouncementNext(h.handled, AddedMsg(l, m), l);
  }

  lemma ReadAwaits(s: Sys, c: nat)
    requires PeersOk(s) && CanRead(s, c)
    ensures AwaitsAnnounced(ReadMsg(s, c))
  {
    var q := s.peers[s.live[c]];
    assert PeerOk(q);
    assert q.inst.sent[q.taken] == q.inst.handled[q.taken];
    if q.inst.sent[q.taken].Added? { AnnouncementIs(q.inst.handled, q.inst.sent[q.taken].id, q.taken); }
  }

  lemma AwaitStays(s: Sys, z: Sys)
    requires AwaitsAnnounced(s) && LogsGrow(s, z) && z.net == s.net
    ensures AwaitsAnnounced(z)
  {
    if s.net.Registering? { AnnouncementStays(s.peers[s.net.peer].inst.handled, z.peers[s.net.peer].inst.handled, s.net.remote); }
  }

  lemma EchoAll(s: Sys, z: Sys)
    requires LogsGrow(s, z) && EchoOk(s) && NewAreEchoed(s, z)
    ensures EchoOk(z)
  {
    forall l | 0 <= l < |z.host.origins| ensures Echoed(z, l, z.host.origins[l]) {
      if l < |s.host.origins| { EchoStays(s, z, l, s.host.origins[l]); }
    }
  }

  lemma {:induction false} EchoStep(s: Sys, e: Event)
    requires PeersOk(s) && NetOk(s) && TableOk(s.host) && TasksOk(s.host) && RemotesOk(s) && EchoOk(s) && Can(s, e)
    ensures EchoOk(Do(s, e))
  {
    StepGrowsLogs(s, e);
    if e.HostRun? && s.host.tasks[0].TRegister? && s.host.tasks[0].origin.Of? {
      NewEcho(s);
    } else {
      NewOrigins(s, e);
      StillAwaits(s, e);
    }
    EchoAll(s, Do(s, e));
  }

  lemma {:induction false} StillAwaits(s: Sys, e: Event)
    requires PeersOk(s) && AwaitsAnnounced(s) && Can(s, e) && LogsGrow(s, Do(s, e))
    requires !(e.HostRun? && s.host.tasks[0].TRegister? && s.host.tasks[0].origin.Of?)
    ensures AwaitsAnnounced(Do(s, e))
  {
    if e.Read? {
      ReadAwaits(s, e.client);
    } else {
      OnlyReadsAwait(s, e);
      if Do(s, e).net == s.net { AwaitStays(s, Do(s, e)); }
    }
  }

  lemma {:induction false} RunsEcho(es: seq<Event>)
    ensures EchoOk(Run(es))
    decreases |es|
  {
    if es != [] {
      var s, e := Run(es[..|es| - 1]), es[|es| - 1];
      RunsEcho(es[..|es| - 1]);
      RunsKeep(es[..|es| - 1]);
      if Can(s, e) { EchoStep(s, e); }
    }
  }

  /** In every reachable state, each id that the host gave to module r of process p is announced by the
      host with exactly the name and the properties, initial values and flags included, that the
      process announced under r, and under no other. */
  lemma {:induction false} HostAnnouncesTheOwnersModule(es: seq<Event>, l: int, j: nat)
    requires var s := Run(es); 0 <= l < |s.host.origins| && s.host.origins[l].Of?
    requires var s := Run(es); j < |s.host.handled| && s.host.handled[j].Added? && s.host.handled[j].id == l
    ensures var s := Run(es); var o := s.host.origins[l];
            && o.peer < |s.peers|
            && Added(o.remote, s.host.handled[j].name, s.host.handled[j].properties) in s.peers[o.peer].inst.handled
            && forall m <- s.peers[o.peer].inst.handled :: m.Added? && m.id == o.remote ==>
                 m.name == s.host.handled[j].name && m.properties == s.host.handled[j].properties
  {
    RunsEcho(es);
    var s := Run(es);
    var o := s.host.origins[l];
    var log := s.peers[o.peer].inst.handled;
    assert Echoed(s, l, o);
    assert WellNumbered(s.host.handled) && WellNumbered(log) by { RunsAreNumbered(es, o.peer); }
    AnnouncementIs(s.host.handled, l, j);
    AnnouncementIn(log, o.remote);
    forall m | m in log && m.Added? && m.id == o.remote ensures Announcement(log, o.remote) == Some(m) {
      var i :| 0 <= i < |log| && log[i] == m;
      AnnouncementIs(log, o.remote, i);
    }
  }

  lemma {:induction false} RunsAreNumbered(es: seq<Event>, p: nat)
    requires p < |Run(es).peers|
    ensures WellNumbered(Run(es).host.handled) && WellNumbered(Run(es).peers[p].inst.handled)
  {
    RunsKeep(es);
    assert PeerOk(Run(es).peers[p]);
  }

  /* ---- Updates ---- */

  /** What is told of a replicated id was told by its owner. */
  ghost predicate Told(s: Sys, l: int, ups: seq<Update>) {
    0 <= l < |s.host.origins| && s.host.origins[l].Of? ==>
      && s.host.origins[l].peer < |s.peers|
      && Updated(s.host.origins[l].remote, ups) in s.peers[s.host.origins[l].peer].inst.handled
  }

  ghost predicate ToldOk(s: Sys) {
    && (forall m <- s.host.handled :: m.Updated? ==> Told(s, m.id, m.updates))
    && (forall t <- s.host.tasks :: t.TSend? ==> Told(s, t.id, t.updates))
    && (s.net.Updating? ==> Told(s, s.net.local, s.net.updates))
  }

  lemma ToldStays(s: Sys, z: Sys, l: int, ups: seq<Update>)
    requires Told(s, l, ups) && LogsGrow(s, z) && s.host.origins <= z.host.origins && l < |s.host.origins|
    ensures Told(z, l, ups)
  {}

  lemma OwnIsTold(s: Sys, l: int, ups: seq<Update>)
    requires l < |s.host.origins| ==> Owned(s.host, l) || l < 0
    requires l < |s.host.origins|
    ensures Told(s, l, ups)
  {}

  /** What a step adds to the messages handled, and to the sends to come. */
  ghost predicate AddsTold(s: Sys, z: Sys) {
    && (forall m <- z.host.handled :: m.Updated? ==> m in s.host.handled || TSend(m.id, m.updates) in s.host.tasks || Told(z, m.id, m.updates))
    && (forall t <- z.host.tasks :: t.TSend? ==> t in s.host.tasks || Told(z, t.id, t.updates))
    && (z.net.Updating? ==> z.net == s.net || Told(z, z.net.local, z.net.updates))
  }

  lemma {:induction false} KnownIds(log: seq<Msg>, m: Msg)
    requires WellNumbered(log) && m in log
    ensures m.id < NumAdds(log)
    decreases |log|
  {
    if m in log[..|log| - 1] {
      KnownIds(log[..|log| - 1], m);
    } else {
      assert m == log[|log| - 1];
    }
  }

  lemma AppTells(s: Sys, a: AppEvent)
    requires Can(s, HostApp(a)) && TasksOk(s.host)
    ensures AddsTold(s, Do(s, HostApp(a)))
  {
    var z := Do(s, HostApp(a));
    if a.CallbackUpdate? {
      OwnIsTold(z, a.id, a.updates);
    } else if a.AppSend? {
      OwnIsTold(z, s.host.calling[a.thread].id, s.host.calling[a.thread].updates);
    }
  }

  lemma RunTells(s: Sys)
    requires s.host.tasks != []
    ensures AddsTold(s, RunHost(s))
  {
    RunHeadGrows(s.host);
    assert RunHost(s).host == RunHead(s.host).0;
    HeadTells(s.host);
    assert forall t <- s.host.tasks[1..] :: t in s.host.tasks;
  }

  lemma HeadTells(h: Inst)
    requires h.tasks != []
    ensures forall m <- RunHead(h).0.handled :: m.Updated? ==> m in h.handled || TSend(m.id, m.updates) in h.tasks
  {
    assert h.tasks[0] in h.tasks;
  }

  lemma ReadTells(s: Sys, c: nat)
    requires CanRead(s, c) && PeersOk(s) && RemotesOk(s) && LiveOk(s) && s.net.Idle?
    ensures AddsTold(s, ReadMsg(s, c))
  {
    var q := s.peers[s.live[c]];
    assert PeerOk(q);
    var m := q.inst.sent[q.taken];
    assert m == q.inst.handled[q.taken];
    if m.Updated? {
      var l := LocalId(s.remotes, m.id, c);
      if l != -1 { assert Maps(s.remotes, l, m.id, c); }
      assert m in ReadMsg(s, c).peers[s.live[c]].inst.handled;
    }
  }

  lemma RestTells(s: Sys, e: Event)
    requires Can(s, e) && !e.HostApp? && !e.HostRun? && !e.Read? && ToldOk(s)
    ensures AddsTold(s, Do(s, e))
  {
    OthersPost(s, e);
    OthersSend(s, e);
    OthersUpdate(s, e);
  }

  /** The send that the network thread posts is the one it has pending. */
  lemma OthersSend(s: Sys, e: Event)
    requires Can(s, e) && !e.HostApp? && !e.HostRun? && !e.Read? && (s.net.Updating? ==> Told(s, s.net.local, s.net.updates))
    ensures forall t <- PostedBy(s, e) :: t.TSend? ==> Told(Do(s, e), t.id, t.updates)
  {}

  lemma OthersUpdate(s: Sys, e: Event)
    requires Can(s, e) && !e.HostApp? && !e.HostRun? && !e.Read?
    ensures Do(s, e).net.Updating? ==> Do(s, e).net == s.net
  {}

  lemma ToldStep(s: Sys, e: Event)
    requires Inv(s) && ToldOk(s) && Can(s, e)
    ensures ToldOk(Do(s, e))
  {
    var z := Do(s, e);
    StepGrowsLogs(s, e);
    assert s.host.origins <= z.host.origins by { OriginsGrow(s, e); }
    if e.HostApp? {
      AppTells(s, e.app);
    } else if e.HostRun? {
      RunTells(s);
    } else if e.Read? {
      ReadTells(s, e.client);
    } else {
      RestTells(s, e);
    }
    StillTold(s, z);
  }

  lemma OriginsGrow(s: Sys, e: Event)
    requires Can(s, e)
    ensures s.host.origins <= Do(s, e).host.origins
  {
    if e.HostRun? {
      RunsHead(s);
      HeadOrigins(s.host);
    } else {
      OriginsStay(s, e);
    }
  }

  lemma StillTold(s: Sys, z: Sys)
    requires NetOk(s) && TasksOk(s.host) && TableOk(s.host) && ToldOk(s) && AddsTold(s, z) && LogsGrow(s, z) && s.host.origins <= z.host.origins
    ensures ToldOk(z)
  {
    forall m | m in z.host.handled && m.Updated? ensures Told(z, m.id, m.updates) {
      if m in s.host.handled {
        KnownIds(s.host.handled, m);
        ToldStays(s, z, m.id, m.updates);
      } else if TSend(m.id, m.updates) in s.host.tasks {
        assert TaskIdOk(s.host, TSend(m.id, m.updates));
        ToldStays(s, z, m.id, m.updates);
      }
    }
    forall t | t in z.host.tasks && t.TSend? ensures Told(z, t.id, t.updates) {
      if t in s.host.tasks {
        assert TaskIdOk(s.host, t);
        ToldStays(s, z, t.id, t.updates);
      }
    }
    if z.net.Updating? && z.net == s.net { ToldStays(s, z, s.net.local, s.net.updates); }
  }

  lemma {:induction false} RunsTell(es: seq<Event>)
    ensures ToldOk(Run(es))
    decreases |es|
  {
    if es != [] {
      var s, e := Run(es[..|es| - 1]), es[|es| - 1];
      RunsTell(es[..|es| - 1]);
      RunsKeep(es[..|es| - 1]);
      if Can(s, e) { ToldStep(s, e); }
    }
  }

  /** In every reachable state, each update that the host has told its listeners of a replicated module
      is one that the module's owner has told the host, with the same list. */
  lemma {:induction false} HostTellsTheOwnersUpdates(es: seq<Event>, m: Msg)
    requires var s := Run(es); m in s.host.handled && m.Updated? && 0 <= m.id < |s.host.origins| && s.host.origins[m.id].Of?
    ensures var s := Run(es); var o := s.host.origins[m.id];
            o.peer < |s.peers| && Updated(o.remote, m.updates) in s.peers[o.peer].inst.handled
  {
    RunsTell(es);
    assert Told(Run(es), m.id, m.updates);
  }
}
