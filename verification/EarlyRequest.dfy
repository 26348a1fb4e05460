/** A run in which a page's request comes too early: after the host registered a replicated module and
    before it stored the translation. */
module EarlyRequest {
  import opened Model
  import opened Instance
  import opened Network
  import opened Effects
  import opened Replication
  import opened BrowserWrites

  const TEXT_MODULE := Module("m", [Property(3, "t", "", false)], true)

  /** A process joins and registers a module. */
  const ANNOUNCED: seq<Event> := [
    HostApp(Decide(true)), HostRun, Join(0),
    PeerApp(0, Decide(false)), PeerRun(0), PeerApp(0, AppRegister(TEXT_MODULE)), PeerRun(0)]

  /** The host registers the module too; a browser's request for it runs there before the network
      thread has stored the translation. */
  const EARLY_REQUEST: seq<Event> := ANNOUNCED + [Read(0), HostRun, BrowserApply(0, [Update(0, "x")]), HostRun, Continue]

  const HOST_ALONE := FRESH.(decided := Some(true), mode := Some(true))
  const PEER_ANNOUNCED := Peer(
    FRESH.(decided := Some(false), mode := Some(false), modules := map[0 := TEXT_MODULE], origins := [Instance.Own],
           handled := [AddedMsg(0, TEXT_MODULE)], sent := [AddedMsg(0, TEXT_MODULE)]), 0, [], [])

  lemma Announces(i: Inst, m: Module)
    requires i == FRESH.(decided := Some(false), mode := Some(false))
    ensures AppStep(i, AppRegister(m)).tasks != []
    ensures RunHead(AppStep(i, AppRegister(m))).0
            == i.(modules := map[0 := m], origins := [Instance.Own], handled := [AddedMsg(0, m)], sent := [AddedMsg(0, m)])
  {
    var j := AppStep(i, AppRegister(m));
    assert j.tasks == [TRegister(m, Instance.Own)] && j.tasks[1..] == [];
  }

  lemma AnnouncedState()
    ensures Run(ANNOUNCED) == START.(host := HOST_ALONE, peers := [PEER_ANNOUNCED], live := map[0 := 0])
  {
    Initializes(true);
    Initializes(false);
    var ready := FRESH.(decided := Some(false), mode := Some(false));
    Announces(ready, TEXT_MODULE);
    var s2 := START.(host := HOST_ALONE);
    var s3 := s2.(peers := [Peer(FRESH, 0, [], [])], live := map[0 := 0]);
    var s4 := s3.(peers := [Peer(AppStep(FRESH, Decide(false)), 0, [], [])]);
    var s5 := s3.(peers := [Peer(ready, 0, [], [])]);
    var s6 := s3.(peers := [Peer(AppStep(ready, AppRegister(TEXT_MODULE)), 0, [], [])]);
    var e1 := [HostApp(Decide(true))];
    RunNext([], HostApp(Decide(true)));
    assert [] + e1 == e1;
    RunNext(e1, HostRun);
    assert Run(e1 + [HostRun]) == s2;
    RunNext(e1 + [HostRun], Join(0));
    var e3 := e1 + [HostRun] + [Join(0)];
    assert Run(e3) == s3;
    RunNext(e3, PeerApp(0, Decide(false)));
    var e4 := e3 + [PeerApp(0, Decide(false))];
    assert Run(e4) == s4;
    RunNext(e4, PeerRun(0));
    var e5 := e4 + [PeerRun(0)];
    assert Run(e5) == s5;
    RunNext(e5, PeerApp(0, AppRegister(TEXT_MODULE)));
    var e6 := e5 + [PeerApp(0, AppRegister(TEXT_MODULE))];
    assert Run(e6) == s6;
    RunNext(e6, PeerRun(0));
    assert e6 + [PeerRun(0)] == ANNOUNCED;
  }

  const HOST_COPY := TEXT_MODULE.(hasCallback := false)
  const WRITTEN_COPY := HOST_COPY.(properties := [Property(3, "t", "x", false)])
  const EARLY := Apply(0, [Update(0, "x")], 0)

  lemma EarlyApply()
    ensures UpdateModule(HOST_COPY, EARLY.updates) == WRITTEN_COPY
    ensures NonNegative(EARLY.updates)
  {
    var ps := HOST_COPY.properties;
    assert SetProperty(ps, Update(0, "x")) == WRITTEN_COPY.properties;
    assert EARLY.updates[1..] == [];
  }

  const HOST_HOLDS := HOST_ALONE.(
    modules := map[0 := HOST_COPY], origins := [Of(0, 0)], handled := [AddedMsg(0, HOST_COPY)], sent := [AddedMsg(0, HOST_COPY)])
  const PROMISED := START.(
    host := HOST_HOLDS, peers := [PEER_ANNOUNCED.(taken := 1, ids := [0])], live := map[0 := 0], net := Registered(0, 0, 0, 0))

  /** The host reads the announcement and registers the module. */
  lemma EarlyRegistration(s: Sys)
    requires s == START.(host := HOST_ALONE, peers := [PEER_ANNOUNCED], live := map[0 := 0])
    ensures Step(Step(s, Read(0)), HostRun) == PROMISED
  {
    var r, q := TRegister(HOST_COPY, Of(0, 0)), PEER_ANNOUNCED.(taken := 1);
    var t1 := s.(host := HOST_ALONE.(tasks := [r]), peers := [q], net := Registering(0, 0, 0, HOST_COPY));
    assert [] + [r] == [r] && [PEER_ANNOUNCED][0 := q] == [q];
    assert Received(AddedMsg(0, TEXT_MODULE)) == HOST_COPY;
    assert ReadMsg(s, 0).host == t1.host;
    assert Step(s, Read(0)) == t1;
    assert t1.host.tasks[1..] == [] && q.ids + [0] == [0];
    assert [AddedMsg(0, HOST_COPY)] == [] + [AddedMsg(0, HOST_COPY)] && [Of(0, 0)] == [] + [Of(0, 0)];
    assert RunHead(t1.host).0 == HOST_HOLDS;
    assert [q][0 := q.(ids := [0])] == [q.(ids := [0])];
  }

  /** The request runs, and only then the translation is stored. */
  lemma EarlyWrite()
    ensures Step(Step(Step(PROMISED, BrowserApply(0, [Update(0, "x")])), HostRun), Continue)
            == PROMISED.(host := HOST_HOLDS.(modules := map[0 := WRITTEN_COPY]), applies := [EARLY], remotes := map[0 := Remote(0, 0)], net := Idle)
  {
    EarlyApply();
    var t3 := PROMISED.(host := HOST_HOLDS.(tasks := [TPass(EARLY)]), applies := [EARLY]);
    assert Step(PROMISED, BrowserApply(0, [Update(0, "x")])) == t3;
    assert t3.host.tasks[1..] == [];
    var t4 := t3.(host := HOST_HOLDS.(modules := map[0 := WRITTEN_COPY]));
    assert Step(t3, HostRun) == t4;
  }

  lemma EarlyState()
    ensures var s := Run(EARLY_REQUEST);
            && s.net.Idle? && s.host.tasks == [] && s.host.modules == map[0 := WRITTEN_COPY] && s.remotes == map[0 := Remote(0, 0)]
            && s.live == map[0 := 0] && s.peers == [PEER_ANNOUNCED.(taken := 1, ids := [0])]
  {
    AnnouncedState();
    EarlyRegistration(Run(ANNOUNCED));
    EarlyWrite();
    var e1 := ANNOUNCED + [Read(0)];
    RunNext(ANNOUNCED, Read(0));
    var e2 := e1 + [HostRun];
    RunNext(e1, HostRun);
    var e3 := e2 + [BrowserApply(0, [Update(0, "x")])];
    RunNext(e2, BrowserApply(0, [Update(0, "x")]));
    var e4 := e3 + [HostRun];
    RunNext(e3, HostRun);
    RunNext(e4, Continue);
    assert e4 + [Continue] == EARLY_REQUEST;
  }

  /** Without running in time the agreement fails: this run drains completely, no call of the owner
      writes the property, and yet the host holds "x" and the owner the empty value it registered. */
  lemma EarlyRequestIsLost()
    ensures var s := Run(EARLY_REQUEST);
            && 0 in s.live && s.live[0] == 0 && |s.peers| == 1 && Drained(s, s.peers[0]) && s.peers[0].down == [] && 0 in s.peers[0].inst.modules
            && CellOf(s.host.modules, LocalId(s.remotes, 0, 0), 0) == Some(Property(3, "t", "x", false))
            && CellOf(s.peers[0].inst.modules, 0, 0) == Some(Property(3, "t", "", false))
    ensures NeverWrittenBy(EARLY_REQUEST, 0, 0, 0)
  {
    EarlyState();
    assert Maps(Run(EARLY_REQUEST).remotes, 0, 0, 0);
  }
}
