/** The host's translation table as an object, and the connection attempt that decides the mode.
    Iteration over the table is in ascending key order. */
module ProxyServer {
  import opened Model
  import opened Instance
  import opened Network
  import opened NetworkInvariant
  import opened Replication
  import opened ModuleManager
  import opened Order

  function KeysOf(remotes: map<int, Remote>, c: nat): set<int> {
    set l | l in remotes && remotes[l].client == c
  }

  function Without(remotes: map<int, Remote>, c: nat): map<int, Remote> {
    map l | l in remotes && remotes[l].client != c :: remotes[l]
  }

  function Unregistrations(ids: seq<int>): seq<Task> {
    seq(|ids|, i requires 0 <= i < |ids| => TUnregister(ids[i]))
  }

  lemma UnregistrationsMore(tasks: seq<Task>, ids: seq<int>, l: int)
    ensures tasks + Unregistrations(ids) + [TUnregister(l)] == tasks + Unregistrations(ids + [l])
  {}

  /** Part of the walk is done: the entries in rest are still to be looked at. */
  ghost predicate Walked(before: map<int, Remote>, now: map<int, Remote>, rest: set<int>, c: nat, ids: seq<int>) {
    && rest <= now.Keys <= before.Keys
    && (forall l :: l in now ==> now[l] == before[l] && (now[l].client == c ==> l in rest))
    && (forall l :: l in before && l !in now <==> l in ids)
    && (forall l :: l in ids ==> l in before && before[l].client == c)
    && Ascending(ids) && (forall i, l :: 0 <= i < |ids| && l in rest ==> ids[i] < l)
  }

  lemma WalkStep(before: map<int, Remote>, now: map<int, Remote>, rest: set<int>, c: nat, ids: seq<int>, l: int)
    requires Walked(before, now, rest, c, ids) && l in rest && forall j :: j in rest ==> l <= j
    ensures l in now
    ensures now[l].client == c ==> Walked(before, now - {l}, rest - {l}, c, ids + [l])
    ensures now[l].client != c ==> Walked(before, now, rest - {l}, c, ids)
  {}

  lemma WalkEnds(before: map<int, Remote>, now: map<int, Remote>, c: nat, ids: seq<int>)
    requires Walked(before, now, {}, c, ids)
    ensures now == Without(before, c)
    ensures Ascending(ids) && forall l :: l in ids <==> l in KeysOf(before, c)
  {
    forall l ensures (l in now <==> l in Without(before, c)) && (l in ids <==> l in KeysOf(before, c)) {
      assert l in before && l !in now <==> l in ids;
    }
    assert forall l :: l in now ==> now[l] == Without(before, c)[l];
  }

  const NO_CLIENT: nat := 0xFFFF_FFFF   // the value -1 of an unsigned 32-bit client id

  class ProxyServerObject {
    var remoteModules: map<int, Remote>
    const manager: Manager

    constructor (manager: Manager)
      ensures this.manager == manager && remoteModules == map[]
    {
      this.manager, remoteModules := manager, map[];
    }

    /** Insertion into a map does not replace an entry. */
    method AddModule(localId: int, remoteId: int, client: nat)
      modifies this`remoteModules
      ensures remoteModules == if localId in old(remoteModules) then old(remoteModules) else old(remoteModules)[localId := Remote(remoteId, client)]
    {
      if localId !in remoteModules {
        remoteModules := remoteModules[localId := Remote(remoteId, client)];
      }
    }

    method RemoveModule(localId: int)
      modifies this`remoteModules
      ensures remoteModules == old(remoteModules) - {localId}
    {
      remoteModules := remoteModules - {localId};
    }

    /** The least id that stands for the client's module, or -1; where entries are one to one this is
        the id of the step system. */
    method LocalIdFromRemote(remoteId: int, client: nat) returns (l: int)
      ensures l == -1 || Maps(remoteModules, l, remoteId, client)
      ensures forall k :: Maps(remoteModules, k, remoteId, client) ==> l in remoteModules && l <= k
      ensures OneToOne(remoteModules) && -1 !in remoteModules ==> l == LocalId(remoteModules, remoteId, client)
    {
      var rest := remoteModules.Keys;
      while rest != {}
        invariant rest <= remoteModules.Keys
        invariant forall k :: Maps(remoteModules, k, remoteId, client) ==> k in rest
        decreases |rest|
      {
        var k := Least(rest);
        if remoteModules[k] == Remote(remoteId, client) {
          assert Maps(remoteModules, k, remoteId, client);
          return k;
        }
        rest := rest - {k};
      }
      return -1;
    }

    method RemoteIdFromLocal(localId: int) returns (r: int, c: nat)
      ensures if localId in remoteModules then Remote(r, c) == remoteModules[localId] else r == -1 && c == NO_CLIENT
    {
      if localId in remoteModules {
        return remoteModules[localId].id, remoteModules[localId].client;
      }
      return -1, NO_CLIENT;
    }

    /** Walks over the table and erases while walking: exactly the client's entries go, an
        unregistration is posted for each of them in ascending order, the others stay. */
    method RemoveClientsModules(client: nat) returns (ghost ids: seq<int>)
      requires manager.Valid()
      modifies this`remoteModules, manager`modules, manager`loop, manager`msgQueue, manager`pushed, manager`handled
      ensures manager.Valid()
      ensures remoteModules == Without(old(remoteModules), client)
      ensures Ascending(ids) && (forall l :: l in ids <==> l in KeysOf(old(remoteModules), client))
      ensures manager.loop == old(manager.loop) + Unregistrations(ids)
      ensures unchanged(manager`modules, manager`msgQueue, manager`pushed, manager`handled)
    {
      ids := [];
      var rest := remoteModules.Keys;
      ghost var before, tasks := remoteModules, manager.loop;
      while rest != {}
        invariant manager.Valid() && Walked(before, remoteModules, rest, client, ids)
        invariant unchanged(manager`modules, manager`msgQueue, manager`pushed, manager`handled)
        invariant manager.loop == tasks + Unregistrations(ids)
        decreases |rest|
      {
        var l := Least(rest);
        WalkStep(before, remoteModules, rest, client, ids, l);
        if remoteModules[l].client == client {
          manager.UnregisterModule(false, l);
          remoteModules := remoteModules - {l};
          UnregistrationsMore(tasks, ids, l);
          ids := ids + [l];
        }
        rest := rest - {l};
      }
      WalkEnds(before, remoteModules, client, ids);
    }

    /** The state of the step system that this object and its manager are. */
    ghost predicate Is(s: Sys)
      reads this, manager, manager.modules.Values
    {
      s.host == manager.View() && s.remotes == remoteModules
    }

    /** The branch of a removal. */
    method OnRemoved(remoteId: int, client: nat)
      requires manager.Valid() && OneToOne(remoteModules) && -1 !in remoteModules
      modifies this`remoteModules, manager`modules, manager`loop, manager`msgQueue, manager`pushed, manager`handled
      ensures manager.Valid()
      ensures var l := LocalId(old(remoteModules), remoteId, client);
              manager.View() == Post(old(manager.View()), TUnregister(l)) && remoteModules == old(remoteModules) - {l}
    {
      var l := LocalIdFromRemote(remoteId, client);
      manager.UnregisterModule(false, l);
      RemoveModule(l);
    }

    /** The branch of an update. */
    method OnUpdated(remoteId: int, ups: seq<Update>, client: nat)
      requires manager.Valid() && OneToOne(remoteModules) && -1 !in remoteModules
      modifies manager`loop, manager`msgQueue, manager`pushed, manager`handled
      ensures manager.Valid()
      ensures var l := LocalId(remoteModules, remoteId, client);
              manager.View() == Post(Post(old(manager.View()), TSave(l, ups)), TSend(l, ups))
    {
      var l := LocalIdFromRemote(remoteId, client);
      var threw := manager.UpdateProperties(false, l, ups);
    }

    /** Reads the next message of a client. A removal and an update are dealt with in this call, as by
        the two steps of the network thread. An announcement posts the registration and waits: this is
        the first of its two steps, and OnRegistered is the second. */
    method OnClientRead(client: nat, peer: nat, msg: Msg, ghost s: Sys) returns (waits: bool)
      requires manager.Valid() && OneToOne(remoteModules) && -1 !in remoteModules && Is(s)
      requires CanRead(s, client) && s.live[client] == peer && msg == s.peers[peer].inst.sent[s.peers[peer].taken]
      modifies this`remoteModules, manager`modules, manager`loop, manager`msgQueue, manager`pushed, manager`handled
      ensures manager.Valid() && waits == msg.Added?
      ensures waits ==> Is(ReadMsg(s, client)) && ReadMsg(s, client).net == Registering(client, peer, msg.id, Received(msg))
      ensures !waits ==> Can(ReadMsg(s, client), Continue) && Is(ContinueNet(ReadMsg(s, client)))
    {
      ReadsThrough(s, client);
      waits := msg.Added?;
      match msg
      case Added(r, name, ps) =>
        manager.PostRegistration(Module(name, ps, false), Of(peer, r));
      case Removed(r) =>
        OnRemoved(r, client);
      case Updated(r, ups) =>
        OnUpdated(r, ups, client);
    }

    /** The promise is kept: the rest of the call that read the announcement. In every reachable state the
        id is not in the table yet. */
    method OnRegistered(localId: int, remoteId: int, client: nat, ghost s: Sys)
      requires Is(s) && NetOk(s) && s.net.Registered? && s.net == Registered(client, s.net.peer, remoteId, localId)
      modifies this`remoteModules
      ensures Is(ContinueNet(s))
      ensures Maps(remoteModules, localId, remoteId, client)
    {
      AddModule(localId, remoteId, client);
    }

    /** The client to send an apply to and what to send, if the module is translated and its client
        is there. No client has the id that stands for none. */
    method HandlePropertyUpdate(a: Apply, connected: set<nat>) returns (to: Option<nat>, out: Apply)
      requires NO_CLIENT !in connected
      ensures to.Some? <==> a.id in remoteModules && remoteModules[a.id].client in connected
      ensures to.Some? ==> to.value == remoteModules[a.id].client && out == a.(id := remoteModules[a.id].id)
    {
      var r, c := RemoteIdFromLocal(a.id);
      to, out := None, a;
      if c in connected {
        to, out := Some(c), a.(id := r);
      }
    }
  }

  /** The one or two steps of a read as changes to the host's tasks and to the table. */
  lemma ReadsThrough(s: Sys, c: nat)
    requires CanRead(s, c)
    ensures var m, z := s.peers[s.live[c]].inst.sent[s.peers[s.live[c]].taken], ReadMsg(s, c);
            var l := LocalId(s.remotes, m.id, c);
            && (m.Added? ==> z.host == Post(s.host, TRegister(Received(m), Of(s.live[c], m.id))) && z.remotes == s.remotes
                             && z.net == Registering(c, s.live[c], m.id, Received(m)))
            && (!m.Added? ==> Can(z, Continue))
            && (m.Removed? ==> ContinueNet(z).host == Post(s.host, TUnregister(l)) && ContinueNet(z).remotes == s.remotes - {l})
            && (m.Updated? ==> ContinueNet(z).host == Post(Post(s.host, TSave(l, m.updates)), TSend(l, m.updates)) && ContinueNet(z).remotes == s.remotes)
  {}

  /* ---- The walk as steps of the network thread ---- */

  function WalkEvents(ids: seq<int>): seq<Event> {
    if ids == [] then [CloseDone] else [CloseNext(ids[0]), Continue] + WalkEvents(ids[1..])
  }

  ghost function RunFrom(s: Sys, es: seq<Event>): Sys
    decreases |es|
  {
    if es == [] then s else RunFrom(Step(s, es[0]), es[1..])
  }

  /** When nothing comes between, the thread's steps for a closing client do to table and tasks what
      RemoveClientsModules does, and change nothing else. */
  lemma {:induction false} WalkIsRemoveClientsModules(s: Sys, ids: seq<int>)
    requires s.net.Closing? && Ascending(ids) && forall l :: l in ids <==> l in KeysOf(s.remotes, s.net.client)
    ensures RunFrom(s, WalkEvents(ids))
            == s.(remotes := Without(s.remotes, s.net.client), host := s.host.(tasks := s.host.tasks + Unregistrations(ids)), net := Idle)
    decreases |ids|
  {
    if ids == [] {
      WalkStops(s);
      assert s.host.tasks + Unregistrations(ids) == s.host.tasks;
    } else {
      var t := s.(remotes := s.remotes - {ids[0]}, host := Post(s.host, TUnregister(ids[0])));
      WalkOne(s, ids);
      WalkUnfolds(s, ids);
      RestOfWalk(s.remotes, s.net.client, ids);
      WalkIsRemoveClientsModules(t, ids[1..]);
      FirstOfWalk(s.host.tasks, ids);
    }
  }

  lemma WalkStops(s: Sys)
    requires s.net.Closing? && forall l :: l !in KeysOf(s.remotes, s.net.client)
    ensures RunFrom(s, WalkEvents([])) == s.(net := Idle) && Without(s.remotes, s.net.client) == s.remotes
  {
    forall l | l in s.remotes ensures s.remotes[l].client != s.net.client { assert l !in KeysOf(s.remotes, s.net.client); }
    assert WalkEvents([])[1..] == [];
  }

  lemma WalkUnfolds(s: Sys, ids: seq<int>)
    requires ids != []
    ensures RunFrom(s, WalkEvents(ids)) == RunFrom(Step(Step(s, CloseNext(ids[0])), Continue), WalkEvents(ids[1..]))
  {
    assert WalkEvents(ids)[1..] == [Continue] + WalkEvents(ids[1..]);
    assert WalkEvents(ids)[1..][1..] == WalkEvents(ids[1..]);
  }

  lemma FirstOfWalk(tasks: seq<Task>, ids: seq<int>)
    requires ids != []
    ensures tasks + Unregistrations(ids) == tasks + [TUnregister(ids[0])] + Unregistrations(ids[1..])
  {
    assert Unregistrations(ids) == [TUnregister(ids[0])] + Unregistrations(ids[1..]);
  }

  lemma WalkOne(s: Sys, ids: seq<int>)
    requires s.net.Closing? && ids != [] && Ascending(ids) && forall l :: l in ids <==> l in KeysOf(s.remotes, s.net.client)
    ensures Step(Step(s, CloseNext(ids[0])), Continue) == s.(remotes := s.remotes - {ids[0]}, host := Post(s.host, TUnregister(ids[0])))
  {
    assert ids[0] in ids;
    forall k | k in s.remotes && s.remotes[k].client == s.net.client ensures ids[0] <= k {
      assert k in KeysOf(s.remotes, s.net.client);
      var i :| 0 <= i < |ids| && ids[i] == k;
    }
    assert IsNext(s.remotes, s.net.client, ids[0]);
  }

  lemma RestOfWalk(remotes: map<int, Remote>, c: nat, ids: seq<int>)
    requires ids != [] && Ascending(ids) && forall l :: l in ids <==> l in KeysOf(remotes, c)
    ensures Ascending(ids[1..]) && forall l :: l in ids[1..] <==> l in KeysOf(remotes - {ids[0]}, c)
    ensures Without(remotes - {ids[0]}, c) == Without(remotes, c)
  {
    assert ids == [ids[0]] + ids[1..];
    forall l ensures l in ids[1..] <==> l in KeysOf(remotes - {ids[0]}, c) {
      if l in ids[1..] {
        var i :| 0 <= i < |ids| - 1 && ids[1..][i] == l;
        assert ids[i + 1] == l && l in ids;
      }
      if l in KeysOf(remotes - {ids[0]}, c) {
        assert l in KeysOf(remotes, c) && l in ids;
      }
    }
    assert ids[0] in ids && ids[0] in KeysOf(remotes, c);
  }

  /* ---- The connection attempt ---- */

  /** Takes part in the network as a client, or opens a server when nobody answers. */
  class ProxyObject {
    var initialized: bool
    var hasClient: bool
    var hasServer: bool
    const manager: Manager

    constructor (manager: Manager)
      ensures this.manager == manager && !initialized && !hasClient && !hasServer
    {
      this.manager, initialized, hasClient, hasServer := manager, false, false, false;
    }

    /** At most one of the two roles is taken, and none before the first attempt. */
    ghost predicate Decided()
      reads this
    {
      if initialized then hasClient != hasServer else !hasClient && !hasServer
    }

    /** The first attempt decides for good; later ones neither change the role nor reach the manager. */
    method OnClientConnecting(ok: bool) returns (accepted: bool)
      requires Decided() && manager.Valid()
      modifies this, manager`initialized, manager`hostMode, manager`msgQueue, manager`pushed, manager`loop
      ensures Decided() && initialized && manager.Valid()
      ensures accepted == ok
      ensures if old(initialized) then hasClient == old(hasClient) && hasServer == old(hasServer) && manager.View() == old(manager.View())
              else hasServer == !ok && manager.View() == Post(old(manager.View()), TInit(!ok))
    {
      if initialized {
        return ok;
      }
      initialized := true;
      if ok { hasClient := true; } else { hasServer := true; }
      manager.OnProxyInitialized(false, hasServer);
      accepted := ok;
    }
  }
}
