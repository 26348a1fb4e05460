/** What every run of the network keeps, and what follows from it: the translation table is a
    bijection, the host's tables agree with it up to pending work, and the host mirrors every
    connected process. */
module NetworkInvariant {
  import opened Model
  import opened Instance
  import opened Network

  /* ---- Each process on its own ---- */

  /** A proxy process registers modules for itself only, and each has a callback. */
  ghost predicate OwnsAll(i: Inst) {
    && (forall o <- i.origins :: o.Own?)
    && (forall id :: id in i.modules ==> i.modules[id].hasCallback)
    && (forall t <- i.tasks :: t.TRegister? ==> t.origin.Own? && t.mod.hasCallback)
  }

  ghost predicate PeerOk(q: Peer) {
    LocalInv(q.inst) && q.taken <= |q.inst.sent| && OwnsAll(q.inst)
  }

  ghost predicate PeersOk(s: Sys) {
    forall p :: 0 <= p < |s.peers| ==> PeerOk(s.peers[p])
  }

  /** The messages of a process that the host has read. */
  function Consumed(q: Peer): seq<Msg>
    requires q.taken <= |q.inst.handled|
  {
    q.inst.handled[..q.taken]
  }

  /** The messages of a process that the host has yet to read, sent or still queued. */
  function Rest(q: Peer): seq<Msg>
    requires q.taken <= |q.inst.handled|
  {
    q.inst.handled[q.taken..]
  }

  /* ---- Connections, and the ids given to their modules ---- */

  ghost predicate LiveOk(s: Sys) {
    && (forall c :: c in s.live ==> s.live[c] < |s.peers|)
    && (forall c, d :: c in s.live && d in s.live && c != d ==> s.live[c] != s.live[d])
  }

  predicate ClosingOf(n: Net, c: nat) {
    (n.Closing? || n.ClosingErase?) && n.client == c
  }

  function PeerOf(s: Sys, c: nat): nat {
    if ClosingOf(s.net, c) then s.net.peer else if c in s.live then s.live[c] else 0
  }

  ghost predicate Doomed(n: Net, l: int) {
    (n.Erasing? || n.ClosingErase?) && n.local == l
  }

  function Waiting(n: Net, p: nat): nat {
    if n.Registering? && n.peer == p then 1 else 0
  }

  /** Every announcement read was given a host id, or waits for one. */
  ghost predicate CountOk(s: Sys, p: nat)
    requires p < |s.peers|
  {
    && s.peers[p].taken <= |s.peers[p].inst.handled|
    && |s.peers[p].ids| + Waiting(s.net, p) == NumAdds(Consumed(s.peers[p]))
  }

  ghost predicate CountsOk(s: Sys) {
    forall p :: 0 <= p < |s.peers| ==> s.peers[p].taken <= |s.peers[p].inst.handled| && CountOk(s, p)
  }

  ghost predicate IdsOk(s: Sys) {
    forall p, r :: 0 <= p < |s.peers| && 0 <= r < |s.peers[p].ids| ==>
      0 <= s.peers[p].ids[r] < |s.host.origins| && s.host.origins[s.peers[p].ids[r]] == Of(p, r)
  }

  ghost predicate OriginOk(s: Sys, l: int, o: Origin) {
    o.Of? ==> o.peer < |s.peers| && 0 <= o.remote < |s.peers[o.peer].ids| && s.peers[o.peer].ids[o.remote] == l
  }

  ghost predicate OriginsOk(s: Sys) {
    forall l :: 0 <= l < |s.host.origins| ==> OriginOk(s, l, s.host.origins[l])
  }

  ghost predicate AllocatedOk(s: Sys) {
    CountsOk(s) && IdsOk(s) && OriginsOk(s)
  }

  /** The registrations that the network thread has posted and that have not run. */
  function NetRegistration(t: Task): seq<Task> {
    if t.TRegister? && t.origin.Of? then [t] else []
  }

  function NetRegistrations(ts: seq<Task>): seq<Task> {
    if ts == [] then [] else NetRegistration(ts[0]) + NetRegistrations(ts[1..])
  }

  ghost predicate Held(h: Inst, l: int) {
    l in h.modules && !h.modules[l].hasCallback && TUnregister(l) !in h.tasks
  }

  ghost predicate Going(h: Inst, l: int) {
    l in h.modules ==> TUnregister(l) in h.tasks
  }

  ghost predicate NetOk(s: Sys) {
    && NetRegistrations(s.host.tasks)
       == (if s.net.Registering? then [TRegister(s.net.mod, Of(s.net.peer, s.net.remote))] else [])
    && match s.net
       case Idle => true
       case Registering(c, p, r, m) =>
         c in s.live && s.live[c] == p && p < |s.peers| && r == |s.peers[p].ids| && !m.hasCallback
       case Registered(c, p, r, l) =>
         && c in s.live && s.live[c] == p && p < |s.peers|
         && 0 <= l < |s.host.origins| && s.host.origins[l] == Of(p, r) && Held(s.host, l) && l !in s.remotes
       case Updating(l, _) => l == -1 || (0 <= l < |s.host.origins| && s.host.origins[l].Of?)
       case Erasing(l) => l == -1 || (0 <= l < |s.host.origins| && s.host.origins[l].Of? && Going(s.host, l))
       case Closing(c, p) => c !in s.live && p < |s.peers| && p !in s.live.Values
       case ClosingErase(c, p, l) =>
         c !in s.live && p < |s.peers| && p !in s.live.Values && l in s.remotes && s.remotes[l].client == c
         && Going(s.host, l)
  }

  ghost predicate RemotesOk(s: Sys) {
    forall l :: l in s.remotes ==>
      && (s.remotes[l].client in s.live || ClosingOf(s.net, s.remotes[l].client))
      && 0 <= l < |s.host.origins|
      && s.host.origins[l] == Of(PeerOf(s, s.remotes[l].client), s.remotes[l].id)
      && (!Doomed(s.net, l) ==> Held(s.host, l))
  }

  /** A replicated module in the host's table is translated, or awaits that, or is about to go. */
  ghost predicate Accounted(s: Sys, l: int) {
    || (l in s.remotes && !Doomed(s.net, l))
    || (s.net.Registered? && s.net.local == l)
    || TUnregister(l) in s.host.tasks
  }

  ghost predicate StaleOk(s: Sys) {
    forall l :: l in s.host.modules && 0 <= l < |s.host.origins| && s.host.origins[l].Of? ==> Accounted(s, l)
  }

  /** The host's copy of module r of process p, if it has one or is about to have one. */
  ghost predicate Copies(s: Sys, p: nat, r: int, sh: Shape)
    requires p < |s.peers|
  {
    if 0 <= r < |s.peers[p].ids| then
      var l := s.peers[p].ids[r];
      && ((l in s.remotes && !Doomed(s.net, l)) || (s.net.Registered? && s.net.local == l))
      && l in s.host.modules && ShapeOf(s.host.modules[l]) == sh
    else
      s.net.Registering? && s.net.peer == p && s.net.remote == r && ShapeOf(s.net.mod) == sh
  }

  ghost predicate MirrorOk(s: Sys, c: nat)
    requires c in s.live && s.live[c] < |s.peers| && CountOk(s, s.live[c])
  {
    var p := s.live[c];
    var seen := Replay(Consumed(s.peers[p]));
    && (forall r :: r in seen ==> Copies(s, p, r, seen[r]))
    && (forall l :: l in s.remotes && s.remotes[l].client == c && !Doomed(s.net, l) ==> s.remotes[l].id in seen)
    && (s.net.Registering? && s.net.client == c ==> s.net.remote in seen)
    && (s.net.Registered? && s.net.client == c ==> s.net.remote in seen)
  }

  ghost predicate MirrorsOk(s: Sys)
    requires LiveOk(s) && CountsOk(s)
  {
    forall c :: c in s.live ==> MirrorOk(s, c)
  }

  ghost predicate Inv(s: Sys) {
    && LocalInv(s.host) && PeersOk(s) && LiveOk(s) && AllocatedOk(s) && NetOk(s)
    && RemotesOk(s) && StaleOk(s) && MirrorsOk(s)
  }

  /* ---- Steps of a proxy process ---- */

  ghost predicate Continues(q: Peer, q': Peer) {
    && q'.taken == q.taken <= |q.inst.handled| && q'.ids == q.ids
    && q.inst.handled <= q'.inst.handled
  }

  lemma PeerChangeAllocated(s: Sys, p: nat, q: Peer)
    requires AllocatedOk(s) && p < |s.peers| && Continues(s.peers[p], q)
    ensures AllocatedOk(SetPeer(s, p, q))
  {
    assert Consumed(q) == Consumed(s.peers[p]);
  }

  lemma PeerChangeMirrors(s: Sys, p: nat, q: Peer)
    requires LiveOk(s) && AllocatedOk(s) && MirrorsOk(s) && p < |s.peers| && Continues(s.peers[p], q)
    requires AllocatedOk(SetPeer(s, p, q))
    ensures LiveOk(SetPeer(s, p, q)) && MirrorsOk(SetPeer(s, p, q))
  {
    var s' := SetPeer(s, p, q);
    assert Consumed(q) == Consumed(s.peers[p]);
    forall c | c in s'.live ensures MirrorOk(s', c) {
      assert MirrorOk(s, c);
      assert s'.peers[s.live[c]].ids == s.peers[s.live[c]].ids;
    }
  }

  lemma PeerChangePeers(s: Sys, p: nat, q: Peer)
    requires PeersOk(s) && PeerOk(q) && p < |s.peers|
    ensures PeersOk(SetPeer(s, p, q))
  {}

  lemma PeerChangeRest(s: Sys, p: nat, q: Peer)
    requires NetOk(s) && RemotesOk(s) && StaleOk(s) && p < |s.peers| && q.ids == s.peers[p].ids
    ensures NetOk(SetPeer(s, p, q)) && RemotesOk(SetPeer(s, p, q)) && StaleOk(SetPeer(s, p, q))
  {}

  /** A process that only goes on handling messages disturbs nothing at the host. */
  lemma {:induction false} PeerChange(s: Sys, p: nat, q: Peer)
    requires Inv(s) && p < |s.peers| && PeerOk(q) && Continues(s.peers[p], q)
    ensures Inv(SetPeer(s, p, q))
  {
    PeerChangeAllocated(s, p, q);
    PeerChangeMirrors(s, p, q);
    PeerChangePeers(s, p, q);
    PeerChangeRest(s, p, q);
  }

  lemma AppStepGrows(i: Inst, e: AppEvent)
    requires Enabled(i, e)
    ensures i.handled <= AppStep(i, e).handled && i.sent <= AppStep(i, e).sent
  {}

  lemma RunHeadGrows(i: Inst)
    requires i.tasks != []
    ensures i.handled <= RunHead(i).0.handled && i.sent <= RunHead(i).0.sent
    ensures RunHead(i).0.tasks == i.tasks[1..]
  {}

  ghost predicate SendsOnly(i: Inst) {
    forall t :: t in i.calling ==> i.calling[t].TSend?
  }

  lemma AppStepOwns(i: Inst, e: AppEvent)
    requires OwnsAll(i) && SendsOnly(i) && Enabled(i, e) && (e.AppRegister? ==> e.mod.hasCallback)
    ensures OwnsAll(AppStep(i, e))
  {}

  lemma {:induction false} PeerAppOk(q: Peer, e: AppEvent)
    requires PeerOk(q) && Enabled(q.inst, e) && (e.AppRegister? ==> e.mod.hasCallback)
    ensures PeerOk(q.(inst := AppStep(q.inst, e)))
  {
    AppStepKeeps(q.inst, e);
    AppStepOwns(q.inst, e);
    AppStepGrows(q.inst, e);
  }

  lemma PopOwns(i: Inst)
    requires OwnsAll(i) && i.tasks != []
    ensures OwnsAll(i.(tasks := i.tasks[1..]))
    ensures i.tasks[0].TRegister? ==> i.tasks[0].origin.Own? && i.tasks[0].mod.hasCallback
  {
    assert i.tasks[0] in i.tasks;
    assert forall u <- i.tasks[1..] :: u in i.tasks;
  }

  lemma TaskOwns(i: Inst, t: Task)
    requires OwnsAll(i) && -1 !in i.modules && (t.TRegister? ==> t.origin.Own? && t.mod.hasCallback)
    ensures OwnsAll(RunTask(i, t).0) && RunTask(i, t).1.None?
  {}

  lemma {:induction false} PeerRunOk(q: Peer)
    requires PeerOk(q) && q.inst.tasks != []
    ensures PeerOk(q.(inst := RunHead(q.inst).0))
    ensures RunHead(q.inst).1.None?
  {
    RunHeadKeeps(q.inst);
    RunHeadGrows(q.inst);
    PopOwns(q.inst);
    TaskOwns(q.inst.(tasks := q.inst.tasks[1..]), q.inst.tasks[0]);
  }

  lemma PeerReceiveOk(q: Peer, a: Apply)
    requires PeerOk(q)
    ensures PeerOk(q.(inst := Post(q.inst, TPass(a))))
  {
    PostKeeps(q.inst, TPass(a));
  }

  lemma {:induction false} PeerStepKeeps(s: Sys, e: Event)
    requires Inv(s) && Can(s, e) && (e.PeerApp? || e.PeerRun? || e.PeerReceive?)
    ensures Inv(Do(s, e))
  {
    var q := s.peers[e.peer];
    assert PeerOk(q);
    match e
    case PeerApp(p, a) =>
      PeerAppOk(q, a); AppStepGrows(q.inst, a);
      PeerChange(s, p, q.(inst := AppStep(q.inst, a)));
    case PeerRun(p) =>
      PeerRunOk(q); RunHeadGrows(q.inst);
      PeerChange(s, p, q.(inst := RunHead(q.inst).0));
    case PeerReceive(p) =>
      PeerReceiveOk(q, q.down[0]);
      PeerChange(s, p, q.(inst := Post(q.inst, TPass(q.down[0])), down := q.down[1..]));
  }

  /* ---- Steps of the host that leave the replicated modules alone ---- */

  ghost predicate SameAt(h: Inst, h': Inst, l: int) {
    && (l in h.modules <==> l in h'.modules)
    && (l in h.modules ==> ShapeOf(h.modules[l]) == ShapeOf(h'.modules[l]) && h.modules[l].hasCallback == h'.modules[l].hasCallback)
    && (TUnregister(l) in h.tasks <==> TUnregister(l) in h'.tasks)
  }

  ghost predicate HostContinues(h: Inst, h': Inst) {
    && h.origins <= h'.origins
    && (forall l :: |h.origins| <= l < |h'.origins| ==> h'.origins[l].Own?)
    && NetRegistrations(h'.tasks) == NetRegistrations(h.tasks)
    && (forall l :: 0 <= l < |h.origins| && h.origins[l].Of? ==> SameAt(h, h', l))
  }

  lemma HostChangeAllocated(s: Sys, h: Inst)
    requires AllocatedOk(s) && HostContinues(s.host, h)
    ensures AllocatedOk(s.(host := h))
  {}

  lemma HostChangeNetOk(s: Sys, h: Inst)
    requires NetOk(s) && RemotesOk(s) && HostContinues(s.host, h)
    ensures NetOk(s.(host := h))
  {}

  lemma HostChangeRemotes(s: Sys, h: Inst)
    requires RemotesOk(s) && HostContinues(s.host, h)
    ensures RemotesOk(s.(host := h))
  {}

  lemma HostChangeStale(s: Sys, h: Inst)
    requires StaleOk(s) && HostContinues(s.host, h)
    ensures StaleOk(s.(host := h))
  {}

  lemma HostChangeNet(s: Sys, h: Inst)
    requires AllocatedOk(s) && NetOk(s) && RemotesOk(s) && StaleOk(s) && HostContinues(s.host, h)
    ensures AllocatedOk(s.(host := h)) && NetOk(s.(host := h)) && RemotesOk(s.(host := h)) && StaleOk(s.(host := h))
  {
    HostChangeAllocated(s, h);
    HostChangeNetOk(s, h);
    HostChangeRemotes(s, h);
    HostChangeStale(s, h);
  }

  lemma HostChangeMirrors(s: Sys, h: Inst)
    requires LiveOk(s) && AllocatedOk(s) && MirrorsOk(s) && HostContinues(s.host, h)
    requires AllocatedOk(s.(host := h))
    ensures MirrorsOk(s.(host := h))
  {
    var s' := s.(host := h);
    forall c | c in s'.live ensures MirrorOk(s', c) {
      assert MirrorOk(s, c);
      var p := s.live[c];
      forall r | r in Replay(Consumed(s.peers[p])) ensures Copies(s', p, r, Replay(Consumed(s.peers[p]))[r]) {
        assert Copies(s, p, r, Replay(Consumed(s.peers[p]))[r]);
        if 0 <= r < |s.peers[p].ids| {
          assert SameAt(s.host, h, s.peers[p].ids[r]);
        }
      }
    }
  }

  lemma {:induction false} HostChange(s: Sys, h: Inst)
    requires Inv(s) && LocalInv(h) && HostContinues(s.host, h)
    ensures Inv(s.(host := h))
  {
    HostChangeNet(s, h);
    HostChangeMirrors(s, h);
  }

  lemma ConcatAssociates(a: seq<Task>, b: seq<Task>, c: seq<Task>)
    ensures a + (b + c) == a + b + c
  {}

  lemma {:induction false} NetRegistrationsConcat(a: seq<Task>, b: seq<Task>)
    ensures NetRegistrations(a + b) == NetRegistrations(a) + NetRegistrations(b)
  {
    if a == [] {
      assert a + b == b;
    } else {
      NetRegistrationsConcat(a[1..], b);
      assert (a + b)[0] == a[0] && (a + b)[1..] == a[1..] + b;
      ConcatAssociates(NetRegistration(a[0]), NetRegistrations(a[1..]), NetRegistrations(b));
    }
  }

  lemma PostContinues(h: Inst, t: Task)
    requires !(t.TRegister? && t.origin.Of?)
    requires t.TUnregister? && 0 <= t.id < |h.origins| ==> h.origins[t.id].Own?
    ensures HostContinues(h, Post(h, t))
  {
    NetRegistrationsConcat(h.tasks, [t]);
  }

  lemma UnregisterContinues(h: Inst, id: int)
    requires 0 <= id < |h.origins| ==> h.origins[id].Own?
    ensures HostContinues(h, Unregister(h, id))
  {}

  lemma SaveContinues(h: Inst, id: int, ups: seq<Update>)
    ensures HostContinues(h, Save(h, id, ups))
  {
    SaveKeepsTable(h, id, ups);
    ShapesOfTable(h.modules, Save(h, id, ups).modules);
  }

  /** Only the modules, the tasks and the origins of the host matter to what it replicates. */
  lemma OnlyTables(h: Inst, h': Inst, k: Inst)
    requires HostContinues(h, h')
    requires k.modules == h'.modules && k.tasks == h'.tasks && k.origins == h'.origins
    ensures HostContinues(h, k)
  {}

  lemma HostAppContinues(h: Inst, e: AppEvent)
    requires SendsOnly(h) && Enabled(h, e)
    ensures HostContinues(h, AppStep(h, e))
  {
    match e
    case Decide(hostMode) => PostContinues(h, TInit(hostMode));
    case AppRegister(m) => PostContinues(h, TRegister(m, Own));
    case AppUnregister(id) => PostContinues(h, TUnregister(id));
    case AppSave(t, id, ups) => PostContinues(h, TSave(id, ups));
    case AppSend(t) => PostContinues(h, h.calling[t]);
    case CallbackUnregister(id) => UnregisterContinues(h, id);
    case CallbackUpdate(id, ups) => SaveContinues(h, id, ups); OnlyTables(h, Save(h, id, ups), AppStep(h, e));
  }

  lemma ShapesOfTable(a: map<int, Module>, b: map<int, Module>)
    requires TableOf(a) == TableOf(b)
    ensures a.Keys == b.Keys
    ensures forall l :: l in a ==> ShapeOf(a[l]) == ShapeOf(b[l])
  {
    assert forall l :: l in a <==> l in TableOf(a);
    assert forall l :: l in b <==> l in TableOf(b);
    assert forall l :: l in a ==> TableOf(a)[l] == ShapeOf(a[l]) && TableOf(b)[l] == ShapeOf(b[l]);
  }

  /** Does running this task leave every replicated module alone? */
  ghost predicate Quiet(h: Inst, t: Task) {
    && !(t.TRegister? && t.origin.Of?)
    && (t.TUnregister? && 0 <= t.id < |h.origins| ==> h.origins[t.id].Own?)
  }

  lemma PassContinues(i: Inst, a: Apply)
    ensures HostContinues(i, Pass(i, a).0)
  {
    SaveContinues(i, a.id, a.updates);
    OnlyTables(i, if a.id in i.modules && a.updates != [] then Save(i, a.id, a.updates) else i, Pass(i, a).0);
  }

  lemma RunTaskQuietly(i: Inst, t: Task)
    requires Quiet(i, t) && -1 !in i.modules
    ensures HostContinues(i, RunTask(i, t).0)
  {
    match t
    case TUnregister(id) => UnregisterContinues(i, id);
    case TSave(id, ups) => SaveContinues(i, id, ups);
    case TPass(a) => PassContinues(i, a);
    case TLoad => PassContinues(i.(replies := i.replies + [Reply(|i.handled|, i.modules)]), Apply(-1, [], 0));
    case _ =>
  }

  lemma PopContinues(h: Inst)
    requires h.tasks != [] && Quiet(h, h.tasks[0])
    ensures HostContinues(h, h.(tasks := h.tasks[1..]))
  {
    var ts := h.tasks[1..];
    assert h.tasks == [h.tasks[0]] + ts;
    forall l | 0 <= l < |h.origins| && h.origins[l].Of?
      ensures TUnregister(l) in h.tasks <==> TUnregister(l) in ts
    {}
  }

  lemma ContinuesTransitive(a: Inst, b: Inst, c: Inst)
    requires HostContinues(a, b) && HostContinues(b, c)
    ensures HostContinues(a, c)
  {
    forall l | 0 <= l < |a.origins| && a.origins[l].Of? ensures SameAt(a, c, l) {
      assert SameAt(a, b, l) && b.origins[l].Of? && SameAt(b, c, l);
    }
  }

  lemma {:induction false} RunQuietly(h: Inst)
    requires h.tasks != [] && Quiet(h, h.tasks[0]) && -1 !in h.modules
    ensures HostContinues(h, RunHead(h).0)
  {
    var i := h.(tasks := h.tasks[1..]);
    PopContinues(h);
    RunTaskQuietly(i, h.tasks[0]);
    ContinuesTransitive(h, i, RunHead(h).0);
  }

  /* ---- The host drops a replicated module ---- */

  ghost predicate HostDrops(h: Inst, h': Inst, x: int) {
    && h'.origins == h.origins
    && NetRegistrations(h'.tasks) == NetRegistrations(h.tasks)
    && TUnregister(x) in h.tasks && x !in h'.modules
    && (forall l :: 0 <= l < |h.origins| && h.origins[l].Of? && l != x ==> SameAt(h, h', l))
  }

  lemma HostDropAllocated(s: Sys, h: Inst, x: int)
    requires AllocatedOk(s) && HostDrops(s.host, h, x)
    ensures AllocatedOk(s.(host := h))
  {
    var s' := s.(host := h);
    assert forall l :: 0 <= l < |h.origins| ==> OriginOk(s, l, h.origins[l]) ==> OriginOk(s', l, h.origins[l]);
  }

  lemma HostDropRemotes(s: Sys, h: Inst, x: int)
    requires RemotesOk(s) && HostDrops(s.host, h, x)
    ensures RemotesOk(s.(host := h))
  {}

  lemma HostDropStale(s: Sys, h: Inst, x: int)
    requires StaleOk(s) && HostDrops(s.host, h, x)
    ensures StaleOk(s.(host := h))
  {}

  lemma HostDropNet(s: Sys, h: Inst, x: int)
    requires NetOk(s) && RemotesOk(s) && HostDrops(s.host, h, x)
    ensures NetOk(s.(host := h))
  {}

  lemma HostDropCopies(s: Sys, h: Inst, x: int, p: nat, r: int, sh: Shape)
    requires IdsOk(s) && NetOk(s) && RemotesOk(s) && HostDrops(s.host, h, x) && p < |s.peers| && Copies(s, p, r, sh)
    ensures Copies(s.(host := h), p, r, sh)
  {
    if 0 <= r < |s.peers[p].ids| {
      assert Held(s.host, s.peers[p].ids[r]);
      assert SameAt(s.host, h, s.peers[p].ids[r]);
    }
  }

  lemma {:induction false} HostDropMirrors(s: Sys, h: Inst, x: int)
    requires LiveOk(s) && AllocatedOk(s) && NetOk(s) && RemotesOk(s) && MirrorsOk(s) && HostDrops(s.host, h, x)
    requires AllocatedOk(s.(host := h))
    ensures MirrorsOk(s.(host := h))
  {
    var s' := s.(host := h);
    forall c | c in s'.live ensures MirrorOk(s', c) {
      assert MirrorOk(s, c);
      var seen := Replay(Consumed(s.peers[s.live[c]]));
      forall r | r in seen ensures Copies(s', s.live[c], r, seen[r]) { HostDropCopies(s, h, x, s.live[c], r, seen[r]); }
    }
  }

  lemma {:induction false} HostDrop(s: Sys, h: Inst, x: int)
    requires Inv(s) && LocalInv(h) && HostDrops(s.host, h, x)
    ensures Inv(s.(host := h))
  {
    HostDropAllocated(s, h, x);
    HostDropRemotes(s, h, x);
    HostDropStale(s, h, x);
    HostDropNet(s, h, x);
    HostDropMirrors(s, h, x);
  }

  lemma RunUnregisterDrops(h: Inst)
    requires h.tasks != [] && h.tasks[0].TUnregister?
    ensures HostDrops(h, RunHead(h).0, h.tasks[0].id)
  {
    var i, j, x := h.(tasks := h.tasks[1..]), RunHead(h).0, h.tasks[0].id;
    assert h.tasks == [h.tasks[0]] + i.tasks;
    forall l | 0 <= l < |h.origins| && h.origins[l].Of? && l != x ensures SameAt(h, j, l) {}
  }

  /* ---- The host registers a replicated module ---- */

  lemma RegistrationIsTheNets(s: Sys)
    requires NetOk(s) && s.host.tasks != [] && s.host.tasks[0].TRegister? && s.host.tasks[0].origin.Of?
    ensures s.net.Registering? && s.host.tasks[0] == TRegister(s.net.mod, Of(s.net.peer, s.net.remote))
    ensures NetRegistrations(s.host.tasks[1..]) == []
  {
    var ts := s.host.tasks;
    assert NetRegistrations(ts) == [ts[0]] + NetRegistrations(ts[1..]);
    assert NetRegistrations(ts)[0] == ts[0];
  }

  ghost predicate Registers(s: Sys, s': Sys) {
    && s.net.Registering? && s.net.peer < |s.peers|
    && var n, id, q := s.net, |s.host.origins|, s.peers[s.net.peer];
    && s' == SetPeer(s.(host := s'.host, net := Registered(n.client, n.peer, n.remote, id)), n.peer, q.(ids := q.ids + [id]))
    && s'.host.origins == s.host.origins + [Of(n.peer, n.remote)]
    && s'.host.modules == s.host.modules[id := n.mod]
    && NetRegistrations(s'.host.tasks) == []
    && (forall l :: TUnregister(l) in s'.host.tasks <==> TUnregister(l) in s.host.tasks)
    && TUnregister(id) !in s.host.tasks
    && id !in s.host.modules && id !in s.remotes
  }

  lemma RegisterCounts(s: Sys, s': Sys)
    requires Registers(s, s') && CountsOk(s)
    ensures CountsOk(s')
  {
    forall k | 0 <= k < |s'.peers| ensures CountOk(s', k) {
      assert CountOk(s, k);
      assert s'.peers[k].inst == s.peers[k].inst && s'.peers[k].taken == s.peers[k].taken;
      assert Consumed(s'.peers[k]) == Consumed(s.peers[k]);
    }
  }

  lemma RegisterIds(s: Sys, s': Sys)
    requires Registers(s, s') && IdsOk(s) && OriginsOk(s) && s.net.remote == |s.peers[s.net.peer].ids|
    ensures IdsOk(s') && OriginsOk(s')
  {
    var n, id := s.net, |s.host.origins|;
    forall p, r | 0 <= p < |s'.peers| && 0 <= r < |s'.peers[p].ids|
      ensures 0 <= s'.peers[p].ids[r] < |s'.host.origins| && s'.host.origins[s'.peers[p].ids[r]] == Of(p, r)
    {
      if p == n.peer && r == n.remote {
        assert s'.peers[p].ids[r] == id;
      } else {
        assert s'.peers[p].ids[r] == s.peers[p].ids[r];
      }
    }
    forall l | 0 <= l < |s'.host.origins| ensures OriginOk(s', l, s'.host.origins[l]) {
      if l < id { assert OriginOk(s, l, s.host.origins[l]); }
    }
  }

  lemma RegisterNet(s: Sys, s': Sys)
    requires Registers(s, s') && NetOk(s) && RemotesOk(s) && StaleOk(s) && LiveOk(s)
    ensures NetOk(s') && RemotesOk(s') && StaleOk(s') && LiveOk(s')
  {
    var p, id := s.net.peer, |s.host.origins|;
    forall l | l in s'.remotes
      ensures s'.host.origins[l] == Of(PeerOf(s', s'.remotes[l].client), s'.remotes[l].id) && Held(s'.host, l)
    {
      assert Held(s.host, l);
      assert PeerOf(s', s'.remotes[l].client) == PeerOf(s, s.remotes[l].client);
    }
  }

  lemma RegisterCopies(s: Sys, s': Sys, p: nat, r: int, sh: Shape)
    requires Registers(s, s') && NetOk(s) && RemotesOk(s) && p < |s.peers| && Copies(s, p, r, sh) && IdsOk(s)
    requires r >= 0
    ensures Copies(s', p, r, sh)
  {
    if r < |s.peers[p].ids| {
      assert s'.peers[p].ids[r] == s.peers[p].ids[r];
    } else {
      assert s'.peers[p].ids[r] == |s.host.origins|;
    }
  }

  lemma {:induction false} RegisterMirrors(s: Sys, s': Sys)
    requires Registers(s, s') && LiveOk(s) && AllocatedOk(s) && MirrorsOk(s) && NetOk(s) && RemotesOk(s) && PeersOk(s)
    requires LiveOk(s') && CountsOk(s')
    ensures MirrorsOk(s')
  {
    forall c | c in s'.live ensures MirrorOk(s', c) {
      assert MirrorOk(s, c) && PeerOk(s.peers[s.live[c]]);
      RegisterMirror(s, s', c);
    }
  }

  lemma {:induction false} RegisterMirror(s: Sys, s': Sys, c: nat)
    requires Registers(s, s') && IdsOk(s) && NetOk(s) && RemotesOk(s)
    requires c in s.live && s.live[c] < |s.peers| && CountOk(s, s.live[c]) && MirrorOk(s, c) && PeerOk(s.peers[s.live[c]])
    requires CountOk(s', s.live[c])
    ensures MirrorOk(s', c)
  {
    var p := s.live[c];
    assert Consumed(s'.peers[p]) == Consumed(s.peers[p]);
    var seen := Replay(Consumed(s.peers[p]));
    SeenIds(s.peers[p]);
    forall r | r in seen ensures Copies(s', p, r, seen[r]) {
      assert Copies(s, p, r, seen[r]);
      RegisterCopies(s, s', p, r, seen[r]);
    }
  }

  lemma SeenIds(q: Peer)
    requires WellNumbered(q.inst.handled) && q.taken <= |q.inst.handled|
    ensures forall r :: r in Replay(Consumed(q)) ==> 0 <= r < NumAdds(Consumed(q))
  {
    PrefixWellNumbered(q.inst.handled, q.taken);
    ReplayKeys(Consumed(q));
  }

  lemma RegisterPeers(s: Sys, s': Sys)
    requires Registers(s, s') && PeersOk(s)
    ensures PeersOk(s')
  {
    forall p | 0 <= p < |s'.peers| ensures PeerOk(s'.peers[p]) {
      assert PeerOk(s.peers[p]);
      assert s'.peers[p].inst == s.peers[p].inst;
    }
  }

  lemma {:induction false} RegisterInv(s: Sys, s': Sys)
    requires Inv(s) && Registers(s, s') && LocalInv(s'.host)
    ensures Inv(s')
  {
    RegisterPeers(s, s');
    RegisterCounts(s, s');
    RegisterIds(s, s');
    RegisterNet(s, s');
    RegisterMirrors(s, s');
  }

  /** The next id is new everywhere. */
  lemma FreshId(s: Sys)
    requires TableOk(s.host) && TasksOk(s.host) && RemotesOk(s)
    ensures |s.host.origins| !in s.host.modules && |s.host.origins| !in s.remotes
    ensures TUnregister(|s.host.origins|) !in s.host.tasks
  {
    assert !TaskIdOk(s.host, TUnregister(|s.host.origins|));
  }

  lemma HostRegisters(s: Sys)
    requires NetOk(s) && TableOk(s.host) && TasksOk(s.host) && RemotesOk(s)
    requires s.host.tasks != [] && s.host.tasks[0].TRegister? && s.host.tasks[0].origin.Of?
    ensures Registers(s, RunHost(s))
  {
    RegistrationIsTheNets(s);
    FreshId(s);
    var h, ts := s.host, s.host.tasks[1..];
    assert h.tasks == [h.tasks[0]] + ts;
    assert forall l :: TUnregister(l) in ts <==> TUnregister(l) in h.tasks;
  }

  /* ---- Every step of the host's loop ---- */

  lemma {:induction false} ForwardKeeps(s: Sys, a: Apply)
    requires Inv(s)
    ensures Inv(Forward(s, a))
  {
    if a.id in s.remotes && s.remotes[a.id].client in s.live && s.live[s.remotes[a.id].client] < |s.peers| {
      var p := s.live[s.remotes[a.id].client];
      assert PeerOk(s.peers[p]);
      PeerChange(s, p, s.peers[p].(down := s.peers[p].down + [a.(id := s.remotes[a.id].id)]));
    }
  }

  lemma NoModuleIsUnknown(i: Inst)
    requires LocalInv(i)
    ensures -1 !in i.modules && SendsOnly(i)
  {}

  lemma {:induction false} LoopKeeps(s: Sys)
    requires Inv(s) && s.host.tasks != [] && !(s.host.tasks[0].TRegister? && s.host.tasks[0].origin.Of?)
    ensures Inv(s.(host := RunHead(s.host).0))
  {
    RunHeadKeeps(s.host);
    NoModuleIsUnknown(s.host);
    if Quiet(s.host, s.host.tasks[0]) {
      RunQuietly(s.host);
      HostChange(s, RunHead(s.host).0);
    } else {
      RunUnregisterDrops(s.host);
      HostDrop(s, RunHead(s.host).0, s.host.tasks[0].id);
    }
  }

  lemma {:induction false} RegistrationKeeps(s: Sys)
    requires Inv(s) && s.host.tasks != [] && s.host.tasks[0].TRegister? && s.host.tasks[0].origin.Of?
    ensures Inv(RunHost(s))
  {
    HostRegisters(s);
    RunHeadKeeps(s.host);
    RunsHead(s);
    RegisterInv(s, RunHost(s));
  }

  lemma {:induction false} HostRunKeeps(s: Sys)
    requires Inv(s) && Can(s, HostRun)
    ensures Inv(RunHost(s))
  {
    if s.host.tasks[0].TRegister? && s.host.tasks[0].origin.Of? {
      RegistrationKeeps(s);
    } else {
      var (h, out) := RunHead(s.host);
      LoopKeeps(s);
      if out.Some? { ForwardKeeps(s.(host := h), out.value); }
    }
  }

  lemma HostPosts(s: Sys, t: Task)
    requires Inv(s) && Quiet(s.host, t) && TaskIdOk(s.host, t) && !t.TInit?
    ensures Inv(s.(host := Post(s.host, t)))
  {
    PostKeeps(s.host, t);
    PostContinues(s.host, t);
    HostChange(s, Post(s.host, t));
  }

  lemma HostStepKeeps(s: Sys, e: Event)
    requires Inv(s) && Can(s, e) && (e.HostApp? || e.HostRun? || e.BrowserApply? || e.BrowserLoad?)
    ensures Inv(Do(s, e))
  {
    match e
    case HostApp(a) =>
      AppStepKeeps(s.host, a); NoModuleIsUnknown(s.host); HostAppContinues(s.host, a);
      HostChange(s, AppStep(s.host, a));
    case HostRun => HostRunKeeps(s);
    case BrowserApply(id, ups) =>
      HostPosts(s, TPass(Apply(id, ups, |s.applies|)));
      RecordsAreFree(s.(host := Post(s.host, TPass(Apply(id, ups, |s.applies|)))), s.applies + [Apply(id, ups, |s.applies|)]);
    case BrowserLoad => HostPosts(s, TLoad);
  }

  lemma RecordsKeepMirrors(s: Sys, applies: seq<Apply>)
    requires LiveOk(s) && CountsOk(s) && MirrorsOk(s)
    ensures var s' := s.(applies := applies); LiveOk(s') && CountsOk(s') && MirrorsOk(s')
  {
    var s' := s.(applies := applies);
    forall k | 0 <= k < |s'.peers| ensures CountOk(s', k) { assert CountOk(s, k); }
    forall c | c in s'.live ensures MirrorOk(s', c) { assert MirrorOk(s, c); }
  }

  lemma RecordsKeepIds(s: Sys, applies: seq<Apply>)
    requires IdsOk(s) && OriginsOk(s) && NetOk(s) && RemotesOk(s) && StaleOk(s)
    ensures var s' := s.(applies := applies); IdsOk(s') && OriginsOk(s') && NetOk(s') && RemotesOk(s') && StaleOk(s')
  {
    var s' := s.(applies := applies);
    forall l | l in s'.host.modules && 0 <= l < |s'.host.origins| && s'.host.origins[l].Of? ensures Accounted(s', l) { assert Accounted(s, l); }
  }

  lemma {:induction false} RecordsAreFree(s: Sys, applies: seq<Apply>)
    requires Inv(s)
    ensures Inv(s.(applies := applies))
  {
    RecordsKeepMirrors(s, applies);
    RecordsKeepIds(s, applies);
  }

  /* ---- Steps of the host's network thread ---- */

  /** An entry of the table stands for the module of its client that it names. */
  lemma EntryIsAllocated(s: Sys, l: int)
    requires RemotesOk(s) && OriginsOk(s) && l in s.remotes
    ensures var p := PeerOf(s, s.remotes[l].client);
            p < |s.peers| && 0 <= s.remotes[l].id < |s.peers[p].ids| && s.peers[p].ids[s.remotes[l].id] == l
  {
    assert OriginOk(s, l, s.host.origins[l]);
  }

  lemma NextMessage(q: Peer)
    requires PeerOk(q) && q.taken < |q.inst.sent|
    ensures q.taken < |q.inst.handled| && q.inst.handled[q.taken] == q.inst.sent[q.taken]
    ensures PeerOk(q.(taken := q.taken + 1))
    ensures Consumed(q.(taken := q.taken + 1)) == Consumed(q) + [q.inst.sent[q.taken]]
    ensures Follows(NumAdds(Consumed(q)), q.inst.sent[q.taken])
    ensures NumAdds(Consumed(q.(taken := q.taken + 1))) == NumAdds(Consumed(q)) + if q.inst.sent[q.taken].Added? then 1 else 0
    ensures Replay(Consumed(q.(taken := q.taken + 1))) == ReplayOne(Replay(Consumed(q)), q.inst.sent[q.taken])
    ensures forall r :: r in Replay(Consumed(q)) ==> 0 <= r < NumAdds(Consumed(q))
  {
    PrefixStep(q.inst.handled, q.taken);
    SeenIds(q);
  }

  lemma ReadPeers(s: Sys, c: nat)
    requires PeersOk(s) && CanRead(s, c)
    ensures PeersOk(ReadMsg(s, c))
  {
    var p := s.live[c];
    assert PeerOk(s.peers[p]);
    NextMessage(s.peers[p]);
    PeerChangePeers(s, p, s.peers[p].(taken := s.peers[p].taken + 1));
  }

  /** What a read changes, whatever the message. */
  ghost predicate Reads(s: Sys, s': Sys, c: nat, m: Msg, t: Task) {
    && s.net.Idle? && c in s.live && s.live[c] < |s.peers|
    && var p := s.live[c]; var q := s.peers[p];
    && q.taken < |q.inst.handled|
    && s' == SetPeer(s.(host := Post(s.host, t), net := s'.net), p, q.(taken := q.taken + 1))
    && Consumed(q.(taken := q.taken + 1)) == Consumed(q) + [m]
    && Follows(NumAdds(Consumed(q)), m)
    && NumAdds(Consumed(q.(taken := q.taken + 1))) == NumAdds(Consumed(q)) + (if m.Added? then 1 else 0)
    && Replay(Consumed(q.(taken := q.taken + 1))) == ReplayOne(Replay(Consumed(q)), m)
    && (forall r :: r in Replay(Consumed(q)) ==> 0 <= r < NumAdds(Consumed(q)))
    && NetRegistrations(s'.host.tasks) == NetRegistrations(s.host.tasks) + NetRegistrations([t])
    && match m
       case Added(r, name, ps) =>
         t == TRegister(Received(m), Of(p, r)) && s'.net == Registering(c, p, r, Received(m))
       case Removed(r) =>
         t == TUnregister(LocalId(s.remotes, r, c)) && s'.net == Erasing(LocalId(s.remotes, r, c))
       case Updated(r, ups) =>
         t == TSave(LocalId(s.remotes, r, c), ups) && s'.net == Updating(LocalId(s.remotes, r, c), ups)
  }

  lemma ReadReads(s: Sys, c: nat) returns (m: Msg, t: Task)
    requires PeersOk(s) && CanRead(s, c)
    ensures Reads(s, ReadMsg(s, c), c, m, t)
  {
    var q := s.peers[s.live[c]];
    assert PeerOk(q);
    NextMessage(q);
    var s' := ReadMsg(s, c);
    m, t := q.inst.sent[q.taken], s'.host.tasks[|s'.host.tasks| - 1];
    NetRegistrationsConcat(s.host.tasks, [t]);
    assert m.Added? ==> Received(m) == Received(Added(m.id, m.name, m.properties));
  }

  lemma ReadCounts(s: Sys, s': Sys, c: nat, m: Msg, t: Task)
    requires Reads(s, s', c, m, t) && AllocatedOk(s)
    ensures CountsOk(s') && IdsOk(s') && OriginsOk(s')
  {
    ReadKeepsCounts(s, s', c, m, t);
    assert forall k :: 0 <= k < |s.peers| ==> s'.peers[k].ids == s.peers[k].ids;
    forall l | 0 <= l < |s.host.origins| ensures OriginOk(s', l, s.host.origins[l]) {
      assert OriginOk(s, l, s.host.origins[l]);
    }
  }

  lemma ReadKeepsCounts(s: Sys, s': Sys, c: nat, m: Msg, t: Task)
    requires Reads(s, s', c, m, t) && CountsOk(s)
    ensures CountsOk(s')
  {
    forall k | 0 <= k < |s'.peers| ensures CountOk(s', k) && s'.peers[k].taken <= |s'.peers[k].inst.handled| {
      assert CountOk(s, k);
      if k != s.live[c] { assert s'.peers[k] == s.peers[k]; }
    }
  }

  lemma LocalIdOwn(s: Sys, r: int, c: nat)
    requires RemotesOk(s) && s.net.Idle? && c in s.live
    ensures var l := LocalId(s.remotes, r, c);
            l == -1 || (l in s.remotes && s.remotes[l] == Remote(r, c) && 0 <= l < |s.host.origins| && s.host.origins[l] == Of(s.live[c], r))
  {}

  lemma ReadNet(s: Sys, s': Sys, c: nat, m: Msg, t: Task)
    requires Reads(s, s', c, m, t) && CountsOk(s) && NetOk(s) && RemotesOk(s)
    ensures NetOk(s')
  {
    var p := s.live[c];
    assert CountOk(s, p);
    LocalIdOwn(s, m.id, c);
    assert [t][1..] == [] && NetRegistrations([t]) == if m.Added? then [t] else [];
  }

  lemma ReadRemotes(s: Sys, s': Sys, c: nat, m: Msg, t: Task)
    requires Reads(s, s', c, m, t) && RemotesOk(s)
    ensures RemotesOk(s')
  {
    LocalIdOwn(s, m.id, c);
  }

  lemma ReadStale(s: Sys, s': Sys, c: nat, m: Msg, t: Task)
    requires Reads(s, s', c, m, t) && StaleOk(s)
    ensures StaleOk(s')
  {
    forall l | l in s'.host.modules && 0 <= l < |s'.host.origins| && s'.host.origins[l].Of? ensures Accounted(s', l) {
      assert Accounted(s, l);
    }
  }

  lemma ReadCopies(s: Sys, s': Sys, c: nat, m: Msg, t: Task, r: int, sh: Shape)
    requires Reads(s, s', c, m, t) && RemotesOk(s) && IdsOk(s)
    requires Copies(s, s.live[c], r, sh) && (r != m.id || m.Updated?)
    ensures Copies(s', s.live[c], r, sh)
  {
    LocalIdOwn(s, m.id, c);
    assert s'.peers[s.live[c]].ids == s.peers[s.live[c]].ids;
  }

  lemma ReadAddedCopy(s: Sys, s': Sys, c: nat, m: Msg, t: Task)
    requires Reads(s, s', c, m, t) && m.Added? && CountOk(s, s.live[c])
    ensures Copies(s', s.live[c], m.id, Shape(m.name, FrozenAll(m.properties)))
  {
    assert s'.peers[s.live[c]].ids == s.peers[s.live[c]].ids;
  }

  lemma ReadMirror(s: Sys, s': Sys, c: nat, m: Msg, t: Task)
    requires Reads(s, s', c, m, t) && AllocatedOk(s) && RemotesOk(s) && LiveOk(s) && MirrorOk(s, c)
    requires LiveOk(s') && CountsOk(s')
    ensures MirrorOk(s', c)
  {
    var p := s.live[c];
    var seen, seen' := Replay(Consumed(s.peers[p])), Replay(Consumed(s'.peers[p]));
    assert CountOk(s, p);
    forall r | r in seen' ensures Copies(s', p, r, seen'[r]) {
      if m.Added? && r == m.id {
        ReadAddedCopy(s, s', c, m, t);
      } else {
        assert Copies(s, p, r, seen[r]);
        ReadCopies(s, s', c, m, t, r, seen[r]);
      }
    }
    forall l | l in s'.remotes && s'.remotes[l].client == c && !Doomed(s'.net, l) ensures s'.remotes[l].id in seen' {
      ReadEntry(s, s', c, m, t, l);
    }
  }

  /** An entry stays one of what was seen, unless it is the one to be erased. */
  lemma ReadEntry(s: Sys, s': Sys, c: nat, m: Msg, t: Task, l: int)
    requires Reads(s, s', c, m, t) && RemotesOk(s) && OriginsOk(s) && CountOk(s, s.live[c]) && MirrorOk(s, c)
    requires l in s'.remotes && s'.remotes[l].client == c && !Doomed(s'.net, l)
    ensures s'.remotes[l].id in ReplayOne(Replay(Consumed(s.peers[s.live[c]])), m)
  {
    EntryIsAllocated(s, l);
    if m.Removed? && s.remotes[l].id == m.id {
      assert Maps(s.remotes, l, m.id, c);
      OneEntry(s, l, LocalId(s.remotes, m.id, c));
    }
  }

  /** Entries for the same module of the same client are one. */
  lemma OneEntry(s: Sys, l: int, x: int)
    requires RemotesOk(s) && OriginsOk(s) && l in s.remotes && x in s.remotes && s.remotes[l] == s.remotes[x]
    ensures l == x
  {
    EntryIsAllocated(s, l);
    EntryIsAllocated(s, x);
  }

  lemma ReadOtherMirror(s: Sys, s': Sys, c: nat, m: Msg, t: Task, d: nat)
    requires Reads(s, s', c, m, t) && AllocatedOk(s) && RemotesOk(s) && LiveOk(s) && d in s.live && d != c && MirrorOk(s, d)
    requires LiveOk(s') && CountsOk(s')
    ensures MirrorOk(s', d)
  {
    var p := s.live[d];
    var seen := Replay(Consumed(s.peers[p]));
    LocalIdOwn(s, m.id, c);
    assert s'.peers[p] == s.peers[p];
    forall r | r in seen ensures Copies(s', p, r, seen[r]) {
      assert Copies(s, p, r, seen[r]);
    }
  }

  lemma {:induction false} ReadKeeps(s: Sys, c: nat)
    requires Inv(s) && CanRead(s, c)
    ensures Inv(ReadMsg(s, c))
  {
    var m, t := ReadReads(s, c);
    var s' := ReadMsg(s, c);
    ReadPeers(s, c);
    ReadCounts(s, s', c, m, t);
    ReadNet(s, s', c, m, t);
    ReadRemotes(s, s', c, m, t);
    ReadStale(s, s', c, m, t);
    ReadPost(s, s', c, m, t);
    forall d | d in s'.live ensures MirrorOk(s', d) {
      assert MirrorOk(s, d);
      if d == c { ReadMirror(s, s', c, m, t); } else { ReadOtherMirror(s, s', c, m, t, d); }
    }
  }

  lemma ReadPost(s: Sys, s': Sys, c: nat, m: Msg, t: Task)
    requires Reads(s, s', c, m, t) && LocalInv(s.host) && RemotesOk(s)
    ensures LocalInv(s'.host)
  {
    LocalIdOwn(s, m.id, c);
    PostKeeps(s.host, t);
  }

  ghost predicate Active(s: Sys, l: int) {
    (l in s.remotes && !Doomed(s.net, l)) || (s.net.Registered? && s.net.local == l)
  }

  ghost predicate KeepsCopies(s: Sys, s': Sys, c: nat)
    requires c in s.live
  {
    && s.live[c] < |s.peers|
    && var ids := s.peers[s.live[c]].ids;
       forall r :: 0 <= r < |ids| && Active(s, ids[r]) ==> Active(s', ids[r])
  }

  /** A step of the network thread that moves no copy between active and inactive. */
  ghost predicate KeepsActive(s: Sys, s': Sys) {
    && s'.peers == s.peers && s'.host.modules == s.host.modules && s'.host.origins == s.host.origins
    && !s.net.Registering? && !s'.net.Registering? && !s'.net.Registered?
    && s'.live.Keys <= s.live.Keys && (forall c :: c in s'.live ==> s'.live[c] == s.live[c])
    && (forall c :: c in s'.live ==> KeepsCopies(s, s', c))
    && (forall l :: l in s'.remotes && s'.remotes[l].client in s'.live && !Doomed(s'.net, l) ==>
          || (l in s.remotes && s.remotes[l] == s'.remotes[l] && !Doomed(s.net, l))
          || (s.net.Registered? && s'.remotes[l] == Remote(s.net.remote, s.net.client)))
  }

  lemma MirrorsStay(s: Sys, s': Sys)
    requires LiveOk(s) && AllocatedOk(s) && MirrorsOk(s) && KeepsActive(s, s')
    ensures AllocatedOk(s') && LiveOk(s') && MirrorsOk(s')
  {
    SameAllocation(s, s');
    forall d | d in s'.live ensures MirrorOk(s', d) {
      assert MirrorOk(s, d) && KeepsCopies(s, s', d);
      var seen := Replay(Consumed(s.peers[s.live[d]]));
      forall r | r in seen ensures Copies(s', s.live[d], r, seen[r]) {
        assert Copies(s, s.live[d], r, seen[r]);
        if 0 <= r < |s.peers[s.live[d]].ids| { assert Active(s, s.peers[s.live[d]].ids[r]); }
      }
    }
  }

  lemma SameAllocation(s: Sys, s': Sys)
    requires AllocatedOk(s) && s'.peers == s.peers && s'.host.origins == s.host.origins
    requires !s.net.Registering? && !s'.net.Registering?
    ensures AllocatedOk(s')
  {
    forall k | 0 <= k < |s'.peers| ensures CountOk(s', k) && s'.peers[k].taken <= |s'.peers[k].inst.handled| { assert CountOk(s, k); }
    forall l | 0 <= l < |s.host.origins| ensures OriginOk(s', l, s.host.origins[l]) { assert OriginOk(s, l, s.host.origins[l]); }
  }

  lemma StoreOrErase(s: Sys)
    requires NetOk(s) && AllocatedOk(s) && RemotesOk(s) && LiveOk(s) && (s.net.Registered? || s.net.Erasing? || s.net.ClosingErase?)
    ensures KeepsActive(s, ContinueNet(s))
  {
    if s.net.Registered? { StoreActive(s); } else if s.net.Erasing? { EraseActive(s); } else { ClosingEraseActive(s); }
  }

  lemma StoreActive(s: Sys)
    requires NetOk(s) && AllocatedOk(s) && RemotesOk(s) && LiveOk(s) && s.net.Registered?
    ensures KeepsActive(s, ContinueNet(s))
  {}

  lemma EraseActive(s: Sys)
    requires NetOk(s) && LiveOk(s) && s.net.Erasing?
    ensures KeepsActive(s, ContinueNet(s))
  {}

  lemma ClosingEraseActive(s: Sys)
    requires NetOk(s) && LiveOk(s) && s.net.ClosingErase?
    ensures KeepsActive(s, ContinueNet(s))
  {}

  lemma StoreOrEraseNet(s: Sys)
    requires NetOk(s) && RemotesOk(s) && (s.net.Registered? || s.net.Erasing? || s.net.ClosingErase?)
    ensures NetOk(ContinueNet(s))
  {}

  lemma StoreOrEraseRemotes(s: Sys)
    requires NetOk(s) && RemotesOk(s) && (s.net.Registered? || s.net.Erasing? || s.net.ClosingErase?)
    ensures RemotesOk(ContinueNet(s))
  {}

  lemma StoreOrEraseStale(s: Sys)
    requires NetOk(s) && StaleOk(s) && (s.net.Registered? || s.net.Erasing? || s.net.ClosingErase?)
    ensures StaleOk(ContinueNet(s))
  {
    var s' := ContinueNet(s);
    forall l | l in s'.host.modules && 0 <= l < |s'.host.origins| && s'.host.origins[l].Of? ensures Accounted(s', l) {
      assert Accounted(s, l);
    }
  }

  lemma {:induction false} StoreOrEraseKeeps(s: Sys)
    requires Inv(s) && (s.net.Registered? || s.net.Erasing? || s.net.ClosingErase?)
    ensures Inv(ContinueNet(s))
  {
    StoreOrErase(s);
    MirrorsStay(s, ContinueNet(s));
    StoreOrEraseNet(s);
    StoreOrEraseRemotes(s);
    StoreOrEraseStale(s);
  }

  lemma SendOnKeeps(s: Sys)
    requires Inv(s) && s.net.Updating?
    ensures Inv(ContinueNet(s))
  {
    var t := TSend(s.net.local, s.net.updates);
    HostPosts(s, t);
    BecomeIdle(s.(host := Post(s.host, t)));
  }

  lemma {:induction false} BecomeIdle(s: Sys)
    requires Inv(s) && (s.net.Updating? || (s.net.Closing? && forall k :: k in s.remotes ==> s.remotes[k].client != s.net.client))
    ensures Inv(s.(net := Idle))
  {
    IdleMirrors(s);
    IdleRest(s);
  }

  lemma IdleMirrors(s: Sys)
    requires LiveOk(s) && AllocatedOk(s) && MirrorsOk(s) && NetOk(s)
    requires s.net.Updating? || (s.net.Closing? && forall k :: k in s.remotes ==> s.remotes[k].client != s.net.client)
    ensures AllocatedOk(s.(net := Idle)) && LiveOk(s.(net := Idle)) && MirrorsOk(s.(net := Idle))
  {
    MirrorsStay(s, s.(net := Idle));
  }

  lemma IdleRest(s: Sys)
    requires NetOk(s) && RemotesOk(s) && StaleOk(s)
    requires s.net.Updating? || (s.net.Closing? && forall k :: k in s.remotes ==> s.remotes[k].client != s.net.client)
    ensures NetOk(s.(net := Idle)) && RemotesOk(s.(net := Idle)) && StaleOk(s.(net := Idle))
  {
    var s' := s.(net := Idle);
    forall l | l in s'.host.modules && 0 <= l < |s'.host.origins| && s'.host.origins[l].Of? ensures Accounted(s', l) {
      assert Accounted(s, l);
    }
  }

  lemma ContinueKeeps(s: Sys)
    requires Inv(s) && Can(s, Continue)
    ensures Inv(ContinueNet(s))
  {
    if s.net.Updating? { SendOnKeeps(s); } else { StoreOrEraseKeeps(s); }
  }

  /* ---- A client goes ---- */

  lemma LeaveRest(s: Sys, c: nat)
    requires LiveOk(s) && NetOk(s) && RemotesOk(s) && StaleOk(s) && Can(s, Leave(c))
    ensures var s' := Do(s, Leave(c)); NetOk(s') && RemotesOk(s') && StaleOk(s')
  {
    var s' := Do(s, Leave(c));
    forall l | l in s'.host.modules && 0 <= l < |s'.host.origins| && s'.host.origins[l].Of? ensures Accounted(s', l) {
      assert Accounted(s, l);
    }
  }

  lemma LeaveActive(s: Sys, c: nat)
    requires LiveOk(s) && Can(s, Leave(c))
    ensures KeepsActive(s, Do(s, Leave(c)))
  {}

  lemma {:induction false} LeaveKeeps(s: Sys, c: nat)
    requires Inv(s) && Can(s, Leave(c))
    ensures Inv(Do(s, Leave(c)))
  {
    LeaveRest(s, c);
    LeaveActive(s, c);
    MirrorsStay(s, Do(s, Leave(c)));
  }

  lemma CloseNextActive(s: Sys, l: int)
    requires NetOk(s) && IdsOk(s) && RemotesOk(s) && LiveOk(s) && Can(s, CloseNext(l))
    ensures KeepsActive(s, Do(s, CloseNext(l)))
  {
    var s' := Do(s, CloseNext(l));
    forall c | c in s'.live ensures KeepsCopies(s, s', c) {
      assert s.host.origins[l] == Of(s.net.peer, s.remotes[l].id);
      assert s.live[c] in s.live.Values;
    }
  }

  lemma CloseNextRemotes(s: Sys, l: int)
    requires NetOk(s) && RemotesOk(s) && Can(s, CloseNext(l))
    ensures RemotesOk(Do(s, CloseNext(l)))
  {}

  lemma CloseNextNet(s: Sys, l: int)
    requires NetOk(s) && RemotesOk(s) && Can(s, CloseNext(l))
    ensures NetOk(Do(s, CloseNext(l)))
  {
    NetRegistrationsConcat(s.host.tasks, [TUnregister(l)]);
  }

  lemma CloseNextStale(s: Sys, l: int)
    requires StaleOk(s) && Can(s, CloseNext(l))
    ensures StaleOk(Do(s, CloseNext(l)))
  {
    var s' := Do(s, CloseNext(l));
    forall k | k in s'.host.modules && 0 <= k < |s'.host.origins| && s'.host.origins[k].Of? ensures Accounted(s', k) {
      assert Accounted(s, k);
    }
  }

  lemma {:induction false} CloseNextKeeps(s: Sys, l: int)
    requires Inv(s) && Can(s, CloseNext(l))
    ensures Inv(Do(s, CloseNext(l)))
  {
    CloseNextActive(s, l);
    MirrorsStay(s, Do(s, CloseNext(l)));
    CloseNextRemotes(s, l);
    CloseNextNet(s, l);
    CloseNextStale(s, l);
    PostKeeps(s.host, TUnregister(l));
  }

  /* ---- A client comes ---- */

  lemma JoinCounts(s: Sys, c: nat)
    requires AllocatedOk(s) && Can(s, Join(c))
    ensures AllocatedOk(Do(s, Join(c)))
  {
    var s' := Do(s, Join(c));
    forall k | 0 <= k < |s'.peers| ensures CountOk(s', k) && s'.peers[k].taken <= |s'.peers[k].inst.handled| {
      if k < |s.peers| { assert CountOk(s, k); }
    }
    forall l | 0 <= l < |s.host.origins| ensures OriginOk(s', l, s.host.origins[l]) { assert OriginOk(s, l, s.host.origins[l]); }
  }

  lemma JoinRest(s: Sys, c: nat)
    requires NetOk(s) && RemotesOk(s) && StaleOk(s) && LiveOk(s) && Can(s, Join(c))
    ensures var s' := Do(s, Join(c)); NetOk(s') && RemotesOk(s') && StaleOk(s') && LiveOk(s')
  {
    var s' := Do(s, Join(c));
    forall l | l in s'.host.modules && 0 <= l < |s'.host.origins| && s'.host.origins[l].Of? ensures Accounted(s', l) {
      assert Accounted(s, l);
    }
  }

  lemma {:induction false} JoinMirrors(s: Sys, c: nat)
    requires CountsOk(s) && NetOk(s) && RemotesOk(s) && LiveOk(s) && MirrorsOk(s) && Can(s, Join(c))
    requires CountsOk(Do(s, Join(c))) && LiveOk(Do(s, Join(c)))
    ensures MirrorsOk(Do(s, Join(c)))
  {
    var s' := Do(s, Join(c));
    forall d | d in s'.live ensures MirrorOk(s', d) {
      if d != c {
        assert MirrorOk(s, d);
        var seen := Replay(Consumed(s.peers[s.live[d]]));
        forall r | r in seen ensures Copies(s', s.live[d], r, seen[r]) { assert Copies(s, s.live[d], r, seen[r]); }
      }
    }
  }

  lemma {:induction false} JoinKeeps(s: Sys, c: nat)
    requires Inv(s) && Can(s, Join(c))
    ensures Inv(Do(s, Join(c)))
  {
    FreshIsOk();
    JoinCounts(s, c);
    JoinRest(s, c);
    JoinMirrors(s, c);
    JoinPeers(s, c);
  }

  lemma JoinPeers(s: Sys, c: nat)
    requires PeersOk(s) && Can(s, Join(c)) && LocalInv(FRESH)
    ensures PeersOk(Do(s, Join(c)))
  {
    var s' := Do(s, Join(c));
    forall p | 0 <= p < |s'.peers| ensures PeerOk(s'.peers[p]) {
      if p < |s.peers| { assert PeerOk(s.peers[p]); }
    }
  }

  /* ---- Every run ---- */

  lemma {:induction false} NetStepKeeps(s: Sys, e: Event)
    requires Inv(s) && Can(s, e) && (e.Join? || e.Read? || e.Continue? || e.Leave? || e.CloseNext? || e.CloseDone?)
    ensures Inv(Do(s, e))
  {
    match e
    case Join(c) => JoinKeeps(s, c);
    case Read(c) => ReadKeeps(s, c);
    case Continue => ContinueKeeps(s);
    case Leave(c) => LeaveKeeps(s, c);
    case CloseNext(l) => CloseNextKeeps(s, l);
    case CloseDone => BecomeIdle(s);
  }

  lemma {:induction false} StepKeeps(s: Sys, e: Event)
    requires Inv(s)
    ensures Inv(Step(s, e))
  {
    if Can(s, e) {
      if e.PeerApp? || e.PeerRun? || e.PeerReceive? {
        PeerStepKeeps(s, e);
      } else if e.HostApp? || e.HostRun? || e.BrowserApply? || e.BrowserLoad? {
        HostStepKeeps(s, e);
      } else {
        NetStepKeeps(s, e);
      }
    }
  }

  lemma StartOk()
    ensures Inv(START)
  {
    FreshIsOk();
  }

  /** Every state that a run can reach satisfies the invariant. */
  lemma {:induction false} RunsKeep(es: seq<Event>)
    ensures Inv(Run(es))
  {
    if es == [] {
      StartOk();
    } else {
      RunsKeep(es[..|es| - 1]);
      StepKeeps(Run(es[..|es| - 1]), es[|es| - 1]);
    }
  }
}
