/** A host process, the processes that replicate their modules to it, and everything in flight
    between them, as a step system. A run is any sequence of events; an event that is not
    enabled changes nothing. */
module Network {
  import opened Model
  import opened Instance

  /** What the host's proxy server knows about a replicated module: its id and client there. */
  datatype Remote = Remote(id: int, client: nat)

  /** A proxy process and its connection. The upward channel is `inst.sent` from `taken` on;
      `ids[r]` is the host id once given to this process's module r. */
  datatype Peer = Peer(inst: Inst, taken: nat, down: seq<Apply>, ids: seq<int>)

  /** Where the host's network thread stands between two of its steps. */
  datatype Net =
    | Idle
    | Registering(client: nat, peer: nat, remote: int, mod: Module)   // waits for the promise
    | Registered(client: nat, peer: nat, remote: int, local: int)     // got it, has not stored it
    | Updating(local: int, updates: seq<Update>)                      // posted the save only
    | Erasing(local: int)                                             // posted the unregistration only
    | Closing(client: nat, peer: nat)                                 // walks over the table
    | ClosingErase(client: nat, peer: nat, local: int)

  datatype Sys = Sys(
    host: Inst,
    remotes: map<int, Remote>,
    net: Net,
    live: map<nat, nat>,           // client id of each open connection, and the process behind it
    peers: seq<Peer>,
    applies: seq<Apply>)           // browser requests so far; the index is the tag

  const START := Sys(FRESH, map[], Idle, map[], [], [])

  datatype Event =
    | HostApp(app: AppEvent)
    | HostRun
    | PeerApp(peer: nat, app: AppEvent)
    | PeerRun(peer: nat)
    | PeerReceive(peer: nat)
    | Join(client: nat)
    | Read(client: nat)
    | Continue
    | Leave(client: nat)
    | CloseNext(local: int)
    | CloseDone
    | BrowserApply(id: int, updates: seq<Update>)
    | BrowserLoad

  /* ---- The translation table ---- */

  ghost predicate Maps(remotes: map<int, Remote>, l: int, r: int, c: nat) {
    l in remotes && remotes[l] == Remote(r, c)
  }

  /** An id that stands for the client's module r, or -1. */
  ghost function LocalId(remotes: map<int, Remote>, r: int, c: nat): (l: int)
    ensures if exists k :: Maps(remotes, k, r, c) then Maps(remotes, l, r, c) else l == -1
  {
    if exists k :: Maps(remotes, k, r, c) then
      var k :| Maps(remotes, k, r, c); k
    else -1
  }

  /* ---- Steps ---- */

  function SetPeer(s: Sys, p: nat, q: Peer): Sys
    requires p < |s.peers|
  {
    s.(peers := s.peers[p := q])
  }

  predicate CanRead(s: Sys, c: nat) {
    && s.net.Idle? && c in s.live && s.live[c] < |s.peers|
    && s.peers[s.live[c]].taken < |s.peers[s.live[c]].inst.sent|
  }

  predicate IsNext(remotes: map<int, Remote>, c: nat, l: int) {
    && l in remotes && remotes[l].client == c
    && forall k :: k in remotes && remotes[k].client == c ==> l <= k
  }

  predicate Can(s: Sys, e: Event) {
    match e
    case HostApp(a) => Enabled(s.host, a) && (a.Decide? ==> a.hostMode)
    case HostRun => s.host.tasks != []
    case PeerApp(p, a) => p < |s.peers| && Enabled(s.peers[p].inst, a)
                          && (a.Decide? ==> !a.hostMode) && (a.AppRegister? ==> a.mod.hasCallback)
    case PeerRun(p) => p < |s.peers| && s.peers[p].inst.tasks != []
    case PeerReceive(p) => p < |s.peers| && s.peers[p].down != []
    case Join(c) => s.net.Idle? && c !in s.live && s.host.decided.Some?
    case Read(c) => CanRead(s, c)
    case Continue => s.net.Registered? || s.net.Updating? || s.net.Erasing? || s.net.ClosingErase?
    case Leave(c) => s.net.Idle? && c in s.live
    case CloseNext(l) => s.net.Closing? && IsNext(s.remotes, s.net.client, l)
    case CloseDone => s.net.Closing? && forall k :: k in s.remotes ==> s.remotes[k].client != s.net.client
    case BrowserApply(_, ups) => s.host.mode == Some(true) && NonNegative(ups)
    case BrowserLoad => s.host.mode == Some(true)
  }

  /** The promise of a registration asked for by the network thread is kept. */
  function Release(s: Sys, id: int): Sys {
    if s.net.Registering? && s.net.peer < |s.peers| then
      var n, q := s.net, s.peers[s.net.peer];
      SetPeer(s, n.peer, q.(ids := q.ids + [id])).(net := Registered(n.client, n.peer, n.remote, id))
    else s
  }

  /** An apply for a replicated module goes to its client under its own id; it is dropped when
      the module is not in the table or the client is gone. */
  function Forward(s: Sys, a: Apply): Sys {
    if a.id in s.remotes && s.remotes[a.id].client in s.live && s.live[s.remotes[a.id].client] < |s.peers| then
      var p := s.live[s.remotes[a.id].client];
      SetPeer(s, p, s.peers[p].(down := s.peers[p].down + [a.(id := s.remotes[a.id].id)]))
    else s
  }

  function RunHost(s: Sys): Sys
    requires s.host.tasks != []
  {
    var t, (h, out) := s.host.tasks[0], RunHead(s.host);
    var s' := s.(host := h);
    if t.TRegister? && t.origin.Of? then Release(s', |s.host.origins|)
    else if out.Some? then Forward(s', out.value)
    else s'
  }

  ghost function ReadMsg(s: Sys, c: nat): Sys
    requires CanRead(s, c)
  {
    var p := s.live[c];
    var q := s.peers[p];
    var s' := SetPeer(s, p, q.(taken := q.taken + 1));
    match q.inst.sent[q.taken]
    case Added(r, name, ps) =>
      var m := Received(Added(r, name, ps));
      s'.(host := Post(s.host, TRegister(m, Of(p, r))), net := Registering(c, p, r, m))
    case Removed(r) =>
      var l := LocalId(s.remotes, r, c);
      s'.(host := Post(s.host, TUnregister(l)), net := Erasing(l))
    case Updated(r, ups) =>
      var l := LocalId(s.remotes, r, c);
      s'.(host := Post(s.host, TSave(l, ups)), net := Updating(l, ups))
  }

  function ContinueNet(s: Sys): Sys
    requires Can(s, Continue)
  {
    match s.net
    case Registered(c, p, r, l) => s.(remotes := s.remotes[l := Remote(r, c)], net := Idle)
    case Updating(l, ups) => s.(host := Post(s.host, TSend(l, ups)), net := Idle)
    case Erasing(l) => s.(remotes := s.remotes - {l}, net := Idle)
    case ClosingErase(c, p, l) => s.(remotes := s.remotes - {l}, net := Closing(c, p))
  }

  ghost function Do(s: Sys, e: Event): Sys
    requires Can(s, e)
  {
    match e
    case HostApp(a) => s.(host := AppStep(s.host, a))
    case HostRun => RunHost(s)
    case PeerApp(p, a) => SetPeer(s, p, s.peers[p].(inst := AppStep(s.peers[p].inst, a)))
    case PeerRun(p) => SetPeer(s, p, s.peers[p].(inst := RunHead(s.peers[p].inst).0))
    case PeerReceive(p) =>
      var q := s.peers[p];
      SetPeer(s, p, q.(inst := Post(q.inst, TPass(q.down[0])), down := q.down[1..]))
    case Join(c) => s.(peers := s.peers + [Peer(FRESH, 0, [], [])], live := s.live[c := |s.peers|])
    case Read(c) => ReadMsg(s, c)
    case Continue => ContinueNet(s)
    case Leave(c) => s.(live := s.live - {c}, net := Closing(c, s.live[c]))
    case CloseNext(l) => s.(host := Post(s.host, TUnregister(l)), net := ClosingErase(s.net.client, s.net.peer, l))
    case CloseDone => s.(net := Idle)
    case BrowserApply(id, ups) =>
      var a := Apply(id, ups, |s.applies|);
      s.(host := Post(s.host, TPass(a)), applies := s.applies + [a])
    case BrowserLoad => s.(host := Post(s.host, TLoad))
  }

  ghost function Step(s: Sys, e: Event): Sys {
    if Can(s, e) then Do(s, e) else s
  }

  /** The state a run ends in. */
  ghost function Run(es: seq<Event>): Sys {
    if es == [] then START else Step(Run(es[..|es| - 1]), es[|es| - 1])
  }

  lemma {:induction false} RunNext(es: seq<Event>, e: Event)
    ensures Run(es + [e]) == Step(Run(es), e)
  {
    assert (es + [e])[..|es|] == es;
  }

  /* ---- What a step does to the host and to the processes ---- */

  /** What an event other than the host's own calls and its loop posts to the host. */
  ghost function PostedBy(s: Sys, e: Event): seq<Task>
    requires Can(s, e)
  {
    match e
    case Read(c) =>
      (match s.peers[s.live[c]].inst.sent[s.peers[s.live[c]].taken]
       case Added(r, name, ps) => [TRegister(Received(Added(r, name, ps)), Of(s.live[c], r))]
       case Removed(r) => [TUnregister(LocalId(s.remotes, r, c))]
       case Updated(r, ups) => [TSave(LocalId(s.remotes, r, c), ups)])
    case Continue => if s.net.Updating? then [TSend(s.net.local, s.net.updates)] else []
    case CloseNext(l) => [TUnregister(l)]
    case BrowserApply(id, ups) => [TPass(Apply(id, ups, |s.applies|))]
    case BrowserLoad => [TLoad]
    case _ => []
  }

  lemma OthersPost(s: Sys, e: Event)
    requires Can(s, e) && !e.HostApp? && !e.HostRun?
    ensures Do(s, e).host == s.host.(tasks := s.host.tasks + PostedBy(s, e))
    ensures |PostedBy(s, e)| <= 1
  {
    assert s.host.tasks + [] == s.host.tasks;
    match e
    case Read(c) => ReadPosts(s, c);
    case Continue =>
    case CloseNext(l) =>
    case BrowserApply(id, ups) =>
    case BrowserLoad =>
    case _ =>
  }

  lemma ReadPosts(s: Sys, c: nat)
    requires CanRead(s, c)
    ensures ReadMsg(s, c).host == s.host.(tasks := s.host.tasks + PostedBy(s, Read(c)))
  {}

  lemma RunsHead(s: Sys)
    requires s.host.tasks != []
    ensures RunHost(s).host == RunHead(s.host).0 && RunHost(s).applies == s.applies && RunHost(s).remotes == s.remotes
    ensures RunHost(s).live == s.live && |RunHost(s).peers| == |s.peers|
    ensures forall p :: 0 <= p < |s.peers| ==> RunHost(s).peers[p].inst == s.peers[p].inst && RunHost(s).peers[p].taken == s.peers[p].taken
  {}

  lemma HeadOrigins(i: Inst)
    requires i.tasks != []
    ensures RunHead(i).0.origins == if i.tasks[0].TRegister? then i.origins + [i.tasks[0].origin] else i.origins
  {}

  lemma AppOrigins(i: Inst, e: AppEvent)
    requires Enabled(i, e)
    ensures AppStep(i, e).origins == i.origins
  {}

  /** Only the host's loop gives ids. */
  lemma OriginsStay(s: Sys, e: Event)
    requires Can(s, e) && !e.HostRun?
    ensures Do(s, e).host.origins == s.host.origins
  {
    if e.HostApp? { AppOrigins(s.host, e.app); } else { OthersPost(s, e); }
  }

  lemma PeersJoin(s: Sys, e: Event)
    requires Can(s, e)
    ensures |Do(s, e).peers| == |s.peers| + if e.Join? then 1 else 0
  {
    if e.HostRun? { RunsHead(s); }
  }

  /** Only its own events change a process. */
  lemma OthersKeepProcess(s: Sys, e: Event, p: nat)
    requires Can(s, e) && p < |s.peers| && ((e.PeerApp? || e.PeerRun? || e.PeerReceive?) ==> e.peer != p)
    ensures p < |Do(s, e).peers| && Do(s, e).peers[p].inst == s.peers[p].inst
  {
    if e.HostRun? { RunsHead(s); }
  }

  /** And only the host's loop its ids and what is sent down to it. */
  lemma OthersKeepIds(s: Sys, e: Event, p: nat)
    requires Can(s, e) && !e.HostRun? && p < |s.peers|
    ensures p < |Do(s, e).peers| && Do(s, e).peers[p].ids == s.peers[p].ids
    ensures Do(s, e).peers[p].down == s.peers[p].down || (e.PeerReceive? && e.peer == p)
  {}

  lemma Asks(s: Sys, e: Event)
    requires Can(s, e)
    ensures Do(s, e).applies == if e.BrowserApply? then s.applies + [Apply(e.id, e.updates, |s.applies|)] else s.applies
  {
    if e.HostRun? { RunsHead(s); }
  }
}
