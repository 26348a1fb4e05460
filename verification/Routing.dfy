/** Where a browser's apply request may end up: every callback that runs at a process stems from
    one request for the host id of that very module, and each request runs at most one callback. */
module Routing {
  import opened Model
  import opened Instance
  import opened Network
  import opened NetworkInvariant

  function Passes(ts: seq<Task>): seq<Apply> {
    if ts == [] then []
    else (if ts[0].TPass? then [ts[0].apply] else []) + Passes(ts[1..])
  }

  lemma {:induction false} PassesPost(ts: seq<Task>, t: Task)
    ensures Passes(ts + [t]) == Passes(ts) + (if t.TPass? then [t.apply] else [])
  {
    if ts == [] {
      assert (ts + [t])[1..] == [];
    } else {
      PassesPost(ts[1..], t);
      assert (ts + [t])[1..] == ts[1..] + [t];
    }
  }

  /** The applies of a process from the first callback it ran to the last one on its way, and then
      those that the host has yet to run. */
  function Journey(s: Sys, q: Peer): seq<Apply> {
    q.inst.calls + Passes(q.inst.tasks) + q.down + Passes(s.host.tasks)
  }

  ghost predicate Increasing(js: seq<Apply>) {
    forall j, k :: 0 <= j < k < |js| ==> js[j].tag < js[k].tag
  }

  /** The request numbered a.tag asked for these updates, of the host's copy of the process's
      module a.id. */
  ghost predicate Justified(s: Sys, p: nat, a: Apply) {
    && a.tag < |s.applies|
    && a.updates == s.applies[a.tag].updates
    && 0 <= s.applies[a.tag].id < |s.host.origins|
    && s.host.origins[s.applies[a.tag].id] == Of(p, a.id)
  }

  /** The apply is the browser's own, unchanged. */
  ghost predicate AsAsked(s: Sys, a: Apply) {
    a.tag < |s.applies| && a == s.applies[a.tag]
  }

  ghost predicate PeerRoutes(s: Sys, p: nat, q: Peer) {
    && (forall a <- q.inst.calls :: Justified(s, p, a))
    && (forall a <- Passes(q.inst.tasks) :: Justified(s, p, a))
    && (forall a <- q.down :: Justified(s, p, a))
    && Increasing(Journey(s, q))
  }

  ghost predicate HostRoutes(s: Sys) {
    && (forall a <- Passes(s.host.tasks) :: AsAsked(s, a))
    && (forall a <- s.host.calls :: AsAsked(s, a) && Owned(s.host, a.id))
    && Increasing(s.host.calls + Passes(s.host.tasks))
  }

  /** Only modules of the host's own have a callback there. */
  ghost predicate CallbacksOwned(h: Inst) {
    && (forall l :: l in h.modules && h.modules[l].hasCallback ==> Owned(h, l))
    && (forall t <- h.tasks :: t.TRegister? && t.mod.hasCallback ==> t.origin.Own?)
  }

  ghost predicate Routes(s: Sys) {
    && HostRoutes(s) && CallbacksOwned(s.host)
    && forall p :: 0 <= p < |s.peers| ==> PeerRoutes(s, p, s.peers[p])
  }

  /* ---- Sequences that keep increasing ---- */

  lemma DropKeeps(a: seq<Apply>, x: Apply, b: seq<Apply>)
    requires Increasing(a + [x] + b)
    ensures Increasing(a + b)
  {
    var js, ks := a + [x] + b, a + b;
    forall j, k | 0 <= j < k < |ks| ensures ks[j].tag < ks[k].tag {
      var j', k' := if j < |a| then j else j + 1, if k < |a| then k else k + 1;
      assert js[j'] == ks[j] && js[k'] == ks[k];
    }
  }

  lemma AppendKeeps(a: seq<Apply>, x: Apply)
    requires Increasing(a) && forall y <- a :: y.tag < x.tag
    ensures Increasing(a + [x])
  {}

  /* ---- What a step changes ---- */

  /** Records only grow. */
  ghost predicate Grows(s: Sys, s': Sys) {
    s.applies <= s'.applies && s.host.origins <= s'.host.origins
  }

  lemma JustifiedGrows(s: Sys, s': Sys, p: nat, a: Apply)
    requires Grows(s, s') && Justified(s, p, a)
    ensures Justified(s', p, a)
  {}

  /** A process's part of the journey loses nothing but perhaps one apply. */
  ghost predicate Shortens(js: seq<Apply>, js': seq<Apply>) {
    js' == js || exists k :: 0 <= k < |js| && js' == js[..k] + js[k + 1..]
  }

  ghost predicate AllJustified(s: Sys, p: nat, js: seq<Apply>) {
    forall a <- js :: Justified(s, p, a)
  }

  /** A process's own part of the journey. */
  function Own(q: Peer): seq<Apply> {
    q.inst.calls + Passes(q.inst.tasks) + q.down
  }

  lemma RoutesByOwn(s: Sys, p: nat, q: Peer)
    ensures PeerRoutes(s, p, q) <==> AllJustified(s, p, Own(q)) && Increasing(Own(q) + Passes(s.host.tasks))
  {
    assert forall a :: a in Own(q) <==> a in q.inst.calls || a in Passes(q.inst.tasks) || a in q.down;
  }

  /* ---- Steps of a proxy process ---- */

  lemma PeerOwnApp(i: Inst, e: AppEvent)
    requires Enabled(i, e) && SendsOnly(i)
    ensures AppStep(i, e).calls == i.calls && Passes(AppStep(i, e).tasks) == Passes(i.tasks)
  {
    match e
    case Decide(hostMode) => PassesPost(i.tasks, TInit(hostMode));
    case AppRegister(m) => PassesPost(i.tasks, TRegister(m, Origin.Own));
    case AppUnregister(id) => PassesPost(i.tasks, TUnregister(id));
    case AppSave(t, id, ups) => PassesPost(i.tasks, TSave(id, ups));
    case AppSend(t) => PassesPost(i.tasks, i.calling[t]);
    case CallbackUnregister(id) =>
    case CallbackUpdate(id, ups) =>
  }

  lemma RunCalls(i: Inst)
    requires i.tasks != [] && -1 !in i.modules
    ensures var j := RunHead(i).0; var t := i.tasks[0];
            j.tasks == i.tasks[1..] && (j.calls == i.calls || (t.TPass? && j.calls == i.calls + [t.apply]))
  {}

  lemma ShortensAt(c: seq<Apply>, x: Apply, b: seq<Apply>)
    ensures Shortens(c + [x] + b, c + b)
  {
    var js := c + [x] + b;
    assert js[..|c|] == c && js[|c| + 1..] == b;
  }

  lemma OwnRun(q: Peer)
    requires q.inst.tasks != [] && -1 !in q.inst.modules
    ensures Shortens(Own(q), Own(q.(inst := RunHead(q.inst).0)))
  {
    var i, j, t := q.inst, RunHead(q.inst).0, q.inst.tasks[0];
    RunCalls(i);
    var later := Passes(i.tasks[1..]) + q.down;
    if t.TPass? {
      assert Passes(i.tasks) == [t.apply] + Passes(i.tasks[1..]);
      assert Own(q) == i.calls + [t.apply] + later;
      assert Own(q.(inst := j)) == j.calls + later;
      ShortensAt(i.calls, t.apply, later);
    }
  }

  lemma OwnReceive(q: Peer)
    requires q.down != []
    ensures Own(q.(inst := Post(q.inst, TPass(q.down[0])), down := q.down[1..])) == Own(q)
  {
    PassesPost(q.inst.tasks, TPass(q.down[0]));
    assert q.down == [q.down[0]] + q.down[1..];
  }

  /** A process whose own part of the journey at most shortens keeps all routes. */
  lemma PeerShortens(s: Sys, p: nat, q: Peer)
    requires Routes(s) && p < |s.peers| && Shortens(Own(s.peers[p]), Own(q))
    ensures Routes(SetPeer(s, p, q))
  {
    var s' := SetPeer(s, p, q);
    forall k | 0 <= k < |s'.peers| ensures PeerRoutes(s', k, s'.peers[k]) {
      assert PeerRoutes(s, k, s.peers[k]);
      RoutesByOwn(s, k, s.peers[k]);
      RoutesByOwn(s', k, s'.peers[k]);
      if k == p { OwnShortens(s, p, s.peers[p], q); }
      assert AllJustified(s', k, Own(s'.peers[k])) by {
        assert AllJustified(s, k, Own(s'.peers[k]));
        forall a | a in Own(s'.peers[k]) ensures Justified(s', k, a) { assert Justified(s, k, a); }
      }
    }
  }

  lemma OwnShortens(s: Sys, p: nat, q: Peer, q': Peer)
    requires AllJustified(s, p, Own(q)) && Increasing(Own(q) + Passes(s.host.tasks)) && Shortens(Own(q), Own(q'))
    ensures AllJustified(s, p, Own(q')) && Increasing(Own(q') + Passes(s.host.tasks))
  {
    var o, h := Own(q), Passes(s.host.tasks);
    if Own(q') != o {
      var k :| 0 <= k < |o| && Own(q') == o[..k] + o[k + 1..];
      assert o + h == o[..k] + [o[k]] + (o[k + 1..] + h);
      DropKeeps(o[..k], o[k], o[k + 1..] + h);
      assert Own(q') + h == o[..k] + (o[k + 1..] + h);
    }
  }

  lemma {:induction false} PeerStepRoutes(s: Sys, e: Event)
    requires Inv(s) && Routes(s) && Can(s, e) && (e.PeerApp? || e.PeerRun? || e.PeerReceive?)
    ensures Routes(Do(s, e))
  {
    var q := s.peers[e.peer];
    NoModuleIsUnknown(q.inst) by { assert PeerOk(q); }
    match e
    case PeerApp(p, a) =>
      PeerOwnApp(q.inst, a);
      PeerShortens(s, p, q.(inst := AppStep(q.inst, a)));
    case PeerRun(p) =>
      OwnRun(q);
      PeerShortens(s, p, q.(inst := RunHead(q.inst).0));
    case PeerReceive(p) =>
      OwnReceive(q);
      PeerShortens(s, p, q.(inst := Post(q.inst, TPass(q.down[0])), down := q.down[1..]));
  }

  /* ---- Steps that neither post nor run an apply ---- */

  lemma QuietRoutes(s: Sys, s': Sys)
    requires Routes(s) && Grows(s, s')
    requires Passes(s'.host.tasks) == Passes(s.host.tasks) && s'.host.calls == s.host.calls
    requires |s.peers| <= |s'.peers|
    requires forall p :: 0 <= p < |s.peers| ==> Own(s'.peers[p]) == Own(s.peers[p])
    requires forall p :: |s.peers| <= p < |s'.peers| ==> Own(s'.peers[p]) == []
    requires CallbacksOwned(s'.host)
    ensures Routes(s')
  {
    forall p | 0 <= p < |s'.peers| ensures PeerRoutes(s', p, s'.peers[p]) {
      RoutesByOwn(s', p, s'.peers[p]);
      if p < |s.peers| {
        assert PeerRoutes(s, p, s.peers[p]);
        RoutesByOwn(s, p, s.peers[p]);
        forall a | a in Own(s'.peers[p]) ensures Justified(s', p, a) { JustifiedGrows(s, s', p, a); }
      } else {
        HostTail(s);
        assert Own(s'.peers[p]) + Passes(s'.host.tasks) == Passes(s'.host.tasks);
      }
    }
  }

  lemma HostTail(s: Sys)
    requires HostRoutes(s)
    ensures Increasing(Passes(s.host.tasks))
  {
    var c, h := s.host.calls, Passes(s.host.tasks);
    forall j, k | 0 <= j < k < |h| ensures h[j].tag < h[k].tag {
      assert (c + h)[|c| + j] == h[j] && (c + h)[|c| + k] == h[k];
    }
  }

  lemma HostPostCallbacks(h: Inst, t: Task)
    requires CallbacksOwned(h) && (t.TRegister? && t.mod.hasCallback ==> t.origin.Own?)
    ensures CallbacksOwned(Post(h, t))
  {}

  lemma AppCallbacks(h: Inst, e: AppEvent)
    requires CallbacksOwned(h) && Enabled(h, e) && SendsOnly(h)
    ensures CallbacksOwned(AppStep(h, e))
  {
    match e
    case CallbackUnregister(id) =>
    case CallbackUpdate(id, ups) => SaveKeepsTable(h, id, ups);
    case _ =>
  }

  lemma HostAppRoutes(s: Sys, a: AppEvent)
    requires LocalInv(s.host) && Routes(s) && Can(s, HostApp(a))
    ensures Routes(Do(s, HostApp(a)))
  {
    NoModuleIsUnknown(s.host);
    PeerOwnApp(s.host, a);
    AppCallbacks(s.host, a);
    QuietRoutes(s, Do(s, HostApp(a)));
  }

  /* ---- Steps of the network thread, of clients and of browsers ---- */

  /** What the network thread posts on a read. */
  lemma ReadOnlyPosts(s: Sys, c: nat)
    requires CanRead(s, c)
    ensures var s', ts := ReadMsg(s, c), PostedBy(s, Read(c));
            && s'.host == s.host.(tasks := s.host.tasks + ts)
            && |ts| == 1 && !ts[0].TPass? && (ts[0].TRegister? ==> !ts[0].mod.hasCallback)
            && |s'.peers| == |s.peers| && s'.applies == s.applies
            && forall p :: 0 <= p < |s.peers| ==> s'.peers[p].inst == s.peers[p].inst && s'.peers[p].down == s.peers[p].down
  {
    ReadPosts(s, c);
  }

  lemma ReadRoutes(s: Sys, c: nat)
    requires Routes(s) && CanRead(s, c)
    ensures Routes(ReadMsg(s, c))
  {
    ReadOnlyPosts(s, c);
    var t := PostedBy(s, Read(c))[0];
    assert PostedBy(s, Read(c)) == [t];
    PassesPost(s.host.tasks, t);
    HostPostCallbacks(s.host, t);
    QuietRoutes(s, ReadMsg(s, c));
  }

  lemma PostRoutes(s: Sys, s': Sys, t: Task)
    requires Routes(s) && !t.TPass? && !t.TRegister?
    requires s'.host == Post(s.host, t) && s'.peers == s.peers && s'.applies == s.applies
    ensures Routes(s')
  {
    PassesPost(s.host.tasks, t);
    HostPostCallbacks(s.host, t);
    QuietRoutes(s, s');
  }

  lemma NetRoutes(s: Sys, e: Event)
    requires Routes(s) && Can(s, e) && (e.Continue? || e.Leave? || e.Join? || e.CloseNext? || e.CloseDone? || e.BrowserLoad?)
    ensures Routes(Do(s, e))
  {
    if e.CloseNext? {
      PostRoutes(s, Do(s, e), TUnregister(e.local));
    } else if e.BrowserLoad? {
      PostRoutes(s, Do(s, e), TLoad);
    } else if e.Continue? && s.net.Updating? {
      PostRoutes(s, Do(s, e), TSend(s.net.local, s.net.updates));
    } else {
      QuietRoutes(s, Do(s, e));
    }
  }

  lemma ApplyRoutes(s: Sys, id: int, ups: seq<Update>)
    requires Routes(s) && Can(s, BrowserApply(id, ups))
    ensures Routes(Do(s, BrowserApply(id, ups)))
  {
    var s' := Do(s, BrowserApply(id, ups));
    var a := Apply(id, ups, |s.applies|);
    PassesPost(s.host.tasks, TPass(a));
    HostPostCallbacks(s.host, TPass(a));
    var h := Passes(s.host.tasks);
    assert forall x <- s.host.calls + h :: AsAsked(s, x);
    AppendKeeps(s.host.calls + h, a);
    assert s.host.calls + h + [a] == s.host.calls + (h + [a]);
    forall p | 0 <= p < |s'.peers| ensures PeerRoutes(s', p, s'.peers[p]) { ApplyPeer(s, id, ups, p); }
  }

  lemma ApplyPeer(s: Sys, id: int, ups: seq<Update>, p: nat)
    requires Routes(s) && Can(s, BrowserApply(id, ups)) && p < |s.peers|
    ensures PeerRoutes(Do(s, BrowserApply(id, ups)), p, s.peers[p])
  {
    var s', q := Do(s, BrowserApply(id, ups)), s.peers[p];
    var a, h := Apply(id, ups, |s.applies|), Passes(s.host.tasks);
    PassesPost(s.host.tasks, TPass(a));
    assert PeerRoutes(s, p, q);
    RoutesByOwn(s, p, q);
    RoutesByOwn(s', p, q);
    forall x | x in Own(q) ensures Justified(s', p, x) { JustifiedGrows(s, s', p, x); }
    assert forall x <- Own(q) + h :: x.tag < a.tag;
    AppendKeeps(Own(q) + h, a);
    assert Own(q) + h + [a] == Own(q) + (h + [a]);
  }

  /* ---- Steps of the host's loop ---- */

  lemma RunCallbacks(h: Inst)
    requires CallbacksOwned(h) && h.tasks != [] && -1 !in h.modules
    ensures CallbacksOwned(RunHead(h).0)
  {
    var t, i := h.tasks[0], h.(tasks := h.tasks[1..]);
    assert t in h.tasks && forall u <- i.tasks :: u in h.tasks;
    match t
    case TSave(id, ups) => SaveKeepsTable(i, id, ups);
    case TPass(a) => SaveKeepsTable(i, a.id, a.updates);
    case _ =>
  }

  lemma PopOther(ts: seq<Task>)
    requires ts != []
    ensures Passes(ts) == (if ts[0].TPass? then [ts[0].apply] else []) + Passes(ts[1..])
  {}

  lemma OtherRun(s: Sys)
    requires s.host.tasks != [] && !s.host.tasks[0].TPass? && -1 !in s.host.modules
    ensures var s' := RunHost(s);
            && s'.host == RunHead(s.host).0 && s'.host.calls == s.host.calls && s'.host.tasks == s.host.tasks[1..]
            && s'.applies == s.applies && s.host.origins <= s'.host.origins && |s'.peers| == |s.peers|
            && forall p :: 0 <= p < |s.peers| ==> s'.peers[p].inst == s.peers[p].inst && s'.peers[p].down == s.peers[p].down
  {
    assert RunHead(s.host).1.None?;
  }

  lemma {:induction false} OtherRunRoutes(s: Sys)
    requires Routes(s) && s.host.tasks != [] && !s.host.tasks[0].TPass? && -1 !in s.host.modules
    ensures Routes(RunHost(s))
  {
    PopOther(s.host.tasks);
    RunCallbacks(s.host);
    OtherRun(s);
    QuietRoutes(s, RunHost(s));
  }

  /** The host takes an apply from its tasks: it is called, sent on, or dropped. */
  lemma PassRoutes(s: Sys)
    requires RemotesOk(s) && NetOk(s) && LiveOk(s) && Routes(s) && s.host.tasks != [] && s.host.tasks[0].TPass? && -1 !in s.host.modules
    ensures Routes(RunHost(s))
  {
    var a, h := s.host.tasks[0].apply, Passes(s.host.tasks[1..]);
    var s' := RunHost(s);
    PopOther(s.host.tasks);
    assert Passes(s.host.tasks) == [a] + h;
    RunCallbacks(s.host);
    assert s'.host == RunHead(s.host).0 && Passes(s'.host.tasks) == h;
    assert a in Passes(s.host.tasks) && AsAsked(s, a);
    PassAtHost(s, a, h);
    forall p | 0 <= p < |s'.peers| ensures PeerRoutes(s', p, s'.peers[p]) {
      assert PeerRoutes(s, p, s.peers[p]);
      PassAtPeer(s, p, a, h);
    }
  }

  lemma PassAtHost(s: Sys, a: Apply, h: seq<Apply>)
    requires HostRoutes(s) && CallbacksOwned(s.host) && s.host.tasks != [] && s.host.tasks[0] == TPass(a)
    requires Passes(s.host.tasks) == [a] + h && h == Passes(s.host.tasks[1..])
    ensures HostRoutes(RunHost(s))
  {
    assert forall x <- h :: x in Passes(s.host.tasks);
    assert a in Passes(s.host.tasks);
    RunsHead(s);
    PassCalls(s.host, a);
    JourneyDrops(s.host.calls, a, h);
    assert s.host.calls + ([a] + h) == s.host.calls + [a] + h;
  }

  lemma PassCalls(i: Inst, a: Apply)
    requires CallbacksOwned(i) && i.tasks != [] && i.tasks[0] == TPass(a)
    ensures var j := RunHead(i).0;
            && j.tasks == i.tasks[1..] && j.origins == i.origins
            && (j.calls == i.calls || (j.calls == i.calls + [a] && Owned(i, a.id)))
  {}

  lemma ForwardTarget(s: Sys, a: Apply, p: nat)
    requires RemotesOk(s) && NetOk(s) && LiveOk(s) && AsAsked(s, a)
    requires a.id in s.remotes && s.remotes[a.id].client in s.live && s.live[s.remotes[a.id].client] == p
    ensures Justified(s, p, a.(id := s.remotes[a.id].id))
  {
    assert s.host.origins[a.id] == Of(PeerOf(s, s.remotes[a.id].client), s.remotes[a.id].id);
  }

  /** What running an apply at the host does to a process. */
  lemma PassMoves(s: Sys, p: nat, a: Apply)
    requires s.host.tasks != [] && s.host.tasks[0] == TPass(a) && p < |s.peers|
    ensures var s' := RunHost(s);
            && s'.applies == s.applies && s'.host.origins == s.host.origins && s'.host.tasks == s.host.tasks[1..]
            && |s'.peers| == |s.peers|
            && (s'.peers[p] == s.peers[p]
               || (a.id in s.remotes && s.remotes[a.id].client in s.live && s.live[s.remotes[a.id].client] == p
                   && s'.peers[p] == s.peers[p].(down := s.peers[p].down + [a.(id := s.remotes[a.id].id)])))
  {}

  lemma JourneyDrops(o: seq<Apply>, a: Apply, h: seq<Apply>)
    requires Increasing(o + ([a] + h))
    ensures Increasing(o + h)
  {
    assert o + ([a] + h) == o + [a] + h;
    DropKeeps(o, a, h);
  }

  lemma JourneyMoves(o: seq<Apply>, a: Apply, b: Apply, h: seq<Apply>)
    requires Increasing(o + ([a] + h)) && a.tag == b.tag
    ensures Increasing(o + [b] + h)
  {
    assert o + ([a] + h) == o + [a] + h;
    SameTags(o + [a] + h, o + [b] + h);
  }

  lemma PassAtPeer(s: Sys, p: nat, a: Apply, h: seq<Apply>)
    requires RemotesOk(s) && NetOk(s) && LiveOk(s) && p < |s.peers| && PeerRoutes(s, p, s.peers[p])
    requires s.host.tasks != [] && s.host.tasks[0] == TPass(a) && AsAsked(s, a)
    requires Passes(s.host.tasks) == [a] + h && h == Passes(s.host.tasks[1..])
    ensures p < |RunHost(s).peers| && PeerRoutes(RunHost(s), p, RunHost(s).peers[p])
  {
    PassMoves(s, p, a);
    var q, q' := s.peers[p], RunHost(s).peers[p];
    RoutesByOwn(s, p, q);
    if q' == q {
      JourneyDrops(Own(q), a, h);
      NowRoutes(s, RunHost(s), p, q, h);
    } else {
      var b := a.(id := s.remotes[a.id].id);
      ForwardTarget(s, a, p);
      PassSends(s, RunHost(s), p, q, a, b, h);
    }
  }

  lemma PassSends(s: Sys, s': Sys, p: nat, q: Peer, a: Apply, b: Apply, h: seq<Apply>)
    requires Grows(s, s') && Passes(s'.host.tasks) == h
    requires AllJustified(s, p, Own(q)) && Increasing(Own(q) + ([a] + h)) && Justified(s, p, b) && a.tag == b.tag
    ensures PeerRoutes(s', p, q.(down := q.down + [b]))
  {
    var q' := q.(down := q.down + [b]);
    assert Own(q') == Own(q) + [b];
    JourneyMoves(Own(q), a, b, h);
    NowRoutes(s, s', p, q', h);
  }

  lemma NowRoutes(s: Sys, s': Sys, p: nat, q: Peer, h: seq<Apply>)
    requires Grows(s, s') && AllJustified(s, p, Own(q)) && Passes(s'.host.tasks) == h && Increasing(Own(q) + h)
    ensures PeerRoutes(s', p, q)
  {
    forall a | a in Own(q) ensures Justified(s', p, a) { JustifiedGrows(s, s', p, a); }
    RoutesByOwn(s', p, q);
  }

  lemma SameTags(js: seq<Apply>, ks: seq<Apply>)
    requires Increasing(js) && |js| == |ks| && forall k :: 0 <= k < |js| ==> js[k].tag == ks[k].tag
    ensures Increasing(ks)
  {}

  lemma {:induction false} HostRunRoutes(s: Sys)
    requires LocalInv(s.host) && RemotesOk(s) && NetOk(s) && LiveOk(s) && Routes(s) && Can(s, HostRun)
    ensures Routes(RunHost(s))
  {
    NoModuleIsUnknown(s.host);
    if s.host.tasks[0].TPass? { PassRoutes(s); } else { OtherRunRoutes(s); }
  }

  lemma {:induction false} StepRoutes(s: Sys, e: Event)
    requires Inv(s) && Routes(s)
    ensures Routes(Step(s, e))
  {
    if Can(s, e) {
      match e
      case HostApp(a) => HostAppRoutes(s, a);
      case HostRun => HostRunRoutes(s);
      case Read(c) => ReadRoutes(s, c);
      case BrowserApply(id, ups) => ApplyRoutes(s, id, ups);
      case _ => if e.PeerApp? || e.PeerRun? || e.PeerReceive? { PeerStepRoutes(s, e); } else { NetRoutes(s, e); }
    }
  }

  lemma {:induction false} RunsRoute(es: seq<Event>)
    ensures Routes(Run(es))
  {
    if es != [] {
      RunsRoute(es[..|es| - 1]);
      RunsKeep(es[..|es| - 1]);
      StepRoutes(Run(es[..|es| - 1]), es[|es| - 1]);
    }
  }

  /* ---- Routing safety ---- */

  /** Every callback that process p ever ran, on its module r, stems from a browser request that was
      addressed to the host id given to that registration, with the same updates in the same order;
      callbacks run in the order of their requests, each request at most once. */
  lemma {:induction false} CallbacksStemFromRequests(es: seq<Event>, p: nat, k: nat)
    requires p < |Run(es).peers| && k < |Run(es).peers[p].inst.calls|
    ensures var s := Run(es); var a := s.peers[p].inst.calls[k];
            && a.tag < |s.applies| && a.updates == s.applies[a.tag].updates
            && 0 <= s.applies[a.tag].id < |s.host.origins| && s.host.origins[s.applies[a.tag].id] == Of(p, a.id)
            && forall j :: 0 <= j < k ==> s.peers[p].inst.calls[j].tag < a.tag
  {
    RunsRoute(es);
    var s := Run(es);
    var q := s.peers[p];
    assert PeerRoutes(s, p, q);
    assert Justified(s, p, q.inst.calls[k]);
    forall j | 0 <= j < k ensures q.inst.calls[j].tag < q.inst.calls[k].tag {
      assert Journey(s, q)[j] == q.inst.calls[j] && Journey(s, q)[k] == q.inst.calls[k];
    }
  }

  /** No request runs callbacks at two processes, nor both at the host and at a process; also what is
      still on its way to a process is for a module of that process and of no other. */
  lemma {:induction false} RequestsReachOneProcess(es: seq<Event>, p: nat, q: nat, a: Apply, b: Apply)
    requires var s := Run(es); p < |s.peers| && q < |s.peers| && a in Own(s.peers[p]) && b in Own(s.peers[q]) && a.tag == b.tag
    ensures p == q && a.id == b.id
    ensures forall x <- Run(es).host.calls :: x.tag != a.tag
  {
    RunsRoute(es);
    var s := Run(es);
    assert PeerRoutes(s, p, s.peers[p]) && PeerRoutes(s, q, s.peers[q]);
    assert Justified(s, p, a) && Justified(s, q, b);
    forall x | x in s.host.calls ensures x.tag != a.tag {
      assert AsAsked(s, x) && Owned(s.host, x.id);
    }
  }

  /** Callbacks of the host's own modules get the request as it was made. */
  lemma {:induction false} HostCallbacksStemFromRequests(es: seq<Event>, k: nat)
    requires k < |Run(es).host.calls|
    ensures var s := Run(es); var a := s.host.calls[k];
            && a.tag < |s.applies| && a == s.applies[a.tag] && Owned(s.host, a.id)
            && forall j :: 0 <= j < k ==> s.host.calls[j].tag < a.tag
  {
    RunsRoute(es);
    var s := Run(es);
    assert s.host.calls[k] in s.host.calls;
    forall j | 0 <= j < k ensures s.host.calls[j].tag < s.host.calls[k].tag {
      var js := s.host.calls + Passes(s.host.tasks);
      assert js[j] == s.host.calls[j] && js[k] == s.host.calls[k];
    }
  }

  /* ---- Ids are never given twice ---- */

  lemma StepGrows(s: Sys, e: Event)
    ensures Grows(s, Step(s, e)) && |s.peers| <= |Step(s, e).peers|
  {
    if Can(s, e) {
      Asks(s, e);
      PeersJoin(s, e);
      if e.HostRun? {
        RunsHead(s);
        HeadOrigins(s.host);
      } else {
        OriginsStay(s, e);
      }
    }
  }

  /** What an id stands for, and what a request asked for, never changes in the rest of a run. */
  lemma {:induction false} IdsAreNeverReused(es: seq<Event>, more: seq<Event>)
    ensures Run(es).host.origins <= Run(es + more).host.origins
    ensures Run(es).applies <= Run(es + more).applies
    decreases |more|
  {
    if more == [] {
      assert es + more == es;
    } else {
      var n := |more| - 1;
      IdsAreNeverReused(es, more[..n]);
      assert (es + more)[..|es + more| - 1] == es + more[..n];
      StepGrows(Run(es + more[..n]), more[n]);
    }
  }
}
