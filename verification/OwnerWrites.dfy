/** Properties that only their owner writes, from one thread or from callbacks only: the host ends
    up with the owner's value, however saves, sends and everything else interleave. */
module OwnerWrites {
  import opened Model
  import opened Instance
  import opened Network
  import opened NetworkInvariant
  import opened Routing
  import opened Effects
  import opened HostValue
  import opened Syncs

  /** What the call in progress on thread w has yet to send. */
  function Unsent(i: Inst, w: nat, r: nat, k: nat): seq<Effect> {
    if w in i.calling then SendEffect(i.calling[w], r, k) else []
  }

  ghost predicate OthersSilent(i: Inst, w: nat, r: nat, k: nat) {
    forall t :: t in i.calling && t != w ==> SendEffect(i.calling[t], r, k) == []
  }

  /** In step, where what is unsent is the rest of the call that thread w is in. */
  ghost predicate ThreadSync(i: Inst, u: Cell, w: nat, r: nat, k: nat) {
    OthersSilent(i, w, r, k) && SyncWith(i, u, Unsent(i, w, r, k), r, k)
  }

  /** Nothing pending writes the property, and owner and listener agree already. */
  ghost predicate LoopSync(i: Inst, u: Cell, r: nat, k: nat) {
    && (forall t :: t in i.calling ==> SendEffect(i.calling[t], r, k) == [])
    && (forall e <- Saves(i.tasks, r, k) + Sends(i.tasks, r, k) :: e == Kill)
    && CellOf(i.modules, r, k) == u
  }

  /** Writes of property k of module r are made on thread w, outside callbacks. */
  ghost predicate ByThread(e: AppEvent, w: nat, r: nat, k: nat) {
    && (e.AppSave? && e.id == r && Touches(e.updates, k) ==> e.thread == w)
    && (e.CallbackUpdate? && e.id == r ==> !Touches(e.updates, k))
  }

  /** Writes of property k of module r are made in callbacks. */
  ghost predicate ByLoop(e: AppEvent, r: nat, k: nat) {
    e.AppSave? && e.id == r ==> !Touches(e.updates, k)
  }

  /* ---- The owner's steps, with writes on one thread ---- */

  lemma UnsentOnlyWrites(i: Inst, w: nat, r: nat, k: nat)
    requires SendsOnly(i)
    ensures NoCreate(Unsent(i, w, r, k))
  {}

  lemma ThreadFits(i: Inst, e: AppEvent, w: nat, r: nat, k: nat)
    requires OthersSilent(i, w, r, k) && SendsOnly(i) && Enabled(i, e) && ByThread(e, w, r, k)
    ensures OthersSilent(AppStep(i, e), w, r, k)
    ensures Fits(i, AppMove(i, e), Unsent(i, w, r, k), Unsent(AppStep(i, e), w, r, k), r, k)
  {}

  lemma ThreadApp(i: Inst, e: AppEvent, u: Cell, w: nat, r: nat, k: nat)
    requires ThreadSync(i, u, w, r, k) && TasksOk(i) && -1 !in i.modules && Enabled(i, e) && ByThread(e, w, r, k)
    ensures |i.handled| <= |AppStep(i, e).handled|
    ensures ThreadSync(AppStep(i, e), Play(u, Says(AppStep(i, e).handled[|i.handled|..], r, k), k), w, r, k)
  {
    AppMoves(i, e);
    ThreadFits(i, e, w, r, k);
    UnsentOnlyWrites(i, w, r, k);
    MoveSyncs(i, AppStep(i, e), AppMove(i, e), u, Unsent(i, w, r, k), Unsent(AppStep(i, e), w, r, k), r, k);
  }

  lemma RunKeepsCalls(i: Inst)
    requires i.tasks != []
    ensures RunHead(i).0.calling == i.calling
  {}

  lemma {:induction false} ThreadRunHead(i: Inst, u: Cell, w: nat, r: nat, k: nat)
    requires ThreadSync(i, u, w, r, k) && TasksOk(i) && -1 !in i.modules && i.tasks != [] && NoPassWrites(i, r, k)
    ensures |i.handled| <= |RunHead(i).0.handled|
    ensures ThreadSync(RunHead(i).0, Play(u, Says(RunHead(i).0.handled[|i.handled|..], r, k), k), w, r, k)
  {
    RunKeepsCalls(i);
    LoopSyncs(i, u, Unsent(i, w, r, k), r, k);
  }

  /* ---- The owner's steps, with writes in callbacks ---- */

  lemma LoopPosts(i: Inst, j: Inst, t: Task, u: Cell, r: nat, k: nat)
    requires LoopSync(i, u, r, k) && j.tasks == i.tasks + [t] && j.modules == i.modules
    requires forall e <- SaveEffect(t, r, k) + SendEffect(t, r, k) :: e == Kill
    requires forall th :: th in j.calling ==> SendEffect(j.calling[th], r, k) == []
    ensures LoopSync(j, u, r, k)
  {
    SavesPost(i.tasks, t, r, k);
    SendsPost(i.tasks, t, r, k);
    forall e | e in Saves(j.tasks, r, k) + Sends(j.tasks, r, k) ensures e == Kill {
      assert e in Saves(i.tasks, r, k) + Sends(i.tasks, r, k) || e in SaveEffect(t, r, k) + SendEffect(t, r, k);
    }
  }

  lemma LoopAppPosts(i: Inst, e: AppEvent, u: Cell, r: nat, k: nat)
    requires LoopSync(i, u, r, k) && SendsOnly(i) && Enabled(i, e) && ByLoop(e, r, k) && !IsCallback(e)
    ensures LoopSync(AppStep(i, e), u, r, k) && AppStep(i, e).handled == i.handled
  {
    AppMoves(i, e);
    LoopPosts(i, AppStep(i, e), PostOf(i, e), u, r, k);
  }

  lemma LoopCallback(i: Inst, e: AppEvent, u: Cell, r: nat, k: nat)
    requires LoopSync(i, u, r, k) && Enabled(i, e) && IsCallback(e)
    ensures |i.handled| <= |AppStep(i, e).handled|
    ensures LoopSync(AppStep(i, e), Play(u, Says(AppStep(i, e).handled[|i.handled|..], r, k), k), r, k)
  {
    CallbackHandles(i, e);
    SaidOnce(CallbackMsg(e), u, r, k);
    if e.CallbackUpdate? { SaveCell(i, e.id, e.updates, r, k); }
  }

  lemma LoopApp(i: Inst, e: AppEvent, u: Cell, r: nat, k: nat)
    requires LoopSync(i, u, r, k) && SendsOnly(i) && Enabled(i, e) && ByLoop(e, r, k)
    ensures |i.handled| <= |AppStep(i, e).handled|
    ensures LoopSync(AppStep(i, e), Play(u, Says(AppStep(i, e).handled[|i.handled|..], r, k), k), r, k)
  {
    if IsCallback(e) {
      LoopCallback(i, e, u, r, k);
    } else {
      LoopAppPosts(i, e, u, r, k);
      assert i.handled[|i.handled|..] == [];
    }
  }

  lemma LoopRunHead(i: Inst, u: Cell, r: nat, k: nat)
    requires LoopSync(i, u, r, k) && TasksOk(i) && -1 !in i.modules && i.tasks != [] && NoPassWrites(i, r, k)
    ensures |i.handled| <= |RunHead(i).0.handled|
    ensures LoopSync(RunHead(i).0, Play(u, Says(RunHead(i).0.handled[|i.handled|..], r, k), k), r, k)
  {
    if i.tasks[0].TRegister? && r == |i.origins| {
      RegisterStarts(i, u, r, k);
    } else {
      LoopRun(i, u, r, k);
    }
  }

  lemma LoopRun(i: Inst, u: Cell, r: nat, k: nat)
    requires LoopSync(i, u, r, k) && i.tasks != [] && -1 !in i.modules && NoPassWrites(i, r, k)
    requires i.tasks[0].TRegister? ==> r != |i.origins|
    ensures |i.handled| <= |RunHead(i).0.handled|
    ensures LoopSync(RunHead(i).0, Play(u, Says(RunHead(i).0.handled[|i.handled|..], r, k), k), r, k)
  {
    var t, j := i.tasks[0], RunHead(i).0;
    RunSays(i, r, k);
    if !t.TLoad? { TaskCell(i.(tasks := i.tasks[1..]), t, r, k); }
    assert Saves(i.tasks, r, k) == SaveEffect(t, r, k) + Saves(j.tasks, r, k);
    assert Sends(i.tasks, r, k) == SendEffect(t, r, k) + Sends(j.tasks, r, k);
    OnlyKills(SaveEffect(t, r, k), Saves(j.tasks, r, k), SendEffect(t, r, k), Sends(j.tasks, r, k));
    KillsOrNothing(t, r, k);
  }

  lemma KillsOrNothing(t: Task, r: nat, k: nat)
    requires forall e <- SaveEffect(t, r, k) :: e == Kill
    requires forall e <- SendEffect(t, r, k) :: e == Kill
    ensures SaveEffect(t, r, k) == SendEffect(t, r, k) == if t == TUnregister(r) then [Kill] else []
  {
    assert SaveEffect(t, r, k) != [] ==> SaveEffect(t, r, k)[0] in SaveEffect(t, r, k);
    assert SendEffect(t, r, k) != [] ==> SendEffect(t, r, k)[0] in SendEffect(t, r, k);
  }

  lemma OnlyKills(a: seq<Effect>, b: seq<Effect>, c: seq<Effect>, d: seq<Effect>)
    requires forall e <- (a + b) + (c + d) :: e == Kill
    ensures forall e <- a :: e == Kill
    ensures forall e <- c :: e == Kill
    ensures forall e <- b + d :: e == Kill
  {
    forall e | e in a || e in b || e in c || e in d ensures e == Kill {
      assert e in (a + b) + (c + d);
    }
  }

  /* ---- Over whole runs ---- */

  /** Either one thread of the process writes the property, or only its callbacks do. */
  datatype Writer = Thread(thread: nat) | Callbacks

  ghost predicate Sync(i: Inst, u: Cell, w: Writer, r: nat, k: nat) {
    if w.Thread? then ThreadSync(i, u, w.thread, r, k) else LoopSync(i, u, r, k)
  }

  ghost predicate WrittenBy(es: seq<Event>, w: Writer, p: nat, r: nat, k: nat) {
    forall e <- es :: e.PeerApp? && e.peer == p ==>
      if w.Thread? then ByThread(e.app, w.thread, r, k) else ByLoop(e.app, r, k)
  }

  /** No browser request, so far, writes the property. */
  ghost predicate Unrequested(s: Sys, p: nat, r: nat, k: nat) {
    forall a <- s.applies :: 0 <= a.id < |s.host.origins| && s.host.origins[a.id] == Of(p, r) ==> !Touches(a.updates, k)
  }

  ghost predicate InSync(s: Sys, w: Writer, p: nat, r: nat, k: nat)
    requires CountsOk(s)
  {
    p < |s.peers| ==> Sync(s.peers[p].inst, Coming(s, p, r, k), w, r, k)
  }

  lemma UnrequestedMeans(s: Sys, p: nat, r: nat, k: nat)
    requires Routes(s) && IdsOk(s) && Unrequested(s, p, r, k) && p < |s.peers|
    ensures NotApplied(s, p, r, k) && NoPassWrites(s.peers[p].inst, r, k)
  {
    var h, q := s.host, s.peers[p];
    assert PeerRoutes(s, p, q);
    if h.tasks != [] && h.tasks[0].TPass? {
      var a := h.tasks[0].apply;
      assert Passes(h.tasks)[0] == a;
      assert AsAsked(s, a) && s.applies[a.tag] in s.applies;
      if r < |q.ids| { IdIsReplicated(s, p, r); }
    }
    if q.inst.tasks != [] && q.inst.tasks[0].TPass? {
      var a := q.inst.tasks[0].apply;
      assert Passes(q.inst.tasks)[0] == a;
      assert Justified(s, p, a) && s.applies[a.tag] in s.applies;
    }
  }

  /** The process handles more messages; the value to come follows. */
  lemma ComingFollows(s: Sys, p: nat, q: Peer, r: nat, k: nat)
    requires p < |s.peers| && Continues(s.peers[p], q)
    ensures q.taken <= |q.inst.handled|
    ensures Coming(SetPeer(s, p, q), p, r, k) == Play(Coming(s, p, r, k), Says(q.inst.handled[|s.peers[p].inst.handled|..], r, k), k)
  {
    var s' := SetPeer(s, p, q);
    var more := q.inst.handled[|s.peers[p].inst.handled|..];
    assert Rest(q) == Rest(s.peers[p]) + more;
    SaysConcat(Rest(s.peers[p]), more, r, k);
    ComingSplit(s, p, r, k);
    ComingSplit(s', p, r, k);
    PlayConcat(Play(HostCell(s, p, r, k), HostPending(s, p, r, k), k), Says(Rest(s.peers[p]), r, k), Says(more, r, k), k);
  }

  lemma {:induction false} SaysConcat(a: seq<Msg>, b: seq<Msg>, r: nat, k: nat)
    ensures Says(a + b, r, k) == Says(a, r, k) + Says(b, r, k)
    decreases |a|
  {
    if a == [] {
      assert a + b == b;
    } else {
      SaysConcat(a[1..], b, r, k);
      assert (a + b)[1..] == a[1..] + b;
    }
  }

  lemma AppSyncs(i: Inst, e: AppEvent, u: Cell, w: Writer, r: nat, k: nat)
    requires TasksOk(i) && -1 !in i.modules && Enabled(i, e) && Sync(i, u, w, r, k) && if w.Thread? then ByThread(e, w.thread, r, k) else ByLoop(e, r, k)
    ensures |i.handled| <= |AppStep(i, e).handled| && Sync(AppStep(i, e), Play(u, Says(AppStep(i, e).handled[|i.handled|..], r, k), k), w, r, k)
  {
    if w.Thread? { ThreadApp(i, e, u, w.thread, r, k); } else { LoopApp(i, e, u, r, k); }
  }

  lemma RunSyncs(i: Inst, u: Cell, w: Writer, r: nat, k: nat)
    requires TasksOk(i) && -1 !in i.modules && i.tasks != [] && Sync(i, u, w, r, k) && NoPassWrites(i, r, k)
    ensures |i.handled| <= |RunHead(i).0.handled|
    ensures Sync(RunHead(i).0, Play(u, Says(RunHead(i).0.handled[|i.handled|..], r, k), k), w, r, k)
  {
    if w.Thread? { ThreadRunHead(i, u, w.thread, r, k); } else { LoopRunHead(i, u, r, k); }
  }

  lemma ReceiveSyncs(i: Inst, a: Apply, u: Cell, w: Writer, r: nat, k: nat)
    requires SendsOnly(i) && Sync(i, u, w, r, k)
    ensures Sync(Post(i, TPass(a)), u, w, r, k)
  {
    if w.Thread? {
      UnsentOnlyWrites(i, w.thread, r, k);
      PostSyncs(i, Post(i, TPass(a)), TPass(a), u, Unsent(i, w.thread, r, k), Unsent(i, w.thread, r, k), r, k);
    } else { LoopPosts(i, Post(i, TPass(a)), TPass(a), u, r, k); }
  }

  /** The process moves from i to the instance of q, and what it says meanwhile keeps both in step. */
  lemma FollowSyncs(s: Sys, p: nat, q: Peer, w: Writer, r: nat, k: nat)
    requires p < |s.peers| && Continues(s.peers[p], q)
    requires Sync(q.inst, Play(Coming(s, p, r, k), Says(q.inst.handled[|s.peers[p].inst.handled|..], r, k), k), w, r, k)
    ensures q.taken <= |q.inst.handled| && Sync(q.inst, Coming(SetPeer(s, p, q), p, r, k), w, r, k)
  {
    ComingFollows(s, p, q, r, k);
  }

  lemma OwnAppSyncs(s: Sys, p: nat, e: AppEvent, w: Writer, r: nat, k: nat)
    requires p < |s.peers| && s.peers[p].taken <= |s.peers[p].inst.handled| && TasksOk(s.peers[p].inst) && -1 !in s.peers[p].inst.modules && Enabled(s.peers[p].inst, e)
    requires Sync(s.peers[p].inst, Coming(s, p, r, k), w, r, k) && if w.Thread? then ByThread(e, w.thread, r, k) else ByLoop(e, r, k)
    ensures var q := s.peers[p].(inst := AppStep(s.peers[p].inst, e));
            q.taken <= |q.inst.handled| && Sync(q.inst, Coming(SetPeer(s, p, q), p, r, k), w, r, k)
  {
    var q := s.peers[p];
    AppStepGrows(q.inst, e);
    AppSyncs(q.inst, e, Coming(s, p, r, k), w, r, k);
    FollowSyncs(s, p, q.(inst := AppStep(q.inst, e)), w, r, k);
  }

  lemma {:induction false} OwnRunSyncs(s: Sys, p: nat, w: Writer, r: nat, k: nat)
    requires p < |s.peers| && s.peers[p].taken <= |s.peers[p].inst.handled| && TasksOk(s.peers[p].inst) && -1 !in s.peers[p].inst.modules && s.peers[p].inst.tasks != []
    requires Sync(s.peers[p].inst, Coming(s, p, r, k), w, r, k) && NoPassWrites(s.peers[p].inst, r, k)
    ensures var q := s.peers[p].(inst := RunHead(s.peers[p].inst).0);
            q.taken <= |q.inst.handled| && Sync(q.inst, Coming(SetPeer(s, p, q), p, r, k), w, r, k)
  {
    var q := s.peers[p];
    RunHeadGrows(q.inst);
    RunSyncs(q.inst, Coming(s, p, r, k), w, r, k);
    FollowSyncs(s, p, q.(inst := RunHead(q.inst).0), w, r, k);
  }

  lemma {:induction false} OwnReceiveSyncs(s: Sys, p: nat, w: Writer, r: nat, k: nat)
    requires p < |s.peers| && s.peers[p].taken <= |s.peers[p].inst.handled| && SendsOnly(s.peers[p].inst) && s.peers[p].down != []
    requires Sync(s.peers[p].inst, Coming(s, p, r, k), w, r, k)
    ensures var q := s.peers[p].(inst := Post(s.peers[p].inst, TPass(s.peers[p].down[0])), down := s.peers[p].down[1..]);
            q.taken <= |q.inst.handled| && Sync(q.inst, Coming(SetPeer(s, p, q), p, r, k), w, r, k)
  {
    var q := s.peers[p];
    ReceiveSyncs(q.inst, q.down[0], Coming(s, p, r, k), w, r, k);
    assert q.inst.handled[|q.inst.handled|..] == [];
    FollowSyncs(s, p, q.(inst := Post(q.inst, TPass(q.down[0])), down := q.down[1..]), w, r, k);
  }

  lemma {:induction false} OwnStepSyncs(s: Sys, e: Event, w: Writer, p: nat, r: nat, k: nat)
    requires Inv(s) && Can(s, e) && !Elsewhere(e, p) && p < |s.peers|
    requires Sync(s.peers[p].inst, Coming(s, p, r, k), w, r, k) && NoPassWrites(s.peers[p].inst, r, k)
    requires WrittenBy([e], w, p, r, k)
    ensures var s' := Do(s, e);
            p < |s'.peers| && s'.peers[p].taken <= |s'.peers[p].inst.handled| && Sync(s'.peers[p].inst, Coming(s', p, r, k), w, r, k)
  {
    assert PeerOk(s.peers[p]) && e in [e];
    NoModuleIsUnknown(s.peers[p].inst);
    if e.PeerApp? {
      OwnAppSyncs(s, p, e.app, w, r, k);
    } else if e.PeerRun? {
      OwnRunSyncs(s, p, w, r, k);
    } else {
      OwnReceiveSyncs(s, p, w, r, k);
    }
  }

  lemma {:induction false} OtherStepSyncs(s: Sys, e: Event, w: Writer, p: nat, r: nat, k: nat)
    requires Inv(s) && Can(s, e) && Elsewhere(e, p) && p < |s.peers| && Connected(s, p) && NotApplied(s, p, r, k)
    requires Sync(s.peers[p].inst, Coming(s, p, r, k), w, r, k)
    ensures var s' := Do(s, e);
            p < |s'.peers| && s'.peers[p].taken <= |s'.peers[p].inst.handled| && Sync(s'.peers[p].inst, Coming(s', p, r, k), w, r, k)
  {
    ElsewhereKeepsComing(s, e, p, r, k);
    OthersKeepProcess(s, e, p);
  }

  lemma JoinSyncs(s: Sys, c: nat, w: Writer, r: nat, k: nat)
    requires Can(s, Join(c))
    ensures var s', p := Do(s, Join(c)), |s.peers|;
            p < |s'.peers| && s'.peers[p].taken <= |s'.peers[p].inst.handled| && Sync(s'.peers[p].inst, Coming(s', p, r, k), w, r, k)
  {}

  lemma ConnectedBefore(s: Sys, e: Event, p: nat)
    requires Connected(Step(s, e), p) && p < |s.peers|
    ensures Connected(s, p)
  {
    var c :| c in Step(s, e).live && Step(s, e).live[c] == p;
    assert c in s.live && s.live[c] == p;
  }

  lemma UnrequestedBefore(s: Sys, s': Sys, p: nat, r: nat, k: nat)
    requires Grows(s, s') && Unrequested(s', p, r, k)
    ensures Unrequested(s, p, r, k)
  {
    forall a | a in s.applies && 0 <= a.id < |s.host.origins| && s.host.origins[a.id] == Of(p, r) ensures !Touches(a.updates, k) {
      assert a in s'.applies;
    }
  }

  lemma {:induction false} StepSyncs(s: Sys, e: Event, w: Writer, p: nat, r: nat, k: nat)
    requires Inv(s) && Inv(Step(s, e)) && Routes(s) && InSync(s, w, p, r, k) && WrittenBy([e], w, p, r, k)
    requires Unrequested(s, p, r, k) && Connected(Step(s, e), p)
    ensures InSync(Step(s, e), w, p, r, k)
  {
    if Can(s, e) {
      if p < |s.peers| {
        ConnectedBefore(s, e, p);
        UnrequestedMeans(s, p, r, k);
        if Elsewhere(e, p) { OtherStepSyncs(s, e, w, p, r, k); } else { OwnStepSyncs(s, e, w, p, r, k); }
      } else if e.Join? && p == |s.peers| {
        JoinSyncs(s, e.client, w, r, k);
      } else {
        PeersJoin(s, e);
      }
    }
  }

  lemma {:induction false} RunsSync(es: seq<Event>, w: Writer, p: nat, r: nat, k: nat)
    requires WrittenBy(es, w, p, r, k) && Unrequested(Run(es), p, r, k) && Connected(Run(es), p)
    ensures CountsOk(Run(es)) && InSync(Run(es), w, p, r, k)
    decreases |es|
  {
    RunsKeep(es);
    if es != [] {
      var n := |es| - 1;
      var s, e := Run(es[..n]), es[n];
      RunsKeep(es[..n]);
      RunsRoute(es[..n]);
      assert e in es && forall x <- es[..n] :: x in es;
      StepGrows(s, e);
      UnrequestedBefore(s, Step(s, e), p, r, k);
      if p < |s.peers| {
        ConnectedBefore(s, e, p);
        RunsSync(es[..n], w, p, r, k);
      }
      StepSyncs(s, e, w, p, r, k);
    }
  }

  /** Nothing is in flight between process p and the host, and no call of p is half made. */
  ghost predicate Settled(s: Sys, p: nat) {
    && p < |s.peers| && s.host.tasks == []
    && s.peers[p].inst.tasks == [] && s.peers[p].inst.calling == map[] && s.peers[p].taken == |s.peers[p].inst.handled|
  }

  /** Value convergence with one writer: if a property is written only by one thread of its owner, or
      only in its callbacks, and by no browser, then when nothing is pending and no call is half
      made, owner and host hold the same property. */
  lemma {:induction false} OwnerAndHostAgree(es: seq<Event>, w: Writer, p: nat, r: nat, k: nat)
    requires WrittenBy(es, w, p, r, k) && Unrequested(Run(es), p, r, k) && Connected(Run(es), p)
    requires Settled(Run(es), p) && r < |Run(es).peers[p].ids|
    ensures var s := Run(es);
            CellOf(s.host.modules, s.peers[p].ids[r], k) == CellOf(s.peers[p].inst.modules, r, k)
  {
    RunsSync(es, w, p, r, k);
    var s := Run(es);
    assert Rest(s.peers[p]) == [];
  }

  /** Stated without any draining: whatever is in flight, the value the host is to have after
      everything emitted and everything pending at the owner is the owner's after its own saves. */
  lemma {:induction false} OwnerAndHostConverge(es: seq<Event>, w: nat, p: nat, r: nat, k: nat)
    requires WrittenBy(es, Thread(w), p, r, k) && Unrequested(Run(es), p, r, k) && Connected(Run(es), p) && p < |Run(es).peers|
    ensures CountsOk(Run(es))
    ensures var u, i := Coming(Run(es), p, r, k), Run(es).peers[p].inst;
            Play(u, Sends(i.tasks, r, k) + Unsent(i, w, r, k), k) == Play(CellOf(i.modules, r, k), Saves(i.tasks, r, k), k)
  {
    RunsSync(es, Thread(w), p, r, k);
  }
}
