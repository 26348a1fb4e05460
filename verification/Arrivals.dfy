/** Requests on their way to a process: the value that a property will have there once they have run,
    when no application writes it. */
module Arrivals {
  import opened Model
  import opened Instance
  import opened Network
  import opened NetworkInvariant
  import opened Routing
  import opened Effects
  import opened Syncs
  import opened HostValue
  import opened OwnerWrites

  /* ---- Effects of applies ---- */

  function PassEffect(t: Task, r: int, k: nat): seq<Effect> {
    match t
    case TPass(a) => if a.id == r then WriteOf(a.updates, k) else []
    case TUnregister(i) => if i == r then [Kill] else []
    case _ => []
  }

  function Passing(ts: seq<Task>, r: int, k: nat): seq<Effect> {
    if ts == [] then [] else PassEffect(ts[0], r, k) + Passing(ts[1..], r, k)
  }

  function Falling(d: seq<Apply>, r: int, k: nat): seq<Effect> {
    if d == [] then [] else PassEffect(TPass(d[0]), r, k) + Falling(d[1..], r, k)
  }

  lemma {:induction false} PassingPost(ts: seq<Task>, t: Task, r: int, k: nat)
    ensures Passing(ts + [t], r, k) == Passing(ts, r, k) + PassEffect(t, r, k)
    decreases |ts|
  {
    if ts == [] {
      assert (ts + [t])[1..] == [];
    } else {
      PassingPost(ts[1..], t, r, k);
      assert (ts + [t])[1..] == ts[1..] + [t];
    }
  }

  lemma {:induction false} FallingMore(d: seq<Apply>, a: Apply, r: int, k: nat)
    ensures Falling(d + [a], r, k) == Falling(d, r, k) + PassEffect(TPass(a), r, k)
    decreases |d|
  {
    if d == [] {
      assert (d + [a])[1..] == [];
    } else {
      FallingMore(d[1..], a, r, k);
      assert (d + [a])[1..] == d[1..] + [a];
    }
  }

  lemma {:induction false} PassingCreatesNothing(ts: seq<Task>, d: seq<Apply>, r: int, k: nat)
    ensures NoCreate(Passing(ts, r, k)) && NoCreate(Falling(d, r, k))
    decreases |ts| + |d|
  {
    if ts != [] { PassingCreatesNothing(ts[1..], [], r, k); }
    if d != [] { PassingCreatesNothing([], d[1..], r, k); }
  }

  /** The value the owner will have once all applies on their way have run. */
  function Arriving(q: Peer, r: nat, k: nat): Cell {
    Play(CellOf(q.inst.modules, r, k), Passing(q.inst.tasks, r, k) + Falling(q.down, r, k), k)
  }

  /* ---- No application writes the property ---- */

  predicate IsKill(e: Effect) { e.Kill? }

  predicate Kills(es: seq<Effect>) {
    forall e <- es :: IsKill(e)
  }

  predicate NoWrite(es: seq<Effect>) {
    forall e <- es :: !e.Write?
  }

  ghost predicate NeverWritten(e: AppEvent, r: nat, k: nat) {
    (e.AppSave? || e.CallbackUpdate?) && e.id == r ==> !Touches(e.updates, k)
  }

  ghost predicate OwnSilent(i: Inst, r: nat, k: nat) {
    && (forall t :: t in i.calling ==> SendEffect(i.calling[t], r, k) == [])
    && Kills(Saves(i.tasks, r, k)) && Kills(Sends(i.tasks, r, k))
  }

  ghost predicate Silent(s: Sys, p: nat, r: nat, k: nat)
    requires p < |s.peers| && s.peers[p].taken <= |s.peers[p].inst.handled|
  {
    OwnSilent(s.peers[p].inst, r, k) && NoWrite(HostPending(s, p, r, k)) && NoWrite(Says(Rest(s.peers[p]), r, k))
  }

  lemma {:induction false} KillsLeave(c: Cell, es: seq<Effect>, k: nat)
    requires Kills(es)
    ensures Play(c, es, k) == c || Play(c, es, k) == None
    decreases |es|
  {
    if es != [] {
      assert IsKill(es[0]) && forall e <- es[1..] :: e in es;
      KillsLeave(None, es[1..], k);
    }
  }

  lemma SilentPost(i: Inst, j: Inst, t: Task, r: nat, k: nat)
    requires OwnSilent(i, r, k) && j.tasks == i.tasks + [t] && Kills(SaveEffect(t, r, k)) && Kills(SendEffect(t, r, k))
    requires forall th :: th in j.calling ==> SendEffect(j.calling[th], r, k) == []
    ensures OwnSilent(j, r, k)
  {
    SavesPost(i.tasks, t, r, k);
    SendsPost(i.tasks, t, r, k);
  }

  lemma SilentPosts(i: Inst, e: AppEvent, r: nat, k: nat)
    requires OwnSilent(i, r, k) && SendsOnly(i) && Enabled(i, e) && NeverWritten(e, r, k)
    requires !e.CallbackUnregister? && !e.CallbackUpdate?
    ensures OwnSilent(AppStep(i, e), r, k) && AppStep(i, e).handled == i.handled
  {
    var j := AppStep(i, e);
    if e.Decide? {
      SilentPost(i, j, TInit(e.hostMode), r, k);
    } else if e.AppRegister? {
      SilentPost(i, j, TRegister(e.mod, Instance.Own), r, k);
    } else if e.AppUnregister? {
      SilentPost(i, j, TUnregister(e.id), r, k);
    } else if e.AppSave? {
      SilentPost(i, j, TSave(e.id, e.updates), r, k);
    } else {
      SilentPost(i, j, i.calling[e.thread], r, k);
    }
  }

  lemma {:induction false} SilentApp(i: Inst, e: AppEvent, r: nat, k: nat)
    requires OwnSilent(i, r, k) && SendsOnly(i) && Enabled(i, e) && NeverWritten(e, r, k)
    ensures OwnSilent(AppStep(i, e), r, k) && i.handled <= AppStep(i, e).handled
    ensures NoWrite(Says(AppStep(i, e).handled[|i.handled|..], r, k))
  {
    if !e.CallbackUnregister? && !e.CallbackUpdate? {
      SilentPosts(i, e, r, k);
      assert i.handled[|i.handled|..] == [];
    } else {
      SilentCallback(i, e, r, k);
    }
  }

  lemma SilentCallback(i: Inst, e: AppEvent, r: nat, k: nat)
    requires OwnSilent(i, r, k) && Enabled(i, e) && NeverWritten(e, r, k) && (e.CallbackUnregister? || e.CallbackUpdate?)
    ensures OwnSilent(AppStep(i, e), r, k) && i.handled <= AppStep(i, e).handled
    ensures NoWrite(Says(AppStep(i, e).handled[|i.handled|..], r, k))
  {
    CallbackHandles(i, e);
    SilentMsg(CallbackMsg(e), r, k);
  }

  lemma SilentMsg(m: Msg, r: nat, k: nat)
    requires m.Updated? && m.id == r ==> !Touches(m.updates, k)
    ensures NoWrite(Says([m], r, k))
  {
    SaidOnce(m, None, r, k);
  }

  lemma SilentTail(ts: seq<Task>, r: nat, k: nat)
    requires ts != [] && Kills(Saves(ts, r, k)) && Kills(Sends(ts, r, k))
    ensures Kills(Saves(ts[1..], r, k)) && Kills(Sends(ts[1..], r, k)) && Kills(SendEffect(ts[0], r, k))
  {
    assert forall e <- Saves(ts[1..], r, k) :: e in Saves(ts, r, k);
    assert forall e <- Sends(ts[1..], r, k) :: e in Sends(ts, r, k);
    assert forall e <- SendEffect(ts[0], r, k) :: e in Sends(ts, r, k);
  }

  lemma SilentRun(i: Inst, r: nat, k: nat)
    requires OwnSilent(i, r, k) && i.tasks != [] && -1 !in i.modules
    ensures OwnSilent(RunHead(i).0, r, k) && i.handled <= RunHead(i).0.handled
    ensures NoWrite(Says(RunHead(i).0.handled[|i.handled|..], r, k))
  {
    SilentTail(i.tasks, r, k);
    RunHeadGrows(i);
    if i.tasks[0].TRegister? && r == |i.origins| {
      SilentRegistration(i, r, k);
    } else {
      RunSays(i, r, k);
      assert forall e <- SendEffect(i.tasks[0], r, k) :: IsKill(e);
    }
  }

  lemma SilentRegistration(i: Inst, r: nat, k: nat)
    requires i.tasks != [] && i.tasks[0].TRegister? && r == |i.origins|
    ensures var j := RunHead(i).0;
            && j.tasks == i.tasks[1..] && j.calling == i.calling && i.handled <= j.handled
            && NoWrite(Says(j.handled[|i.handled|..], r, k))
  {
    var m := AddedMsg(r, i.tasks[0].mod);
    assert RunHead(i).0.handled == i.handled + [m];
    assert (i.handled + [m])[|i.handled|..] == [m];
    SaidOnce(m, None, r, k);
  }

  lemma SilentSays(s: Sys, p: nat, q: Peer, r: nat, k: nat)
    requires p < |s.peers| && Continues(s.peers[p], q) && Silent(s, p, r, k) && OwnSilent(q.inst, r, k)
    requires NoWrite(Says(q.inst.handled[|s.peers[p].inst.handled|..], r, k))
    ensures q.taken <= |q.inst.handled| && Silent(SetPeer(s, p, q), p, r, k)
  {
    var more := q.inst.handled[|s.peers[p].inst.handled|..];
    assert Rest(q) == Rest(s.peers[p]) + more;
    SaysConcat(Rest(s.peers[p]), more, r, k);
  }

  /** What the process itself does. */
  lemma SilentOwn(s: Sys, e: Event, p: nat, r: nat, k: nat)
    requires p < |s.peers| && LocalInv(s.peers[p].inst) && s.peers[p].taken <= |s.peers[p].inst.handled|
    requires Can(s, e) && !Elsewhere(e, p) && Silent(s, p, r, k) && (e.PeerApp? ==> NeverWritten(e.app, r, k))
    ensures var s' := Do(s, e);
            p < |s'.peers| && s'.peers[p].taken <= |s'.peers[p].inst.handled| && Silent(s', p, r, k)
  {
    var q := s.peers[p];
    NoModuleIsUnknown(q.inst);
    if e.PeerApp? {
      SilentApp(q.inst, e.app, r, k);
      SilentSays(s, p, q.(inst := AppStep(q.inst, e.app)), r, k);
    } else if e.PeerRun? {
      SilentRun(q.inst, r, k);
      SilentSays(s, p, q.(inst := RunHead(q.inst).0), r, k);
    } else {
      SilentPost(q.inst, Post(q.inst, TPass(q.down[0])), TPass(q.down[0]), r, k);
      assert q.inst.handled[|q.inst.handled|..] == [];
      SilentSays(s, p, q.(inst := Post(q.inst, TPass(q.down[0])), down := q.down[1..]), r, k);
    }
  }

  lemma SilentView(s: Sys, s': Sys, p: nat, r: nat, k: nat)
    requires SameView(s, s', p, r, k) && Silent(s, p, r, k) && s'.peers[p].inst == s.peers[p].inst
    ensures Silent(s', p, r, k)
  {}

  lemma SilentRead(s: Sys, s': Sys, c: nat, m: Msg, t: Task, r: nat, k: nat)
    requires Reads(s, s', c, m, t) && AllocatedOk(s) && RemotesOk(s)
    requires Silent(s, s.live[c], r, k)
    ensures var p := s.live[c]; s'.peers[p].taken <= |s'.peers[p].inst.handled| && Silent(s', p, r, k)
  {
    var p := s.live[c];
    var q, q' := s.peers[p], s'.peers[p];
    assert CountOk(s, p);
    RestStep(q, q', m, r, k);
    NoWriteParts(MsgEffect(m, r, k), Says(Rest(q'), r, k));
    ReadPending(s, s', c, m, t, r, k);
  }

  /** What the read posts writes the property only if the message does. */
  lemma ReadPending(s: Sys, s': Sys, c: nat, m: Msg, t: Task, r: nat, k: nat)
    requires Reads(s, s', c, m, t) && IdsOk(s) && RemotesOk(s)
    requires NoWrite(HostPending(s, s.live[c], r, k)) && (MsgEffect(m, r, k) != [] ==> !MsgEffect(m, r, k)[0].Write?)
    ensures NoWrite(HostPending(s', s.live[c], r, k))
  {
    LocalIdOwn(s, m.id, c);
    if r < |s.peers[s.live[c]].ids| {
      IdIsReplicated(s, s.live[c], r);
      SavesPost(s.host.tasks, t, s.peers[s.live[c]].ids[r], k);
    }
  }

  lemma NoWriteParts(a: seq<Effect>, b: seq<Effect>)
    requires NoWrite(a + b)
    ensures NoWrite(a) && NoWrite(b) && (a != [] ==> !a[0].Write?)
  {
    assert forall e <- a :: e in a + b;
    assert forall e <- b :: e in a + b;
    assert a != [] ==> a[0] in a;
  }

  lemma SilentMoves(s: Sys, s': Sys, p: nat, r: nat, k: nat)
    requires p < |s.peers| && s.peers[p].taken <= |s.peers[p].inst.handled| && Silent(s, p, r, k) && p < |s'.peers|
    requires s'.peers[p].inst == s.peers[p].inst && s'.peers[p].taken == s.peers[p].taken && NoWrite(HostPending(s', p, r, k))
    ensures Silent(s', p, r, k)
  {
    assert Rest(s'.peers[p]) == Rest(s.peers[p]);
  }

  lemma SilentHostRun(s: Sys, p: nat, r: nat, k: nat)
    requires s.host.tasks != [] && p < |s.peers| && s.peers[p].taken <= |s.peers[p].inst.handled| && Silent(s, p, r, k)
    requires !(s.host.tasks[0].TRegister? && s.host.tasks[0].origin.Of?)
    ensures var s' := RunHost(s);
            p < |s'.peers| && s'.peers[p].taken <= |s'.peers[p].inst.handled| && Silent(s', p, r, k)
  {
    RunHostViews(s, p);
    RunHeadGrows(s.host);
    if r < |s.peers[p].ids| { NoWriteTail(s.host.tasks, s.peers[p].ids[r], k); }
    SilentMoves(s, RunHost(s), p, r, k);
  }

  lemma NoWriteTail(ts: seq<Task>, l: int, k: nat)
    requires ts != [] && NoWrite(Saves(ts, l, k))
    ensures NoWrite(Saves(ts[1..], l, k))
  {
    assert forall e <- Saves(ts[1..], l, k) :: e in Saves(ts, l, k);
  }

  lemma SilentRegister(s: Sys, s': Sys, p: nat, r: nat, k: nat)
    requires Registers(s, s') && IdsOk(s) && TasksOk(s.host) && p < |s.peers| && s.peers[p].taken <= |s.peers[p].inst.handled|
    requires Silent(s, p, r, k) && s.host.tasks != [] && s'.host.tasks == s.host.tasks[1..]
    ensures p < |s'.peers| && s'.peers[p].taken <= |s'.peers[p].inst.handled| && Silent(s', p, r, k)
  {
    RegisterPending(s, s', p, r, k);
    SilentMoves(s, s', p, r, k);
  }

  lemma RegisterPending(s: Sys, s': Sys, p: nat, r: nat, k: nat)
    requires Registers(s, s') && IdsOk(s) && TasksOk(s.host) && p < |s.peers| && NoWrite(HostPending(s, p, r, k))
    requires s.host.tasks != [] && s'.host.tasks == s.host.tasks[1..]
    ensures p < |s'.peers| && NoWrite(HostPending(s', p, r, k))
  {
    if r < |s.peers[p].ids| {
      assert s'.peers[p].ids[r] == s.peers[p].ids[r];
      NoWriteTail(s.host.tasks, s.peers[p].ids[r], k);
    } else if r < |s'.peers[p].ids| {
      assert s'.peers[p].ids[r] == |s.host.origins|;
      assert forall t <- s'.host.tasks :: t in s.host.tasks;
      NothingOnNewIds(s.host, s'.host.tasks, |s.host.origins|, k);
    }
  }

  lemma {:induction false} SilentHostStep(s: Sys, p: nat, r: nat, k: nat)
    requires NetOk(s) && TableOk(s.host) && TasksOk(s.host) && RemotesOk(s) && IdsOk(s) && s.host.tasks != []
    requires p < |s.peers| && s.peers[p].taken <= |s.peers[p].inst.handled| && Silent(s, p, r, k)
    ensures var s' := RunHost(s);
            p < |s'.peers| && s'.peers[p].taken <= |s'.peers[p].inst.handled| && Silent(s', p, r, k)
  {
    if s.host.tasks[0].TRegister? && s.host.tasks[0].origin.Of? {
      HostRegisters(s);
      RegisteringPops(s);
      SilentRegister(s, RunHost(s), p, r, k);
    } else {
      SilentHostRun(s, p, r, k);
    }
  }

  lemma {:induction false} SilentStep(s: Sys, e: Event, p: nat, r: nat, k: nat)
    requires Inv(s) && Can(s, e) && p < |s.peers| && Connected(s, p) && CountOk(s, p) && Silent(s, p, r, k)
    requires e.PeerApp? && e.peer == p ==> NeverWritten(e.app, r, k)
    ensures var s' := Do(s, e);
            p < |s'.peers| && s'.peers[p].taken <= |s'.peers[p].inst.handled| && Silent(s', p, r, k)
  {
    if !Elsewhere(e, p) {
      assert PeerOk(s.peers[p]);
      SilentOwn(s, e, p, r, k);
    } else if e.HostRun? {
      SilentHostStep(s, p, r, k);
    } else if e.Read? && s.live[e.client] == p {
      var m, t := ReadReads(s, e.client);
      SilentRead(s, Do(s, e), e.client, m, t, r, k);
    } else {
      NoModuleIsUnknown(s.host);
      OthersKeepProcess(s, e, p);
      QuietView(s, e, p, r, k);
      SilentView(s, Do(s, e), p, r, k);
    }
  }

  /* ---- The process's own steps ---- */

  lemma ArrivingApp(q: Peer, e: AppEvent, r: nat, k: nat)
    requires Enabled(q.inst, e) && SendsOnly(q.inst) && NeverWritten(e, r, k)
    ensures var q' := q.(inst := AppStep(q.inst, e));
            Arriving(q', r, k) == Arriving(q, r, k) || Arriving(q', r, k) == None
  {
    var i, j := q.inst, AppStep(q.inst, e);
    PassingCreatesNothing(i.tasks, q.down, r, k);
    if e.CallbackUnregister? {
      if e.id == r { GoneStaysGone(Passing(i.tasks, r, k) + Falling(q.down, r, k), k); }
    } else if e.CallbackUpdate? {
      SaveCell(i, e.id, e.updates, r, k);
    } else {
      ArrivingPost(q, q.(inst := j), j.tasks[|i.tasks|], r, k);
    }
  }

  lemma ArrivingPost(q: Peer, q': Peer, t: Task, r: nat, k: nat)
    requires q'.inst.tasks == q.inst.tasks + [t] && q'.inst.modules == q.inst.modules && q'.down == q.down && !t.TPass?
    ensures Arriving(q', r, k) == Arriving(q, r, k) || Arriving(q', r, k) == None
  {
    PassingPost(q.inst.tasks, t, r, k);
    PassingCreatesNothing(q'.inst.tasks, q.down, r, k);
    if PassEffect(t, r, k) != [] {
      assert Kill in Passing(q'.inst.tasks, r, k) + Falling(q.down, r, k);
      KillKills(CellOf(q.inst.modules, r, k), Passing(q'.inst.tasks, r, k) + Falling(q.down, r, k), k);
    } else {
      assert Passing(q'.inst.tasks, r, k) == Passing(q.inst.tasks, r, k);
    }
  }

  lemma ArrivingReceive(q: Peer, r: nat, k: nat)
    requires q.down != []
    ensures Arriving(q.(inst := Post(q.inst, TPass(q.down[0])), down := q.down[1..]), r, k) == Arriving(q, r, k)
  {
    PassingPost(q.inst.tasks, TPass(q.down[0]), r, k);
    assert Passing(q.inst.tasks, r, k) + PassEffect(TPass(q.down[0]), r, k) + Falling(q.down[1..], r, k)
        == Passing(q.inst.tasks, r, k) + Falling(q.down, r, k);
  }

  lemma PassCell(i: Inst, t: Task, r: nat, k: nat)
    requires !t.TLoad? && !t.TRegister? && (t.TSave? && t.id == r ==> !Touches(t.updates, k))
    ensures CellOf(RunTask(i, t).0.modules, r, k) == Play(CellOf(i.modules, r, k), PassEffect(t, r, k), k)
  {
    match t
    case TSave(id, ups) => SaveCell(i, id, ups, r, k);
    case TPass(a) => SaveCell(i, a.id, a.updates, r, k); if a.id == r && Touches(a.updates, k) { PlayOne(CellOf(i.modules, r, k), Write(a.updates), k); }
    case TUnregister(id) => PlayOne(CellOf(i.modules, r, k), Kill, k);
    case _ =>
  }

  lemma SilentHead(ts: seq<Task>, r: int, k: nat)
    requires ts != [] && NoWrite(Saves(ts, r, k))
    ensures ts[0].TSave? && ts[0].id == r ==> !Touches(ts[0].updates, k)
  {
    var es := Saves(ts, r, k);
    assert es == SaveEffect(ts[0], r, k) + Saves(ts[1..], r, k);
    assert |es| > 0 ==> es[0] in es;
  }

  lemma KillsAreNoWrites(es: seq<Effect>)
    requires Kills(es)
    ensures NoWrite(es)
  {
    forall e | e in es ensures !e.Write? { assert IsKill(e); }
  }

  lemma ArrivingRun(q: Peer, r: nat, k: nat)
    requires q.inst.tasks != [] && -1 !in q.inst.modules && Kills(Saves(q.inst.tasks, r, k)) && r < |q.inst.origins|
    ensures Arriving(q.(inst := RunHead(q.inst).0), r, k) == Arriving(q, r, k)
  {
    var i, j, t := q.inst, RunHead(q.inst).0, q.inst.tasks[0];
    var later := Passing(j.tasks, r, k) + Falling(q.down, r, k);
    KillsAreNoWrites(Saves(i.tasks, r, k));
    HeadCell(i, r, k);
    PlayConcat(CellOf(i.modules, r, k), PassEffect(t, r, k), later, k);
    assert Passing(i.tasks, r, k) + Falling(q.down, r, k) == PassEffect(t, r, k) + later;
  }

  /** Running the head task of a process does to the module's cell what its apply effect says. */
  lemma HeadCell(h: Inst, l: int, k: nat)
    requires h.tasks != [] && -1 !in h.modules && NoWrite(Saves(h.tasks, l, k)) && 0 <= l < |h.origins|
    ensures CellOf(RunHead(h).0.modules, l, k) == Play(CellOf(h.modules, l, k), PassEffect(h.tasks[0], l, k), k)
    ensures RunHead(h).0.tasks == h.tasks[1..]
  {
    var t, i := h.tasks[0], h.(tasks := h.tasks[1..]);
    SilentHead(h.tasks, l, k);
    if !t.TLoad? && !t.TRegister? { PassCell(i, t, l, k); }
  }

  lemma IdIsRegistered(s: Sys, p: nat, r: nat)
    requires CountsOk(s) && p < |s.peers| && r < |s.peers[p].ids| && TableOk(s.peers[p].inst)
    ensures r < |s.peers[p].inst.origins|
  {
    assert CountOk(s, p);
    PrefixWellNumbered(s.peers[p].inst.handled, s.peers[p].taken);
  }

  /* ---- Steps at the host ---- */

  /** No apply is on its way to a module that the host has not given an id yet. */
  lemma {:induction false} NothingToPass(s: Sys, p: nat, ts: seq<Task>, r: nat, k: nat)
    requires OriginsOk(s) && p < |s.peers| && r >= |s.peers[p].ids| && forall a <- Passes(ts) :: Justified(s, p, a)
    ensures Kills(Passing(ts, r, k))
    decreases |ts|
  {
    if ts != [] {
      assert forall a <- Passes(ts[1..]) :: a in Passes(ts);
      NothingToPass(s, p, ts[1..], r, k);
      if ts[0].TPass? {
        assert Passes(ts)[0] == ts[0].apply;
        NotYetJustified(s, p, ts[0].apply, r);
      }
    }
  }

  lemma NotYetJustified(s: Sys, p: nat, a: Apply, r: nat)
    requires OriginsOk(s) && p < |s.peers| && r >= |s.peers[p].ids| && Justified(s, p, a)
    ensures a.id != r
  {
    var l := s.applies[a.tag].id;
    assert OriginOk(s, l, s.host.origins[l]);
  }

  lemma {:induction false} NothingFalls(s: Sys, p: nat, d: seq<Apply>, r: nat, k: nat)
    requires OriginsOk(s) && p < |s.peers| && r >= |s.peers[p].ids| && forall a <- d :: Justified(s, p, a)
    ensures Falling(d, r, k) == []
    decreases |d|
  {
    if d != [] {
      NothingFalls(s, p, d[1..], r, k);
      NotYetJustified(s, p, d[0], r);
    }
  }

  /* ---- The host's loop ---- */

  /** The translation of the id is there and its client is connected. */
  ghost predicate Timely(s: Sys, l: int) {
    l in s.remotes && s.remotes[l].client in s.live
  }

  /** The host is about to run a request for a module that is in its table. */
  ghost predicate RunsRequest(s: Sys, l: int) {
    s.host.tasks != [] && s.host.tasks[0].TPass? && s.host.tasks[0].apply.id == l && l in s.host.modules
  }

  /** A request for module r of a process that runs in time is sent to the process under its own id. */
  lemma SentInTime(s: Sys, p: nat, r: nat)
    requires IdsOk(s) && RemotesOk(s) && NetOk(s) && LiveOk(s) && CallbacksOwned(s.host) && p < |s.peers| && r < |s.peers[p].ids|
    requires RunsRequest(s, s.peers[p].ids[r]) && Timely(s, s.peers[p].ids[r]) && s.host.tasks[0].apply.updates != []
    ensures p < |RunHost(s).peers| && RunHost(s).peers[p] == s.peers[p].(down := s.peers[p].down + [s.host.tasks[0].apply.(id := r)])
  {
    var a := s.host.tasks[0].apply;
    IdIsReplicated(s, p, r);
    assert s.host.origins[a.id] == Of(PeerOf(s, s.remotes[a.id].client), s.remotes[a.id].id);
    HandedOver(s.host, a);
  }

  /** One that does not run in time is sent nowhere. */
  lemma NotSent(s: Sys)
    requires s.host.tasks != [] && s.host.tasks[0].TPass?
    requires !Timely(s, s.host.tasks[0].apply.id) || s.host.tasks[0].apply.updates == []
    ensures RunHost(s).peers == s.peers
  {}

  /** Any other task of the host sends the process nothing that writes the property. */
  lemma {:induction false} SentOtherwise(s: Sys, p: nat, r: nat, k: nat)
    requires AllocatedOk(s) && RemotesOk(s) && NetOk(s) && LiveOk(s)
    requires p < |s.peers| && r < |s.peers[p].ids| && s.host.tasks != [] && !(s.host.tasks[0].TRegister? && s.host.tasks[0].origin.Of?)
    requires -1 !in s.host.modules
    requires s.host.tasks[0].TPass? ==> var a := s.host.tasks[0].apply; a.id != s.peers[p].ids[r] || !Touches(a.updates, k) || a.id !in s.host.modules
    ensures p < |RunHost(s).peers| && RunHost(s).peers[p].inst == s.peers[p].inst && Falling(RunHost(s).peers[p].down, r, k) == Falling(s.peers[p].down, r, k)
  {
    RunHostViews(s, p);
    if s.host.tasks[0].TPass? { SentElsewhere(s, p, s.host.tasks[0].apply, r, k); } else { OtherRun(s); }
  }

  lemma SentElsewhere(s: Sys, p: nat, a: Apply, r: nat, k: nat)
    requires AllocatedOk(s) && RemotesOk(s) && NetOk(s) && LiveOk(s)
    requires p < |s.peers| && r < |s.peers[p].ids| && s.host.tasks != [] && s.host.tasks[0] == TPass(a) && -1 !in s.host.modules
    requires a.id != s.peers[p].ids[r] || !Touches(a.updates, k) || a.id !in s.host.modules
    ensures p < |RunHost(s).peers| && Falling(RunHost(s).peers[p].down, r, k) == Falling(s.peers[p].down, r, k)
  {
    PassMoves(s, p, a);
    if RunHost(s).peers[p] != s.peers[p] {
      var b := a.(id := s.remotes[a.id].id);
      assert a.id in s.host.modules;
      if b.id == r { TargetIsTheModule(s, a.id, p, r); }
      FallingMore(s.peers[p].down, b, r, k);
      assert PassEffect(TPass(b), r, k) == [];
    }
  }

  lemma TargetIsTheModule(s: Sys, l: int, p: nat, r: nat)
    requires OriginsOk(s) && RemotesOk(s) && NetOk(s) && LiveOk(s) && p < |s.peers| && r < |s.peers[p].ids|
    requires l in s.remotes && s.remotes[l].client in s.live && s.live[s.remotes[l].client] == p && s.remotes[l].id == r
    ensures l == s.peers[p].ids[r]
  {
    assert s.host.origins[l] == Of(PeerOf(s, s.remotes[l].client), s.remotes[l].id);
    EntryOfModule(s, l, p, r);
  }

  lemma EntryOfModule(s: Sys, l: int, p: nat, r: nat)
    requires 0 <= l < |s.host.origins| && s.host.origins[l] == Of(p, r)
    requires OriginsOk(s) && p < |s.peers| && r < |s.peers[p].ids|
    ensures l == s.peers[p].ids[r]
  {
    assert OriginOk(s, l, s.host.origins[l]);
  }

  lemma ArrivingMore(q: Peer, a: Apply, r: nat, k: nat)
    ensures Arriving(q.(down := q.down + [a]), r, k) == Play(Arriving(q, r, k), PassEffect(TPass(a), r, k), k)
  {
    var x, y, z := Passing(q.inst.tasks, r, k), Falling(q.down, r, k), PassEffect(TPass(a), r, k);
    FallingMore(q.down, a, r, k);
    assert x + (y + z) == x + y + z;
    PlayConcat(CellOf(q.inst.modules, r, k), x + y, z, k);
  }

  lemma SameArriving(q: Peer, q': Peer, r: nat, k: nat)
    requires q'.inst == q.inst && Falling(q'.down, r, k) == Falling(q.down, r, k)
    ensures Arriving(q', r, k) == Arriving(q, r, k)
  {}

  /** A task that is no write to a module that is there leaves the copy, or removes it. */
  lemma PassedCell(c: Cell, t: Task, l: int, k: nat)
    requires t.TPass? && t.apply.id == l && Touches(t.apply.updates, k) ==> c == None
    ensures Play(c, PassEffect(t, l, k), k) == c || Play(c, PassEffect(t, l, k), k) == None
  {
    PlayOne(c, Kill, k);
    if t.TPass? { PlayOne(c, Write(t.apply.updates), k); }
  }

  lemma NoPassYet(s: Sys, p: nat, r: nat, k: nat)
    requires Routes(s) && OriginsOk(s) && p < |s.peers| && r >= |s.peers[p].ids|
    ensures NoPassWrites(s.peers[p].inst, r, k)
  {
    var ts := s.peers[p].inst.tasks;
    assert PeerRoutes(s, p, s.peers[p]);
    if ts != [] && ts[0].TPass? {
      assert Passes(ts)[0] == ts[0].apply;
      NotYetJustified(s, p, ts[0].apply, r);
    }
  }

  lemma HandedOver(h: Inst, a: Apply)
    requires h.tasks != [] && h.tasks[0] == TPass(a) && a.updates != [] && a.id in h.modules && !h.modules[a.id].hasCallback
    ensures RunHead(h).1 == Some(a)
  {}
}
