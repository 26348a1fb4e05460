/** A writer that saves in the table and sends to a listener as two separate steps: what keeps the two
    in step, for any process and any source of writes. `unsent` is what the writer has saved, or posted
    to be saved, and not yet posted to be sent. */
module Syncs {
  import opened Model
  import opened Instance
  import opened Effects
  import opened HostValue

  /** The value in the table once its pending saves have run is the one the listener, at u now, will
      have once the pending and the unsent sends have arrived. */
  ghost predicate SyncWith(i: Inst, u: Cell, unsent: seq<Effect>, r: nat, k: nat) {
    Play(CellOf(i.modules, r, k), Saves(i.tasks, r, k), k) == Play(u, Sends(i.tasks, r, k) + unsent, k)
  }

  ghost predicate NoPassWrites(i: Inst, r: nat, k: nat) {
    i.tasks != [] && i.tasks[0].TPass? && i.tasks[0].apply.id == r ==> !Touches(i.tasks[0].apply.updates, k)
  }

  predicate SavesTo(t: Task, r: nat, k: nat) {
    t.TSave? && t.id == r && Touches(t.updates, k)
  }

  predicate SendsOf(t: Task, r: nat, k: nat) {
    t.TSend? && t.id == r && Touches(t.updates, k)
  }

  /* ---- How a process moves ---- */

  datatype Move = Stays | Posts(task: Task) | Calls(call: AppEvent) | Runs

  predicate IsCallback(e: AppEvent) {
    e.CallbackUnregister? || e.CallbackUpdate?
  }

  /** A post may also change the decision and what threads are in the middle of. */
  ghost predicate Moves(i: Inst, j: Inst, m: Move) {
    match m
    case Stays => j == i
    case Posts(t) =>
      && j.tasks == i.tasks + [t] && j.modules == i.modules && j.origins == i.origins && j.mode == i.mode
      && j.handled == i.handled && j.sent == i.sent && j.replies == i.replies
    case Calls(e) => IsCallback(e) && Enabled(i, e) && j == AppStep(i, e)
    case Runs => i.tasks != [] && j == RunHead(i).0
  }

  /** The task that a call from outside the loop posts. */
  function PostOf(i: Inst, e: AppEvent): Task
    requires Enabled(i, e) && !IsCallback(e)
  {
    match e
    case Decide(hostMode) => TInit(hostMode)
    case AppRegister(m) => TRegister(m, Own)
    case AppUnregister(id) => TUnregister(id)
    case AppSave(_, id, ups) => TSave(id, ups)
    case AppSend(t) => i.calling[t]
  }

  function AppMove(i: Inst, e: AppEvent): Move
    requires Enabled(i, e)
  {
    if IsCallback(e) then Calls(e) else Posts(PostOf(i, e))
  }

  lemma AppMoves(i: Inst, e: AppEvent)
    requires Enabled(i, e)
    ensures Moves(i, AppStep(i, e), AppMove(i, e))
  {}

  /** What is unsent before and after the move, given what the move saves and sends. */
  ghost predicate Fits(i: Inst, m: Move, before: seq<Effect>, after: seq<Effect>, r: nat, k: nat) {
    match m
    case Stays => before == after
    case Posts(t) =>
      if SavesTo(t, r, k) then before == [] && after == [Write(t.updates)]
      else if SendsOf(t, r, k) then before == [Write(t.updates)] && after == []
      else before == after
    case Calls(e) => before == after && (e.CallbackUpdate? && e.id == r ==> !Touches(e.updates, k))
    case Runs => before == after && NoPassWrites(i, r, k) && (r == |i.origins| ==> before == [])
  }

  /* ---- Posts ---- */

  lemma PostSyncs(i: Inst, j: Inst, t: Task, u: Cell, before: seq<Effect>, after: seq<Effect>, r: nat, k: nat)
    requires Moves(i, j, Posts(t)) && Fits(i, Posts(t), before, after, r, k) && SyncWith(i, u, before, r, k) && NoCreate(before)
    ensures SyncWith(j, u, after, r, k)
  {
    SavesPost(i.tasks, t, r, k);
    SendsPost(i.tasks, t, r, k);
    var o, a, b := CellOf(i.modules, r, k), Saves(i.tasks, r, k), Sends(i.tasks, r, k);
    if t == TUnregister(r) {
      BothKilled(o, u, j.tasks, before, r, k);
    } else if SavesTo(t, r, k) {
      SaveSyncs(o, u, a, b, Write(t.updates), k);
    } else if SendsOf(t, r, k) {
      assert a + [] == a && b + [Write(t.updates)] + [] == b + before;
    } else {
      assert a + [] == a && b + [] == b;
    }
  }

  lemma SaveSyncs(o: Cell, u: Cell, a: seq<Effect>, b: seq<Effect>, e: Effect, k: nat)
    requires Play(o, a, k) == Play(u, b + [], k)
    ensures Play(o, a + [e], k) == Play(u, b + [] + [e], k)
  {
    assert b + [] == b;
    PlayConcat(o, a, [e], k);
    PlayConcat(u, b, [e], k);
  }

  lemma BothKilled(o: Cell, u: Cell, ts: seq<Task>, unsent: seq<Effect>, r: nat, k: nat)
    requires TUnregister(r) in ts && NoCreate(unsent)
    ensures Play(o, Saves(ts, r, k), k) == Play(u, Sends(ts, r, k) + unsent, k) == None
  {
    SavesCreateNothing(ts, r, k);
    KillKills(o, Saves(ts, r, k), k);
    KillKills(u, Sends(ts, r, k) + unsent, k);
  }

  /* ---- Calls from callbacks ---- */

  lemma SaidOnce(m: Msg, u: Cell, r: nat, k: nat)
    ensures Says([m], r, k) == MsgEffect(m, r, k)
    ensures m.Removed? && m.id == r ==> Play(u, Says([m], r, k), k) == None
    ensures MsgEffect(m, r, k) == [] ==> Play(u, Says([m], r, k), k) == u
  {
    assert [m][1..] == [];
    if m.Removed? { PlayOne(u, Kill, k); }
  }

  function CallbackMsg(e: AppEvent): Msg
    requires IsCallback(e)
  {
    if e.CallbackUnregister? then Removed(e.id) else Updated(e.id, e.updates)
  }

  /** A call from a callback is carried out at once and says one thing. */
  lemma CallbackHandles(i: Inst, e: AppEvent)
    requires Enabled(i, e) && IsCallback(e)
    ensures var j := AppStep(i, e);
            && j.tasks == i.tasks && j.calling == i.calling && i.handled <= j.handled
            && j.handled[|i.handled|..] == [CallbackMsg(e)]
  {
    var m := CallbackMsg(e);
    assert AppStep(i, e).handled == i.handled + [m];
    assert (i.handled + [m])[|i.handled|..] == [m];
  }

  lemma CallbackCell(i: Inst, e: AppEvent, r: nat, k: nat)
    requires Enabled(i, e) && IsCallback(e) && (e.CallbackUpdate? && e.id == r ==> !Touches(e.updates, k))
    ensures CellOf(AppStep(i, e).modules, r, k) == if e.CallbackUnregister? && e.id == r then None else CellOf(i.modules, r, k)
  {
    if e.CallbackUpdate? { SaveCell(i, e.id, e.updates, r, k); }
  }

  lemma GoneSyncs(ts: seq<Task>, unsent: seq<Effect>, r: nat, k: nat)
    requires NoCreate(unsent)
    ensures Play(None, Saves(ts, r, k), k) == Play(None, Sends(ts, r, k) + unsent, k)
  {
    SavesCreateNothing(ts, r, k);
    GoneStaysGone(Saves(ts, r, k), k);
    GoneStaysGone(Sends(ts, r, k) + unsent, k);
  }

  lemma CallSyncs(i: Inst, e: AppEvent, u: Cell, unsent: seq<Effect>, r: nat, k: nat)
    requires Enabled(i, e) && IsCallback(e) && (e.CallbackUpdate? && e.id == r ==> !Touches(e.updates, k))
    requires SyncWith(i, u, unsent, r, k) && NoCreate(unsent)
    ensures SyncWith(AppStep(i, e), Play(u, Says([CallbackMsg(e)], r, k), k), unsent, r, k)
  {
    CallbackHandles(i, e);
    CallbackCell(i, e, r, k);
    SaidOnce(CallbackMsg(e), u, r, k);
    if e.CallbackUnregister? && e.id == r { GoneSyncs(i.tasks, unsent, r, k); }
  }

  /* ---- The loop ---- */

  /** Running a task emits exactly what its effects say, registrations aside. */
  lemma {:induction false} RunSays(i: Inst, r: nat, k: nat)
    requires i.tasks != [] && -1 !in i.modules && (i.tasks[0].TRegister? ==> r != |i.origins|)
    ensures var j := RunHead(i).0;
            j.tasks == i.tasks[1..] && j.calling == i.calling && |i.handled| <= |j.handled|
            && Says(j.handled[|i.handled|..], r, k) == SendEffect(i.tasks[0], r, k)
  {
    var t, j := i.tasks[0], RunHead(i).0;
    match t
    case TUnregister(id) => assert j.handled[|i.handled|..] == [Removed(id)]; SaidOnce(Removed(id), None, r, k);
    case TSend(id, ups) => assert j.handled[|i.handled|..] == [Updated(id, ups)]; SaidOnce(Updated(id, ups), None, r, k);
    case TRegister(m, o) =>
      assert j.handled[|i.handled|..] == [AddedMsg(|i.origins|, m)]; SaidOnce(AddedMsg(|i.origins|, m), None, r, k);
    case _ =>
  }

  /** The process registers the module: table and listener start from the registered value. */
  lemma {:induction false} RegisterStarts(i: Inst, u: Cell, r: nat, k: nat)
    requires TasksOk(i) && i.tasks != [] && i.tasks[0].TRegister? && r == |i.origins|
    ensures var j := RunHead(i).0;
            && |i.handled| <= |j.handled|
            && CellOf(j.modules, r, k) == Play(u, Says(j.handled[|i.handled|..], r, k), k)
            && Saves(j.tasks, r, k) == [] && Sends(j.tasks, r, k) == []
            && forall t :: t in j.calling ==> SendEffect(j.calling[t], r, k) == []
  {
    var m, j := i.tasks[0].mod, RunHead(i).0;
    var a := AddedMsg(r, m);
    assert j.handled[|i.handled|..] == [a];
    SaidOnce(a, u, r, k);
    PlayOne(u, Create(PropertyOf(m.properties, k)), k);
    assert forall t <- i.tasks[1..] :: t in i.tasks;
    NothingOnNewIds(i, i.tasks[1..], r, k);
  }

  lemma {:induction false} HeadSyncs(i: Inst, u: Cell, unsent: seq<Effect>, r: nat, k: nat)
    requires SyncWith(i, u, unsent, r, k) && i.tasks != [] && -1 !in i.modules && NoPassWrites(i, r, k)
    requires i.tasks[0].TRegister? ==> r != |i.origins|
    ensures var j := RunHead(i).0;
            |i.handled| <= |j.handled| && SyncWith(j, Play(u, Says(j.handled[|i.handled|..], r, k), k), unsent, r, k)
  {
    var t := i.tasks[0];
    RunAtCell(i, r, k);
    RunSays(i, r, k);
    SendsLater(u, SendEffect(t, r, k), Sends(i.tasks[1..], r, k), unsent, k);
  }

  lemma SendsLater(u: Cell, a: seq<Effect>, b: seq<Effect>, c: seq<Effect>, k: nat)
    ensures Play(u, a + b + c, k) == Play(Play(u, a, k), b + c, k)
  {
    PlayConcat(u, a, b + c, k);
    assert a + b + c == a + (b + c);
  }

  lemma {:induction false} LoopSyncs(i: Inst, u: Cell, unsent: seq<Effect>, r: nat, k: nat)
    requires SyncWith(i, u, unsent, r, k) && TasksOk(i) && i.tasks != [] && -1 !in i.modules
    requires NoPassWrites(i, r, k) && (r == |i.origins| ==> unsent == [])
    ensures var j := RunHead(i).0;
            |i.handled| <= |j.handled| && SyncWith(j, Play(u, Says(j.handled[|i.handled|..], r, k), k), unsent, r, k)
  {
    if i.tasks[0].TRegister? && r == |i.origins| { RegisterStarts(i, u, r, k); } else { HeadSyncs(i, u, unsent, r, k); }
  }

  /* ---- Any move ---- */

  lemma {:induction false} MoveSyncs(i: Inst, j: Inst, m: Move, u: Cell, before: seq<Effect>, after: seq<Effect>, r: nat, k: nat)
    requires Moves(i, j, m) && Fits(i, m, before, after, r, k) && TasksOk(i) && -1 !in i.modules
    requires SyncWith(i, u, before, r, k) && NoCreate(before)
    ensures |i.handled| <= |j.handled| && SyncWith(j, Play(u, Says(j.handled[|i.handled|..], r, k), k), after, r, k)
  {
    match m
    case Stays => assert j.handled[|i.handled|..] == [];
    case Posts(t) => assert j.handled[|i.handled|..] == []; PostSyncs(i, j, t, u, before, after, r, k);
    case Calls(e) => CallbackHandles(i, e); CallSyncs(i, e, u, before, r, k);
    case Runs => LoopSyncs(i, u, before, r, k);
  }
}
