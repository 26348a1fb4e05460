/** A page as a listener to writes in the host's table: saves and sends of one source alternate, be it a
    thread of the host's application or, for a replicated module, the network thread, so a page that
    gets its answer between the save and the send of one write is in step all the same. */
module PageWrites {
  import opened Model
  import opened Instance
  import opened Network
  import opened NetworkInvariant
  import opened Routing
  import opened Effects
  import opened Syncs
  import opened OwnerWrites
  import opened Browser
  import opened PageReplica

  lemma WritingTwice(c: Cell, ups: seq<Update>, k: nat)
    ensures Apply1(Apply1(c, Write(ups), k), Write(ups), k) == Apply1(c, Write(ups), k)
  {
    if c.Some? {
      WritesTheLast(c.value, ups, k);
      WritesTheLast(WriteTo(c.value, ups, k), ups, k);
    }
  }

  /* ---- Saves and sends of one source alternate ---- */

  /** `saved` is the list that was saved and not sent when the tasks start; afterwards each save is
      followed by its send before the next save; `unsent` is what the source has yet to post. */
  predicate Alternate(ts: seq<Task>, unsent: seq<Effect>, saved: Option<seq<Update>>, r: nat, k: nat)
    decreases |ts|
  {
    if ts == [] then unsent == if saved.Some? then [Write(saved.value)] else []
    else if SavesTo(ts[0], r, k) then saved.None? && Alternate(ts[1..], unsent, Some(ts[0].updates), r, k)
    else if SendsOf(ts[0], r, k) then saved == Some(ts[0].updates) && Alternate(ts[1..], unsent, None, r, k)
    else Alternate(ts[1..], unsent, saved, r, k)
  }

  lemma {:induction false} AlternatePost(ts: seq<Task>, t: Task, before: seq<Effect>, after: seq<Effect>, saved: Option<seq<Update>>, r: nat, k: nat)
    requires Alternate(ts, before, saved, r, k)
    requires if SavesTo(t, r, k) then before == [] && after == [Write(t.updates)]
             else if SendsOf(t, r, k) then before == [Write(t.updates)] && after == []
             else before == after
    ensures Alternate(ts + [t], after, saved, r, k)
    decreases |ts|
  {
    if ts == [] {
      assert (ts + [t])[1..] == [];
    } else {
      assert (ts + [t])[1..] == ts[1..] + [t];
      var then' := if SavesTo(ts[0], r, k) then Some(ts[0].updates) else if SendsOf(ts[0], r, k) then None else saved;
      AlternatePost(ts[1..], t, before, after, then', r, k);
    }
  }

  function Saved(c: Cell, saved: Option<seq<Update>>, k: nat): Cell {
    if saved.Some? then Apply1(c, Write(saved.value), k) else c
  }

  /** What alternating saves do to the table, their sends do to a listener that lacks only the write
      saved last. */
  lemma {:induction false} AlternatingAgree(c: Cell, ts: seq<Task>, unsent: seq<Effect>, saved: Option<seq<Update>>, r: nat, k: nat)
    requires Alternate(ts, unsent, saved, r, k)
    ensures Play(c, Sends(ts, r, k) + unsent, k) == Play(Saved(c, saved, k), Saves(ts, r, k), k)
    decreases |ts|
  {
    if ts == [] {
      assert Sends(ts, r, k) + unsent == unsent;
      if saved.Some? { PlayOne(c, Write(saved.value), k); }
    } else {
      var t, rest := ts[0], ts[1..];
      assert Sends(ts, r, k) + unsent == SendEffect(t, r, k) + (Sends(rest, r, k) + unsent);
      PlayConcat(c, SendEffect(t, r, k), Sends(rest, r, k) + unsent, k);
      PlayConcat(Saved(c, saved, k), SaveEffect(t, r, k), Saves(rest, r, k), k);
      if SavesTo(t, r, k) {
        PlayOne(c, Write(t.updates), k);
        AlternatingAgree(c, rest, unsent, Some(t.updates), r, k);
      } else if SendsOf(t, r, k) {
        PlayOne(c, Write(t.updates), k);
        AlternatingAgree(Apply1(c, Write(t.updates), k), rest, unsent, None, r, k);
      } else if t == TUnregister(r) {
        PlayOne(c, Kill, k);
        PlayOne(Saved(c, saved, k), Kill, k);
        AlternatingAgree(None, rest, unsent, saved, r, k);
      } else {
        AlternatingAgree(c, rest, unsent, saved, r, k);
      }
    }
  }

  /** The write saved last, if it was not sent yet, is in the table. */
  ghost predicate Paired(i: Inst, unsent: seq<Effect>, saved: Option<seq<Update>>, r: nat, k: nat) {
    && Alternate(i.tasks, unsent, saved, r, k)
    && Saved(CellOf(i.modules, r, k), saved, k) == CellOf(i.modules, r, k)
  }

  /** A listener that gets the table as it is will agree once the sends have run. */
  lemma SnapshotSyncs(i: Inst, unsent: seq<Effect>, saved: Option<seq<Update>>, r: nat, k: nat)
    requires Paired(i, unsent, saved, r, k)
    ensures SyncWith(i, CellOf(i.modules, r, k), unsent, r, k)
  {
    AlternatingAgree(CellOf(i.modules, r, k), i.tasks, unsent, saved, r, k);
  }

  lemma NothingPendsOnNew(ts: seq<Task>, unsent: seq<Effect>, saved: Option<seq<Update>>, r: nat, k: nat)
    requires Alternate(ts, unsent, saved, r, k) && unsent == [] && Saves(ts, r, k) == [] && Sends(ts, r, k) == []
    ensures saved == None
    decreases |ts|
  {
    if ts != [] { NothingPendsOnNew(ts[1..], unsent, saved, r, k); }
  }

  /** What is saved and not sent once the head task has run. */
  function SavedAfter(t: Task, saved: Option<seq<Update>>, r: nat, k: nat): Option<seq<Update>> {
    if SavesTo(t, r, k) then Some(t.updates) else if SendsOf(t, r, k) then None else saved
  }

  lemma HeadSaved(t: Task, c: Cell, saved: Option<seq<Update>>, r: nat, k: nat)
    requires Saved(c, saved, k) == c
    ensures var c' := Play(c, SaveEffect(t, r, k), k); Saved(c', SavedAfter(t, saved, r, k), k) == c'
  {
    if SavesTo(t, r, k) {
      PlayOne(c, Write(t.updates), k);
      WritingTwice(c, t.updates, k);
    } else if t == TUnregister(r) {
      PlayOne(c, Kill, k);
    }
  }

  /** Running the head task does to the property what its save effect says. */
  lemma HeadSaves(i: Inst, r: nat, k: nat)
    requires i.tasks != [] && -1 !in i.modules && NoPassWrites(i, r, k) && (i.tasks[0].TRegister? ==> r != |i.origins|)
    ensures var j := RunHead(i).0;
            && CellOf(j.modules, r, k) == Play(CellOf(i.modules, r, k), SaveEffect(i.tasks[0], r, k), k)
            && j.tasks == i.tasks[1..]
  {
    var t := i.tasks[0];
    if t.TLoad? { assert RunHead(i).0.modules == i.modules; } else { TaskCell(i.(tasks := i.tasks[1..]), t, r, k); }
  }

  lemma PairedHead(i: Inst, unsent: seq<Effect>, saved: Option<seq<Update>>, r: nat, k: nat)
    requires Paired(i, unsent, saved, r, k) && i.tasks != [] && -1 !in i.modules && NoPassWrites(i, r, k)
    requires i.tasks[0].TRegister? ==> r != |i.origins|
    ensures Paired(RunHead(i).0, unsent, SavedAfter(i.tasks[0], saved, r, k), r, k)
  {
    HeadSaves(i, r, k);
    HeadSaved(i.tasks[0], CellOf(i.modules, r, k), saved, r, k);
  }

  lemma PairedRegistration(i: Inst, saved: Option<seq<Update>>, r: nat, k: nat)
    requires Paired(i, [], saved, r, k) && TasksOk(i) && i.tasks != [] && i.tasks[0].TRegister? && r == |i.origins|
    ensures Paired(RunHead(i).0, [], None, r, k)
  {
    RegisterStarts(i, None, r, k);
    NothingPendsOnNew(i.tasks[1..], [], saved, r, k);
    assert RunHead(i).0.tasks == i.tasks[1..];
  }

  lemma MovePairs(i: Inst, j: Inst, m: Move, before: seq<Effect>, after: seq<Effect>, saved: Option<seq<Update>>, r: nat, k: nat)
    returns (saved': Option<seq<Update>>)
    requires Moves(i, j, m) && Fits(i, m, before, after, r, k) && TasksOk(i) && -1 !in i.modules && Paired(i, before, saved, r, k)
    ensures Paired(j, after, saved', r, k)
  {
    saved' := saved;
    match m
    case Stays =>
    case Posts(t) => AlternatePost(i.tasks, t, before, after, saved, r, k);
    case Calls(e) => CallbackHandles(i, e); CallbackCell(i, e, r, k);
    case Runs =>
      if i.tasks[0].TRegister? && r == |i.origins| {
        PairedRegistration(i, saved, r, k);
        saved' := None;
      } else {
        PairedHead(i, before, saved, r, k);
        saved' := SavedAfter(i.tasks[0], saved, r, k);
      }
  }

  /* ---- The page as a listener ---- */

  function ItemEffect(e: Item, r: nat, k: nat): seq<Effect> {
    match e
    case Push(m) => MsgEffect(m, r, k)
    case List(ms) => if r in ms then [Create(PropertyOf(ms[r].properties, k))] else []
  }

  /** The property as a page is to know it that reads all of these items. */
  function Heard(items: seq<Item>, r: nat, k: nat): Cell {
    if items == [] then None
    else Play(Heard(items[..|items| - 1], r, k), ItemEffect(items[|items| - 1], r, k), k)
  }

  lemma HeardNext(items: seq<Item>, e: Item, r: nat, k: nat)
    ensures Heard(items + [e], r, k) == Play(Heard(items, r, k), ItemEffect(e, r, k), k)
  {
    assert (items + [e])[..|items|] == items;
  }

  lemma PushesFirst(items: seq<Item>, ms: seq<Msg>)
    requires ms != []
    ensures items + Pushes(ms) == (items + [Push(ms[0])]) + Pushes(ms[1..])
  {}

  lemma {:induction false} HeardPushes(items: seq<Item>, ms: seq<Msg>, r: nat, k: nat)
    ensures Heard(items + Pushes(ms), r, k) == Play(Heard(items, r, k), Says(ms, r, k), k)
    decreases |ms|
  {
    if ms == [] {
      assert items + Pushes(ms) == items;
    } else {
      HeardPushes(items + [Push(ms[0])], ms[1..], r, k);
      PushesFirst(items, ms);
      HeardNext(items, Push(ms[0]), r, k);
      PlayConcat(Heard(items, r, k), MsgEffect(ms[0], r, k), Says(ms[1..], r, k), k);
    }
  }

  lemma PushesDoNotAnswer(items: seq<Item>, ms: seq<Msg>)
    ensures Answered(items + Pushes(ms)) <==> Answered(items)
  {
    var more := items + Pushes(ms);
    assert forall x :: 0 <= x < |items| ==> more[x] == items[x];
    assert forall x :: |items| <= x < |more| ==> more[x].Push?;
  }

  /** A page that has its answer is in step; one that has not is in step or knows nothing of the
      property. */
  ghost predicate Listens(i: Inst, items: seq<Item>, unsent: seq<Effect>, r: nat, k: nat) {
    var u := Heard(items, r, k);
    (!Answered(items) && u.None?) || SyncWith(i, u, unsent, r, k)
  }

  lemma {:induction false} NothingCreated(i: Inst, j: Inst, m: Move, r: nat, k: nat)
    requires Moves(i, j, m) && -1 !in i.modules && !(m.Runs? && i.tasks[0].TRegister? && r == |i.origins|)
    ensures |i.handled| <= |j.handled| && NoCreate(Says(j.handled[|i.handled|..], r, k))
  {
    match m
    case Stays => assert j.handled[|i.handled|..] == [];
    case Posts(_) => assert j.handled[|i.handled|..] == [];
    case Calls(e) => CallbackHandles(i, e); SaidOnce(CallbackMsg(e), None, r, k);
    case Runs => RunSays(i, r, k);
  }

  /** A listener that knows nothing of the property goes on knowing nothing, or learns of it from its
      registration. */
  lemma UnsyncedMove(i: Inst, j: Inst, m: Move, before: seq<Effect>, after: seq<Effect>, r: nat, k: nat)
    requires Moves(i, j, m) && Fits(i, m, before, after, r, k) && TasksOk(i) && -1 !in i.modules
    ensures |i.handled| <= |j.handled|
    ensures var u := Play(None, Says(j.handled[|i.handled|..], r, k), k); u.None? || SyncWith(j, u, after, r, k)
  {
    if m.Runs? && i.tasks[0].TRegister? && r == |i.origins| {
      RegisterStarts(i, None, r, k);
    } else {
      NothingCreated(i, j, m, r, k);
      GoneStaysGone(Says(j.handled[|i.handled|..], r, k), k);
    }
  }

  lemma ListensToPushes(i: Inst, j: Inst, m: Move, items: seq<Item>, before: seq<Effect>, after: seq<Effect>, r: nat, k: nat)
    requires Moves(i, j, m) && Fits(i, m, before, after, r, k) && TasksOk(i) && -1 !in i.modules && NoCreate(before)
    requires Listens(i, items, before, r, k) && |i.handled| <= |j.handled|
    ensures Listens(j, items + Pushes(j.handled[|i.handled|..]), after, r, k)
  {
    var u := Heard(items, r, k);
    if !Answered(items) && u.None? { UnsyncedMove(i, j, m, before, after, r, k); } else { MoveSyncs(i, j, m, u, before, after, r, k); }
    HeardPushes(items, j.handled[|i.handled|..], r, k);
    PushesDoNotAnswer(items, j.handled[|i.handled|..]);
  }

  /** The page gets its answer. */
  lemma AnswerSyncs(i: Inst, items: seq<Item>, unsent: seq<Effect>, saved: Option<seq<Update>>, r: nat, k: nat)
    requires Paired(i, unsent, saved, r, k) && Listens(i, items, unsent, r, k)
    ensures Listens(i, items + [List(i.modules)], unsent, r, k)
  {
    var u := Heard(items, r, k);
    HeardNext(items, List(i.modules), r, k);
    SnapshotSyncs(i, unsent, saved, r, k);
    if r in i.modules { PlayOne(u, Create(PropertyOf(i.modules[r].properties, k)), k); }
  }

  lemma ListensToMove(i: Inst, j: Inst, m: Move, mine: bool, items: seq<Item>, before: seq<Effect>, after: seq<Effect>,
                      saved: Option<seq<Update>>, r: nat, k: nat)
    requires Moves(i, j, m) && Fits(i, m, before, after, r, k) && TasksOk(i) && -1 !in i.modules && NoCreate(before)
    requires Listens(i, items, before, r, k) && Paired(j, after, saved, r, k) && Outputs(i, j)
    ensures Listens(j, items + NewItems(i, j, mine), after, r, k)
  {
    var ms := j.sent[|i.sent|..];
    ListensToPushes(i, j, m, items, before, after, r, k);
    assert items + (Pushes(ms) + []) == items + Pushes(ms);
    if mine && |i.replies| < |j.replies| {
      AnswerSyncs(j, items + Pushes(ms), after, saved, r, k);
      assert items + (Pushes(ms) + [List(j.modules)]) == (items + Pushes(ms)) + [List(j.modules)];
    }
  }

  /* ---- Who writes in the host's table ---- */

  /** A thread of the host's application, for a module of its own; or the network thread, for a module
      that another process replicates. */
  datatype Source = AppThread(thread: nat) | NetThread

  /** The id is, if it was given at all, that of a module of the source's kind. */
  ghost predicate OfKind(s: Sys, src: Source, l: nat) {
    l < |s.host.origins| ==> (src.AppThread? <==> s.host.origins[l].Own?)
  }

  /** What the source has saved, or posted to be saved, and not yet posted to be sent. */
  function Pending(s: Sys, src: Source, l: nat, k: nat): seq<Effect> {
    match src
    case AppThread(w) => Unsent(s.host, w, l, k)
    case NetThread => if s.net.Updating? && s.net.local == l then WriteOf(s.net.updates, k) else []
  }

  /** Of the host's application, only the source writes the property, and not in callbacks. Nothing
      needs to be said of it when the network thread is the source: it does not know the id. */
  ghost predicate OnlyBy(e: Event, src: Source, l: nat, k: nat) {
    e.HostApp? && src.AppThread? ==> ByThread(e.app, src.thread, l, k)
  }

  /** No page asked for a write of the property. */
  ghost predicate Unasked(s: Sys, l: nat, k: nat) {
    forall a <- s.applies :: a.id == l ==> !Touches(a.updates, k)
  }

  ghost predicate RestSilent(s: Sys, src: Source, l: nat, k: nat) {
    src.AppThread? ==> OthersSilent(s.host, src.thread, l, k)
  }

  lemma UnaskedMeans(s: Sys, l: nat, k: nat)
    requires HostRoutes(s) && Unasked(s, l, k)
    ensures NoPassWrites(s.host, l, k)
  {
    var ts := s.host.tasks;
    if ts != [] && ts[0].TPass? {
      assert Passes(ts)[0] == ts[0].apply;
      assert AsAsked(s, ts[0].apply) && s.applies[ts[0].apply.tag] in s.applies;
    }
  }

  lemma NothingPendingOnNew(s: Sys, src: Source, l: nat, k: nat)
    requires NetOk(s) && TasksOk(s.host) && l >= |s.host.origins|
    ensures Pending(s, src, l, k) == []
  {}

  lemma PendingOnlyWrites(s: Sys, src: Source, l: nat, k: nat)
    requires SendsOnly(s.host)
    ensures NoCreate(Pending(s, src, l, k))
  {
    if src.AppThread? { UnsentOnlyWrites(s.host, src.thread, l, k); }
  }

  lemma AppFits(s: Sys, a: AppEvent, src: Source, l: nat, k: nat)
    requires TasksOk(s.host) && OfKind(s, src, l) && Can(s, HostApp(a)) && RestSilent(s, src, l, k) && OnlyBy(HostApp(a), src, l, k)
    ensures var z := Do(s, HostApp(a));
            Fits(s.host, AppMove(s.host, a), Pending(s, src, l, k), Pending(z, src, l, k), l, k) && RestSilent(z, src, l, k)
  {
    if src.AppThread? {
      ThreadFits(s.host, a, src.thread, l, k);
    } else {
      StrangersFit(s.host, a, Pending(s, src, l, k), l, k);
    }
  }

  /** The application can not name an id that is not its own. */
  lemma StrangersFit(i: Inst, a: AppEvent, unsent: seq<Effect>, l: nat, k: nat)
    requires TasksOk(i) && Enabled(i, a) && !Owned(i, l)
    ensures Fits(i, AppMove(i, a), unsent, unsent, l, k)
  {}

  lemma RunFits(s: Sys, src: Source, l: nat, k: nat)
    requires s.host.tasks != [] && NetOk(s) && TasksOk(s.host) && NoPassWrites(s.host, l, k) && RestSilent(s, src, l, k)
    ensures Fits(s.host, Runs, Pending(s, src, l, k), Pending(RunHost(s), src, l, k), l, k) && RestSilent(RunHost(s), src, l, k)
  {
    RunKeepsNet(s);
    if l >= |s.host.origins| { NothingPendingOnNew(s, src, l, k); }
  }

  lemma RunKeepsNet(s: Sys)
    requires s.host.tasks != []
    ensures RunHost(s).host.calling == s.host.calling
    ensures RunHost(s).net == s.net || (s.net.Registering? && RunHost(s).net.Registered?)
  {
    assert RunHost(s).host == RunHead(s.host).0;
    RunKeepsCalls(s.host);
  }

  lemma ReadFits(s: Sys, c: nat, src: Source, l: nat, k: nat)
    requires CanRead(s, c) && RemotesOk(s) && OfKind(s, src, l)
    ensures Fits(s.host, HostMove(s, Read(c)), Pending(s, src, l, k), Pending(ReadMsg(s, c), src, l, k), l, k)
  {
    var m := s.peers[s.live[c]].inst.sent[s.peers[s.live[c]].taken];
    var x := LocalId(s.remotes, m.id, c);
    if m.Updated? && x == l {
      assert Maps(s.remotes, l, m.id, c);
      assert src.NetThread?;
    }
  }

  lemma ContinueFits(s: Sys, src: Source, l: nat, k: nat)
    requires Can(s, Continue) && NetOk(s) && OfKind(s, src, l)
    ensures Fits(s.host, HostMove(s, Continue), Pending(s, src, l, k), Pending(ContinueNet(s), src, l, k), l, k)
  {}

  lemma RestFits(s: Sys, e: Event, src: Source, l: nat, k: nat)
    requires Can(s, e) && !e.HostApp? && !e.HostRun? && !e.Read? && !e.Continue?
    ensures Fits(s.host, HostMove(s, e), Pending(s, src, l, k), Pending(Do(s, e), src, l, k), l, k)
  {}

  lemma OthersKeepCalls(s: Sys, e: Event)
    requires Can(s, e) && !e.HostApp? && !e.HostRun?
    ensures Do(s, e).host.calling == s.host.calling
  {
    OthersPost(s, e);
  }

  /** The move that an event makes the host fits what the source has pending before and after. */
  lemma EventFits(s: Sys, e: Event, src: Source, l: nat, k: nat)
    requires NetOk(s) && RemotesOk(s) && TasksOk(s.host) && OfKind(s, src, l) && NoPassWrites(s.host, l, k) && Can(s, e)
    requires RestSilent(s, src, l, k) && OnlyBy(e, src, l, k)
    ensures var z := Do(s, e);
            Fits(s.host, HostMove(s, e), Pending(s, src, l, k), Pending(z, src, l, k), l, k) && RestSilent(z, src, l, k)
  {
    if e.HostApp? {
      AppFits(s, e.app, src, l, k);
    } else if e.HostRun? {
      RunFits(s, src, l, k);
    } else {
      OthersKeepCalls(s, e);
      if e.Read? { ReadFits(s, e.client, src, l, k); } else if e.Continue? { ContinueFits(s, src, l, k); } else { RestFits(s, e, src, l, k); }
    }
  }

  /* ---- Over runs ---- */

  ghost predicate PageSync(s: Session, src: Source, l: nat, k: nat) {
    && RestSilent(s.sys, src, l, k)
    && (exists saved :: Paired(s.sys.host, Pending(s.sys, src, l, k), saved, l, k))
    && (s.open ==> Listens(s.sys.host, s.stream, Pending(s.sys, src, l, k), l, k))
  }

  /** What a step may rely on. */
  ghost predicate Calm(s: Sys, src: Source, l: nat, k: nat) {
    && NetOk(s) && RemotesOk(s) && TasksOk(s.host) && DecisionOk(s.host) && -1 !in s.host.modules
    && OfKind(s, src, l) && NoPassWrites(s.host, l, k)
  }

  lemma AdvanceSyncs(s: Session, e: Event, mine: bool, src: Source, l: nat, k: nat)
    requires Calm(s.sys, src, l, k) && (s.open ==> s.sys.host.mode.Some?) && OnlyBy(e, src, l, k) && PageSync(s, src, l, k)
    ensures PageSync(Advance(s, e, mine), src, l, k)
  {
    if Can(s.sys, e) {
      var h, h', m := s.sys.host, Do(s.sys, e).host, HostMove(s.sys, e);
      var before, after := Pending(s.sys, src, l, k), Pending(Do(s.sys, e), src, l, k);
      EventFits(s.sys, e, src, l, k);
      HostMoves(s.sys, e);
      PendingOnlyWrites(s.sys, src, l, k);
      var saved :| Paired(h, before, saved, l, k);
      var saved' := MovePairs(h, h', m, before, after, saved, l, k);
      if s.open {
        MoveOutputs(h, h', m);
        ListensToMove(h, h', m, mine, s.stream, before, after, saved', l, k);
      }
    } else {
      NothingNew(s.sys.host, mine, s.stream);
      assert Advance(s, e, mine) == s;
    }
  }

  lemma PageStepSyncs(s: Session, e: PageEvent, src: Source, l: nat, k: nat)
    requires Calm(s.sys, src, l, k) && (if s.open then s.sys.host.mode.Some? else s.stream == []) && PageSync(s, src, l, k)
    requires e.Happens? ==> OnlyBy(e.event, src, l, k)
    ensures PageSync(PageStep(s, e), src, l, k)
  {
    match e
    case Happens(event, mine) => AdvanceSyncs(s, event, mine, src, l, k);
    case Connect =>
    case Receive =>
    case Disconnect =>
    case Edit(_, _, _) =>
    case _ => if Operates(s, e) { AdvanceSyncs(s, Request(s, e), false, src, l, k); }
  }

  ghost predicate WrittenOnlyBy(es: seq<PageEvent>, src: Source, l: nat, k: nat) {
    forall e <- es :: e.Happens? ==> OnlyBy(e.event, src, l, k)
  }

  /** Ids keep their kind and requests stay on record, so what holds at the end held all along. */
  lemma {:induction false} CalmBefore(es: seq<PageEvent>, e: PageEvent, src: Source, l: nat, k: nat)
    requires var z := PageStep(PageRun(es), e).sys; OfKind(z, src, l) && Unasked(z, l, k)
    ensures var s := PageRun(es).sys; Calm(s, src, l, k) && OfKind(s, src, l) && Unasked(s, l, k)
  {
    var s := PageRun(es).sys;
    NetOf(es);
    RunsKeep(NetEvents(es));
    NoModuleIsUnknown(s.host);
    NetStep(PageRun(es), e);
    if NetEvent(PageRun(es), e).Some? { StepGrows(s, NetEvent(PageRun(es), e).value); }
    var z := PageStep(PageRun(es), e).sys;
    forall a | a in s.applies && a.id == l ensures !Touches(a.updates, k) { assert a in z.applies; }
    assert HostRoutes(s) by { RunsRoute(NetEvents(es)); }
    UnaskedMeans(s, l, k);
  }

  lemma NothingBefore(src: Source, l: nat, k: nat)
    ensures PageSync(BEFORE, src, l, k)
  {
    assert Pending(BEFORE.sys, src, l, k) == [];
    assert Paired(BEFORE.sys.host, [], None, l, k);
  }

  lemma {:induction false} PageRunsSync(es: seq<PageEvent>, src: Source, l: nat, k: nat)
    requires WrittenOnlyBy(es, src, l, k) && OfKind(PageRun(es).sys, src, l) && Unasked(PageRun(es).sys, l, k)
    ensures PageSync(PageRun(es), src, l, k)
    decreases |es|
  {
    if es == [] {
      NothingBefore(src, l, k);
    } else {
      var before, last := es[..|es| - 1], es[|es| - 1];
      assert last in es && forall e <- before :: e in es;
      CalmBefore(before, last, src, l, k);
      PageRunsSync(before, src, l, k);
      assert StreamOk(PageRun(before).sys.host, PageRun(before).open, PageRun(before).from, PageRun(before).stream) by { SessionsKeep(before); }
      PageStepSyncs(PageRun(before), last, src, l, k);
    }
  }
}
