/** What any process, host or proxy, keeps over any run of its own: the order of the messages it
    emits, the shape of its modules, and that its stream does not depend on when the connection
    attempt ends. */
module Lifecycle {
  import opened Model
  import opened Instance

  /* ---- Ids in the emitted stream ---- */

  /** Each id is announced at most once and ids are announced in increasing order. */
  ghost predicate AnnouncedOnce(log: seq<Msg>) {
    forall j, k :: 0 <= j < k < |log| && log[j].Added? && log[k].Added? ==> log[j].id < log[k].id
  }

  /** Whatever is said of an id, other than the unknown one, comes after its announcement. */
  ghost predicate AnnouncedFirst(log: seq<Msg>) {
    forall k :: 0 <= k < |log| && !log[k].Added? && log[k].id != -1 ==>
      exists j :: 0 <= j < k && log[j].Added? && log[j].id == log[k].id
  }

  lemma {:induction false} AnnouncedAt(log: seq<Msg>, id: int) returns (j: nat)
    requires WellNumbered(log) && 0 <= id < NumAdds(log)
    ensures j < |log| && log[j].Added? && log[j].id == id
    decreases |log|
  {
    var n := |log| - 1;
    if log[n].Added? && log[n].id == id {
      j := n;
    } else {
      j := AnnouncedAt(log[..n], id);
    }
  }

  lemma {:induction false} AnnouncedBelow(log: seq<Msg>)
    requires WellNumbered(log)
    ensures forall j :: 0 <= j < |log| && log[j].Added? ==> 0 <= log[j].id < NumAdds(log)
    decreases |log|
  {
    if log != [] {
      AnnouncedBelow(log[..|log| - 1]);
      assert forall j :: 0 <= j < |log| - 1 ==> log[..|log| - 1][j] == log[j];
    }
  }

  lemma OnceMore(log: seq<Msg>)
    requires WellNumbered(log) && log != [] && AnnouncedOnce(log[..|log| - 1])
    ensures AnnouncedOnce(log)
  {
    var before := log[..|log| - 1];
    AnnouncedBelow(before);
    assert forall j :: 0 <= j < |before| ==> before[j] == log[j];
  }

  /** A stream numbered by a counter that is never reused announces every id once, in order,
      and before anything else is said of it. */
  lemma {:induction false} IdLifecycle(log: seq<Msg>)
    requires WellNumbered(log)
    ensures AnnouncedOnce(log) && AnnouncedFirst(log)
    decreases |log|
  {
    if log != [] {
      var n := |log| - 1;
      var before := log[..n];
      IdLifecycle(before);
      OnceMore(log);
      assert forall j :: 0 <= j < n ==> before[j] == log[j];
      forall k | 0 <= k < |log| && !log[k].Added? && log[k].id != -1
        ensures exists j :: 0 <= j < k && log[j].Added? && log[j].id == log[k].id
      {
        if k == n {
          var j := AnnouncedAt(before, log[n].id);
        } else {
          var j :| 0 <= j < k && before[j].Added? && before[j].id == before[k].id;
          assert log[j].Added?;
        }
      }
    }
  }

  /* ---- Runs of one process ---- */

  datatype LocalStep =
    | App(app: AppEvent)
    | Arrive(task: Task)   // posted by a network thread
    | Loop

  predicate Possible(i: Inst, st: LocalStep) {
    match st
    case App(e) => Enabled(i, e)
    case Arrive(t) => TaskIdOk(i, t) && !t.TInit?
    case Loop => i.tasks != []
  }

  function Local(i: Inst, st: LocalStep): Inst {
    if !Possible(i, st) then i
    else match st
      case App(e) => AppStep(i, e)
      case Arrive(t) => Post(i, t)
      case Loop => RunHead(i).0
  }

  function LocalRun(steps: seq<LocalStep>): Inst {
    if steps == [] then FRESH else Local(LocalRun(steps[..|steps| - 1]), steps[|steps| - 1])
  }

  lemma {:induction false} LocalRunsKeep(steps: seq<LocalStep>)
    ensures LocalInv(LocalRun(steps))
    decreases |steps|
  {
    if steps == [] {
      FreshIsOk();
    } else {
      var i, st := LocalRun(steps[..|steps| - 1]), steps[|steps| - 1];
      LocalRunsKeep(steps[..|steps| - 1]);
      if Possible(i, st) {
        match st
        case App(e) => AppStepKeeps(i, e);
        case Arrive(t) => PostKeeps(i, t);
        case Loop => RunHeadKeeps(i);
      }
    }
  }

  /** Over every run of a process: nothing handled is lost, reordered or sent twice, nothing waits
      in the queue once it is initialised, ids keep to their lifecycle, and no module is keyed by
      the unknown id. */
  lemma EveryRunOfAProcess(steps: seq<LocalStep>)
    ensures var i := LocalRun(steps);
            && i.sent + i.queue == i.handled
            && (i.mode.Some? ==> i.queue == [])
            && (i.mode.Some? ==> i.mode == i.decided)
            && AnnouncedOnce(i.handled) && AnnouncedFirst(i.handled)
            && -1 !in i.modules
  {
    LocalRunsKeep(steps);
    IdLifecycle(LocalRun(steps).handled);
  }

  /* ---- Frozen shapes ---- */

  lemma {:induction false} ReplayedShape(log: seq<Msg>, id: int) returns (j: nat)
    requires WellNumbered(log) && id in Replay(log)
    ensures j < |log| && log[j].Added? && log[j].id == id
    ensures Replay(log)[id] == Shape(log[j].name, FrozenAll(log[j].properties))
    decreases |log|
  {
    var n := |log| - 1;
    if log[n].Added? && log[n].id == id {
      j := n;
    } else {
      assert Replay(log) == ReplayOne(Replay(log[..n]), log[n]);
      j := ReplayedShape(log[..n], id);
    }
  }

  /** Through every run of registrations, updates, applies and replication, a module has the name,
      property names, types and flags, and the read-only values, of its one announcement. */
  lemma ShapesNeverChange(steps: seq<LocalStep>, id: int) returns (j: nat)
    requires id in LocalRun(steps).modules
    ensures var i := LocalRun(steps);
            && j < |i.handled| && i.handled[j].Added? && i.handled[j].id == id
            && i.modules[id].name == i.handled[j].name
            && |i.modules[id].properties| == |i.handled[j].properties|
            && forall k :: 0 <= k < |i.modules[id].properties| ==>
                 var p, q := i.modules[id].properties[k], i.handled[j].properties[k];
                 p.kind == q.kind && p.name == q.name && p.readOnly == q.readOnly && (q.readOnly ==> p.value == q.value)
  {
    LocalRunsKeep(steps);
    var i := LocalRun(steps);
    assert id in TableOf(i.modules) && TableOf(i.modules)[id] == ShapeOf(i.modules[id]);
    j := ReplayedShape(i.handled, id);
    var ps, qs := i.modules[id].properties, i.handled[j].properties;
    assert FrozenAll(ps) == FrozenAll(qs);
    forall k | 0 <= k < |ps| ensures Frozen(ps[k]) == Frozen(qs[k]) {
      assert FrozenAll(ps)[k] == FrozenAll(qs)[k];
    }
  }

  /* ---- When initialisation completes does not show ---- */

  function NoInit(ts: seq<Task>): seq<Task> {
    if ts == [] then []
    else (if ts[0].TInit? then [] else [ts[0]]) + NoInit(ts[1..])
  }

  lemma {:induction false} NoInitConcat(a: seq<Task>, b: seq<Task>)
    ensures NoInit(a + b) == NoInit(a) + NoInit(b)
  {
    if a == [] {
      assert a + b == b;
    } else {
      NoInitConcat(a[1..], b);
      var head := if a[0].TInit? then [] else [a[0]];
      assert (a + b)[0] == a[0] && (a + b)[1..] == a[1..] + b;
      assert NoInit(a + b) == head + NoInit(a[1..] + b);
      assert head + (NoInit(a[1..]) + NoInit(b)) == head + NoInit(a[1..]) + NoInit(b);
    }
  }

  /** The process without anything that concerns initialisation. */
  function Visible(i: Inst): Inst {
    i.(decided := None, mode := None, queue := i.handled, sent := [], tasks := NoInit(i.tasks))
  }

  predicate IsInit(i: Inst, st: LocalStep) {
    (st.App? && st.app.Decide?) || (st.Loop? && i.tasks != [] && i.tasks[0].TInit?)
  }

  lemma VisibleTask(i: Inst, t: Task)
    requires !t.TInit?
    ensures Visible(RunTask(i, t).0) == RunTask(Visible(i), t).0
  {}

  lemma VisibleRun(i: Inst)
    requires i.tasks != [] && !i.tasks[0].TInit?
    ensures Visible(i).tasks != [] && Visible(RunHead(i).0) == RunHead(Visible(i)).0
  {
    var j := i.(tasks := i.tasks[1..]);
    assert NoInit(i.tasks) == [i.tasks[0]] + NoInit(i.tasks[1..]);
    assert Visible(i).(tasks := Visible(i).tasks[1..]) == Visible(j);
    VisibleTask(j, i.tasks[0]);
  }

  lemma VisiblePost(i: Inst, t: Task)
    requires !t.TInit?
    ensures Visible(Post(i, t)) == Post(Visible(i), t)
  {
    NoInitConcat(i.tasks, [t]);
    assert [t][1..] == [];
  }

  lemma VisibleApp(i: Inst, e: AppEvent)
    requires Enabled(i, e) && !e.Decide? && (forall t :: t in i.calling ==> i.calling[t].TSend?)
    ensures Enabled(Visible(i), e) && Visible(AppStep(i, e)) == AppStep(Visible(i), e)
  {
    match e
    case AppRegister(m) => VisiblePost(i, TRegister(m, Own));
    case AppUnregister(id) => VisiblePost(i, TUnregister(id));
    case AppSave(t, id, ups) => VisiblePost(i, TSave(id, ups));
    case AppSend(t) => VisiblePost(i, i.calling[t]);
    case CallbackUnregister(id) =>
    case CallbackUpdate(id, ups) =>
  }

  lemma VisibleStep(i: Inst, st: LocalStep)
    requires LocalInv(i)
    ensures IsInit(i, st) ==> Visible(Local(i, st)) == Visible(i)
    ensures !IsInit(i, st) && Possible(i, st) ==> Possible(Visible(i), st) && Visible(Local(i, st)) == Local(Visible(i), st)
  {
    if Possible(i, st) {
      match st
      case App(e) =>
        if e.Decide? {
          NoInitConcat(i.tasks, [TInit(e.hostMode)]);
          assert [TInit(e.hostMode)][1..] == [];
        } else { VisibleApp(i, e); }
      case Arrive(t) => VisiblePost(i, t);
      case Loop =>
        if i.tasks[0].TInit? {
          assert NoInit(i.tasks) == NoInit(i.tasks[1..]);
        } else { VisibleRun(i); }
    }
  }

  /** The steps of a run that do something and do not concern initialisation. */
  function Work(steps: seq<LocalStep>): seq<LocalStep> {
    if steps == [] then []
    else
      var n := |steps| - 1;
      var i := LocalRun(steps[..n]);
      Work(steps[..n]) + if IsInit(i, steps[n]) || !Possible(i, steps[n]) then [] else [steps[n]]
  }

  lemma {:induction false} WorkDecides(steps: seq<LocalStep>)
    ensures Visible(LocalRun(steps)) == LocalRun(Work(steps))
    decreases |steps|
  {
    if steps != [] {
      var n := |steps| - 1;
      var i := LocalRun(steps[..n]);
      WorkDecides(steps[..n]);
      LocalRunsKeep(steps[..n]);
      VisibleStep(i, steps[n]);
      var w := Work(steps[..n]);
      assert (w + [steps[n]])[..|w|] == w;
      assert w + [] == w;
    } else {
      assert Visible(FRESH) == FRESH;
    }
  }

  /** Two runs that do the same work, whenever and with whatever outcome the connection attempt
      ends in each, have the same modules, made the same callbacks and handled the same messages;
      once both are initialised they have sent the same stream. */
  lemma {:induction false} InitialisationIsInvisible(a: seq<LocalStep>, b: seq<LocalStep>)
    requires Work(a) == Work(b)
    ensures var i, j := LocalRun(a), LocalRun(b);
            && i.modules == j.modules && i.calls == j.calls && i.handled == j.handled
            && (i.mode.Some? && j.mode.Some? ==> i.sent == j.sent)
  {
    WorkDecides(a);
    WorkDecides(b);
    OutputIsOk(a);
    OutputIsOk(b);
    SameOutput(LocalRun(a), LocalRun(b), LocalRun(Work(a)));
  }

  lemma {:induction false} OutputIsOk(steps: seq<LocalStep>)
    ensures OutputOk(LocalRun(steps))
  {
    LocalRunsKeep(steps);
  }

  lemma SameOutput(i: Inst, j: Inst, k: Inst)
    requires Visible(i) == k && Visible(j) == k && OutputOk(i) && OutputOk(j)
    ensures i.modules == j.modules && i.calls == j.calls && i.handled == j.handled
    ensures i.mode.Some? && j.mode.Some? ==> i.sent == j.sent
  {
    assert i.modules == k.modules == j.modules;
    assert i.handled == k.queue == j.handled;
    assert i.calls == k.calls == j.calls;
    if i.mode.Some? && j.mode.Some? {
      assert i.handled == i.sent + [] == i.sent;
      assert j.handled == j.sent + [] == j.sent;
    }
  }
}
