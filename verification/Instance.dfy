/** One SACS process as a value: its module table, its pre-initialisation queue and its task
    loop. `handled`, `sent`, `calls`, `replies` and `origins` are histories. */
module Instance {
  import opened Model

  /** Who asked for a registration: this process, or the module `remote` of another process. */
  datatype Origin = Own | Of(peer: nat, remote: int)

  datatype Task =
    | TInit(hostMode: bool)
    | TRegister(mod: Module, origin: Origin)
    | TUnregister(id: int)
    | TSave(id: int, updates: seq<Update>)
    | TSend(id: int, updates: seq<Update>)
    | TPass(apply: Apply)
    | TLoad

  /** A request to change properties of a module; `tag` numbers the browser request it stems from. */
  datatype Apply = Apply(id: int, updates: seq<Update>, tag: nat)

  /** The answer to a load request, and how many messages had been handled before it. */
  datatype Reply = Reply(at: nat, modules: map<int, Module>)

  datatype Inst = Inst(
    modules: map<int, Module>,
    origins: seq<Origin>,          // origins[id] for every id below the id counter
    decided: Option<bool>,         // what the connection attempt decided: Some(true) is host mode
    mode: Option<bool>,            // None until the loop has run the initialisation task
    queue: seq<Msg>,
    tasks: seq<Task>,
    calling: map<nat, Task>,       // threads inside UpdateProperties, between its two posts
    handled: seq<Msg>,
    sent: seq<Msg>,
    calls: seq<Apply>,
    replies: seq<Reply>)

  const FRESH := Inst(map[], [], None, None, [], [], map[], [], [], [], [])

  function Post(i: Inst, t: Task): Inst {
    i.(tasks := i.tasks + [t])
  }

  /* ---- What the loop does ---- */

  function Handle(i: Inst, m: Msg): Inst {
    var j := i.(handled := i.handled + [m]);
    if i.mode.None? then j.(queue := i.queue + [m]) else j.(sent := i.sent + [m])
  }

  function Initialize(i: Inst, hostMode: bool): Inst {
    i.(mode := Some(hostMode), sent := i.sent + i.queue, queue := [])
  }

  function Register(i: Inst, m: Module, o: Origin): Inst {
    var id := |i.origins|;
    Handle(i.(modules := i.modules[id := m], origins := i.origins + [o]), AddedMsg(id, m))
  }

  function Unregister(i: Inst, id: int): Inst {
    Handle(i.(modules := i.modules - {id}), Removed(id))
  }

  function Save(i: Inst, id: int, ups: seq<Update>): Inst {
    if id in i.modules then i.(modules := i.modules[id := UpdateModule(i.modules[id], ups)]) else i
  }

  function Pass(i: Inst, a: Apply): (Inst, Option<Apply>) {
    if a.id !in i.modules || a.updates == [] then (i, None)
    else
      var j := Save(i, a.id, a.updates);
      if i.modules[a.id].hasCallback then (j.(calls := i.calls + [a]), None) else (j, Some(a))
  }

  /** A load request is answered, and its message then falls through into apply handling,
      where it has no id (-1) and no property list. */
  function Load(i: Inst): (Inst, Option<Apply>) {
    Pass(i.(replies := i.replies + [Reply(|i.handled|, i.modules)]), Apply(-1, [], 0))
  }

  /** Runs a task; the second component is an apply to hand over to the proxy server. */
  function RunTask(i: Inst, t: Task): (Inst, Option<Apply>) {
    match t
    case TInit(hostMode) => (Initialize(i, hostMode), None)
    case TRegister(m, o) => (Register(i, m, o), None)
    case TUnregister(id) => (Unregister(i, id), None)
    case TSave(id, ups) => (Save(i, id, ups), None)
    case TSend(id, ups) => (Handle(i, Updated(id, ups)), None)
    case TPass(a) => Pass(i, a)
    case TLoad => Load(i)
  }

  function RunHead(i: Inst): (Inst, Option<Apply>)
    requires i.tasks != []
  {
    RunTask(i.(tasks := i.tasks[1..]), i.tasks[0])
  }

  /* ---- What the application and the connection attempt do ---- */

  datatype AppEvent =
    | Decide(hostMode: bool)
    | AppRegister(mod: Module)
    | AppUnregister(id: int)
    | AppSave(thread: nat, id: int, updates: seq<Update>)
    | AppSend(thread: nat)
    // made from inside a callback, that is on the loop thread, so run at once
    | CallbackUnregister(id: int)
    | CallbackUpdate(id: int, updates: seq<Update>)

  /** Ids that a registration returned to this process. */
  predicate Owned(i: Inst, id: int) {
    0 <= id < |i.origins| && i.origins[id].Own?
  }

  predicate Enabled(i: Inst, e: AppEvent) {
    match e
    case Decide(_) => i.decided.None?
    case AppRegister(_) => true
    case AppUnregister(id) => Owned(i, id)
    case AppSave(t, id, ups) => Owned(i, id) && t !in i.calling && NonNegative(ups)
    case AppSend(t) => t in i.calling
    case CallbackUnregister(id) => Owned(i, id)
    case CallbackUpdate(id, ups) => Owned(i, id) && NonNegative(ups)
  }

  function AppStep(i: Inst, e: AppEvent): Inst
    requires Enabled(i, e)
  {
    match e
    case Decide(hostMode) => Post(i.(decided := Some(hostMode)), TInit(hostMode))
    case AppRegister(m) => Post(i, TRegister(m, Own))
    case AppUnregister(id) => Post(i, TUnregister(id))
    case AppSave(t, id, ups) => Post(i, TSave(id, ups)).(calling := i.calling[t := TSend(id, ups)])
    case AppSend(t) => Post(i, i.calling[t]).(calling := i.calling - {t})
    case CallbackUnregister(id) => Unregister(i, id)
    case CallbackUpdate(id, ups) => Handle(Save(i, id, ups), Updated(id, ups))
  }

  /* ---- What every step keeps ---- */

  /** Nothing handled is lost or reordered by the queue, and the queue is empty once initialised. */
  predicate OutputOk(i: Inst) {
    && i.handled == i.sent + i.queue
    && (if i.mode.None? then i.sent == [] else i.queue == [])
  }

  /** The mode is decided once; only that decision reaches the loop, and once. */
  predicate DecisionOk(i: Inst) {
    && (i.decided.None? ==> i.mode.None?)
    && (i.mode.Some? ==> i.mode == i.decided)
    && (forall k :: 0 <= k < |i.tasks| && i.tasks[k].TInit? ==> i.mode.None? && i.decided == Some(i.tasks[k].hostMode))
    && (forall k, l :: 0 <= k < l < |i.tasks| && i.tasks[k].TInit? ==> !i.tasks[l].TInit?)
  }

  /** The table is exactly what the handled messages say it is. */
  predicate TableOk(i: Inst) {
    && TableOf(i.modules) == Replay(i.handled)
    && WellNumbered(i.handled)
    && NumAdds(i.handled) == |i.origins|
    && forall id :: id in i.modules ==> 0 <= id < |i.origins|
  }

  /** Ids in tasks were returned by a registration, or are the unknown id. */
  predicate TaskIdOk(i: Inst, t: Task) {
    match t
    case TUnregister(id) => id == -1 || 0 <= id < |i.origins|
    case TSave(id, _) => id == -1 || 0 <= id < |i.origins|
    case TSend(id, _) => id == -1 || 0 <= id < |i.origins|
    case _ => true
  }

  predicate TasksOk(i: Inst) {
    && (forall t <- i.tasks :: TaskIdOk(i, t))
    && (forall th :: th in i.calling ==> i.calling[th].TSend? && Owned(i, i.calling[th].id))
  }

  predicate LocalInv(i: Inst) {
    OutputOk(i) && DecisionOk(i) && TableOk(i) && TasksOk(i)
  }

  lemma HandleKeeps(i: Inst, m: Msg)
    requires OutputOk(i)
    ensures OutputOk(Handle(i, m))
  {
    var j := Handle(i, m);
    assert j.handled == j.sent + j.queue;
  }

  lemma TableOfStored(ms: map<int, Module>, id: int, m: Module)
    ensures TableOf(ms[id := m]) == TableOf(ms)[id := ShapeOf(m)]
  {}

  lemma RegisterTable(i: Inst, m: Module, o: Origin)
    requires TableOk(i)
    ensures TableOk(Register(i, m, o))
  {
    var id, j := |i.origins|, Register(i, m, o);
    TableOfStored(i.modules, id, m);
    LogAppend(i.handled, AddedMsg(id, m));
    ReplayAppend(map[], i.handled, AddedMsg(id, m));
    assert j.handled == i.handled + [AddedMsg(id, m)] && j.modules == i.modules[id := m];
  }

  lemma RegisterKeeps(i: Inst, m: Module, o: Origin)
    requires LocalInv(i)
    ensures LocalInv(Register(i, m, o))
  {
    RegisterTable(i, m, o);
    HandleKeeps(i.(modules := i.modules[|i.origins| := m], origins := i.origins + [o]), AddedMsg(|i.origins|, m));
    var j := Register(i, m, o);
    assert forall t <- j.tasks :: TaskIdOk(i, t);
  }

  lemma UnregisterTable(i: Inst, id: int)
    requires TableOk(i) && (id == -1 || 0 <= id < |i.origins|)
    ensures TableOk(Unregister(i, id))
  {
    var j := Unregister(i, id);
    LogAppend(i.handled, Removed(id));
    ReplayAppend(map[], i.handled, Removed(id));
    assert TableOf(j.modules) == TableOf(i.modules) - {id};
  }

  lemma UnregisterKeeps(i: Inst, id: int)
    requires LocalInv(i) && (id == -1 || 0 <= id < |i.origins|)
    ensures LocalInv(Unregister(i, id))
  {
    UnregisterTable(i, id);
    HandleKeeps(i.(modules := i.modules - {id}), Removed(id));
  }

  lemma SaveKeepsTable(i: Inst, id: int, ups: seq<Update>)
    ensures TableOf(Save(i, id, ups).modules) == TableOf(i.modules)
    ensures Save(i, id, ups).modules.Keys == i.modules.Keys
    ensures forall k :: k in i.modules ==> Save(i, id, ups).modules[k].hasCallback == i.modules[k].hasCallback
  {
    if id in i.modules { ShapeIsFrozen(i.modules[id], ups); }
  }

  lemma SaveKeeps(i: Inst, id: int, ups: seq<Update>)
    requires LocalInv(i)
    ensures LocalInv(Save(i, id, ups))
  {
    SaveKeepsTable(i, id, ups);
  }

  lemma SendTable(i: Inst, id: int, ups: seq<Update>)
    requires TableOk(i) && (id == -1 || 0 <= id < |i.origins|)
    ensures TableOk(Handle(i, Updated(id, ups)))
  {
    LogAppend(i.handled, Updated(id, ups));
    ReplayAppend(map[], i.handled, Updated(id, ups));
    var j := Handle(i, Updated(id, ups));
    assert j.handled == i.handled + [Updated(id, ups)] && j.modules == i.modules && j.origins == i.origins;
  }

  lemma {:induction false} SendKeeps(i: Inst, id: int, ups: seq<Update>)
    requires LocalInv(i) && (id == -1 || 0 <= id < |i.origins|)
    ensures LocalInv(Handle(i, Updated(id, ups)))
  {
    HandleKeeps(i, Updated(id, ups));
    SendTable(i, id, ups);
    SameTasks(i, Handle(i, Updated(id, ups)));
  }

  lemma SameTasks(i: Inst, j: Inst)
    requires DecisionOk(i) && TasksOk(i) && j.tasks == i.tasks && j.calling == i.calling && j.origins == i.origins
    requires j.decided == i.decided && j.mode == i.mode
    ensures DecisionOk(j) && TasksOk(j)
  {
    assert forall t <- j.tasks :: TaskIdOk(i, t);
  }

  lemma InitializeKeeps(i: Inst, hostMode: bool)
    requires LocalInv(i) && i.decided == Some(hostMode) && i.mode.None?
    requires forall t <- i.tasks :: !t.TInit?
    ensures LocalInv(Initialize(i, hostMode))
  {
    assert i.sent + i.queue == i.handled + [];
  }

  /** A load request changes nothing but the answers given: no module has the id -1. */
  lemma LoadIsARead(i: Inst)
    requires LocalInv(i)
    ensures Load(i) == (i.(replies := i.replies + [Reply(|i.handled|, i.modules)]), None)
  {}

  /** Unknown ids are inert: an unregistration, a save or an apply for -1 leaves the table alone. */
  lemma UnknownIdIsInert(i: Inst, a: Apply)
    requires LocalInv(i) && a.id == -1
    ensures Unregister(i, -1).modules == i.modules
    ensures Save(i, -1, a.updates) == i
    ensures Pass(i, a) == (i, None)
  {
    assert i.modules - {-1} == i.modules;
  }

  lemma {:induction false} TaskKeeps(i: Inst, t: Task)
    requires LocalInv(i) && TaskIdOk(i, t)
    requires t.TInit? ==> i.decided == Some(t.hostMode) && i.mode.None? && forall u <- i.tasks :: !u.TInit?
    ensures LocalInv(RunTask(i, t).0)
  {
    match t
    case TInit(hostMode) => InitializeKeeps(i, hostMode);
    case TRegister(m, o) => RegisterKeeps(i, m, o);
    case TUnregister(id) => UnregisterKeeps(i, id);
    case TSave(id, ups) => SaveKeeps(i, id, ups);
    case TSend(id, ups) => SendKeeps(i, id, ups);
    case TPass(a) => SaveKeeps(i, a.id, a.updates);
    case TLoad => LoadIsARead(i);
  }

  lemma PopKeeps(i: Inst)
    requires LocalInv(i) && i.tasks != []
    ensures LocalInv(i.(tasks := i.tasks[1..]))
    ensures TaskIdOk(i, i.tasks[0])
    ensures i.tasks[0].TInit? ==> i.decided == Some(i.tasks[0].hostMode) && i.mode.None?
                                  && forall u <- i.tasks[1..] :: !u.TInit?
  {
    var j := i.(tasks := i.tasks[1..]);
    forall t | t in j.tasks ensures TaskIdOk(j, t) {
      assert t in i.tasks && TaskIdOk(i, t);
    }
  }

  lemma {:induction false} RunHeadKeeps(i: Inst)
    requires LocalInv(i) && i.tasks != []
    ensures LocalInv(RunHead(i).0)
  {
    PopKeeps(i);
    TaskKeeps(i.(tasks := i.tasks[1..]), i.tasks[0]);
  }

  lemma PostKeeps(i: Inst, t: Task)
    requires LocalInv(i) && TaskIdOk(i, t) && !t.TInit?
    ensures LocalInv(Post(i, t))
  {}

  lemma DecideKeeps(i: Inst, hostMode: bool)
    requires LocalInv(i) && i.decided.None?
    ensures LocalInv(Post(i.(decided := Some(hostMode)), TInit(hostMode)))
  {}

  lemma {:induction false} AppStepKeeps(i: Inst, e: AppEvent)
    requires LocalInv(i) && Enabled(i, e)
    ensures LocalInv(AppStep(i, e))
  {
    match e
    case Decide(hostMode) => DecideKeeps(i, hostMode);
    case AppRegister(m) => PostKeeps(i, TRegister(m, Own));
    case AppUnregister(id) => PostKeeps(i, TUnregister(id));
    case AppSave(t, id, ups) => PostKeeps(i, TSave(id, ups));
    case AppSend(t) => PostKeeps(i, i.calling[t]);
    case CallbackUnregister(id) => UnregisterKeeps(i, id);
    case CallbackUpdate(id, ups) => SaveKeeps(i, id, ups); SendKeeps(Save(i, id, ups), id, ups);
  }

  lemma FreshIsOk()
    ensures LocalInv(FRESH)
  {
    assert TableOf(map[]) == map[];
  }

  /** A process whose connection attempt ends before anything else happens. */
  lemma Initializes(hostMode: bool)
    ensures Enabled(FRESH, Decide(hostMode)) && AppStep(FRESH, Decide(hostMode)).tasks != []
    ensures RunHead(AppStep(FRESH, Decide(hostMode))) == (FRESH.(decided := Some(hostMode), mode := Some(hostMode)), None)
  {
    var i := AppStep(FRESH, Decide(hostMode));
    assert i.tasks == [TInit(hostMode)] && i.tasks[1..] == [] && i.sent + i.queue == [];
  }
}
