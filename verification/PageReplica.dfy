/** A web page connected to the host of a network run: the host pushes every message it handles to the
    page, the answer to the page's load request enters the same stream at the loop step that computed
    it, and the page folds what it reads into its copy of the table. The user edits and submits. */
module PageReplica {
  import opened Model
  import opened Instance
  import opened Network
  import opened NetworkInvariant
  import opened Syncs
  import opened Browser

  /** `from` is how many messages the host had pushed before the page connected; the page has read
      `stream[..read]`. */
  datatype Session = Session(sys: Sys, open: bool, from: nat, stream: seq<Item>, read: nat, page: Replica)

  const BEFORE := Session(START, false, 0, [], 0, map[])

  /** Answers to load requests of other pages do not enter this page's stream; `mine` says whose an
      answer given in this step is. */
  datatype PageEvent =
    | Happens(event: Event, mine: bool)
    | Connect
    | Receive
    | Disconnect
    | Edit(id: int, prop: nat, text: string)
    | Click(id: int, prop: nat)              // a button, a switch that sends itself, or a Send button
    | Submit(id: int)                        // the Apply button of a module

  function Pushes(ms: seq<Msg>): seq<Item> {
    seq(|ms|, i requires 0 <= i < |ms| => Push(ms[i]))
  }

  function NewItems(i: Inst, j: Inst, mine: bool): seq<Item> {
    if |i.sent| > |j.sent| then []
    else Pushes(j.sent[|i.sent|..])
         + if mine && |i.replies| < |j.replies| then [List(j.replies[|i.replies|].modules)] else []
  }

  ghost function Advance(s: Session, e: Event, mine: bool): Session {
    var z := Step(s.sys, e);
    s.(sys := z, stream := if s.open then s.stream + NewItems(s.sys.host, z.host, mine) else s.stream)
  }

  ghost function PageStep(s: Session, e: PageEvent): Session {
    match e
    case Happens(event, mine) => Advance(s, event, mine)
    case Connect =>
      if !s.open && s.sys.host.mode == Some(true) then s.(open := true, from := |s.sys.host.sent|) else s
    case Receive =>
      if s.read < |s.stream| then s.(page := See(s.page, s.stream[s.read]), read := s.read + 1) else s
    case Disconnect => s.(open := false, stream := [], read := 0, page := map[])
    case Edit(id, k, text) => s.(page := Edited(s.page, id, k, text))
    case Click(id, k) =>
      if Operates(s, e) then Advance(s, Request(s, e), false).(page := WithView(s.page, id, k, Clicked(s.page[id].widgets[k]))) else s
    case Submit(id) => if Operates(s, e) then Advance(s, Request(s, e), false) else s
  }

  /** The user operates something on the page that sends. */
  predicate Operates(s: Session, e: PageEvent) {
    match e
    case Click(id, k) => s.open && HasView(s.page, id, k) && SendsItself(s.page[id].widgets[k].kind)
    case Submit(id) => s.open && id in s.page
    case _ => false
  }

  /** What is sent then: the one property, or those that wait for the Apply button. */
  function Sent(s: Session, e: PageEvent): seq<Update>
    requires Operates(s, e)
  {
    if e.Click? then
      var w := s.page[e.id].widgets[e.prop];
      [Update(w.id, GetValue(Clicked(w)))]
    else BatchOf(s.page[e.id].widgets)
  }

  function Request(s: Session, e: PageEvent): Event
    requires Operates(s, e)
  {
    BrowserApply(e.id, Sent(s, e))
  }

  ghost function PageRun(es: seq<PageEvent>): Session {
    if es == [] then BEFORE else PageStep(PageRun(es[..|es| - 1]), es[|es| - 1])
  }

  /** What a step of the session does in the network: one event, or none. */
  ghost function NetEvent(s: Session, e: PageEvent): Option<Event> {
    match e
    case Happens(event, _) => Some(event)
    case _ => if Operates(s, e) then Some(Request(s, e)) else None
  }

  /** What happened in the network meanwhile. */
  ghost function NetEvents(es: seq<PageEvent>): seq<Event> {
    if es == [] then []
    else
      var n := |es| - 1;
      var e := NetEvent(PageRun(es[..n]), es[n]);
      NetEvents(es[..n]) + if e.Some? then [e.value] else []
  }

  lemma NetStep(s: Session, e: PageEvent)
    ensures PageStep(s, e).sys == if NetEvent(s, e).Some? then Step(s.sys, NetEvent(s, e).value) else s.sys
  {}

  lemma {:induction false} NetOf(es: seq<PageEvent>)
    ensures PageRun(es).sys == Run(NetEvents(es))
    decreases |es|
  {
    if es != [] {
      var n := |es| - 1;
      var s := PageRun(es[..n]);
      NetOf(es[..n]);
      NetStep(s, es[n]);
      if NetEvent(s, es[n]).Some? {
        RunNext(NetEvents(es[..n]), NetEvent(s, es[n]).value);
      } else {
        assert NetEvents(es[..n]) + [] == NetEvents(es[..n]);
      }
    }
  }

  /** What a page holds that read these items and nothing before them. */
  function SeeAll(items: seq<Item>): Replica {
    if items == [] then map[] else See(SeeAll(items[..|items| - 1]), items[|items| - 1])
  }

  function Pushed(items: seq<Item>): seq<Msg> {
    if items == [] then []
    else Pushed(items[..|items| - 1]) + if items[|items| - 1].Push? then [items[|items| - 1].msg] else []
  }

  /* ---- Outlines: a table without its values ---- */

  datatype Outline = Outline(name: string, views: seq<Widget>)

  /** Ids, types and captions of property views. */
  function Plan(ws: seq<Widget>): seq<Widget> {
    seq(|ws|, i requires 0 <= i < |ws| => ws[i].(shown := ""))
  }

  function PageOutline(r: Replica): map<int, Outline> {
    map id | id in r :: Outline(r[id].name, Plan(r[id].widgets))
  }

  function TableOutline(t: Table): map<int, Outline> {
    map id | id in t :: Outline(t[id].name, Plan(Widgets(t[id].properties)))
  }

  function Follow(o: map<int, Outline>, m: Msg): map<int, Outline> {
    match m
    case Added(id, name, ps) => o[id := Outline(name, Plan(Widgets(ps)))]
    case Removed(id) => o - {id}
    case Updated(_, _) => o
  }

  lemma {:induction false} FrozenPlan(ps: seq<Property>)
    ensures Plan(Widgets(FrozenAll(ps))) == Plan(Widgets(ps))
    decreases |ps|
  {
    if ps != [] {
      var n := |ps| - 1;
      FrozenPlan(ps[..n]);
      assert FrozenAll(ps)[..n] == FrozenAll(ps[..n]);
      PlanOfNext(Widgets(ps[..n]), Widgets(FrozenAll(ps)[..n]), ps[n]);
    }
  }

  lemma PlanOfNext(ws: seq<Widget>, vs: seq<Widget>, p: Property)
    requires Plan(ws) == Plan(vs)
    ensures Plan(AddWidget(vs, Frozen(p))) == Plan(AddWidget(ws, p))
  {
    assert |Plan(ws)| == |ws| && |Plan(vs)| == |vs|;
    if KnownType(p) {
      var w := NewWidget(|ws|, FromId(p.kind).value, p.name, p.value);
      assert Plan(ws + [w]) == Plan(ws) + [w.(shown := "")];
      var v := NewWidget(|vs|, FromId(p.kind).value, p.name, Frozen(p).value);
      assert Plan(vs + [v]) == Plan(vs) + [v.(shown := "")];
    }
  }

  lemma PageFollows(r: Replica, m: Msg)
    ensures PageOutline(See(r, Push(m))) == Follow(PageOutline(r), m)
  {
    if m.Updated? && m.id in r {
      assert Plan(ShowAll(r[m.id].widgets, m.updates)) == Plan(r[m.id].widgets);
    }
  }

  lemma TableFollows(t: Table, m: Msg)
    ensures TableOutline(ReplayOne(t, m)) == Follow(TableOutline(t), m)
  {
    if m.Added? { FrozenPlan(m.properties); }
  }

  lemma ListedOutline(r: Replica, ms: map<int, Module>, id: int)
    requires id in ms
    ensures var q := See(r, List(ms)); id in q && Outline(q[id].name, Plan(q[id].widgets)) == TableOutline(TableOf(ms))[id]
  {
    FrozenPlan(ms[id].properties);
  }

  lemma ListedKeys(r: Replica, ms: map<int, Module>)
    ensures See(r, List(ms)).Keys == r.Keys + ms.Keys
    ensures forall id :: id in r && id !in ms ==> See(r, List(ms))[id] == r[id]
  {}

  lemma PageLists(r: Replica, ms: map<int, Module>)
    ensures PageOutline(See(r, List(ms))) == PageOutline(r) + TableOutline(TableOf(ms))
  {
    var q, o := See(r, List(ms)), TableOutline(TableOf(ms));
    ListedKeys(r, ms);
    assert o.Keys == ms.Keys;
    forall id | id in q ensures Outline(q[id].name, Plan(q[id].widgets)) == if id in o then o[id] else PageOutline(r)[id] {
      if id in ms { ListedOutline(r, ms, id); }
    }
  }

  ghost predicate Within(o: map<int, Outline>, o': map<int, Outline>) {
    forall id :: id in o ==> id in o' && o[id] == o'[id]
  }

  /* ---- A stream that tells the host's messages and answers in their order ---- */

  ghost predicate AnswerOk(log: seq<Msg>, k: nat, ms: map<int, Module>) {
    k <= |log| && TableOf(ms) == Replay(log[..k])
  }

  /** Answers are what the host's table was after the messages that precede them. */
  ghost predicate Faithful(log: seq<Msg>, from: nat, items: seq<Item>) {
    && from <= |log| && log[from..] == Pushed(items)
    && forall x :: 0 <= x < |items| && items[x].List? ==> AnswerOk(log, from + |Pushed(items[..x])|, items[x].modules)
  }

  lemma {:induction false} PushedPrefix(items: seq<Item>, n: nat)
    requires n <= |items|
    ensures Pushed(items[..n]) <= Pushed(items)
    decreases |items|
  {
    if n < |items| {
      PushedPrefix(items[..|items| - 1], n);
      assert items[..|items| - 1][..n] == items[..n];
    } else {
      assert items[..n] == items;
    }
  }

  lemma PushedNext(items: seq<Item>, e: Item)
    ensures Pushed(items + [e]) == Pushed(items) + if e.Push? then [e.msg] else []
  {
    assert (items + [e])[..|items|] == items;
  }

  ghost predicate Answered(items: seq<Item>) {
    exists x :: 0 <= x < |items| && items[x].List?
  }

  /** Where a page that read the first n items stands in the host's log. */
  function Position(from: nat, items: seq<Item>, n: nat): nat
    requires n <= |items|
  {
    from + |Pushed(items[..n])|
  }

  lemma NextRead(log: seq<Msg>, from: nat, items: seq<Item>, n: nat)
    requires Faithful(log, from, items) && n < |items|
    ensures items[..n + 1] == items[..n] + [items[n]] && items[..n + 1][..n] == items[..n]
    ensures Position(from, items, n) <= Position(from, items, n + 1) <= |log|
    ensures items[n].Push? ==> Position(from, items, n) < |log| && log[Position(from, items, n)] == items[n].msg
                               && Position(from, items, n + 1) == Position(from, items, n) + 1
    ensures items[n].List? ==> Position(from, items, n + 1) == Position(from, items, n)
  {
    PushedPrefix(items, n + 1);
    PushedPrefix(items, n);
    assert items[..n + 1] == items[..n] + [items[n]];
    PushedNext(items[..n], items[n]);
    if items[n].Push? {
      var k := |Pushed(items[..n])|;
      assert Pushed(items[..n + 1])[k] == items[n].msg;
      assert log[from..][k] == log[from + k];
    }
  }

  lemma AnsweredNext(items: seq<Item>, e: Item)
    ensures Answered(items + [e]) <==> Answered(items) || e.List?
  {
    var more := items + [e];
    assert more[|items|] == e;
    assert forall x :: 0 <= x < |items| ==> more[x] == items[x];
  }

  /** The page reads what the host handled next. */
  lemma ReadPush(log: seq<Msg>, k: nat, r: Replica)
    requires k < |log|
    ensures var o, t := PageOutline(r), TableOutline(Replay(log[..k]));
            var o', t' := PageOutline(See(r, Push(log[k]))), TableOutline(Replay(log[..k + 1]));
            (Within(o, t) ==> Within(o', t')) && (o == t ==> o' == t')
  {
    PageFollows(r, log[k]);
    assert log[..k + 1] == log[..k] + [log[k]];
    ReplayAppend(map[], log[..k], log[k]);
    TableFollows(Replay(log[..k]), log[k]);
  }

  lemma ReadList(t: Table, ms: map<int, Module>, r: Replica)
    requires TableOf(ms) == t && Within(PageOutline(r), TableOutline(t))
    ensures PageOutline(See(r, List(ms))) == TableOutline(t)
  {
    PageLists(r, ms);
    MergeWithin(PageOutline(r), TableOutline(t));
  }

  lemma MergeWithin(o: map<int, Outline>, t: map<int, Outline>)
    requires Within(o, t)
    ensures o + t == t
  {
    var u := o + t;
    forall id | id in u ensures id in t && u[id] == t[id] {
      assert id in t || id in o;
    }
    assert u.Keys == t.Keys;
  }

  /** The page shows modules of the host's table after k messages, and all of them once answered. */
  ghost predicate ShowsAt(log: seq<Msg>, k: nat, r: Replica, answered: bool)
    requires k <= |log|
  {
    var here := TableOutline(Replay(log[..k]));
    Within(PageOutline(r), here) && (answered ==> PageOutline(r) == here)
  }

  lemma {:induction false} PageAfter(log: seq<Msg>, from: nat, items: seq<Item>, n: nat)
    requires Faithful(log, from, items) && n <= |items|
    ensures Position(from, items, n) <= |log|
    ensures ShowsAt(log, Position(from, items, n), SeeAll(items[..n]), Answered(items[..n]))
  {
    if n > 0 {
      PageAfter(log, from, items, n - 1);
      NextRead(log, from, items, n - 1);
      if items[n - 1].List? { AnswerAt(log, from, items, n - 1); }
      PageNext(log, from, items, n - 1);
    }
  }

  lemma AnswerAt(log: seq<Msg>, from: nat, items: seq<Item>, n: nat)
    requires Faithful(log, from, items) && n < |items| && items[n].List?
    ensures AnswerOk(log, Position(from, items, n), items[n].modules)
  {}

  lemma PageNext(log: seq<Msg>, from: nat, items: seq<Item>, n: nat)
    requires n < |items| && Position(from, items, n) <= Position(from, items, n + 1) <= |log|
    requires items[n].Push? ==> Position(from, items, n) < |log| && log[Position(from, items, n)] == items[n].msg
                                && Position(from, items, n + 1) == Position(from, items, n) + 1
    requires items[n].List? ==> Position(from, items, n + 1) == Position(from, items, n)
                                && AnswerOk(log, Position(from, items, n), items[n].modules)
    requires ShowsAt(log, Position(from, items, n), SeeAll(items[..n]), Answered(items[..n]))
    ensures ShowsAt(log, Position(from, items, n + 1), SeeAll(items[..n + 1]), Answered(items[..n + 1]))
  {
    assert items[..n + 1] == items[..n] + [items[n]];
    AnsweredNext(items[..n], items[n]);
    SeeNext(items, n);
    if items[n].Push? {
      ShowsNextPush(log, Position(from, items, n), SeeAll(items[..n]), Answered(items[..n]));
    } else {
      ShowsNextList(log, Position(from, items, n), SeeAll(items[..n]), Answered(items[..n]), items[n].modules);
    }
  }

  lemma ShowsNextPush(log: seq<Msg>, k: nat, r: Replica, answered: bool)
    requires k < |log| && ShowsAt(log, k, r, answered)
    ensures ShowsAt(log, k + 1, See(r, Push(log[k])), answered)
  {
    ReadPush(log, k, r);
  }

  lemma ShowsNextList(log: seq<Msg>, k: nat, r: Replica, answered: bool, ms: map<int, Module>)
    requires k <= |log| && ShowsAt(log, k, r, answered) && AnswerOk(log, k, ms)
    ensures ShowsAt(log, k, See(r, List(ms)), true)
  {
    ReadList(Replay(log[..k]), ms, r);
  }

  /* ---- What the host puts into the stream ---- */

  /** How a step of the network moves the host. */
  ghost function HostMove(s: Sys, e: Event): Move
    requires Can(s, e)
  {
    if e.HostApp? then AppMove(s.host, e.app)
    else if e.HostRun? then Runs
    else if PostedBy(s, e) == [] then Stays
    else Posts(PostedBy(s, e)[0])
  }

  lemma HostMoves(s: Sys, e: Event)
    requires Can(s, e)
    ensures Moves(s.host, Do(s, e).host, HostMove(s, e))
  {
    if e.HostApp? {
      AppMoves(s.host, e.app);
    } else if e.HostRun? {
      RunsHead(s);
    } else {
      OthersPost(s, e);
      assert PostedBy(s, e) == [] || PostedBy(s, e) == [PostedBy(s, e)[0]];
      assert s.host.tasks + [] == s.host.tasks;
    }
  }

  ghost predicate Outputs(i: Inst, j: Inst) {
    && i.handled <= j.handled && i.sent <= j.sent && j.handled[|i.handled|..] == j.sent[|i.sent|..]
    && |i.replies| <= |j.replies| <= |i.replies| + 1 && j.mode == i.mode
    && (|i.replies| < |j.replies| ==> j.handled == i.handled && j.replies[|i.replies|].modules == i.modules == j.modules)
  }

  /** Once initialised, a process sends what it handles; an answer is its table at that step. */
  lemma MoveOutputs(i: Inst, j: Inst, m: Move)
    requires Moves(i, j, m) && i.mode.Some? && DecisionOk(i) && -1 !in i.modules
    ensures Outputs(i, j)
  {
    match m
    case Stays =>
    case Posts(_) =>
    case Calls(e) => CallOutputs(i, e);
    case Runs => LoopOutputs(i);
  }

  lemma CallOutputs(i: Inst, e: AppEvent)
    requires Enabled(i, e) && IsCallback(e) && i.mode.Some?
    ensures Outputs(i, AppStep(i, e))
  {
    var m := CallbackMsg(e);
    assert (i.handled + [m])[|i.handled|..] == [m] == (i.sent + [m])[|i.sent|..];
  }

  lemma LoopOutputs(i: Inst)
    requires i.tasks != [] && i.mode.Some? && DecisionOk(i) && -1 !in i.modules
    ensures Outputs(i, RunHead(i).0)
  {
    assert !i.tasks[0].TInit?;
  }

  lemma {:induction false} PushedPushes(items: seq<Item>, ms: seq<Msg>)
    ensures Pushed(items + Pushes(ms)) == Pushed(items) + ms
    decreases |ms|
  {
    if ms == [] {
      assert items + Pushes(ms) == items;
    } else {
      var n := |ms| - 1;
      PushedPushes(items, ms[..n]);
      assert items + Pushes(ms) == (items + Pushes(ms[..n])) + [Push(ms[n])];
      PushedNext(items + Pushes(ms[..n]), Push(ms[n]));
    }
  }

  lemma OldAnswer(log: seq<Msg>, from: nat, items: seq<Item>, log': seq<Msg>, more: seq<Item>, x: nat)
    requires Faithful(log, from, items) && log <= log' && items <= more && x < |items| && items[x].List?
    ensures more[x] == items[x] && AnswerOk(log', from + |Pushed(more[..x])|, more[x].modules)
  {
    var k := from + |Pushed(items[..x])|;
    assert more[..x] == items[..x];
    assert AnswerOk(log, k, items[x].modules);
    assert log'[..k] == log[..k];
  }

  lemma {:induction false} StaysFaithful(log: seq<Msg>, from: nat, items: seq<Item>, log': seq<Msg>, more: seq<Item>)
    requires Faithful(log, from, items) && log <= log' && items <= more && log'[from..] == Pushed(more)
    requires forall x :: |items| <= x < |more| && more[x].List? ==> AnswerOk(log', from + |Pushed(more[..x])|, more[x].modules)
    ensures Faithful(log', from, more)
  {
    forall x | 0 <= x < |items| && more[x].List? ensures AnswerOk(log', from + |Pushed(more[..x])|, more[x].modules) {
      OldAnswer(log, from, items, log', more, x);
    }
  }

  lemma FaithfulPushes(log: seq<Msg>, from: nat, items: seq<Item>, ms: seq<Msg>)
    requires Faithful(log, from, items)
    ensures Faithful(log + ms, from, items + Pushes(ms))
  {
    PushedPushes(items, ms);
    assert (log + ms)[from..] == log[from..] + ms;
    StaysFaithful(log, from, items, log + ms, items + Pushes(ms));
  }

  lemma FaithfulAnswer(log: seq<Msg>, from: nat, items: seq<Item>, listed: map<int, Module>)
    requires Faithful(log, from, items) && TableOf(listed) == Replay(log)
    ensures Faithful(log, from, items + [List(listed)])
  {
    PushedNext(items, List(listed));
    var more := items + [List(listed)];
    assert log[..|log|] == log && from + |Pushed(items)| == |log| && more[..|items|] == items;
    assert AnswerOk(log, |log|, listed);
    StaysFaithful(log, from, items, log, more);
  }

  lemma HostKeepsFaithful(i: Inst, j: Inst, mine: bool, from: nat, items: seq<Item>)
    requires Outputs(i, j) && TableOf(i.modules) == Replay(i.handled) && Faithful(i.handled, from, items)
    ensures Faithful(j.handled, from, items + NewItems(i, j, mine))
  {
    var ms := j.sent[|i.sent|..];
    assert j.handled == i.handled + ms;
    FaithfulPushes(i.handled, from, items, ms);
    assert items + (Pushes(ms) + []) == items + Pushes(ms);
    if mine && |i.replies| < |j.replies| {
      assert ms == [] && items + Pushes(ms) == items;
      FaithfulAnswer(j.handled, from, items, i.modules);
      assert Pushes(ms) + [List(i.modules)] == [List(i.modules)];
    }
  }

  /* ---- Over runs ---- */

  ghost predicate StreamOk(h: Inst, open: bool, from: nat, stream: seq<Item>) {
    if open then h.mode == Some(true) && Faithful(h.handled, from, stream) else stream == []
  }

  /** Edits leave the outline alone. */
  ghost predicate ReadOk(stream: seq<Item>, read: nat, page: Replica) {
    read <= |stream| && PageOutline(page) == PageOutline(SeeAll(stream[..read]))
  }

  ghost predicate SessionOk(s: Session) {
    StreamOk(s.sys.host, s.open, s.from, s.stream) && ReadOk(s.stream, s.read, s.page)
  }

  lemma ReadGrows(stream: seq<Item>, more: seq<Item>, read: nat, page: Replica)
    requires ReadOk(stream, read, page)
    ensures ReadOk(stream + more, read, page)
  {
    assert (stream + more)[..read] == stream[..read];
  }

  lemma StreamKeeps(s: Sys, e: Event, mine: bool, open: bool, from: nat, stream: seq<Item>)
    requires LocalInv(s.host) && StreamOk(s.host, open, from, stream)
    ensures StreamOk(Step(s, e).host, open, from, if open then stream + NewItems(s.host, Step(s, e).host, mine) else stream)
  {
    if open {
      if Can(s, e) {
        NoModuleIsUnknown(s.host);
        HostMoves(s, e);
        MoveOutputs(s.host, Do(s, e).host, HostMove(s, e));
        HostKeepsFaithful(s.host, Do(s, e).host, mine, from, stream);
      } else {
        NothingNew(s.host, mine, stream);
      }
    }
  }

  lemma NothingNew(i: Inst, mine: bool, stream: seq<Item>)
    ensures NewItems(i, i, mine) == [] && stream + NewItems(i, i, mine) == stream
  {}

  lemma AdvanceKeeps(s: Session, e: Event, mine: bool)
    requires LocalInv(s.sys.host) && SessionOk(s)
    ensures SessionOk(Advance(s, e, mine))
  {
    StreamKeeps(s.sys, e, mine, s.open, s.from, s.stream);
    if s.open { ReadGrows(s.stream, NewItems(s.sys.host, Step(s.sys, e).host, mine), s.read, s.page); }
  }

  lemma ConnectKeeps(s: Session)
    requires OutputOk(s.sys.host) && SessionOk(s)
    ensures SessionOk(PageStep(s, Connect))
  {
    if !s.open && s.sys.host.mode == Some(true) {
      assert s.sys.host.sent + [] == s.sys.host.sent;
      assert s.sys.host.handled[|s.sys.host.sent|..] == [];
    }
  }

  lemma SeeNext(stream: seq<Item>, read: nat)
    requires read < |stream|
    ensures SeeAll(stream[..read + 1]) == See(SeeAll(stream[..read]), stream[read])
  {
    assert stream[..read + 1][..read] == stream[..read];
  }

  lemma SameOutlineSees(r: Replica, q: Replica, e: Item)
    requires PageOutline(r) == PageOutline(q)
    ensures PageOutline(See(r, e)) == PageOutline(See(q, e))
  {
    if e.Push? {
      PageFollows(r, e.msg);
      PageFollows(q, e.msg);
    } else {
      PageLists(r, e.modules);
      PageLists(q, e.modules);
    }
  }

  lemma EditsKeepOutline(r: Replica, id: int, k: nat, text: string)
    ensures PageOutline(Edited(r, id, k, text)) == PageOutline(r)
  {
    if HasView(r, id, k) { ViewKeepsOutline(r, id, k, Edited(r, id, k, text)[id].widgets[k]); }
  }

  lemma ViewKeepsOutline(r: Replica, id: int, k: nat, w: Widget)
    requires HasView(r, id, k) && w.(shown := "") == r[id].widgets[k].(shown := "")
    ensures PageOutline(WithView(r, id, k, w)) == PageOutline(r)
  {
    assert Plan(WithView(r, id, k, w)[id].widgets) == Plan(r[id].widgets);
  }

  lemma OperatingKeeps(s: Session, e: PageEvent)
    requires LocalInv(s.sys.host) && SessionOk(s) && Operates(s, e)
    ensures SessionOk(PageStep(s, e))
  {
    AdvanceKeeps(s, Request(s, e), false);
    if e.Click? { ViewKeepsOutline(s.page, e.id, e.prop, Clicked(s.page[e.id].widgets[e.prop])); }
  }

  lemma SessionKeeps(s: Session, e: PageEvent)
    requires LocalInv(s.sys.host) && SessionOk(s)
    ensures SessionOk(PageStep(s, e))
  {
    match e
    case Happens(event, mine) => AdvanceKeeps(s, event, mine);
    case Connect => ConnectKeeps(s);
    case Receive =>
      if s.read < |s.stream| {
        SeeNext(s.stream, s.read);
        SameOutlineSees(s.page, SeeAll(s.stream[..s.read]), s.stream[s.read]);
      }
    case Disconnect =>
    case Edit(id, k, text) => EditsKeepOutline(s.page, id, k, text);
    case _ => if Operates(s, e) { OperatingKeeps(s, e); }
  }

  lemma {:induction false} SessionsKeep(es: seq<PageEvent>)
    ensures SessionOk(PageRun(es)) && LocalInv(PageRun(es).sys.host)
    decreases |es|
  {
    NetOf(es);
    RunsKeep(NetEvents(es));
    if es != [] {
      SessionsKeep(es[..|es| - 1]);
      SessionKeeps(PageRun(es[..|es| - 1]), es[|es| - 1]);
    }
  }

  lemma PageAt(s: Session)
    requires SessionOk(s) && s.open
    ensures s.read <= |s.stream| && Position(s.from, s.stream, s.read) <= |s.sys.host.handled|
    ensures ShowsAt(s.sys.host.handled, Position(s.from, s.stream, s.read), s.page, Answered(s.stream[..s.read]))
  {
    PageAfter(s.sys.host.handled, s.from, s.stream, s.read);
  }

  /** Over every run of the network and after every prefix of its stream, whatever the user edits and
      submits: before the answer to its load request a page shows only modules that the host had at
      that point, each as it was announced; from the answer on it shows exactly the host's modules as
      of that point, its own and replicated ones, with their names and property views, whatever was
      announced or removed in between. */
  lemma {:induction false} PageShowsTheTable(es: seq<PageEvent>)
    ensures var s := PageRun(es);
            s.open ==>
              && s.read <= |s.stream| && Position(s.from, s.stream, s.read) <= |s.sys.host.handled|
              && ShowsAt(s.sys.host.handled, Position(s.from, s.stream, s.read), s.page, Answered(s.stream[..s.read]))
  {
    SessionsKeep(es);
    if PageRun(es).open { PageAt(PageRun(es)); }
  }

  /** A page that has its answer and has read all there is shows the host's table as it is now; one that
      is not connected shows nothing. */
  lemma {:induction false} PageCatchesUp(es: seq<PageEvent>)
    ensures var s := PageRun(es);
            && (!s.open ==> s.page == map[])
            && (s.open && Answered(s.stream) && s.read == |s.stream| ==> PageOutline(s.page) == TableOutline(TableOf(s.sys.host.modules)))
  {
    SessionsKeep(es);
    var s := PageRun(es);
    if s.open && Answered(s.stream) && s.read == |s.stream| {
      CaughtUp(s);
    } else if !s.open {
      NothingToShow(s.page);
    }
  }

  lemma CaughtUp(s: Session)
    requires SessionOk(s) && TableOk(s.sys.host) && s.open && Answered(s.stream) && s.read == |s.stream|
    ensures PageOutline(s.page) == TableOutline(TableOf(s.sys.host.modules))
  {
    PageAt(s);
    assert s.stream[..s.read] == s.stream;
    assert s.sys.host.handled[..|s.sys.host.handled|] == s.sys.host.handled;
  }

  lemma NothingToShow(page: Replica)
    requires PageOutline(page) == PageOutline(map[])
    ensures page == map[]
  {
    assert PageOutline(page).Keys == page.Keys && PageOutline(map[]).Keys == {};
  }

  /** The outline of the host's table: the same ids, and for each module its name and the views of its
      properties. */
  lemma OutlineMeans(ms: map<int, Module>, r: Replica)
    requires PageOutline(r) == TableOutline(TableOf(ms))
    ensures r.Keys == ms.Keys
    ensures forall id :: id in ms ==> r[id].name == ms[id].name && Plan(r[id].widgets) == Plan(Widgets(ms[id].properties))
  {
    assert PageOutline(r).Keys == r.Keys && TableOutline(TableOf(ms)).Keys == ms.Keys;
    forall id | id in ms ensures r[id].name == ms[id].name && Plan(r[id].widgets) == Plan(Widgets(ms[id].properties)) {
      assert PageOutline(r)[id] == TableOutline(TableOf(ms))[id];
      FrozenPlan(ms[id].properties);
    }
  }
}
