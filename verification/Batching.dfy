/** The Apply button and the other things to click end to end: the list a page sends, the JSON it travels
    as, and the list that the module's callback gets, at the host or at the process that owns the module. */
module Batching {
  import opened Model
  import opened Instance
  import opened Network
  import opened Routing
  import opened Lifecycle
  import opened Announcements
  import opened Browser
  import opened JsonMsg
  import opened PageReplica
  import opened Marshalling

  /** The properties that wait for the Apply button: plain switches, texts and text areas. */
  predicate WaitsForApply(p: Property) {
    p.kind in {1, 3, 6}
  }

  predicate AllKnown(ps: seq<Property>) {
    forall i :: 0 <= i < |ps| ==> KnownType(ps[i])
  }

  /** Registration indices in increasing order, exactly those of the properties that wait for the Apply
      button. */
  predicate InDeclaredOrder(ps: seq<Property>, ups: seq<Update>) {
    && (forall j, k :: 0 <= j < k < |ups| ==> ups[j].prop < ups[k].prop)
    && (forall u <- ups :: 0 <= u.prop < |ps| && WaitsForApply(ps[u.prop]))
    && (forall i :: 0 <= i < |ps| && WaitsForApply(ps[i]) ==> exists u <- ups :: u.prop == i)
  }

  /** A page whose views are those of a module with properties of known types sends its batch in the
      order of registration, whatever the values are. */
  lemma {:induction false} BatchesAreDeclared(ws: seq<Widget>, ps: seq<Property>, ups: seq<Update>)
    requires AllKnown(ps) && Plan(ws) == Plan(Widgets(ps)) && IsBatch(ws, ups)
    ensures |ws| == |ps| && InDeclaredOrder(ps, ups)
  {
    KnownTypesKeepIndices(ps);
    assert |Plan(ws)| == |ws| && |Plan(Widgets(ps))| == |ps|;
    forall i | 0 <= i < |ps| ensures KnownType(ps[i]) && ws[i].kind == FromId(ps[i].kind).value {
      assert Plan(ws)[i] == Plan(Widgets(ps))[i];
      TypesByNumber(ps[i].kind);
    }
    forall u | u in ups ensures WaitsForApply(ps[u.prop]) { TypesByNumber(ps[u.prop].kind); }
    forall i | 0 <= i < |ps| && WaitsForApply(ps[i]) ensures exists u <- ups :: u.prop == i {
      TypesByNumber(ps[i].kind);
      assert Update(i, GetValue(ws[i])) in ups;
    }
  }

  /** The list as the receiving end of an apply message reads it. */
  lemma BatchCrossesAsJson(id: int, newId: int, ws: seq<Widget>, ups: seq<Update>)
    requires IsBatch(ws, ups) && |ws| <= 0x8000_0000 && InInt32(newId)
    ensures UpdatesOf(ApplyJson(id, ups)) == Ok(ups)
    ensures UpdatesOf(JObj(ApplyJson(id, ups).fields["id" := JInt(newId)])) == Ok(ups)
  {
    assert forall u <- ups :: InInt32(u.prop);
    ApplyRoundTrip(id, newId, ups);
    UpdatesRoundTrip(ups);
  }

  /* ---- The request in the run ---- */

  lemma {:induction false} NetPrefix(es: seq<PageEvent>, n: nat)
    requires n <= |es|
    ensures NetEvents(es[..n]) <= NetEvents(es)
    decreases |es|
  {
    if n < |es| {
      NetPrefix(es[..|es| - 1], n);
      assert es[..|es| - 1][..n] == es[..n];
    } else {
      assert es[..n] == es;
    }
  }

  lemma {:induction false} RunGrowsLog(es: seq<Event>, more: seq<Event>)
    ensures Run(es).host.handled <= Run(es + more).host.handled
    decreases |more|
  {
    if more == [] {
      assert es + more == es;
    } else {
      var n := |more| - 1;
      RunGrowsLog(es, more[..n]);
      assert es + more == (es + more[..n]) + [more[n]];
      RunNext(es + more[..n], more[n]);
      if Can(Run(es + more[..n]), more[n]) { StepGrowsLogs(Run(es + more[..n]), more[n]); }
    }
  }

  /** In the n-th event the user operates something of a module that the page shows. */
  ghost predicate OperatedAt(es: seq<PageEvent>, n: nat) {
    n < |es| && Operates(PageRun(es[..n]), es[n])
  }

  /** The views that the page has of the module then. */
  ghost function ViewsAt(es: seq<PageEvent>, n: nat): seq<Widget>
    requires OperatedAt(es, n)
  {
    PageRun(es[..n]).page[es[n].id].widgets
  }

  /** The number of the request. */
  ghost function TagAt(es: seq<PageEvent>, n: nat): nat {
    if n <= |es| then |PageRun(es[..n]).sys.applies| else 0
  }

  /** What a page shows was announced by the host, and its views are those of the announced properties. */
  lemma {:induction false} ShownWasAnnounced(es: seq<PageEvent>, id: int) returns (j: nat)
    requires PageRun(es).open && id in PageRun(es).page
    ensures var s := PageRun(es);
            && j < |s.sys.host.handled| && s.sys.host.handled[j].Added? && s.sys.host.handled[j].id == id
            && Plan(s.page[id].widgets) == Plan(Widgets(s.sys.host.handled[j].properties))
  {
    var s := PageRun(es);
    SessionsKeep(es);
    PageAt(s);
    j := ShownAt(s.sys.host.handled, Position(s.from, s.stream, s.read), s.page, Answered(s.stream[..s.read]), id);
  }

  lemma ShownAt(log: seq<Msg>, pos: nat, page: Replica, answered: bool, id: int) returns (j: nat)
    requires WellNumbered(log) && pos <= |log| && ShowsAt(log, pos, page, answered) && id in page
    ensures j < |log| && log[j].Added? && log[j].id == id && Plan(page[id].widgets) == Plan(Widgets(log[j].properties))
  {
    var t := Replay(log[..pos]);
    assert id in PageOutline(page);
    assert id in TableOutline(t) && PageOutline(page)[id] == TableOutline(t)[id];
    PrefixWellNumbered(log, pos);
    j := ReplayedShape(log[..pos], id);
    FrozenPlan(log[j].properties);
  }

  lemma ViewsArePositions(ws: seq<Widget>, ps: seq<Property>)
    requires Plan(ws) == Plan(Widgets(ps))
    ensures forall i :: 0 <= i < |ws| ==> ws[i].id == i
  {
    WidgetsInOrder(ps);
    assert |Plan(ws)| == |ws| && |Plan(Widgets(ps))| == |Widgets(ps)|;
    forall i | 0 <= i < |ws| ensures ws[i].id == i { assert Plan(ws)[i] == Plan(Widgets(ps))[i]; }
  }

  /** The request as it was made stays on record. */
  lemma {:induction false} RequestOnRecord(es: seq<PageEvent>, n: nat) returns (j: nat)
    requires OperatedAt(es, n)
    ensures var s, ws := PageRun(es).sys, ViewsAt(es, n);
            && TagAt(es, n) < |s.applies|
            && s.applies[TagAt(es, n)] == Apply(es[n].id, Sent(PageRun(es[..n]), es[n]), TagAt(es, n))
            && j < |s.host.handled| && s.host.handled[j].Added? && s.host.handled[j].id == es[n].id
            && Plan(ws) == Plan(Widgets(s.host.handled[j].properties)) && forall i :: 0 <= i < |ws| ==> ws[i].id == i
  {
    var s0, ws := PageRun(es[..n]), ViewsAt(es, n);
    j := ShownWasAnnounced(es[..n], es[n].id);
    ViewsArePositions(ws, s0.sys.host.handled[j].properties);
    RequestTaken(es, n);
    RecordsStay(es, n);
    RecordsStay(es, n + 1);
  }

  lemma {:induction false} RecordsStay(es: seq<PageEvent>, n: nat)
    requires n <= |es|
    ensures PageRun(es[..n]).sys.host.handled <= PageRun(es).sys.host.handled
    ensures PageRun(es[..n]).sys.applies <= PageRun(es).sys.applies
  {
    var before := NetEvents(es[..n]);
    NetPrefix(es, n);
    NetOf(es);
    NetOf(es[..n]);
    assert NetEvents(es) == before + NetEvents(es)[|before|..];
    RunGrowsLog(before, NetEvents(es)[|before|..]);
    IdsAreNeverReused(before, NetEvents(es)[|before|..]);
  }

  lemma {:induction false} RequestTaken(es: seq<PageEvent>, n: nat)
    requires OperatedAt(es, n) && forall i :: 0 <= i < |ViewsAt(es, n)| ==> ViewsAt(es, n)[i].id == i
    ensures n + 1 <= |es|
    ensures PageRun(es[..n + 1]).sys.applies
            == PageRun(es[..n]).sys.applies + [Apply(es[n].id, Sent(PageRun(es[..n]), es[n]), TagAt(es, n))]
  {
    var s0 := PageRun(es[..n]);
    assert s0.sys.host.mode == Some(true) by { SessionsKeep(es[..n]); }
    assert ViewsAt(es, n) == s0.page[es[n].id].widgets;
    SentIsWell(s0, es[n]);
    RequestIsMade(s0, es[n]);
    assert es[..n + 1] == es[..n] + [es[n]];
    OneMore(es[..n], es[n]);
  }

  lemma {:induction false} OneMore(es: seq<PageEvent>, e: PageEvent)
    ensures PageRun(es + [e]) == PageStep(PageRun(es), e)
  {
    assert (es + [e])[..|es|] == es;
  }

  lemma RequestIsMade(s: Session, e: PageEvent)
    requires Operates(s, e) && s.sys.host.mode == Some(true) && NonNegative(Sent(s, e))
    ensures PageStep(s, e).sys.applies == s.sys.applies + [Apply(e.id, Sent(s, e), |s.sys.applies|)]
  {
    Asks(s.sys, Request(s, e));
  }

  lemma SentIsWell(s: Session, e: PageEvent)
    requires Operates(s, e) && forall i :: 0 <= i < |s.page[e.id].widgets| ==> s.page[e.id].widgets[i].id == i
    ensures NonNegative(Sent(s, e))
  {
    if e.Submit? { BatchOfIsBatch(s.page[e.id].widgets); }
  }

  /* ---- The callback ---- */

  /** What the module's callback gets for a batch of these views: the properties that wait for the Apply
      button in the order in which the module declared them, each with what the page held for it. */
  ghost predicate GetsTheBatch(ws: seq<Widget>, ps: seq<Property>, ups: seq<Update>) {
    && ups == BatchOf(ws)
    && (AllKnown(ps) ==> |ws| == |ps| && InDeclaredOrder(ps, ups) && forall u <- ups :: u.value == GetValue(ws[u.prop]))
  }

  /** A callback that process p runs, on its module r, for the press of an Apply button gets the batch in
      the order of the properties that the process announced under r, whatever the user typed and
      whatever happened in between; the announcement is the only one of r. */
  lemma {:induction false} OwnerGetsTheBatch(es: seq<PageEvent>, n: nat, p: nat, c: nat) returns (m: Msg)
    requires OperatedAt(es, n) && es[n].Submit?
    requires var s := PageRun(es).sys; p < |s.peers| && c < |s.peers[p].inst.calls| && s.peers[p].inst.calls[c].tag == TagAt(es, n)
    ensures var i := PageRun(es).sys.peers[p].inst;
            && m in i.handled && m.Added? && m.id == i.calls[c].id
            && (forall x <- i.handled :: x.Added? && x.id == m.id ==> x.properties == m.properties)
            && GetsTheBatch(ViewsAt(es, n), m.properties, i.calls[c].updates)
  {
    var s, ns := PageRun(es).sys, NetEvents(es);
    NetOf(es);
    var j := RequestOnRecord(es, n);
    CallbacksStemFromRequests(ns, p, c);
    HostAnnouncesTheOwnersModule(ns, es[n].id, j);
    m := Added(s.peers[p].inst.calls[c].id, s.host.handled[j].name, s.host.handled[j].properties);
    BatchOfIsBatch(ViewsAt(es, n));
    if AllKnown(m.properties) { BatchesAreDeclared(ViewsAt(es, n), m.properties, BatchOf(ViewsAt(es, n))); }
  }

  /** The same for a module of the host's own. */
  lemma {:induction false} HostGetsTheBatch(es: seq<PageEvent>, n: nat, c: nat) returns (m: Msg)
    requires OperatedAt(es, n) && es[n].Submit?
    requires var h := PageRun(es).sys.host; c < |h.calls| && h.calls[c].tag == TagAt(es, n)
    ensures var h := PageRun(es).sys.host;
            && m in h.handled && m.Added? && m.id == h.calls[c].id
            && (forall x <- h.handled :: x.Added? && x.id == m.id ==> x.properties == m.properties)
            && GetsTheBatch(ViewsAt(es, n), m.properties, h.calls[c].updates)
  {
    var h, ns := PageRun(es).sys.host, NetEvents(es);
    NetOf(es);
    var j := RequestOnRecord(es, n);
    HostCallbacksStemFromRequests(ns, c);
    m := h.handled[j];
    SessionsKeep(es);
    OneAnnouncement(h.handled, j);
    BatchOfIsBatch(ViewsAt(es, n));
    if AllKnown(m.properties) { BatchesAreDeclared(ViewsAt(es, n), m.properties, BatchOf(ViewsAt(es, n))); }
  }

  /** What the callback gets for a click: the one property, by its place in the declaration. It is of a type
      that sends itself; a button tells "1", a switch what it was turned to, a text what it holds. */
  ghost predicate GetsTheClick(w: Widget, ps: seq<Property>, k: nat, ups: seq<Update>) {
    AllKnown(ps) ==>
      && k < |ps| && ps[k].kind in {0, 2, 4, 7}
      && ups == [Update(k, if ps[k].kind == 0 then "1" else if ps[k].kind == 2 then (if w.shown == "1" then "0" else "1") else w.shown)]
  }

  lemma ClicksByNumber(ws: seq<Widget>, ps: seq<Property>, k: nat)
    requires Plan(ws) == Plan(Widgets(ps)) && k < |ws| && ws[k].id == k && SendsItself(ws[k].kind)
    ensures GetsTheClick(ws[k], ps, k, [Update(ws[k].id, GetValue(Clicked(ws[k])))])
  {
    if AllKnown(ps) {
      KnownTypesKeepIndices(ps);
      assert |Plan(ws)| == |ws| && |Plan(Widgets(ps))| == |ps|;
      assert Plan(ws)[k] == Plan(Widgets(ps))[k] && KnownType(ps[k]);
      TypesByNumber(ps[k].kind);
    }
  }

  /** A callback that process p runs, on its module r, for a click. */
  lemma {:induction false} OwnerGetsTheClick(es: seq<PageEvent>, n: nat, p: nat, c: nat) returns (m: Msg)
    requires OperatedAt(es, n) && es[n].Click?
    requires var s := PageRun(es).sys; p < |s.peers| && c < |s.peers[p].inst.calls| && s.peers[p].inst.calls[c].tag == TagAt(es, n)
    ensures var i := PageRun(es).sys.peers[p].inst;
            && m in i.handled && m.Added? && m.id == i.calls[c].id
            && (forall x <- i.handled :: x.Added? && x.id == m.id ==> x.properties == m.properties)
            && GetsTheClick(ViewsAt(es, n)[es[n].prop], m.properties, es[n].prop, i.calls[c].updates)
  {
    var s, ns := PageRun(es).sys, NetEvents(es);
    NetOf(es);
    var j := RequestOnRecord(es, n);
    CallbacksStemFromRequests(ns, p, c);
    HostAnnouncesTheOwnersModule(ns, es[n].id, j);
    m := Added(s.peers[p].inst.calls[c].id, s.host.handled[j].name, s.host.handled[j].properties);
    ClicksByNumber(ViewsAt(es, n), m.properties, es[n].prop);
  }

  /** The same for a module of the host's own. */
  lemma {:induction false} HostGetsTheClick(es: seq<PageEvent>, n: nat, c: nat) returns (m: Msg)
    requires OperatedAt(es, n) && es[n].Click?
    requires var h := PageRun(es).sys.host; c < |h.calls| && h.calls[c].tag == TagAt(es, n)
    ensures var h := PageRun(es).sys.host;
            && m in h.handled && m.Added? && m.id == h.calls[c].id
            && (forall x <- h.handled :: x.Added? && x.id == m.id ==> x.properties == m.properties)
            && GetsTheClick(ViewsAt(es, n)[es[n].prop], m.properties, es[n].prop, h.calls[c].updates)
  {
    var h, ns := PageRun(es).sys.host, NetEvents(es);
    NetOf(es);
    var j := RequestOnRecord(es, n);
    HostCallbacksStemFromRequests(ns, c);
    m := h.handled[j];
    SessionsKeep(es);
    OneAnnouncement(h.handled, j);
    ClicksByNumber(ViewsAt(es, n), m.properties, es[n].prop);
  }

  lemma OneAnnouncement(log: seq<Msg>, j: nat)
    requires WellNumbered(log) && j < |log| && log[j].Added?
    ensures forall x <- log :: x.Added? && x.id == log[j].id ==> x == log[j]
  {
    IdLifecycle(log);
  }

  /** The arrays of the callback carry the batch unchanged if and only if no value has a NUL. */
  lemma BatchCrossesTheArrays(ws: seq<Widget>, ups: seq<Update>)
    requires IsBatch(ws, ups)
    ensures CrossedUpdates(ups) == ups
            <==> forall i :: 0 <= i < |ws| && !IsIndependent(ws[i].kind) ==> Clean(GetValue(ws[i]))
  {
    UpdatesAgreeIff(ups);
    if forall i :: 0 <= i < |ups| ==> Clean(ups[i].value) {
      forall i | 0 <= i < |ws| && !IsIndependent(ws[i].kind) ensures Clean(GetValue(ws[i])) {
        var u := Update(i, GetValue(ws[i]));
        assert u in ups;
        var j :| 0 <= j < |ups| && ups[j] == u;
      }
    } else {
      var j :| 0 <= j < |ups| && !Clean(ups[j].value);
      assert ups[j] in ups;
    }
  }
}
