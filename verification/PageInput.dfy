/** What a user does on a page and what is sent for it: by which route each property leaves the page, and
    that what was typed is what is sent. */
module PageInput {
  import opened Model
  import opened Instance
  import opened Network
  import opened Browser
  import opened PageReplica
  import opened Batching

  /* ---- Routes ---- */

  lemma PlannedViews(ws: seq<Widget>, ps: seq<Property>)
    requires Plan(ws) == Plan(Widgets(ps))
    ensures ViewsOf(ws, ps)
  {
    ViewsArePositions(ws, ps);
    assert |Plan(ws)| == |ws| && |Plan(Widgets(ps))| == |Widgets(ps)|;
    forall i | 0 <= i < |ws| ensures ws[i].kind == Widgets(ps)[i].kind { assert Plan(ws)[i] == Plan(Widgets(ps))[i]; }
  }

  /** The view of the j-th property sends alone exactly if the property is a button, an independent switch
      or a text with a Send button, and is in the Apply list exactly if it is a plain switch, text or text
      area. */
  ghost predicate RoutesOf(s: Session, id: int, ps: seq<Property>, j: nat)
    requires s.open && id in s.page && j < |ps|
  {
    var k := ViewId(ps, j);
    && (Operates(s, Click(id, k)) <==> ps[j].kind in {0, 2, 4, 7})
    && ((exists u <- Sent(s, Submit(id)) :: u.prop == k) <==> ps[j].kind in {1, 3, 6})
  }

  /** Whatever happened before, for every module that a page shows and every property of it as the host
      announced it: a property leaves the page by its own click or Send button, or with the Apply button,
      and those that are for reading (types 5, 8 and 9) by neither; a click sends no other property. */
  lemma {:induction false} EachPropertyHasItsRoute(es: seq<PageEvent>, id: int) returns (m: Msg)
    requires PageRun(es).open && id in PageRun(es).page
    ensures m in PageRun(es).sys.host.handled && m.Added? && m.id == id
    ensures forall j :: 0 <= j < |m.properties| && 0 <= m.properties[j].kind <= 10 ==> RoutesOf(PageRun(es), id, m.properties, j)
    ensures forall k: nat :: Operates(PageRun(es), Click(id, k)) ==> forall u <- Sent(PageRun(es), Click(id, k)) :: u.prop == k
  {
    var s := PageRun(es);
    var i := ShownWasAnnounced(es, id);
    m := s.sys.host.handled[i];
    PlannedViews(s.page[id].widgets, m.properties);
    forall j | 0 <= j < |m.properties| && 0 <= m.properties[j].kind <= 10 ensures RoutesOf(s, id, m.properties, j) {
      RouteByNumber(s, id, m.properties, j);
    }
  }

  lemma {:induction false} RouteByNumber(s: Session, id: int, ps: seq<Property>, j: nat)
    requires s.open && id in s.page && ViewsOf(s.page[id].widgets, ps) && j < |ps| && 0 <= ps[j].kind <= 10
    ensures RoutesOf(s, id, ps, j)
  {
    var ws := s.page[id].widgets;
    BatchOfIsBatch(ws);
    ListsByNumber(ws, ps, BatchOf(ws));
    WidgetsInOrder(ps);
    assert ViewOf(Widgets(ps)[ViewId(ps, j)], ps[j]);
    TypesByNumber(ps[j].kind);
  }

  /* ---- What was typed ---- */

  /** The page receives nothing, stays connected, and nobody touches this control again. */
  ghost predicate LeftAlone(es: seq<PageEvent>, id: int, k: nat) {
    forall e <- es :: !e.Receive? && !e.Disconnect? && (e.Edit? || e.Click? ==> e.id != id || e.prop != k)
  }

  ghost predicate Shows(r: Replica, id: int, k: nat, kind: PropertyType, text: string) {
    HasView(r, id, k) && r[id].widgets[k].kind == kind && r[id].widgets[k].shown == text
  }

  lemma StillShows(s: Session, e: PageEvent, id: int, k: nat, kind: PropertyType, text: string)
    requires Shows(s.page, id, k, kind, text) && LeftAlone([e], id, k)
    ensures Shows(PageStep(s, e).page, id, k, kind, text)
  {
    assert e in [e];
  }

  lemma {:induction false} LastOf(es: seq<PageEvent>, more: seq<PageEvent>)
    requires more != []
    ensures PageRun(es + more) == PageStep(PageRun(es + more[..|more| - 1]), more[|more| - 1])
  {
    assert (es + more)[..|es + more| - 1] == es + more[..|more| - 1];
  }

  lemma {:induction false} TypedStays(es: seq<PageEvent>, more: seq<PageEvent>, id: int, k: nat, kind: PropertyType, text: string)
    requires Shows(PageRun(es).page, id, k, kind, text) && LeftAlone(more, id, k)
    ensures Shows(PageRun(es + more).page, id, k, kind, text)
    decreases |more|
  {
    if more == [] {
      assert es + more == es;
    } else {
      var n := |more| - 1;
      TypedStays(es, more[..n], id, k, kind, text);
      LastOf(es, more);
      assert more[n] in more;
      StillShows(PageRun(es + more[..n]), more[n], id, k, kind, text);
    }
  }

  /** What the user types into a line or an area, and how a plain switch is set, is what the control holds
      as long as nothing arrives and nobody touches it again. */
  lemma {:induction false} TypedIsHeld(es: seq<PageEvent>, id: int, k: nat, text: string, more: seq<PageEvent>)
    requires HasView(PageRun(es).page, id, k) && LeftAlone(more, id, k)
    ensures var kind, page := PageRun(es).page[id].widgets[k].kind, PageRun(es + [Edit(id, k, text)] + more).page;
            && (kind in {TEXT, TEXT_BT, TEXT_AREA, TEXT_AREA_BT} ==> Shows(page, id, k, kind, text))
            && (kind == BUTTON_SW ==> Shows(page, id, k, kind, if text == "1" then "1" else "0"))
  {
    var s := PageRun(es);
    var w := s.page[id].widgets[k];
    OneMore(es, Edit(id, k, text));
    var now := PageRun(es + [Edit(id, k, text)]).page;
    assert now == Edited(s.page, id, k, text);
    if Shows(now, id, k, w.kind, text) {
      TypedStays(es + [Edit(id, k, text)], more, id, k, w.kind, text);
    }
    if w.kind == BUTTON_SW {
      TypedStays(es + [Edit(id, k, text)], more, id, k, w.kind, Checked(text));
    }
  }

  lemma HeldIsSent(s: Session, id: int, k: nat, kind: PropertyType, text: string)
    requires s.open && Shows(s.page, id, k, kind, text) && forall i :: 0 <= i < |s.page[id].widgets| ==> s.page[id].widgets[i].id == i
    ensures kind in {TEXT, TEXT_AREA} ==>
              Update(k, text) in Sent(s, Submit(id)) && forall u <- Sent(s, Submit(id)) :: u.prop == k ==> u.value == text
    ensures kind in {TEXT_BT, TEXT_AREA_BT} ==> Operates(s, Click(id, k)) && Sent(s, Click(id, k)) == [Update(k, text)]
  {
    var ws := s.page[id].widgets;
    BatchOfIsBatch(ws);
    if kind in {TEXT, TEXT_AREA} { assert Update(k, GetValue(ws[k])) in BatchOf(ws); }
  }

  lemma {:induction false} PagePositions(es: seq<PageEvent>, id: int)
    requires PageRun(es).open && id in PageRun(es).page
    ensures var ws := PageRun(es).page[id].widgets; forall i :: 0 <= i < |ws| ==> ws[i].id == i
  {
    var j := ShownWasAnnounced(es, id);
    ViewsArePositions(PageRun(es).page[id].widgets, PageRun(es).sys.host.handled[j].properties);
  }

  /** And it is what is sent: by the Apply button for a text or a text area, by its Send button for one that
      has one. */
  lemma {:induction false} TypedIsSent(es: seq<PageEvent>, id: int, k: nat, text: string, more: seq<PageEvent>)
    requires HasView(PageRun(es).page, id, k) && LeftAlone(more, id, k)
    requires PageRun(es + [Edit(id, k, text)] + more).open
    ensures var kind, s := PageRun(es).page[id].widgets[k].kind, PageRun(es + [Edit(id, k, text)] + more);
            && id in s.page
            && (kind in {TEXT, TEXT_AREA} ==>
                  Update(k, text) in Sent(s, Submit(id)) && forall u <- Sent(s, Submit(id)) :: u.prop == k ==> u.value == text)
            && (kind in {TEXT_BT, TEXT_AREA_BT} ==> Operates(s, Click(id, k)) && Sent(s, Click(id, k)) == [Update(k, text)])
  {
    var all, kind := es + [Edit(id, k, text)] + more, PageRun(es).page[id].widgets[k].kind;
    TypedIsHeld(es, id, k, text, more);
    OneMore(es, Edit(id, k, text));
    ModuleStays(es + [Edit(id, k, text)], more, id);
    PagePositions(all, id);
    if Shows(PageRun(all).page, id, k, kind, text) { HeldIsSent(PageRun(all), id, k, kind, text); }
  }

  lemma StillThere(s: Session, e: PageEvent, id: int)
    requires id in s.page && !e.Receive? && !e.Disconnect?
    ensures id in PageStep(s, e).page
  {}

  lemma {:induction false} ModuleStays(es: seq<PageEvent>, more: seq<PageEvent>, id: int)
    requires id in PageRun(es).page && forall e <- more :: !e.Receive? && !e.Disconnect?
    ensures id in PageRun(es + more).page
    decreases |more|
  {
    if more == [] {
      assert es + more == es;
    } else {
      var n := |more| - 1;
      ModuleStays(es, more[..n], id);
      LastOf(es, more);
      StillThere(PageRun(es + more[..n]), more[n], id);
    }
  }

  lemma {:induction false} SentReachesTheOwner(es: seq<PageEvent>, n: nat, p: nat, c: nat, u: Update)
    requires OperatedAt(es, n) && es[n].Submit? && u in Sent(PageRun(es[..n]), es[n])
    requires var s := PageRun(es).sys; p < |s.peers| && c < |s.peers[p].inst.calls| && s.peers[p].inst.calls[c].tag == TagAt(es, n)
    ensures u in PageRun(es).sys.peers[p].inst.calls[c].updates
  {
    var m := OwnerGetsTheBatch(es, n, p, c);
  }

  /** So what was typed into a text or a text area and submitted by the n-th event is what a callback at the
      owner gets. */
  lemma {:induction false} TypedReachesTheOwner(es: seq<PageEvent>, id: int, k: nat, text: string, more: seq<PageEvent>,
                                                all: seq<PageEvent>, n: nat, p: nat, c: nat)
    requires HasView(PageRun(es).page, id, k) && PageRun(es).page[id].widgets[k].kind in {TEXT, TEXT_AREA} && LeftAlone(more, id, k)
    requires n < |all| && all[..n] == es + [Edit(id, k, text)] + more && all[n] == Submit(id) && PageRun(all[..n]).open
    requires var s := PageRun(all).sys; p < |s.peers| && c < |s.peers[p].inst.calls| && s.peers[p].inst.calls[c].tag == TagAt(all, n)
    ensures Update(k, text) in PageRun(all).sys.peers[p].inst.calls[c].updates
  {
    TypedIsSent(es, id, k, text, more);
    SentReachesTheOwner(all, n, p, c, Update(k, text));
  }
}
