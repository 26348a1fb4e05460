/** Values on the page: a switch or a text that one thread of the host's application writes, or one of a
    replicated module, shows the host's value once what was posted has run and what was pushed has been
    read; for a replicated module that is the owner's value. */
module PageValues {
  import opened Model
  import opened Instance
  import opened Lifecycle
  import opened Network
  import opened NetworkInvariant
  import opened Effects
  import opened HostValue
  import opened OwnerWrites
  import opened Announcements
  import opened Browser
  import opened PageReplica
  import opened PageControls
  import opened PageWrites

  /* ---- What the page shows ---- */

  ghost predicate PlainMsg(m: Msg, n: nat, r: nat, k: nat) {
    m.id == r ==>
      && (m.Added? ==> Suitable(m.properties, n, k))
      && (m.Updated? && Touches(m.updates, k) ==> InBounds(m.updates, n))
  }

  ghost predicate PlainItem(e: Item, n: nat, r: nat, k: nat) {
    match e
    case Push(m) => PlainMsg(m, n, r, k)
    case List(ms) => r in ms ==> Suitable(ms[r].properties, n, k)
  }

  /** The page shows the value of this property, or no such module when there is none. */
  predicate Reflects(page: Replica, u: Cell, n: nat, r: nat, k: nat) {
    if u.None? then r !in page
    else
      && r in page && |page[r].widgets| == n && k < n
      && Tracks(page[r].widgets[k], u.value) && !u.value.readOnly
  }

  lemma ReflectsCreated(page: Replica, r: nat, name: string, ps: seq<Property>, u: Cell, n: nat, k: nat)
    requires Suitable(ps, n, k) && r in page && page[r] == BModule(name, Widgets(ps))
    ensures Reflects(page, Play(u, [Create(PropertyOf(ps, k))], k), n, r, k)
  {
    PlayOne(u, Create(PropertyOf(ps, k)), k);
    CreatedTracks(ps, n, k);
  }

  lemma ReflectsUpdate(page: Replica, u: Cell, ups: seq<Update>, n: nat, r: nat, k: nat)
    requires Reflects(page, u, n, r, k) && (Touches(ups, k) ==> InBounds(ups, n))
    ensures Reflects(See(page, Push(Updated(r, ups))), Play(u, WriteOf(ups, k), k), n, r, k)
  {
    if Touches(ups, k) { PlayOne(u, Write(ups), k); }
    if u.Some? {
      if Touches(ups, k) { ViewTracks(page[r].widgets, ups, u.value, k); } else { ShowsUntouched(page[r].widgets, ups, k); }
    }
  }

  lemma ReflectsNext(page: Replica, u: Cell, e: Item, n: nat, r: nat, k: nat)
    requires Reflects(page, u, n, r, k) && PlainItem(e, n, r, k)
    ensures Reflects(See(page, e), Play(u, ItemEffect(e, r, k), k), n, r, k)
  {
    if e.List? {
      if r in e.modules { ReflectsCreated(See(page, e), r, e.modules[r].name, e.modules[r].properties, u, n, k); }
    } else if e.msg.id == r {
      if e.msg.Added? {
        ReflectsCreated(See(page, e), r, e.msg.name, e.msg.properties, u, n, k);
      } else if e.msg.Updated? {
        ReflectsUpdate(page, u, e.msg.updates, n, r, k);
      } else {
        PlayOne(u, Kill, k);
      }
    }
  }

  lemma {:induction false} PageReflects(items: seq<Item>, n: nat, r: nat, k: nat)
    requires forall x :: 0 <= x < |items| ==> PlainItem(items[x], n, r, k)
    ensures Reflects(SeeAll(items), Heard(items, r, k), n, r, k)
    decreases |items|
  {
    if items != [] {
      var m := |items| - 1;
      PageReflects(items[..m], n, r, k);
      ReflectsNext(SeeAll(items[..m]), Heard(items[..m], r, k), items[m], n, r, k);
    }
  }

  /* ---- The stream is as the log is ---- */

  lemma {:induction false} PushedIn(items: seq<Item>, x: nat)
    requires x < |items| && items[x].Push?
    ensures items[x].msg in Pushed(items)
    decreases |items|
  {
    if x < |items| - 1 { PushedIn(items[..|items| - 1], x); }
  }

  lemma {:induction false} ListedIsSuitable(log: seq<Msg>, j: nat, ms: map<int, Module>, n: nat, r: nat, k: nat)
    requires WellNumbered(log) && AnswerOk(log, j, ms) && r in ms && forall m <- log :: PlainMsg(m, n, r, k)
    ensures Suitable(ms[r].properties, n, k)
  {
    PrefixWellNumbered(log, j);
    assert r in TableOf(ms);
    var i := ReplayedShape(log[..j], r);
    assert log[..j][i] == log[i] && log[i] in log && PlainMsg(log[i], n, r, k);
    assert TableOf(ms)[r] == ShapeOf(ms[r]);
    SuitableIsFrozen(log[i].properties, ms[r].properties, n, k);
  }

  lemma {:induction false} StreamIsPlain(log: seq<Msg>, from: nat, items: seq<Item>, n: nat, r: nat, k: nat)
    requires WellNumbered(log) && Faithful(log, from, items) && forall m <- log :: PlainMsg(m, n, r, k)
    ensures forall x :: 0 <= x < |items| ==> PlainItem(items[x], n, r, k)
  {
    forall x | 0 <= x < |items| ensures PlainItem(items[x], n, r, k) {
      if items[x].Push? {
        PushedIn(items, x);
        assert items[x].msg in log[from..];
        assert items[x].msg in log;
      } else if r in items[x].modules {
        ListedIsSuitable(log, from + |Pushed(items[..x])|, items[x].modules, n, r, k);
      }
    }
  }

  /** A module that is there was announced once, in the shape it has. */
  lemma {:induction false} AnnouncedSuitable(i: Inst, n: nat, r: nat, k: nat)
    requires TableOk(i) && r in i.modules && Suitable(i.modules[r].properties, n, k)
    ensures forall m <- i.handled :: m.Added? && m.id == r ==> Suitable(m.properties, n, k)
  {
    assert TableOf(i.modules)[r] == ShapeOf(i.modules[r]);
    var j := ReplayedShape(i.handled, r);
    SuitableIsFrozen(i.modules[r].properties, i.handled[j].properties, n, k);
    IdLifecycle(i.handled);
    forall m | m in i.handled && m.Added? && m.id == r ensures m == i.handled[j] {
      var l :| 0 <= l < |i.handled| && i.handled[l] == m;
    }
  }

  /* ---- What the user does not touch ---- */

  /** The page shows of property k of module r what it would show had nobody edited anything. */
  ghost predicate SameThere(page: Replica, seen: Replica, r: nat, k: nat) {
    && (r in page <==> r in seen)
    && (r in page ==>
          && |page[r].widgets| == |seen[r].widgets|
          && (k < |page[r].widgets| ==> page[r].widgets[k] == seen[r].widgets[k]))
  }

  lemma {:induction false} ShowsAlike(ws: seq<Widget>, vs: seq<Widget>, ups: seq<Update>, k: nat)
    requires |ws| == |vs| && k < |ws| && ws[k] == vs[k]
    ensures ShowAll(ws, ups)[k] == ShowAll(vs, ups)[k]
    decreases |ups|
  {
    if ups != [] && InRange(ws, ups[0]) {
      var u := ups[0];
      ShowsAlike(ws[u.prop := Show(ws[u.prop], u.value)], vs[u.prop := Show(vs[u.prop], u.value)], ups[1..], k);
    }
  }

  lemma SeesAlike(page: Replica, seen: Replica, e: Item, r: nat, k: nat)
    requires SameThere(page, seen, r, k)
    ensures SameThere(See(page, e), See(seen, e), r, k)
  {
    if e.Push? && e.msg.Updated? && e.msg.id == r && r in page && k < |page[r].widgets| {
      ShowsAlike(page[r].widgets, seen[r].widgets, e.msg.updates, k);
    }
  }

  /** Nobody types into this control or clicks on it. */
  ghost predicate Unedited(es: seq<PageEvent>, r: nat, k: nat) {
    forall e <- es :: e.Edit? || e.Click? ==> e.id != r || e.prop != k
  }

  lemma {:induction false} UneditedShowsTheStream(es: seq<PageEvent>, r: nat, k: nat)
    requires Unedited(es, r, k)
    ensures var s := PageRun(es); s.read <= |s.stream| && SameThere(s.page, SeeAll(s.stream[..s.read]), r, k)
    decreases |es|
  {
    SessionsKeep(es);
    if es != [] {
      var before, e := es[..|es| - 1], es[|es| - 1];
      assert e in es && forall x <- before :: x in es;
      UneditedShowsTheStream(before, r, k);
      SessionsKeep(before);
      StepShowsTheStream(PageRun(before), e, r, k);
    }
  }

  lemma StepShowsTheStream(s: Session, e: PageEvent, r: nat, k: nat)
    requires s.read <= |s.stream| && (!s.open ==> s.stream == []) && (e.Edit? || e.Click? ==> e.id != r || e.prop != k)
    requires SameThere(s.page, SeeAll(s.stream[..s.read]), r, k)
    ensures var z := PageStep(s, e); z.read <= |z.stream| && SameThere(z.page, SeeAll(z.stream[..z.read]), r, k)
  {
    var z := PageStep(s, e);
    if e.Receive? && s.read < |s.stream| {
      SeeNext(s.stream, s.read);
      SeesAlike(s.page, SeeAll(s.stream[..s.read]), s.stream[s.read], r, k);
    } else if !e.Disconnect? {
      assert s.stream <= z.stream && z.read == s.read;
      assert z.stream[..z.read] == s.stream[..s.read];
    }
  }

  lemma SameReflects(page: Replica, seen: Replica, u: Cell, n: nat, r: nat, k: nat)
    requires SameThere(page, seen, r, k) && Reflects(seen, u, n, r, k)
    ensures Reflects(page, u, n, r, k)
  {}

  /* ---- The host's value ---- */

  /** Nothing is pending at the host and the page has read all there is. */
  ghost predicate Quiet(s: Session, src: Source, l: nat, k: nat) {
    s.open && Answered(s.stream) && s.read == |s.stream| && s.sys.host.tasks == [] && Pending(s.sys, src, l, k) == []
  }

  /** The k-th property of the module is a switch or a text that may be written, all its properties have known types,
      and no list that writes it names a property beyond them. */
  ghost predicate Plain(i: Inst, r: nat, k: nat) {
    && r in i.modules && Suitable(i.modules[r].properties, |i.modules[r].properties|, k)
    && forall m <- i.handled :: m.Updated? && m.id == r && Touches(m.updates, k) ==> InBounds(m.updates, |i.modules[r].properties|)
  }

  ghost predicate ShowsValue(page: Replica, i: Inst, l: nat, r: nat, k: nat) {
    && r in i.modules && k < |i.modules[r].properties| && l in page && k < |page[l].widgets|
    && Agrees(page[l].widgets[k], i.modules[r].properties[k])
  }

  /** A switch or a text, either of a module of the host's own that its application writes from one thread
      only, or of a module that another process replicates, that no page asks to write and nobody edits
      on this page: whenever the page connected and whenever its answer was computed, between the save
      and the send of a write or not, once everything is quiet it shows the host's value. */
  lemma {:induction false} PageShowsTheHostsValue(es: seq<PageEvent>, src: Source, l: nat, k: nat)
    requires WrittenOnlyBy(es, src, l, k) && Unedited(es, l, k)
    requires var s := PageRun(es); OfKind(s.sys, src, l) && Unasked(s.sys, l, k) && Quiet(s, src, l, k) && Plain(s.sys.host, l, k)
    ensures var s := PageRun(es); ShowsValue(s.page, s.sys.host, l, l, k)
  {
    var s := PageRun(es);
    var h := s.sys.host;
    SessionsKeep(es);
    PageRunsSync(es, src, l, k);
    UneditedShowsTheStream(es, l, k);
    QuietShows(h, s.from, s.stream, s.page, l, k);
  }

  lemma QuietShows(h: Inst, from: nat, stream: seq<Item>, page: Replica, l: nat, k: nat)
    requires TableOk(h) && Plain(h, l, k) && Faithful(h.handled, from, stream) && Answered(stream)
    requires h.tasks == [] && Listens(h, stream, [], l, k) && SameThere(page, SeeAll(stream[..|stream|]), l, k)
    ensures ShowsValue(page, h, l, l, k)
  {
    var n := |h.modules[l].properties|;
    AnnouncedSuitable(h, n, l, k);
    StreamIsPlain(h.handled, from, stream, n, l, k);
    PageReflects(stream, n, l, k);
    assert stream[..|stream|] == stream;
    SameReflects(page, SeeAll(stream), Heard(stream, l, k), n, l, k);
    QuietAgrees(h, stream, l, k);
  }

  lemma QuietAgrees(i: Inst, items: seq<Item>, r: nat, k: nat)
    requires Listens(i, items, [], r, k) && Answered(items) && i.tasks == []
    ensures Heard(items, r, k) == CellOf(i.modules, r, k)
  {
    assert Saves(i.tasks, r, k) == [] && Sends(i.tasks, r, k) + [] == [];
  }

  /* ---- The owner's value ---- */

  /** Nothing is in flight between process p, the host and the page. */
  ghost predicate AllQuiet(s: Session, p: nat) {
    s.open && Answered(s.stream) && s.read == |s.stream| && s.sys.net.Idle? && Settled(s.sys, p)
  }

  /** What the owner announced and told of the module is plain, so what the host tells is. */
  lemma {:induction false} PlainAtHost(es: seq<Event>, p: nat, r: nat, k: nat)
    requires var s := Run(es); p < |s.peers| && r < |s.peers[p].ids| && Plain(s.peers[p].inst, r, k)
    requires var s := Run(es); s.peers[p].ids[r] in s.host.modules
    ensures var s := Run(es); s.peers[p].ids[r] >= 0 && Plain(s.host, s.peers[p].ids[r], k)
  {
    var s := Run(es);
    var i, l := s.peers[p].inst, s.peers[p].ids[r];
    RunsKeep(es);
    IdIsReplicated(s, p, r);
    assert PeerOk(s.peers[p]);
    var n := |i.modules[r].properties|;
    AnnouncedSuitable(i, n, r, k);
    assert l in TableOf(s.host.modules);
    var j := ReplayedShape(s.host.handled, l);
    HostAnnouncesTheOwnersModule(es, l, j);
    assert TableOf(s.host.modules)[l] == ShapeOf(s.host.modules[l]);
    SuitableIsFrozen(s.host.handled[j].properties, s.host.modules[l].properties, n, k);
    forall m | m in s.host.handled && m.Updated? && m.id == l && Touches(m.updates, k) ensures InBounds(m.updates, n) {
      HostTellsTheOwnersUpdates(es, m);
    }
  }

  /** The value that the owner holds is the one that the page shows: for a switch or a text of module r of
      a connected process that is written only by one thread of that process, or only in its
      callbacks, that no page asks to write and nobody edits on this page, once nothing is in flight. */
  lemma {:induction false} PageShowsTheOwnersValue(es: seq<PageEvent>, w: Writer, p: nat, r: nat, k: nat)
    requires WrittenBy(NetEvents(es), w, p, r, k)
    requires var s := PageRun(es);
             && Connected(s.sys, p) && AllQuiet(s, p) && Unrequested(s.sys, p, r, k)
             && Plain(s.sys.peers[p].inst, r, k) && r < |s.sys.peers[p].ids|
             && (s.sys.peers[p].ids[r] >= 0 ==> Unedited(es, s.sys.peers[p].ids[r], k))
    ensures var s := PageRun(es);
            s.sys.peers[p].ids[r] >= 0 && ShowsValue(s.page, s.sys.peers[p].inst, s.sys.peers[p].ids[r], r, k)
  {
    var s := PageRun(es);
    var ns := NetEvents(es);
    NetOf(es);
    OwnerAndHostAgree(ns, w, p, r, k);
    var l := s.sys.peers[p].ids[r];
    assert s.sys.host.origins[l] == Of(p, r) && l >= 0 by { RunsKeep(ns); IdIsReplicated(s.sys, p, r); }
    PlainAtHost(ns, p, r, k);
    assert OfKind(s.sys, NetThread, l) && Unasked(s.sys, l, k);
    PageShowsTheHostsValue(es, NetThread, l, k);
  }
}
