/** What one list of updates does to a text or a switch, at the host and on a page. */
module PageControls {
  import opened Model
  import opened Effects
  import opened Browser

  /** Two values of a property come to the same on a page: of a switch it shows only whether it is "1". */
  predicate Same(kind: int, a: string, b: string) {
    if kind in {1, 2} then (a == "1" <==> b == "1") else a == b
  }

  /** The control holds the property's value. */
  predicate Agrees(w: Widget, p: Property) {
    Same(p.kind, w.shown, p.value) && (p.kind in {1, 2} ==> w.shown in {"0", "1"})
  }

  /** It is the view of a switch or of a text, and holds its value. */
  predicate Tracks(w: Widget, p: Property) {
    1 <= p.kind <= 8 && FromId(p.kind) == Some(w.kind) && Agrees(w, p)
  }

  /** All n properties have known types; the k-th is a switch or a text that may be written. */
  predicate Suitable(ps: seq<Property>, n: nat, k: nat) {
    && |ps| == n && k < n && (forall i :: 0 <= i < n ==> KnownType(ps[i]))
    && 1 <= ps[k].kind <= 8 && !ps[k].readOnly
  }

  predicate InBounds(ups: seq<Update>, n: nat) {
    forall u <- ups :: 0 <= u.prop < n
  }

  /** After a list that names only views that are there, a switch shows "1" if the last value for it was
      "1" and "0" if it was anything else, a text shows that value, and both show what they did if there
      was none. */
  lemma {:induction false} ControlShows(ws: seq<Widget>, ups: seq<Update>, k: nat)
    requires InBounds(ups, |ws|) && k < |ws|
    ensures IsSwitch(ws[k].kind) ==>
              ShowAll(ws, ups)[k].shown
              == match LastWrite(ups, k) case None => ws[k].shown case Some(v) => if v == "1" then "1" else "0"
    ensures IsText(ws[k].kind) ==>
              ShowAll(ws, ups)[k].shown == match LastWrite(ups, k) case None => ws[k].shown case Some(v) => v
    decreases |ups|
  {
    if ups != [] {
      assert ups[0] in ups && forall u <- ups[1..] :: u in ups;
      ControlShows(ws[ups[0].prop := Show(ws[ups[0].prop], ups[0].value)], ups[1..], k);
    }
  }

  lemma TracksTheLast(w: Widget, z: Widget, p: Property, ups: seq<Update>, k: nat)
    requires Tracks(w, p) && !p.readOnly && z.kind == w.kind
    requires IsSwitch(w.kind) ==> z.shown == match LastWrite(ups, k) case None => w.shown case Some(v) => if v == "1" then "1" else "0"
    requires IsText(w.kind) ==> z.shown == match LastWrite(ups, k) case None => w.shown case Some(v) => v
    ensures Tracks(z, WriteTo(p, ups, k)) && !WriteTo(p, ups, k).readOnly
  {
    TypesByNumber(p.kind);
    WritesTheLast(p, ups, k);
  }

  /** A view goes on following its property through any such list. */
  lemma {:induction false} ViewTracks(ws: seq<Widget>, ups: seq<Update>, p: Property, k: nat)
    requires InBounds(ups, |ws|) && k < |ws| && Tracks(ws[k], p) && !p.readOnly
    ensures Tracks(ShowAll(ws, ups)[k], WriteTo(p, ups, k)) && !WriteTo(p, ups, k).readOnly
  {
    ControlShows(ws, ups, k);
    TracksTheLast(ws[k], ShowAll(ws, ups)[k], p, ups, k);
  }

  /** And it starts by following it. */
  lemma CreatedTracks(ps: seq<Property>, n: nat, k: nat)
    requires Suitable(ps, n, k)
    ensures |Widgets(ps)| == n && Tracks(Widgets(ps)[k], ps[k])
  {
    KnownTypesKeepIndices(ps);
    ViewIdOfKnown(ps, k);
    WidgetsInOrder(ps);
    assert KnownType(ps[k]) && ViewOf(Widgets(ps)[ViewId(ps, k)], ps[k]);
  }

  lemma {:induction false} ShowsUntouched(ws: seq<Widget>, ups: seq<Update>, k: nat)
    requires k < |ws| && !Touches(ups, k)
    ensures ShowAll(ws, ups)[k] == ws[k]
    decreases |ups|
  {
    if ups != [] && InRange(ws, ups[0]) {
      assert ups[0] in ups && forall u <- ups[1..] :: u in ups;
      ShowsUntouched(ws[ups[0].prop := Show(ws[ups[0].prop], ups[0].value)], ups[1..], k);
    }
  }

  lemma SuitableIsFrozen(ps: seq<Property>, qs: seq<Property>, n: nat, k: nat)
    requires FrozenAll(ps) == FrozenAll(qs) && Suitable(ps, n, k)
    ensures Suitable(qs, n, k)
  {
    assert |FrozenAll(ps)| == |ps| && |FrozenAll(qs)| == |qs|;
    forall i | 0 <= i < n ensures ps[i].kind == qs[i].kind && ps[i].readOnly == qs[i].readOnly && KnownType(qs[i]) {
      assert FrozenAll(ps)[i] == FrozenAll(qs)[i] && Frozen(ps[i]) == Frozen(qs[i]);
      assert KnownType(ps[i]);
    }
  }

  /* ---- Lists with an id that no property has ---- */

  /** How many entries precede the first whose id no property has. */
  function Cut(ups: seq<Update>, n: nat): (c: nat)
    ensures c <= |ups| && InBounds(ups[..c], n)
    ensures c < |ups| ==> !(0 <= ups[c].prop < n)
  {
    if ups == [] || !(0 <= ups[0].prop < n) then 0
    else
      var c := Cut(ups[1..], n) + 1;
      assert forall u <- ups[..c] :: u == ups[0] || u in ups[1..][..c - 1];
      c
  }

  lemma {:induction false} ShowsUpToCut(ws: seq<Widget>, ups: seq<Update>)
    ensures ShowAll(ws, ups) == ShowAll(ws, ups[..Cut(ups, |ws|)])
    decreases |ups|
  {
    if ups != [] && InRange(ws, ups[0]) {
      ShowsUpToCut(ws[ups[0].prop := Show(ws[ups[0].prop], ups[0].value)], ups[1..]);
      var c := Cut(ups, |ws|);
      assert ups[..c][1..] == ups[1..][..c - 1];
    }
  }

  function With(ps: seq<Property>, k: nat, v: string): seq<Property>
    requires k < |ps|
  {
    ps[k := ps[k].(value := v)]
  }

  ghost predicate AgreeAfter(ps: seq<Property>, ups: seq<Update>, k: nat)
    requires k < |ps|
  {
    |Widgets(ps)| == |ps| && Agrees(ShowAll(Widgets(ps), ups)[k], ApplyUpdates(ps, ups)[k])
  }

  function Final(v: string, last: Option<string>): string {
    if last.Some? then last.value else v
  }

  lemma {:induction false} ValueAtHost(ps: seq<Property>, ups: seq<Update>, k: nat)
    requires k < |ps|
    ensures ApplyUpdates(ps, ups)[k] == if ps[k].readOnly then ps[k] else ps[k].(value := Final(ps[k].value, LastWrite(ups, k)))
  {
    UpdatesAt(ps, ups, k);
    WritesTheLast(ps[k], ups, k);
  }

  lemma ValueOnPage(ps: seq<Property>, ups: seq<Update>, k: nat)
    requires Suitable(ps, |ps|, k)
    ensures |Widgets(ps)| == |ps|
    ensures Tracks(ShowAll(Widgets(ps), ups)[k], ps[k].(value := Final(ps[k].value, LastWrite(ups[..Cut(ups, |ps|)], k))))
  {
    CreatedTracks(ps, |ps|, k);
    ShowsUpToCut(Widgets(ps), ups);
    ViewTracks(Widgets(ps), ups[..Cut(ups, |ps|)], ps[k], k);
    WritesTheLast(ps[k], ups[..Cut(ups, |ps|)], k);
  }

  lemma {:induction false} LaterWritesRemain(ups: seq<Update>, c: nat, k: nat)
    requires c <= |ups| && LastWrite(ups[..c], k).Some?
    ensures LastWrite(ups, k).Some?
    decreases |ups|
  {
    if c > 0 && LastWrite(ups[..c][1..], k).Some? {
      assert ups[..c][1..] == ups[1..][..c - 1];
      LaterWritesRemain(ups[1..], c - 1, k);
    }
  }

  /** Both lists end without a value for the property, or with values that come to the same. */
  predicate SameEnd(kind: int, a: Option<string>, b: Option<string>) {
    (a.None? <==> b.None?) && (a.Some? && b.Some? ==> Same(kind, a.value, b.value))
  }

  lemma SomethingElse(kind: int, v: string) returns (w: string)
    ensures !Same(kind, w, v)
  {
    if kind in {1, 2} {
      w := if v == "1" then "0" else "1";
    } else {
      w := v + "x";
      assert |w| != |v|;
    }
  }

  /** The host skips an id that is too large and goes on; the page throws there and loses the rest of
      the list. They agree on a switch or a text, whatever its value was, if and only if what the list has
      for it before the first id that no property has ends as the whole list does. */
  lemma {:induction false} ListAgreesIff(ps: seq<Property>, ups: seq<Update>, k: nat)
    requires Suitable(ps, |ps|, k) && NonNegative(ups)
    ensures (forall v: string :: AgreeAfter(With(ps, k, v), ups, k))
            <==> SameEnd(ps[k].kind, LastWrite(ups[..Cut(ups, |ps|)], k), LastWrite(ups, k))
  {
    var kind, early, last := ps[k].kind, LastWrite(ups[..Cut(ups, |ps|)], k), LastWrite(ups, k);
    forall v: string ensures AgreeAfter(With(ps, k, v), ups, k) <==> Same(kind, Final(v, early), Final(v, last)) {
      AgreesOnce(ps, ups, k, v);
    }
    if early.Some? { LaterWritesRemain(ups, Cut(ups, |ps|), k); }
    if !SameEnd(kind, early, last) {
      var v := SomethingElse(kind, last.value);
      assert !AgreeAfter(With(ps, k, v), ups, k);
    }
  }

  lemma AgreesOnce(ps: seq<Property>, ups: seq<Update>, k: nat, v: string)
    requires Suitable(ps, |ps|, k)
    ensures AgreeAfter(With(ps, k, v), ups, k)
            <==> Same(ps[k].kind, Final(v, LastWrite(ups[..Cut(ups, |ps|)], k)), Final(v, LastWrite(ups, k)))
  {
    var qs := With(ps, k, v);
    assert forall i :: 0 <= i < |ps| ==> KnownType(ps[i]) && KnownType(qs[i]);
    ValueAtHost(qs, ups, k);
    ValueOnPage(qs, ups, k);
  }

  /** A page does not know which properties are read-only: after any list the host still has the
      registered value, and the page shows it if and only if the last value that the list has for it, up
      to the first id that no property has, comes to that value or is missing. */
  lemma ReadOnlyAgreesIff(ps: seq<Property>, ups: seq<Update>, k: nat)
    requires k < |ps| && (forall i :: 0 <= i < |ps| ==> KnownType(ps[i]))
    requires 1 <= ps[k].kind <= 8 && ps[k].readOnly
    ensures ApplyUpdates(ps, ups)[k] == ps[k]
    ensures AgreeAfter(ps, ups, k) <==> Same(ps[k].kind, Final(ps[k].value, LastWrite(ups[..Cut(ups, |ps|)], k)), ps[k].value)
  {
    ValueAtHost(ps, ups, k);
    var qs := ps[k := ps[k].(readOnly := false)];
    assert forall i :: 0 <= i < |ps| ==> KnownType(ps[i]) && KnownType(qs[i]);
    ValueOnPage(qs, ups, k);
    SameViews(ps, qs);
  }

  /** Views do not tell read-only properties. */
  lemma {:induction false} SameViews(ps: seq<Property>, qs: seq<Property>)
    requires |ps| == |qs| && forall i :: 0 <= i < |ps| ==> qs[i] == ps[i].(readOnly := qs[i].readOnly)
    ensures Widgets(ps) == Widgets(qs)
    decreases |ps|
  {
    if ps != [] { SameViews(ps[..|ps| - 1], qs[..|qs| - 1]); }
  }
}
