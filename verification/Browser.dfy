/** The web page's copy of the modules: property views, the modules that hold them, and the table of
    modules that incoming messages change in place. */
module Browser {
  import opened Model
  import opened Order

  datatype PropertyType =
    | BUTTON | BUTTON_SW | BUTTON_SW_IN | TEXT | TEXT_BT | TEXT_RO
    | TEXT_AREA | TEXT_AREA_BT | TEXT_AREA_RO | LOG | SCRIPT

  const TYPES := [BUTTON, BUTTON_SW, BUTTON_SW_IN, TEXT, TEXT_BT, TEXT_RO, TEXT_AREA, TEXT_AREA_BT, TEXT_AREA_RO, LOG, SCRIPT]

  function FromId(kind: int): Option<PropertyType> {
    if 0 <= kind < |TYPES| then Some(TYPES[kind]) else None
  }

  /** A property view; `shown` is what its control holds. */
  datatype Widget = Widget(id: int, kind: PropertyType, caption: string, shown: string)

  datatype BModule = BModule(name: string, widgets: seq<Widget>)

  type Replica = map<int, BModule>

  predicate IsSwitch(kind: PropertyType) {
    kind.BUTTON_SW? || kind.BUTTON_SW_IN?
  }

  predicate IsText(kind: PropertyType) {
    kind in {TEXT, TEXT_BT, TEXT_RO, TEXT_AREA, TEXT_AREA_BT, TEXT_AREA_RO}
  }

  /** Left out when the Apply button sends the others. */
  predicate IsIndependent(kind: PropertyType) {
    kind !in {BUTTON_SW, TEXT, TEXT_AREA}
  }

  /* ---- Controls ---- */

  /** What the user meets: a box to click, a checkbox, a line or an area to type in, or what a script
      makes. */
  datatype Control = Box | Checkbox | Line | Area | Scripted

  /** What the constructors of a view build: its control, whether a click on it sends the property, whether
      there is a Send button beside it, and whether it is marked as read-only. */
  datatype Node = Node(control: Control, sendsOnClick: bool, sendButton: bool, marked: bool)

  function Built(kind: PropertyType): Node {
    match kind
    case BUTTON => Node(Box, true, false, false)
    case BUTTON_SW => Node(Checkbox, false, false, false)
    case BUTTON_SW_IN => Node(Checkbox, true, false, false)
    case TEXT => Node(Line, false, false, false)
    case TEXT_BT => Node(Line, false, true, false)
    case TEXT_RO => Node(Line, false, false, true)
    case TEXT_AREA => Node(Area, false, false, false)
    case TEXT_AREA_BT => Node(Area, false, true, false)
    case TEXT_AREA_RO => Node(Area, false, false, true)
    case LOG => Node(Area, false, false, true)
    case SCRIPT => Node(Scripted, false, false, false)
  }

  /** The user can send this property alone. */
  predicate SendsItself(kind: PropertyType) {
    Built(kind).sendsOnClick || Built(kind).sendButton
  }

  /** A view to operate, that is any but a script's and those marked as read-only, sends its property
      alone or leaves it to the Apply button, and never both; one that is marked does neither. */
  lemma OneRoute(kind: PropertyType)
    ensures !Built(kind).marked && !kind.SCRIPT? ==> (SendsItself(kind) <==> IsIndependent(kind))
    ensures Built(kind).marked ==> !SendsItself(kind) && IsIndependent(kind)
    ensures Built(kind).control.Checkbox? <==> IsSwitch(kind)
    ensures Built(kind).control in {Line, Area} <==> IsText(kind) || kind.LOG?
  {}

  /** The numbers that programs register mean these types. */
  lemma TypesByNumber(kind: int)
    ensures FromId(kind).Some? <==> 0 <= kind <= 10
    ensures 0 <= kind <= 10 ==>
              var t := FromId(kind).value;
              && (t.BUTTON? <==> kind == 0) && (IsSwitch(t) <==> kind in {1, 2}) && (IsText(t) <==> 3 <= kind <= 8)
              && (t.LOG? <==> kind == 9) && (t.SCRIPT? <==> kind == 10)
    ensures 0 <= kind <= 10 ==> (!IsIndependent(FromId(kind).value) <==> kind in {1, 3, 6})
    ensures 0 <= kind <= 10 ==> (SendsItself(FromId(kind).value) <==> kind in {0, 2, 4, 7})
  {}

  function Checked(value: string): string {
    if value == "1" then "1" else "0"
  }

  function NewWidget(id: int, kind: PropertyType, name: string, value: string): Widget {
    Widget(id, kind, if kind.SCRIPT? then "" else name,
           if IsSwitch(kind) then Checked(value) else if kind.BUTTON? then "" else value)
  }

  /** Newest first; an empty value clears. */
  function LogText(text: string, value: string): string {
    if value == "" then "" else if text == "" then value else value + "\n" + text
  }

  /** A script's own setter is not part of the model: its view stays as it is. */
  function Show(w: Widget, value: string): Widget {
    if w.kind.BUTTON? || w.kind.SCRIPT? then w
    else if IsSwitch(w.kind) then w.(shown := Checked(value))
    else if w.kind.LOG? then w.(shown := LogText(w.shown, value))
    else w.(shown := value)
  }

  /** What a control of this type holds when it is told the value. */
  function Held(kind: PropertyType, value: string): string {
    if IsSwitch(kind) then Checked(value) else value
  }

  function GetValue(w: Widget): string {
    if w.kind.BUTTON? then "1" else w.shown
  }

  /** What a page sends for a property is what it was last told: the text, or whether a switch was told
      "1"; being told when it is created and being told later are the same; a button always sends "1",
      whatever it is told. */
  lemma ValueComesBack(w: Widget, value: string)
    ensures IsText(w.kind) ==> GetValue(Show(w, value)) == value
    ensures IsSwitch(w.kind) ==> GetValue(Show(w, value)) in {"0", "1"} && (GetValue(Show(w, value)) == "1" <==> value == "1")
    ensures IsText(w.kind) || IsSwitch(w.kind) ==> Show(w, value).shown == NewWidget(w.id, w.kind, w.caption, value).shown
    ensures w.kind.BUTTON? ==> Show(w, value) == w && GetValue(w) == "1"
    ensures Show(w, value).(shown := w.shown) == w
  {}

  /* ---- Registered properties and property views ---- */

  /** A property of an unknown type gets no view. */
  function AddWidget(ws: seq<Widget>, p: Property): seq<Widget> {
    match FromId(p.kind)
    case None => ws
    case Some(kind) => ws + [NewWidget(|ws|, kind, p.name, p.value)]
  }

  function Widgets(ps: seq<Property>): seq<Widget> {
    if ps == [] then [] else AddWidget(Widgets(ps[..|ps| - 1]), ps[|ps| - 1])
  }

  function Opened(m: Module): BModule {
    BModule(m.name, Widgets(m.properties))
  }

  predicate KnownType(p: Property) {
    FromId(p.kind).Some?
  }

  /** How many of the properties before the j-th have a view: the id the j-th one gets. */
  function ViewId(ps: seq<Property>, j: nat): (r: nat)
    requires j <= |ps|
    ensures r <= j
  {
    if j == 0 then 0 else ViewId(ps, j - 1) + if KnownType(ps[j - 1]) then 1 else 0
  }

  lemma {:induction false} ViewIdIsPrefix(ps: seq<Property>, n: nat, j: nat)
    requires j <= n <= |ps|
    ensures ViewId(ps[..n], j) == ViewId(ps, j)
    ensures ViewId(ps, j) <= ViewId(ps, n)
    decreases n + j
  {
    if j > 0 { ViewIdIsPrefix(ps, n, j - 1); }
    if j < n {
      ViewIdIsPrefix(ps, n - 1, j);
    }
  }

  /** A view of the property: of its type, with its name as caption, and in the control its value, or
      whether that is "1" for a switch; a button holds nothing, and a script has no caption. */
  predicate ViewOf(w: Widget, p: Property) {
    && FromId(p.kind) == Some(w.kind)
    && (p.kind != 10 ==> w.caption == p.name)
    && (p.kind in {1, 2} ==> w.shown in {"0", "1"} && (w.shown == "1" <==> p.value == "1"))
    && (3 <= p.kind <= 9 ==> w.shown == p.value)
  }

  /** Views keep the order of registration, have their positions as ids, and the view of the j-th
      property is found at ViewId, with the property's type, name and value. */
  lemma WidgetsInOrder(ps: seq<Property>)
    ensures |Widgets(ps)| == ViewId(ps, |ps|)
    ensures forall i :: 0 <= i < |Widgets(ps)| ==> Widgets(ps)[i].id == i
    ensures forall j :: 0 <= j < |ps| && 0 <= ps[j].kind <= 10 ==>
              ViewId(ps, j) < |Widgets(ps)| && ViewOf(Widgets(ps)[ViewId(ps, j)], ps[j])
  {
    WidgetsAre(ps);
    forall j | 0 <= j < |ps| && 0 <= ps[j].kind <= 10 ensures ViewId(ps, j) < |Widgets(ps)| && ViewOf(Widgets(ps)[ViewId(ps, j)], ps[j]) {
      TypesByNumber(ps[j].kind);
      assert KnownType(ps[j]);
    }
  }

  lemma {:induction false} WidgetsAre(ps: seq<Property>)
    ensures |Widgets(ps)| == ViewId(ps, |ps|)
    ensures forall i :: 0 <= i < |Widgets(ps)| ==> Widgets(ps)[i].id == i
    ensures forall j :: 0 <= j < |ps| && KnownType(ps[j]) ==>
              ViewId(ps, j) < |Widgets(ps)|
              && Widgets(ps)[ViewId(ps, j)] == NewWidget(ViewId(ps, j), FromId(ps[j].kind).value, ps[j].name, ps[j].value)
    decreases |ps|
  {
    if ps != [] {
      var n := |ps| - 1;
      WidgetsAre(ps[..n]);
      ViewIdIsPrefix(ps, n, n);
      forall j | 0 <= j < |ps| && KnownType(ps[j])
        ensures ViewId(ps, j) < |Widgets(ps)|
        ensures Widgets(ps)[ViewId(ps, j)] == NewWidget(ViewId(ps, j), FromId(ps[j].kind).value, ps[j].name, ps[j].value)
      {
        if j < n {
          ViewIdIsPrefix(ps, n, j);
          assert ps[..n][j] == ps[j];
        }
      }
    }
  }

  lemma {:induction false} ViewIdOfKnown(ps: seq<Property>, j: nat)
    requires j <= |ps|
    ensures ViewId(ps, j) == j <==> forall i :: 0 <= i < j ==> KnownType(ps[i])
  {
    if j > 0 { ViewIdOfKnown(ps, j - 1); }
  }

  /** The ids of the page are registration indices if and only if no property of a known type was
      registered after one of an unknown type. */
  lemma IdsAreRegistrationIndices(ps: seq<Property>)
    ensures (forall j :: 0 <= j < |ps| && KnownType(ps[j]) ==> ViewId(ps, j) == j)
            <==> (forall i, j :: 0 <= i < j < |ps| && KnownType(ps[j]) ==> KnownType(ps[i]))
  {
    forall j | 0 <= j < |ps| ensures ViewId(ps, j) == j <==> forall i :: 0 <= i < j ==> KnownType(ps[i]) {
      ViewIdOfKnown(ps, j);
    }
  }

  lemma KnownTypesKeepIndices(ps: seq<Property>)
    requires forall j :: 0 <= j < |ps| ==> KnownType(ps[j])
    ensures |Widgets(ps)| == |ps|
    ensures forall j :: 0 <= j < |ps| ==> KnownType(ps[j]) && Widgets(ps)[j] == NewWidget(j, FromId(ps[j].kind).value, ps[j].name, ps[j].value)
  {
    WidgetsAre(ps);
    forall j | 0 <= j <= |ps| ensures ViewId(ps, j) == j {
      ViewIdOfKnown(ps, j);
    }
  }

  /* ---- Values written to a module ---- */

  predicate InRange(ws: seq<Widget>, u: Update) {
    0 <= u.prop < |ws|
  }

  /** An id without a view throws: what precedes it is kept, what follows is lost. */
  function ShowAll(ws: seq<Widget>, ups: seq<Update>): (r: seq<Widget>)
    ensures |r| == |ws|
    ensures forall i :: 0 <= i < |ws| ==> r[i].id == ws[i].id && r[i].kind == ws[i].kind && r[i].caption == ws[i].caption
    decreases |ups|
  {
    if ups == [] || !InRange(ws, ups[0]) then ws
    else ShowAll(ws[ups[0].prop := Show(ws[ups[0].prop], ups[0].value)], ups[1..])
  }

  lemma ShowNext(ws: seq<Widget>, ups: seq<Update>, i: nat)
    requires i < |ups|
    ensures ShowAll(ws, ups[i..]) == if InRange(ws, ups[i]) then ShowAll(ShowAll(ws, [ups[i]]), ups[i + 1..]) else ShowAll(ws, [ups[i]])
    ensures ups[..i + 1] == ups[..i] + [ups[i]]
  {
    assert ups[i..][1..] == ups[i + 1..] && [ups[i]][1..] == [];
  }

  lemma {:induction false} ShowAllConcat(ws: seq<Widget>, a: seq<Update>, b: seq<Update>)
    requires forall u <- a :: InRange(ws, u)
    ensures ShowAll(ws, a + b) == ShowAll(ShowAll(ws, a), b)
    decreases |a|
  {
    if a == [] {
      assert a + b == b;
    } else {
      assert a[0] in a && forall u <- a[1..] :: u in a;
      assert (a + b)[0] == a[0] && (a + b)[1..] == a[1..] + b;
      ShowAllConcat(ws[a[0].prop := Show(ws[a[0].prop], a[0].value)], a[1..], b);
    }
  }

  /* ---- What the user does ---- */

  function WithView(r: Replica, id: int, k: nat, w: Widget): Replica
    requires id in r && k < |r[id].widgets|
  {
    r[id := r[id].(widgets := r[id].widgets[k := w])]
  }

  predicate HasView(r: Replica, id: int, k: nat) {
    id in r && k < |r[id].widgets|
  }

  /** Typing into a line or an area, marked or not, and setting a switch that sends nothing. */
  function Edited(r: Replica, id: int, k: nat, text: string): Replica {
    if !HasView(r, id, k) then r
    else
      var w := r[id].widgets[k];
      match Built(w.kind).control
      case Line => WithView(r, id, k, w.(shown := text))
      case Area => WithView(r, id, k, w.(shown := text))
      case Checkbox => if SendsItself(w.kind) then r else WithView(r, id, k, w.(shown := Checked(text)))
      case _ => r
  }

  /** Operating what sends the property alone: a click turns a switch round before it sends. */
  function Clicked(w: Widget): Widget {
    if Built(w.kind).control.Checkbox? then w.(shown := if w.shown == "1" then "0" else "1") else w
  }

  /* ---- What the page receives ---- */

  datatype Item = Push(msg: Msg) | List(modules: map<int, Module>)

  function See(r: Replica, e: Item): Replica {
    match e
    case Push(Added(id, name, ps)) => r[id := Opened(Module(name, ps, false))]
    case Push(Removed(id)) => r - {id}
    case Push(Updated(id, ups)) => if id in r then r[id := r[id].(widgets := ShowAll(r[id].widgets, ups))] else r
    case List(ms) => Created(r, ms, ms.Keys)
  }

  class BrowserModule {
    const id: int
    const name: string
    var properties: seq<Widget>

    constructor (id: int, name: string)
      ensures this.id == id && this.name == name && properties == []
    {
      this.id, this.name, properties := id, name, [];
    }

    function Value(): BModule
      reads this
    {
      BModule(name, properties)
    }

    method AddProperty(kind: int, caption: string, value: string)
      modifies this`properties
      ensures properties == AddWidget(old(properties), Property(kind, caption, value, false))
    {
      var viewId := |properties|;
      var propertyType := FromId(kind);
      if propertyType.Some? {
        properties := properties + [NewWidget(viewId, propertyType.value, caption, value)];
      }
    }

    method SetPropertyValue(propertyId: int, value: string) returns (threw: bool)
      modifies this`properties
      ensures threw <==> !InRange(old(properties), Update(propertyId, value))
      ensures properties == ShowAll(old(properties), [Update(propertyId, value)])
      ensures !threw && IsText(old(properties)[propertyId].kind) ==> properties[propertyId].shown == value
      ensures !threw && IsSwitch(old(properties)[propertyId].kind) ==> properties[propertyId].shown == if value == "1" then "1" else "0"
    {
      assert [Update(propertyId, value)][1..] == [];
      threw := !(0 <= propertyId < |properties|);
      if !threw {
        properties := properties[propertyId := Show(properties[propertyId], value)];
      }
    }

    /** An Apply button is shown exactly when there is something to batch. */
    method NeedsApplyButton() returns (b: bool)
      ensures b <==> exists i :: 0 <= i < |properties| && properties[i].kind in {BUTTON_SW, TEXT, TEXT_AREA}
    {
      for i := 0 to |properties|
        invariant forall j :: 0 <= j < i ==> IsIndependent(properties[j].kind)
      {
        if !IsIndependent(properties[i].kind) { return true; }
      }
      b := false;
    }

    /** The list that the Apply button sends: every property that waits for it, once, with its current
        value, in the order of the page. */
    method CreatePropertiesUpdated() returns (ups: seq<Update>)
      requires forall i :: 0 <= i < |properties| ==> properties[i].id == i
      ensures IsBatch(properties, ups) && ups == BatchOf(properties)
    {
      ups := [];
      for i := 0 to |properties|
        invariant IsBatch(properties[..i], ups)
      {
        ghost var before := ups;
        if !IsIndependent(properties[i].kind) {
          ups := ups + [Update(properties[i].id, GetValue(properties[i]))];
        }
        BatchGrows(properties[..i], before, properties[i]);
        assert properties[..i + 1] == properties[..i] + [properties[i]];
      }
      assert properties[..|properties|] == properties;
      BatchOfIsBatch(properties);
      BatchIsUnique(properties, ups, BatchOf(properties));
    }
  }

  /** Increasing ids, exactly those of the properties that are not independent, each with what its
      control holds. */
  predicate IsBatch(ws: seq<Widget>, ups: seq<Update>) {
    && (forall j, k :: 0 <= j < k < |ups| ==> ups[j].prop < ups[k].prop)
    && (forall u <- ups :: InRange(ws, u) && !IsIndependent(ws[u.prop].kind) && u.value == GetValue(ws[u.prop]))
    && (forall i :: 0 <= i < |ws| && !IsIndependent(ws[i].kind) ==> Update(i, GetValue(ws[i])) in ups)
  }

  /** The list, entry by entry as the loop builds it. */
  function BatchOf(ws: seq<Widget>): seq<Update> {
    if ws == [] then []
    else
      var n := |ws| - 1;
      if IsIndependent(ws[n].kind) then BatchOf(ws[..n]) else BatchOf(ws[..n]) + [Update(ws[n].id, GetValue(ws[n]))]
  }

  lemma {:induction false} BatchOfIsBatch(ws: seq<Widget>)
    requires forall i :: 0 <= i < |ws| ==> ws[i].id == i
    ensures IsBatch(ws, BatchOf(ws))
    decreases |ws|
  {
    if ws != [] {
      var n := |ws| - 1;
      BatchOfIsBatch(ws[..n]);
      BatchGrows(ws[..n], BatchOf(ws[..n]), ws[n]);
      assert ws == ws[..n] + [ws[n]];
    }
  }

  lemma BatchGrows(ws: seq<Widget>, ups: seq<Update>, w: Widget)
    requires IsBatch(ws, ups) && w.id == |ws|
    ensures IsBatch(ws + [w], if IsIndependent(w.kind) then ups else ups + [Update(w.id, GetValue(w))])
  {
    var vs, us := ws + [w], if IsIndependent(w.kind) then ups else ups + [Update(w.id, GetValue(w))];
    forall i | 0 <= i < |vs| && !IsIndependent(vs[i].kind) ensures Update(i, GetValue(vs[i])) in us {
      if i < |ws| { assert Update(i, GetValue(ws[i])) in ups; }
    }
    forall j, k | 0 <= j < k < |us| ensures us[j].prop < us[k].prop {
      assert us[j] in ups || j == |ups|;
      assert j < |ups|;
      assert ups[j] in ups;
    }
  }

  /** There is only one such list. */
  lemma BatchIsUnique(ws: seq<Widget>, a: seq<Update>, b: seq<Update>)
    requires IsBatch(ws, a) && IsBatch(ws, b)
    ensures a == b
  {
    SameBatchPrefix(ws, a, b, |a|);
    SameBatchPrefix(ws, b, a, |b|);
  }

  lemma {:induction false} SameBatchPrefix(ws: seq<Widget>, a: seq<Update>, b: seq<Update>, n: nat)
    requires IsBatch(ws, a) && IsBatch(ws, b) && n <= |a|
    ensures n <= |b| && a[..n] == b[..n]
  {
    if n > 0 {
      SameBatchPrefix(ws, a, b, n - 1);
      var k := FoundLater(ws, a, b, n - 1);
      var l := FoundLater(ws, b, a, n - 1);
      assert a[..n] == a[..n - 1] + [a[n - 1]] && b[..n] == b[..n - 1] + [b[n - 1]];
      assert a[n - 1].prop <= a[l].prop && b[n - 1].prop <= b[k].prop;
      assert a[n - 1] in a && b[n - 1] in b;
    }
  }

  /** After a common prefix, the next entry of one list is still to come in the other. */
  lemma FoundLater(ws: seq<Widget>, a: seq<Update>, b: seq<Update>, n: nat) returns (k: nat)
    requires IsBatch(ws, a) && IsBatch(ws, b) && n < |a| && n <= |b| && a[..n] == b[..n]
    ensures n <= k < |b| && b[k] == a[n]
  {
    assert a[n] in a;
    assert a[n] == Update(a[n].prop, GetValue(ws[a[n].prop]));
    assert a[n] in b;
    k :| 0 <= k < |b| && b[k] == a[n];
    assert forall j :: 0 <= j < n ==> a[j] == a[..n][j] == b[..n][j] == b[j];
  }

  /** The views are those of the registered properties, whatever they hold. */
  ghost predicate ViewsOf(ws: seq<Widget>, ps: seq<Property>) {
    |ws| == |Widgets(ps)| && forall i :: 0 <= i < |ws| ==> ws[i].id == i && ws[i].kind == Widgets(ps)[i].kind
  }

  lemma {:induction false} EachViewHasItsProperty(ps: seq<Property>, i: nat) returns (j: nat)
    requires i < |Widgets(ps)|
    ensures j < |ps| && 0 <= ps[j].kind <= 10 && ViewId(ps, j) == i
    decreases |ps|
  {
    var n := |ps| - 1;
    WidgetsAre(ps[..n]);
    if i < |Widgets(ps[..n])| {
      j := EachViewHasItsProperty(ps[..n], i);
      ViewIdIsPrefix(ps, n, j);
    } else {
      j := n;
      ViewIdIsPrefix(ps, n, n);
    }
  }

  /** The Apply list over registered properties: it has an entry for the view of a property exactly if the
      property is a plain switch, text or text area, that is of type 1, 3 or 6, and no other entries. */
  lemma {:induction false} ListsByNumber(ws: seq<Widget>, ps: seq<Property>, ups: seq<Update>)
    requires ViewsOf(ws, ps) && IsBatch(ws, ups)
    ensures forall j :: 0 <= j < |ps| && 0 <= ps[j].kind <= 10 ==>
              ((exists u <- ups :: u.prop == ViewId(ps, j)) <==> ps[j].kind in {1, 3, 6})
    ensures forall u <- ups :: exists j :: 0 <= j < |ps| && ps[j].kind in {1, 3, 6} && ViewId(ps, j) == u.prop
  {
    WidgetsInOrder(ps);
    forall j | 0 <= j < |ps| && 0 <= ps[j].kind <= 10
      ensures ViewId(ps, j) < |ws| && ((exists u <- ups :: u.prop == ViewId(ps, j)) <==> ps[j].kind in {1, 3, 6})
    {
      var i := ViewId(ps, j);
      assert ViewOf(Widgets(ps)[i], ps[j]);
      TypesByNumber(ps[j].kind);
      if ps[j].kind in {1, 3, 6} { assert Update(i, GetValue(ws[i])) in ups; }
    }
    forall u | u in ups ensures exists j :: 0 <= j < |ps| && ps[j].kind in {1, 3, 6} && ViewId(ps, j) == u.prop {
      var j := EachViewHasItsProperty(ps, u.prop);
      assert ViewOf(Widgets(ps)[u.prop], ps[j]);
      TypesByNumber(ps[j].kind);
    }
  }

  /** There is an Apply button exactly if one of the registered properties is of type 1, 3 or 6. */
  lemma {:induction false} ApplyByNumber(ws: seq<Widget>, ps: seq<Property>)
    requires ViewsOf(ws, ps)
    ensures (exists i :: 0 <= i < |ws| && ws[i].kind in {BUTTON_SW, TEXT, TEXT_AREA}) <==> exists p <- ps :: p.kind in {1, 3, 6}
  {
    BatchOfIsBatch(ws);
    ListsByNumber(ws, ps, BatchOf(ws));
    if p :| p in ps && p.kind in {1, 3, 6} {
      var j :| 0 <= j < |ps| && ps[j] == p;
      var u :| u in BatchOf(ws) && u.prop == ViewId(ps, j);
    }
    if i :| 0 <= i < |ws| && ws[i].kind in {BUTTON_SW, TEXT, TEXT_AREA} {
      assert Update(i, GetValue(ws[i])) in BatchOf(ws);
    }
  }

  function Created(r: Replica, listed: map<int, Module>, ids: set<int>): Replica
    requires ids <= listed.Keys
  {
    r + map id | id in ids :: Opened(listed[id])
  }

  lemma CreatedNone(r: Replica, listed: map<int, Module>)
    ensures Created(r, listed, {}) == r
  {}

  lemma CreatedNext(r: Replica, listed: map<int, Module>, ids: set<int>, i: int)
    requires ids + {i} <= listed.Keys
    ensures Created(r, listed, ids + {i}) == Created(r, listed, ids)[i := Opened(listed[i])]
  {}

  function ValuesOf(ms: map<int, BrowserModule>): Replica
    reads ms.Values
  {
    map i | i in ms :: ms[i].Value()
  }

  class BrowserModuleManager {
    var modules: map<int, BrowserModule>

    ghost predicate Valid()
      reads this
    {
      && (forall i :: i in modules ==> modules[i].id == i)
      && (forall i, j :: i in modules && j in modules && i != j ==> modules[i] != modules[j])
    }

    function View(): Replica
      reads this, modules.Values
    {
      ValuesOf(modules)
    }

    constructor ()
      ensures Valid() && View() == map[]
    {
      modules := map[];
    }

    /** A module under an id in use takes its place. */
    method CrateModule(id: int, m: Module)
      requires Valid()
      modifies this`modules
      ensures Valid() && View() == old(View())[id := Opened(m)]
      ensures id in modules && fresh(modules[id]) && modules == old(modules)[id := modules[id]]
    {
      var b := new BrowserModule(id, m.name);
      for i := 0 to |m.properties|
        invariant fresh(b) && modules == old(modules) && b.properties == Widgets(m.properties[..i])
      {
        assert m.properties[..i + 1][..i] == m.properties[..i];
        b.AddProperty(m.properties[i].kind, m.properties[i].name, m.properties[i].value);
      }
      assert m.properties[..|m.properties|] == m.properties;
      modules := modules[id := b];
    }

    /** An unknown id throws; the table is as before. */
    method DeleteModule(id: int) returns (threw: bool)
      requires Valid()
      modifies this`modules
      ensures Valid() && modules == old(modules) - {id}
      ensures threw <==> id !in old(modules)
    {
      threw := id !in modules;
      if threw { return; }
      modules := modules - {modules[id].id};
    }

    /** An unknown module id is ignored; an unknown property id throws. */
    method SetModuleProperties(id: int, ups: seq<Update>) returns (threw: bool)
      requires Valid()
      modifies if id in modules then {modules[id]} else {}
      ensures Valid() && View() == See(old(View()), Push(Updated(id, ups)))
      ensures threw <==> id in modules && exists u <- ups :: !InRange(old(modules[id].properties), u)
    {
      threw := false;
      if id !in modules { return; }
      var m := modules[id];
      ghost var before := m.properties;
      var i := 0;
      while i < |ups| && !threw
        invariant 0 <= i <= |ups| && |m.properties| == |before|
        invariant threw <==> exists u <- ups[..i] :: !InRange(before, u)
        invariant ShowAll(before, ups) == if threw then m.properties else ShowAll(m.properties, ups[i..])
      {
        ShowNext(m.properties, ups, i);
        assert Update(ups[i].prop, ups[i].value) == ups[i];
        threw := m.SetPropertyValue(ups[i].prop, ups[i].value);
        assert threw <==> !InRange(before, ups[i]);
        i := i + 1;
      }
      assert threw ==> forall u <- ups[..i] :: u in ups;
      assert !threw ==> ups[..i] == ups;
      assert forall j :: j in modules && j != id ==> View()[j] == old(View())[j];
      assert View() == See(old(View()), Push(Updated(id, ups)));
    }

    method Clear()
      modifies this`modules
      ensures Valid() && View() == map[]
    {
      modules := map[];
    }

    /** The next one of a list, after those that are created. */
    method CreateListed(listed: map<int, Module>, i: int, ghost was: Replica, ghost done: set<int>)
      requires Valid() && done + {i} <= listed.Keys && View() == Created(was, listed, done)
      modifies this`modules
      ensures Valid() && View() == Created(was, listed, done + {i})
    {
      CrateModule(i, listed[i]);
      CreatedNext(was, listed, done, i);
    }

    /** The answer to a load request: every module listed is created, in the order of the ids. */
    method OnModuleList(listed: map<int, Module>)
      requires Valid()
      modifies this`modules
      ensures Valid() && View() == See(old(View()), List(listed))
    {
      var rest := listed.Keys;
      ghost var was, done := View(), {};
      CreatedNone(was, listed);
      while rest != {}
        invariant Valid() && done + rest == listed.Keys
        invariant View() == Created(was, listed, done)
        decreases |rest|
      {
        var i := Least(rest);
        CreateListed(listed, i, was, done);
        rest, done := rest - {i}, done + {i};
      }
      assert done == listed.Keys;
    }

    method OnMessage(e: Item) returns (threw: bool)
      requires Valid()
      modifies this`modules, if e.Push? && e.msg.Updated? && e.msg.id in modules then {modules[e.msg.id]} else {}
      ensures Valid() && View() == See(old(View()), e)
    {
      threw := false;
      match e
      case Push(Updated(id, ups)) => threw := SetModuleProperties(id, ups);
      case Push(Added(id, name, ps)) => CrateModule(id, Module(name, ps, false));
      case Push(Removed(id)) => threw := DeleteModule(id);
      case List(ms) => OnModuleList(ms);
    }
  }

  /* ---- Log fields ---- */

  function LogAll(text: string, values: seq<string>): string {
    if values == [] then text else LogText(LogAll(text, values[..|values| - 1]), values[|values| - 1])
  }

  /** What a reader of the log expects to find: the non-empty values since the last empty one, oldest
      first, after the initial value if nothing cleared it. */
  function Lines(initial: string, values: seq<string>): seq<string> {
    if values == [] then (if initial == "" then [] else [initial])
    else
      var n := |values| - 1;
      if values[n] == "" then [] else Lines(initial, values[..n]) + [values[n]]
  }

  function JoinNewestFirst(lines: seq<string>): string {
    if lines == [] then ""
    else if |lines| == 1 then lines[0]
    else lines[|lines| - 1] + "\n" + JoinNewestFirst(lines[..|lines| - 1])
  }

  lemma {:induction false} LinesAreNotEmpty(initial: string, values: seq<string>)
    ensures forall l <- Lines(initial, values) :: l != ""
    ensures Lines(initial, values) != [] ==> JoinNewestFirst(Lines(initial, values)) != ""
    decreases |values|
  {
    if values != [] { LinesAreNotEmpty(initial, values[..|values| - 1]); }
  }

  /** After any sequence of updates a log field holds the newline join, newest first, of the non-empty
      values since the last empty update, or since the initial value. */
  lemma {:induction false} LogAccumulates(initial: string, values: seq<string>)
    ensures LogAll(initial, values) == JoinNewestFirst(Lines(initial, values))
    decreases |values|
  {
    if values != [] {
      var n := |values| - 1;
      LogAccumulates(initial, values[..n]);
      LinesAreNotEmpty(initial, values[..n]);
      var ls := Lines(initial, values[..n]);
      if values[n] != "" {
        assert (ls + [values[n]])[..|ls|] == ls;
      }
    }
  }

  /** A split sequence of updates leaves the same text as the whole. */
  lemma {:induction false} LogOfSplit(text: string, a: seq<string>, b: seq<string>)
    ensures LogAll(text, a + b) == LogAll(LogAll(text, a), b)
    decreases |b|
  {
    if b == [] {
      assert a + b == a;
    } else {
      var n := |b| - 1;
      LogOfSplit(text, a, b[..n]);
      assert (a + b)[..|a| + n] == a + b[..n];
    }
  }

  function ValuesFor(ups: seq<Update>, k: nat): seq<string> {
    if ups == [] then [] else (if ups[0].prop == k then [ups[0].value] else []) + ValuesFor(ups[1..], k)
  }

  lemma {:induction false} LogAllFirst(text: string, value: string, more: seq<string>)
    ensures LogAll(text, [value] + more) == LogAll(LogText(text, value), more)
  {
    LogOfSplit(text, [value], more);
    assert [value][..0] == [];
  }

  /** A list of updates appends to a log field the values it has for it, in order. */
  lemma {:induction false} LogFieldShows(ws: seq<Widget>, ups: seq<Update>, k: nat)
    requires k < |ws| && ws[k].kind.LOG? && forall u <- ups :: InRange(ws, u)
    ensures ShowAll(ws, ups)[k].shown == LogAll(ws[k].shown, ValuesFor(ups, k))
    decreases |ups|
  {
    if ups != [] {
      assert ups[0] in ups && forall u <- ups[1..] :: u in ups;
      var vs := ws[ups[0].prop := Show(ws[ups[0].prop], ups[0].value)];
      LogFieldShows(vs, ups[1..], k);
      if ups[0].prop == k { LogAllFirst(ws[k].shown, ups[0].value, ValuesFor(ups[1..], k)); } else { assert [] + ValuesFor(ups[1..], k) == ValuesFor(ups[1..], k); }
    }
  }

  /** The log field of a registered property: the non-empty values since the last empty one, newest first,
      above the registered value if none was empty. */
  lemma LogShowsItsHistory(ps: seq<Property>, ups: seq<Update>, j: nat)
    requires j < |ps| && ps[j].kind == 9 && forall u <- ups :: InRange(Widgets(ps), u)
    ensures ViewId(ps, j) < |Widgets(ps)|
    ensures ShowAll(Widgets(ps), ups)[ViewId(ps, j)].shown == JoinNewestFirst(Lines(ps[j].value, ValuesFor(ups, ViewId(ps, j))))
  {
    var k := ViewId(ps, j);
    WidgetsInOrder(ps);
    assert ViewOf(Widgets(ps)[k], ps[j]);
    TypesByNumber(9);
    LogFieldShows(Widgets(ps), ups, k);
    LogAccumulates(ps[j].value, ValuesFor(ups, k));
  }
}
