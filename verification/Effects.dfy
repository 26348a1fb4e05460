/** One property of one module, followed through tasks and messages. */
module Effects {
  import opened Model
  import opened Instance

  /** What happens to the property: its module is created, a write is made, the module goes. */
  datatype Effect = Create(property: Option<Property>) | Write(updates: seq<Update>) | Kill

  predicate Touches(ups: seq<Update>, k: nat) {
    exists u <- ups :: u.prop == k
  }

  function WriteTo(p: Property, ups: seq<Update>, k: nat): Property
    decreases |ups|
  {
    if ups == [] || ups[0].prop < 0 then p
    else WriteTo(if ups[0].prop == k then SetValue(p, ups[0].value) else p, ups[1..], k)
  }

  lemma {:induction false} UpdatesAt(ps: seq<Property>, ups: seq<Update>, k: nat)
    requires k < |ps|
    ensures ApplyUpdates(ps, ups)[k] == WriteTo(ps[k], ups, k)
    decreases |ups|
  {
    if ups != [] && ups[0].prop >= 0 {
      UpdatesAt(SetProperty(ps, ups[0]), ups[1..], k);
    }
  }

  lemma {:induction false} UntouchedStays(p: Property, ups: seq<Update>, k: nat)
    requires !Touches(ups, k)
    ensures WriteTo(p, ups, k) == p
    decreases |ups|
  {
    if ups != [] && ups[0].prop >= 0 {
      assert ups[0] in ups && forall u <- ups[1..] :: u in ups;
      UntouchedStays(p, ups[1..], k);
    }
  }

  type Cell = Option<Property>

  function Apply1(c: Cell, e: Effect, k: nat): Cell {
    match e
    case Create(p) => p
    case Write(ups) => if c.Some? then Some(WriteTo(c.value, ups, k)) else None
    case Kill => None
  }

  function Play(c: Cell, es: seq<Effect>, k: nat): Cell
    decreases |es|
  {
    if es == [] then c else Play(Apply1(c, es[0], k), es[1..], k)
  }

  lemma {:induction false} PlayConcat(c: Cell, a: seq<Effect>, b: seq<Effect>, k: nat)
    ensures Play(c, a + b, k) == Play(Play(c, a, k), b, k)
    decreases |a|
  {
    if a == [] {
      assert a + b == b;
    } else {
      PlayConcat(Apply1(c, a[0], k), a[1..], b, k);
      assert (a + b)[1..] == a[1..] + b;
    }
  }

  lemma PlayOne(c: Cell, e: Effect, k: nat)
    ensures Play(c, [e], k) == Apply1(c, e, k)
  {
    assert [e][1..] == [];
  }

  predicate NoCreate(es: seq<Effect>) {
    forall e <- es :: !e.Create?
  }

  lemma {:induction false} GoneStaysGone(es: seq<Effect>, k: nat)
    requires NoCreate(es)
    ensures Play(None, es, k) == None
    decreases |es|
  {
    if es != [] {
      assert es[0] in es && forall e <- es[1..] :: e in es;
      GoneStaysGone(es[1..], k);
    }
  }

  lemma {:induction false} KillKills(c: Cell, es: seq<Effect>, k: nat)
    requires NoCreate(es) && Kill in es
    ensures Play(c, es, k) == None
    decreases |es|
  {
    assert forall e <- es[1..] :: e in es;
    if es[0] == Kill {
      GoneStaysGone(es[1..], k);
    } else {
      KillKills(Apply1(c, es[0], k), es[1..], k);
    }
  }

  /* ---- Where effects come from ---- */

  function CellOf(ms: map<int, Module>, id: int, k: nat): Cell {
    if id in ms && k < |ms[id].properties| then Some(ms[id].properties[k]) else None
  }

  function PropertyOf(ps: seq<Property>, k: nat): Cell {
    if k < |ps| then Some(ps[k]) else None
  }

  function WriteOf(ups: seq<Update>, k: nat): seq<Effect> {
    if Touches(ups, k) then [Write(ups)] else []
  }

  /** What running a task does to the table's copy; applies are looked at separately. */
  function SaveEffect(t: Task, id: int, k: nat): seq<Effect> {
    match t
    case TSave(i, ups) => if i == id then WriteOf(ups, k) else []
    case TUnregister(i) => if i == id then [Kill] else []
    case _ => []
  }

  /** What the messages that a task emits say. */
  function SendEffect(t: Task, id: int, k: nat): seq<Effect> {
    match t
    case TSend(i, ups) => if i == id then WriteOf(ups, k) else []
    case TUnregister(i) => if i == id then [Kill] else []
    case _ => []
  }

  function MsgEffect(m: Msg, id: int, k: nat): seq<Effect> {
    match m
    case Added(i, _, ps) => if i == id then [Create(PropertyOf(ps, k))] else []
    case Updated(i, ups) => if i == id then WriteOf(ups, k) else []
    case Removed(i) => if i == id then [Kill] else []
  }

  function Saves(ts: seq<Task>, id: int, k: nat): seq<Effect> {
    if ts == [] then [] else SaveEffect(ts[0], id, k) + Saves(ts[1..], id, k)
  }

  function Sends(ts: seq<Task>, id: int, k: nat): seq<Effect> {
    if ts == [] then [] else SendEffect(ts[0], id, k) + Sends(ts[1..], id, k)
  }

  function Says(ms: seq<Msg>, id: int, k: nat): seq<Effect> {
    if ms == [] then [] else MsgEffect(ms[0], id, k) + Says(ms[1..], id, k)
  }

  lemma {:induction false} SavesPost(ts: seq<Task>, t: Task, id: int, k: nat)
    ensures Saves(ts + [t], id, k) == Saves(ts, id, k) + SaveEffect(t, id, k)
    decreases |ts|
  {
    if ts == [] {
      assert (ts + [t])[1..] == [];
    } else {
      SavesPost(ts[1..], t, id, k);
      assert (ts + [t])[1..] == ts[1..] + [t];
    }
  }

  lemma {:induction false} SendsPost(ts: seq<Task>, t: Task, id: int, k: nat)
    ensures Sends(ts + [t], id, k) == Sends(ts, id, k) + SendEffect(t, id, k)
    decreases |ts|
  {
    if ts == [] {
      assert (ts + [t])[1..] == [];
    } else {
      SendsPost(ts[1..], t, id, k);
      assert (ts + [t])[1..] == ts[1..] + [t];
    }
  }

  lemma {:induction false} SaysMore(ms: seq<Msg>, m: Msg, id: int, k: nat)
    ensures Says(ms + [m], id, k) == Says(ms, id, k) + MsgEffect(m, id, k)
    decreases |ms|
  {
    if ms == [] {
      assert (ms + [m])[1..] == [];
    } else {
      SaysMore(ms[1..], m, id, k);
      assert (ms + [m])[1..] == ms[1..] + [m];
    }
  }

  lemma {:induction false} SavesCreateNothing(ts: seq<Task>, id: int, k: nat)
    ensures NoCreate(Saves(ts, id, k)) && NoCreate(Sends(ts, id, k))
    ensures TUnregister(id) in ts ==> Kill in Saves(ts, id, k) && Kill in Sends(ts, id, k)
    decreases |ts|
  {
    if ts != [] {
      SavesCreateNothing(ts[1..], id, k);
    }
  }

  /** Tasks know no id beyond the counter. */
  lemma {:induction false} NothingOnNewIds(i: Inst, ts: seq<Task>, id: int, k: nat)
    requires id >= |i.origins| && forall t <- ts :: TaskIdOk(i, t)
    ensures Saves(ts, id, k) == [] && Sends(ts, id, k) == []
    decreases |ts|
  {
    if ts != [] {
      assert ts[0] in ts && forall t <- ts[1..] :: t in ts;
      NothingOnNewIds(i, ts[1..], id, k);
    }
  }

  lemma {:induction false} NothingSaidOfNewIds(ms: seq<Msg>, id: int, k: nat)
    requires id >= 0 && forall m <- ms :: m.id < id
    ensures Says(ms, id, k) == []
    decreases |ms|
  {
    if ms != [] {
      assert ms[0] in ms && forall m <- ms[1..] :: m in ms;
      NothingSaidOfNewIds(ms[1..], id, k);
    }
  }

  /* ---- What running a task does to the property ---- */

  lemma SaveCell(i: Inst, id: int, ups: seq<Update>, l: int, k: nat)
    ensures CellOf(Save(i, id, ups).modules, l, k)
            == if id == l then Play(CellOf(i.modules, l, k), WriteOf(ups, k), k) else CellOf(i.modules, l, k)
  {
    if id == l && l in i.modules && k < |i.modules[l].properties| {
      UpdatesAt(i.modules[l].properties, ups, k);
      if Touches(ups, k) { PlayOne(CellOf(i.modules, l, k), Write(ups), k); } else { UntouchedStays(i.modules[l].properties[k], ups, k); }
    }
    if Touches(ups, k) { PlayOne(CellOf(i.modules, l, k), Write(ups), k); }
  }

  /** A task other than an apply or this module's registration does what its effects say. */
  lemma TaskCell(i: Inst, t: Task, l: int, k: nat)
    requires !t.TLoad? && (t.TRegister? ==> l != |i.origins|)
    requires t.TPass? && t.apply.id == l ==> !Touches(t.apply.updates, k)
    ensures CellOf(RunTask(i, t).0.modules, l, k) == Play(CellOf(i.modules, l, k), SaveEffect(t, l, k), k)
  {
    match t
    case TSave(id, ups) => SaveCell(i, id, ups, l, k);
    case TPass(a) => SaveCell(i, a.id, a.updates, l, k);
    case TUnregister(id) => PlayOne(CellOf(i.modules, l, k), Kill, k);
    case _ =>
  }

  /* ---- The last write ---- */

  /** The last value a list has for property k. */
  function LastWrite(ups: seq<Update>, k: nat): Option<string>
    decreases |ups|
  {
    if ups == [] || ups[0].prop < 0 then None
    else
      var later := LastWrite(ups[1..], k);
      if later.None? && ups[0].prop == k then Some(ups[0].value) else later
  }

  lemma {:induction false} WritesTheLast(p: Property, ups: seq<Update>, k: nat)
    ensures WriteTo(p, ups, k)
            == if p.readOnly || LastWrite(ups, k).None? then p else p.(value := LastWrite(ups, k).value)
    decreases |ups|
  {
    if ups != [] && ups[0].prop >= 0 {
      WritesTheLast(if ups[0].prop == k then SetValue(p, ups[0].value) else p, ups[1..], k);
    }
  }

  lemma {:induction false} LastOfConcat(a: seq<Update>, b: seq<Update>, k: nat)
    requires NonNegative(a)
    ensures LastWrite(a + b, k) == if LastWrite(b, k).Some? then LastWrite(b, k) else LastWrite(a, k)
    decreases |a|
  {
    if a == [] {
      assert a + b == b;
    } else {
      assert a[0] in a && forall u <- a[1..] :: u in a;
      assert (a + b)[0] == a[0] && (a + b)[1..] == a[1..] + b;
      LastOfConcat(a[1..], b, k);
    }
  }

  lemma {:induction false} LastIfTouched(ups: seq<Update>, k: nat)
    requires NonNegative(ups)
    ensures LastWrite(ups, k).Some? <==> Touches(ups, k)
    decreases |ups|
  {
    if ups != [] {
      assert ups == [ups[0]] + ups[1..];
      assert ups[0] in ups && forall u <- ups[1..] :: u in ups;
      LastIfTouched(ups[1..], k);
    }
  }

  /** The cell after all of the updates. */
  function Written(c: Cell, ups: seq<Update>, k: nat): Cell {
    Apply1(c, Write(ups), k)
  }

  lemma WrittenConcat(c: Cell, a: seq<Update>, b: seq<Update>, k: nat)
    requires NonNegative(a)
    ensures Written(c, a + b, k) == Written(Written(c, a, k), b, k)
  {
    if c.Some? {
      LastOfConcat(a, b, k);
      WritesTheLast(c.value, a + b, k);
      WritesTheLast(c.value, a, k);
      WritesTheLast(WriteTo(c.value, a, k), b, k);
    }
  }

  lemma WrittenIs(c: Cell, ups: seq<Update>, k: nat)
    ensures Written(c, ups, k) == Play(c, WriteOf(ups, k), k)
  {
    if Touches(ups, k) {
      PlayOne(c, Write(ups), k);
    } else if c.Some? {
      UntouchedStays(c.value, ups, k);
    }
  }
}
