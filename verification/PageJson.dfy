/** What a page makes of the trees it receives: it looks fields up by their names and does with them what
    the page's objects do. A tree with a field missing or of another type is none that the program sends;
    what a page makes of such a tree is left open. */
module PageJson {
  import opened Model
  import opened JsonMsg
  import opened Browser

  function Number(j: Json, key: string): Option<int> {
    match Find(j, key) case Some(JInt(n)) => Some(n) case _ => None
  }

  function Text(j: Json, key: string): Option<string> {
    match Find(j, key) case Some(JStr(s)) => Some(s) case _ => None
  }

  function Elements(j: Json, key: string): Option<seq<Json>> {
    match Find(j, key) case Some(JArr(items)) => Some(items) case _ => None
  }

  /** Each element becomes a view after those that are there. */
  function AddViews(ws: seq<Widget>, js: seq<Json>): Option<seq<Widget>>
    decreases |js|
  {
    if js == [] then Some(ws)
    else match (Number(js[0], "type"), Text(js[0], "name"), Text(js[0], "value"))
      case (Some(kind), Some(name), Some(value)) => AddViews(AddWidget(ws, Property(kind, name, value, false)), js[1..])
      case _ => None
  }

  function Create(r: Replica, m: Json): Option<Replica> {
    match (Number(m, "id"), Text(m, "name"), Elements(m, "properties"))
    case (Some(id), Some(name), Some(items)) =>
      (match AddViews([], items) case Some(ws) => Some(r[id := BModule(name, ws)]) case None => None)
    case _ => None
  }

  function CreateEach(r: Replica, js: seq<Json>): Option<Replica>
    decreases |js|
  {
    if js == [] then Some(r)
    else match Create(r, js[0])
      case Some(q) => CreateEach(q, js[1..])
      case None => None
  }

  function Entries(js: seq<Json>): Option<seq<Update>> {
    if js == [] then Some([])
    else match (Number(js[0], "id"), Text(js[0], "value"), Entries(js[1..]))
      case (Some(id), Some(value), Some(more)) => Some([Update(id, value)] + more)
      case _ => None
  }

  function SetValues(r: Replica, j: Json): Option<Replica> {
    match (Number(j, "id"), Elements(j, "properties"))
    case (Some(id), Some(items)) =>
      (match Entries(items)
       case Some(ups) => Some(if id in r then r[id := r[id].(widgets := ShowAll(r[id].widgets, ups))] else r)
       case None => None)
    case _ => None
  }

  /** Any other message is ignored. */
  function OnTree(r: Replica, j: Json): Option<Replica> {
    match Text(j, "type")
    case None => None
    case Some(name) =>
      if name == "property_update" then SetValues(r, j)
      else if name == "module_added" then (match Find(j, "module") case Some(m) => Create(r, m) case None => None)
      else if name == "module_removed" then (match Number(j, "id") case Some(id) => Some(r - {id}) case None => None)
      else if name == "module_list" then (match Elements(j, "modules") case Some(js) => CreateEach(r, js) case None => None)
      else Some(r)
  }

  /* ---- The program's trees ---- */

  lemma PropertyIsRead(p: Property)
    ensures var j := PropertyToJson(p);
            Number(j, "type") == Some(p.kind) && Text(j, "name") == Some(p.name) && Text(j, "value") == Some(p.value)
  {}

  lemma TreesFrom(ps: seq<Property>, i: nat)
    requires i < |ps|
    ensures var js := PropertiesToJson(ps[i..]); js != [] && js[0] == PropertyToJson(ps[i]) && js[1..] == PropertiesToJson(ps[i + 1..])
  {}

  lemma {:induction false} ViewsAreAdded(ps: seq<Property>, i: nat)
    requires i <= |ps|
    ensures AddViews(Widgets(ps[..i]), PropertiesToJson(ps[i..])) == Some(Widgets(ps))
    decreases |ps| - i
  {
    if i == |ps| {
      assert ps[..i] == ps;
    } else {
      PropertyIsRead(ps[i]);
      TreesFrom(ps, i);
      assert ps[..i + 1][..i] == ps[..i];
      ViewsAreAdded(ps, i + 1);
    }
  }

  lemma ModuleIsCreated(r: Replica, id: int, m: Module)
    ensures Create(r, ModuleJson(id, m.name, m.properties)) == Some(r[id := Opened(m)])
  {
    var j := ModuleJson(id, m.name, m.properties);
    assert Number(j, "id") == Some(id) && Text(j, "name") == Some(m.name) && Elements(j, "properties") == Some(PropertiesToJson(m.properties));
    ViewsAreAdded(m.properties, 0);
    assert m.properties[0..] == m.properties;
  }

  lemma {:induction false} EntriesAreRead(ups: seq<Update>)
    ensures Entries(UpdatesToJson(ups)) == Some(ups)
    decreases |ups|
  {
    if ups != [] {
      var js := UpdatesToJson(ups);
      assert Number(js[0], "id") == Some(ups[0].prop) && Text(js[0], "value") == Some(ups[0].value);
      assert js[1..] == UpdatesToJson(ups[1..]);
      EntriesAreRead(ups[1..]);
      assert [ups[0]] + ups[1..] == ups;
    }
  }

  function InTurn(r: Replica, ms: map<int, Module>, ids: seq<int>): Replica
    requires forall i <- ids :: i in ms
    decreases |ids|
  {
    if ids == [] then r
    else
      var i := ids[0];
      assert i in ids;
      assert i in ms;
      assert forall l <- ids[1..] :: l in ids;
      InTurn(r[i := Opened(ms[i])], ms, ids[1..])
  }

  lemma TreesOfTheRest(ms: map<int, Module>, ids: seq<int>)
    requires ids != [] && forall i <- ids :: i in ms
    ensures (forall i <- ids[1..] :: i in ms) && ids[0] in ms
    ensures var js := ModulesToJson(ms, ids);
            js[0] == ModuleJson(ids[0], ms[ids[0]].name, ms[ids[0]].properties) && js[1..] == ModulesToJson(ms, ids[1..])
  {
    var i := ids[0];
    assert i in ids;
    assert i in ms;
    assert forall l <- ids[1..] :: l in ids;
  }

  lemma {:induction false} EachIsCreated(r: Replica, ms: map<int, Module>, ids: seq<int>)
    requires forall i <- ids :: i in ms
    ensures CreateEach(r, ModulesToJson(ms, ids)) == Some(InTurn(r, ms, ids))
    decreases |ids|
  {
    if ids != [] {
      TreesOfTheRest(ms, ids);
      ModuleIsCreated(r, ids[0], ms[ids[0]]);
      EachIsCreated(r[ids[0] := Opened(ms[ids[0]])], ms, ids[1..]);
    }
  }

  lemma {:induction false} TurnsDoNotMatter(r: Replica, ms: map<int, Module>, ids: seq<int>)
    requires forall i <- ids :: i in ms
    ensures var q := InTurn(r, ms, ids);
            forall i :: (i in q <==> i in r || i in ids) && (i in q ==> q[i] == if i in ids then Opened(ms[i]) else r[i])
    decreases |ids|
  {
    if ids != [] {
      TreesOfTheRest(ms, ids);
      TurnsDoNotMatter(r[ids[0] := Opened(ms[ids[0]])], ms, ids[1..]);
      assert forall i :: i in ids <==> i == ids[0] || i in ids[1..];
    }
  }

  lemma ListedKeysAre(r: Replica, ms: map<int, Module>, q: Replica)
    requires forall i :: (i in q <==> i in r || i in ms) && (i in q ==> q[i] == if i in ms then Opened(ms[i]) else r[i])
    ensures q == See(r, List(ms))
  {
    var z := See(r, List(ms));
    forall i ensures (i in z <==> i in q) && (i in q ==> z[i] == q[i]) {
      assert i in z <==> i in r || i in ms;
    }
  }

  lemma ListIsRead(r: Replica, ms: map<int, Module>, ids: seq<int>)
    requires forall i :: i in ids <==> i in ms
    ensures OnTree(r, ListJson(ms, ids)) == Some(See(r, List(ms)))
  {
    var j := ListJson(ms, ids);
    assert Text(j, "type") == Some("module_list") && Elements(j, "modules") == Some(ModulesToJson(ms, ids));
    EachIsCreated(r, ms, ids);
    TurnsDoNotMatter(r, ms, ids);
    ListedKeysAre(r, ms, InTurn(r, ms, ids));
  }

  /** The tree of a message that the host pushes, or of the answer to a load request, does to the page what
      the message says: a name is read as a name, a value as a value, a type as a type. */
  lemma {:induction false} PageReads(r: Replica, e: Item, ids: seq<int>)
    requires e.List? ==> forall i :: i in ids <==> i in e.modules
    ensures OnTree(r, if e.Push? then Encode(e.msg) else ListJson(e.modules, ids)) == Some(See(r, e))
  {
    match e
    case List(ms) => ListIsRead(r, ms, ids);
    case Push(Added(id, name, ps)) =>
      assert Text(Encode(e.msg), "type") == Some("module_added");
      ModuleIsCreated(r, id, Module(name, ps, false));
    case Push(Removed(id)) =>
      assert Text(Encode(e.msg), "type") == Some("module_removed") && Number(Encode(e.msg), "id") == Some(id);
    case Push(Updated(id, ups)) =>
      var j := Encode(e.msg);
      assert Text(j, "type") == Some("property_update") && Number(j, "id") == Some(id) && Elements(j, "properties") == Some(UpdatesToJson(ups));
      EntriesAreRead(ups);
  }
}
