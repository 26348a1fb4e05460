/** Messages as JSON trees. Printing a tree and parsing the text again is taken to give the tree. */
module JsonMsg {
  import opened Model
  import opened Order

  datatype Json =
    | JNull
    | JBool(b: bool)
    | JInt(n: int)
    | JStr(s: string)
    | JArr(items: seq<Json>)
    | JObj(fields: map<string, Json>)

  /** Throws: a value has another JSON type than the access asks for. */
  datatype Result<+T> = Ok(value: T) | Throws

  datatype Type = UNKNOWN | MODULE_ADD | MODULE_DEL | PROPERTY_UPDATE | REQ_LOAD | REQ_APPLY

  /* ---- Access ---- */

  function Find(j: Json, key: string): Option<Json> {
    if j.JObj? && key in j.fields then Some(j.fields[key]) else None
  }

  /** The conversion to a 32-bit signed integer. */
  function ToInt32(n: int): int {
    (n + 0x8000_0000) % 0x1_0000_0000 - 0x8000_0000
  }

  predicate InInt32(n: int) {
    -0x8000_0000 <= n < 0x8000_0000
  }

  function ValueToString(j: Json, key: string): Result<string> {
    match Find(j, key)
    case None => Ok("")
    case Some(v) => if v.JStr? then Ok(v.s) else Throws
  }

  /** -1 stands for a missing value. */
  function ValueToInt(j: Json, key: string): Result<int> {
    match Find(j, key)
    case None => Ok(-1)
    case Some(v) => if v.JInt? then Ok(ToInt32(v.n)) else if v.JBool? then Ok(if v.b then 1 else 0) else Throws
  }

  function TypeNamed(name: string): Type {
    if name == "module_added" then MODULE_ADD
    else if name == "module_removed" then MODULE_DEL
    else if name == "property_update" then PROPERTY_UPDATE
    else if name == "load" then REQ_LOAD
    else if name == "apply" then REQ_APPLY
    else UNKNOWN
  }

  /** How many elements a list under this value has; `None` when its elements can not be indexed. */
  function Items(v: Option<Json>): Option<seq<Json>> {
    match v
    case None => Some([])
    case Some(JNull) => Some([])
    case Some(JArr(items)) => Some(items)
    case Some(JObj(fields)) => if fields == map[] then Some([]) else None
    case Some(_) => None
  }

  /* ---- Decoding, one element after the other ---- */

  function ReadProperty(j: Json): Result<Property> {
    match (ValueToInt(j, "type"), ValueToString(j, "name"), ValueToString(j, "value"), ValueToInt(j, "read_only"))
    case (Ok(kind), Ok(name), Ok(value), Ok(flag)) => Ok(Property(kind, name, value, flag != 0))
    case _ => Throws
  }

  function ReadProperties(js: seq<Json>): Result<seq<Property>> {
    if js == [] then Ok([])
    else match (ReadProperty(js[0]), ReadProperties(js[1..]))
      case (Ok(p), Ok(ps)) => Ok([p] + ps)
      case _ => Throws
  }

  function ReadUpdate(j: Json): Result<Update> {
    match (ValueToInt(j, "id"), ValueToString(j, "value"))
    case (Ok(id), Ok(value)) => Ok(Update(id, value))
    case _ => Throws
  }

  function ReadUpdates(js: seq<Json>): Result<seq<Update>> {
    if js == [] then Ok([])
    else match (ReadUpdate(js[0]), ReadUpdates(js[1..]))
      case (Ok(u), Ok(us)) => Ok([u] + us)
      case _ => Throws
  }

  /* ---- Encoding ---- */

  function PropertyToJson(p: Property): Json {
    JObj(map["type" := JInt(p.kind), "name" := JStr(p.name), "value" := JStr(p.value), "read_only" := JInt(if p.readOnly then 1 else 0)])
  }

  function PropertiesToJson(ps: seq<Property>): seq<Json> {
    seq(|ps|, i requires 0 <= i < |ps| => PropertyToJson(ps[i]))
  }

  function UpdateToJson(u: Update): Json {
    JObj(map["id" := JInt(u.prop), "value" := JStr(u.value)])
  }

  function UpdatesToJson(us: seq<Update>): seq<Json> {
    seq(|us|, i requires 0 <= i < |us| => UpdateToJson(us[i]))
  }

  function ModuleJson(id: int, name: string, ps: seq<Property>): Json {
    JObj(map["id" := JInt(id), "name" := JStr(name), "properties" := JArr(PropertiesToJson(ps))])
  }

  function Encode(m: Msg): Json {
    match m
    case Added(id, name, ps) => JObj(map["type" := JStr("module_added"), "module" := ModuleJson(id, name, ps)])
    case Removed(id) => JObj(map["type" := JStr("module_removed"), "id" := JInt(id)])
    case Updated(id, us) => JObj(map["type" := JStr("property_update"), "id" := JInt(id), "properties" := JArr(UpdatesToJson(us))])
  }

  /** The answer to a load request. */
  function ListJson(ms: map<int, Module>, ids: seq<int>): Json
    requires forall i <- ids :: i in ms
  {
    JObj(map["type" := JStr("module_list"), "modules" := JArr(ModulesToJson(ms, ids))])
  }

  function ModulesToJson(ms: map<int, Module>, ids: seq<int>): seq<Json>
    requires forall i <- ids :: i in ms
  {
    seq(|ids|, i requires 0 <= i < |ids| => ModuleJson(ids[i], ms[ids[i]].name, ms[ids[i]].properties))
  }

  /** What a browser sends, and what goes down to a process. */
  function ApplyJson(id: int, us: seq<Update>): Json {
    JObj(map["type" := JStr("apply"), "id" := JInt(id), "properties" := JArr(UpdatesToJson(us))])
  }

  const LOAD_JSON := JObj(map["type" := JStr("load")])

  /* ---- The encoders as loops ---- */

  method ModuleToJson(id: int, name: string, ps: seq<Property>) returns (j: Json)
    ensures j == ModuleJson(id, name, ps)
  {
    var list: seq<Json> := [];
    for i := 0 to |ps|
      invariant list == PropertiesToJson(ps[..i])
    {
      assert PropertiesToJson(ps[..i + 1]) == PropertiesToJson(ps[..i]) + [PropertyToJson(ps[i])];
      list := list + [PropertyToJson(ps[i])];
    }
    assert ps[..|ps|] == ps;
    j := JObj(map["id" := JInt(id), "name" := JStr(name), "properties" := JArr(list)]);
  }

  method CreatePropertyUpdated(id: int, us: seq<Update>) returns (j: Json)
    ensures j == Encode(Updated(id, us))
  {
    var list: seq<Json> := [];
    for i := 0 to |us|
      invariant list == UpdatesToJson(us[..i])
    {
      assert UpdatesToJson(us[..i + 1]) == UpdatesToJson(us[..i]) + [UpdateToJson(us[i])];
      list := list + [UpdateToJson(us[i])];
    }
    assert us[..|us|] == us;
    j := JObj(map["type" := JStr("property_update"), "id" := JInt(id), "properties" := JArr(list)]);
  }

  /** Every module once, in the order of the ids. */
  method CreateModuleList(ms: map<int, Module>) returns (j: Json)
    ensures exists ids :: Ascending(ids) && (forall i :: i in ids <==> i in ms) && j == ListJson(ms, ids)
  {
    var list: seq<Json> := [];
    var rest := ms.Keys;
    ghost var ids: seq<int> := [];
    while rest != {}
      invariant Ascending(ids) && (forall i :: i in ms <==> i in ids || i in rest)
      invariant forall i, l :: 0 <= i < |ids| && l in rest ==> ids[i] < l
      invariant list == ModulesToJson(ms, ids)
      decreases |rest|
    {
      var i := Least(rest);
      var m := ModuleToJson(i, ms[i].name, ms[i].properties);
      assert ModulesToJson(ms, ids + [i]) == ModulesToJson(ms, ids) + [m];
      list, ids := list + [m], ids + [i];
      rest := rest - {i};
    }
    j := JObj(map["type" := JStr("module_list"), "modules" := JArr(list)]);
  }

  /* ---- A received message ---- */

  class Message {
    var json: Json
    var isValid: bool
    var kind: Type

    constructor ()
      ensures !isValid && kind == UNKNOWN
    {
      json, isValid, kind := JNull, false, UNKNOWN;
    }

    /** The text was no JSON (None), or this tree. The type is looked up in a valid message only. */
    method Parse(tree: Option<Json>) returns (r: Result<bool>)
      modifies this
      ensures isValid == tree.Some?
      ensures tree.None? ==> r == Ok(false) && kind == old(kind)
      ensures tree.Some? ==> json == tree.value
      ensures tree.Some? && ValueToString(tree.value, "type").Throws? ==> r == Throws && kind == old(kind)
      ensures tree.Some? && ValueToString(tree.value, "type").Ok? ==>
                r == Ok(true) && kind == if TypeNamed(ValueToString(tree.value, "type").value) == UNKNOWN then old(kind)
                                         else TypeNamed(ValueToString(tree.value, "type").value)
    {
      if tree.None? {
        isValid := false;
        return Ok(false);
      }
      json, isValid := tree.value, true;
      var name := ValueToString(json, "type");
      if name.Throws? { return Throws; }
      var t := TypeNamed(name.value);
      if t != UNKNOWN { kind := t; }
      r := Ok(true);
    }

    function FindId(): Result<int>
      reads this
    {
      match kind
      case MODULE_ADD => (match Find(json, "module") case Some(m) => ValueToInt(m, "id") case None => Ok(-1))
      case MODULE_DEL => ValueToInt(json, "id")
      case PROPERTY_UPDATE => ValueToInt(json, "id")
      case REQ_APPLY => ValueToInt(json, "id")
      case REQ_LOAD => Ok(-1)
      case UNKNOWN => Ok(-1)
    }

    /** Every other field keeps its value. */
    method SetId(id: int) returns (threw: bool)
      modifies this`json
      ensures threw <==> !old(json).JObj? && !old(json).JNull?
      ensures threw ==> json == old(json)
      ensures !threw ==> json.JObj? && Find(json, "id") == Some(JInt(id))
      ensures !threw ==> forall key :: key != "id" ==> Find(json, key) == Find(old(json), key)
    {
      threw := false;
      match json
      case JObj(fields) => json := JObj(fields["id" := JInt(id)]);
      case JNull => json := JObj(map["id" := JInt(id)]);
      case _ => threw := true;
    }

    /** The module announced, with its id, and without a callback; None when there is none. */
    method ToModule() returns (r: Result<Option<(int, Module)>>)
      ensures Find(json, "module").None? ==> r == Ok(None)
      ensures Find(json, "module").Some? ==> r == ModuleOf(Find(json, "module").value)
    {
      var found := Find(json, "module");
      if found.None? { return Ok(None); }
      var m := found.value;
      var id, name := ValueToInt(m, "id"), ValueToString(m, "name");
      if id.Throws? || name.Throws? || !(m.JObj? || m.JNull?) { return Throws; }
      var items := Items(Find(m, "properties"));
      if items.None? { return Throws; }
      var ps: seq<Property> := [];
      assert items.value[0..] == items.value && forall more: seq<Property> :: ps + more == more;
      for i := 0 to |items.value|
        invariant ReadProperties(items.value) == match ReadProperties(items.value[i..]) case Ok(more) => Ok(ps + more) case Throws => Throws
      {
        var p := ReadProperty(items.value[i]);
        assert items.value[i..][1..] == items.value[i + 1..];
        if p.Throws? { return Throws; }
        assert forall more: seq<Property> :: ps + ([p.value] + more) == ps + [p.value] + more;
        ps := ps + [p.value];
      }
      assert items.value[|items.value|..] == [] && ps + [] == ps;
      r := Ok(Some((id.value, Module(name.value, ps, false))));
    }

    /** Only updates and applies carry a list. */
    method GetPropertiesList() returns (r: Result<seq<Update>>)
      ensures kind != REQ_APPLY && kind != PROPERTY_UPDATE ==> r == Ok([])
      ensures kind == REQ_APPLY || kind == PROPERTY_UPDATE ==> r == UpdatesOf(json)
    {
      if kind != REQ_APPLY && kind != PROPERTY_UPDATE { return Ok([]); }
      if !(json.JObj? || json.JNull?) { return Throws; }
      var items := Items(Find(json, "properties"));
      if items.None? { return Throws; }
      var us: seq<Update> := [];
      assert items.value[0..] == items.value && forall more: seq<Update> :: us + more == more;
      for i := 0 to |items.value|
        invariant ReadUpdates(items.value) == match ReadUpdates(items.value[i..]) case Ok(more) => Ok(us + more) case Throws => Throws
      {
        var u := ReadUpdate(items.value[i]);
        assert items.value[i..][1..] == items.value[i + 1..];
        if u.Throws? { return Throws; }
        assert forall more: seq<Update> :: us + ([u.value] + more) == us + [u.value] + more;
        us := us + [u.value];
      }
      assert items.value[|items.value|..] == [] && us + [] == us;
      r := Ok(us);
    }
  }

  function ModuleOf(m: Json): Result<Option<(int, Module)>> {
    match (ValueToInt(m, "id"), ValueToString(m, "name"))
    case (Ok(id), Ok(name)) =>
      (if !(m.JObj? || m.JNull?) then Throws
      else match Items(Find(m, "properties"))
        case None => Throws
        case Some(items) => (match ReadProperties(items) case Ok(ps) => Ok(Some((id, Module(name, ps, false)))) case Throws => Throws))
    case _ => Throws
  }

  function UpdatesOf(j: Json): Result<seq<Update>> {
    if !(j.JObj? || j.JNull?) then Throws
    else match Items(Find(j, "properties"))
      case None => Throws
      case Some(items) => ReadUpdates(items)
  }

  /** The message that the receiving end works with. */
  function Decode(j: Json): Result<Option<Msg>> {
    match ValueToString(j, "type")
    case Throws => Throws
    case Ok(name) =>
      match TypeNamed(name)
      case MODULE_ADD =>
        (match Find(j, "module")
         case None => Ok(None)
         case Some(m) => (match ModuleOf(m) case Ok(Some((id, mod))) => Ok(Some(AddedMsg(id, mod))) case _ => Throws))
      case MODULE_DEL => (match ValueToInt(j, "id") case Ok(id) => Ok(Some(Removed(id))) case Throws => Throws)
      case PROPERTY_UPDATE =>
        (match (ValueToInt(j, "id"), UpdatesOf(j)) case (Ok(id), Ok(us)) => Ok(Some(Updated(id, us))) case _ => Throws)
      case _ => Ok(None)
  }

  /* ---- Round trips ---- */

  predicate Fits(m: Msg) {
    InInt32(m.id) && match m
      case Added(_, _, ps) => forall p <- ps :: InInt32(p.kind)
      case Updated(_, us) => forall u <- us :: InInt32(u.prop)
      case Removed(_) => true
  }

  lemma Int32Stays(n: int)
    requires InInt32(n)
    ensures ToInt32(n) == n
  {}

  /** Any number arrives as one of 32 bits that differs by a multiple of 2^32. */
  lemma ConversionWraps(n: int)
    ensures InInt32(ToInt32(n)) && (n - ToInt32(n)) % 0x1_0000_0000 == 0
  {}

  lemma PropertyRoundTrip(p: Property)
    requires InInt32(p.kind)
    ensures ReadProperty(PropertyToJson(p)) == Ok(p)
  {
    Int32Stays(p.kind);
  }

  lemma TreesOfRest(ps: seq<Property>)
    requires ps != []
    ensures var js := PropertiesToJson(ps); js != [] && js[0] == PropertyToJson(ps[0]) && js[1..] == PropertiesToJson(ps[1..])
  {}

  lemma {:induction false} PropertiesRoundTrip(ps: seq<Property>)
    requires forall p <- ps :: InInt32(p.kind)
    ensures ReadProperties(PropertiesToJson(ps)) == Ok(ps)
    decreases |ps|
  {
    if ps != [] {
      assert ps[0] in ps && forall p <- ps[1..] :: p in ps;
      PropertiesRoundTrip(ps[1..]);
      PropertyRoundTrip(ps[0]);
      TreesOfRest(ps);
      assert [ps[0]] + ps[1..] == ps;
    }
  }

  lemma {:induction false} UpdatesRoundTrip(us: seq<Update>)
    requires forall u <- us :: InInt32(u.prop)
    ensures ReadUpdates(UpdatesToJson(us)) == Ok(us)
    decreases |us|
  {
    if us != [] {
      assert us[0] in us && forall u <- us[1..] :: u in us;
      UpdatesRoundTrip(us[1..]);
      Int32Stays(us[0].prop);
      assert UpdatesToJson(us)[1..] == UpdatesToJson(us[1..]);
      assert ReadUpdate(UpdateToJson(us[0])) == Ok(us[0]);
      assert [us[0]] + us[1..] == us;
    }
  }

  lemma AddedRoundTrip(id: int, name: string, ps: seq<Property>)
    requires InInt32(id) && forall p <- ps :: InInt32(p.kind)
    ensures ModuleOf(ModuleJson(id, name, ps)) == Ok(Some((id, Module(name, ps, false))))
  {
    Int32Stays(id);
    PropertiesRoundTrip(ps);
    var m := ModuleJson(id, name, ps);
    assert ValueToInt(m, "id") == Ok(id) && ValueToString(m, "name") == Ok(name);
    assert Items(Find(m, "properties")) == Some(PropertiesToJson(ps));
  }

  lemma UpdatedRoundTrip(id: int, us: seq<Update>)
    requires InInt32(id) && forall u <- us :: InInt32(u.prop)
    ensures var j := Encode(Updated(id, us)); ValueToInt(j, "id") == Ok(id) && UpdatesOf(j) == Ok(us)
  {
    Int32Stays(id);
    UpdatesRoundTrip(us);
  }

  lemma TypesAreTold(m: Msg)
    ensures ValueToString(Encode(m), "type").Ok?
    ensures TypeNamed(ValueToString(Encode(m), "type").value)
            == match m case Added(_, _, _) => MODULE_ADD case Removed(_) => MODULE_DEL case Updated(_, _) => PROPERTY_UPDATE
  {}

  /** Decoding an encoded message gives it back: type, id, name, every property with its read-only
      flag, every update. The receiver's module has no callback. */
  lemma DecodeEncode(m: Msg)
    requires Fits(m)
    ensures Decode(Encode(m)) == Ok(Some(m))
    ensures m.Added? ==> Find(Encode(m), "module").Some? && ModuleOf(Find(Encode(m), "module").value) == Ok(Some((m.id, Received(m))))
  {
    TypesAreTold(m);
    match m
    case Added(id, name, ps) => AddedRoundTrip(id, name, ps); assert Find(Encode(m), "module") == Some(ModuleJson(id, name, ps));
    case Removed(id) => Int32Stays(id);
    case Updated(id, us) => UpdatedRoundTrip(id, us);
  }

  /** Encoding is injective: two messages with the same tree are the same message. */
  lemma EncodeInjective(m: Msg, m': Msg)
    requires Fits(m) && Fits(m') && Encode(m) == Encode(m')
    ensures m == m'
  {
    DecodeEncode(m);
    DecodeEncode(m');
  }

  /** An apply keeps its list through the host, which replaces only the id. */
  lemma ApplyRoundTrip(id: int, newId: int, us: seq<Update>)
    requires InInt32(newId) && forall u <- us :: InInt32(u.prop)
    ensures var j := JObj(ApplyJson(id, us).fields["id" := JInt(newId)]);
            && j == ApplyJson(newId, us)
            && TypeNamed(ValueToString(j, "type").value) == REQ_APPLY && ValueToInt(j, "id") == Ok(newId) && UpdatesOf(j) == Ok(us)
  {
    Int32Stays(newId);
    UpdatesRoundTrip(us);
  }

  /** Setting the id of a removal, update or apply and looking it up again gives the new id; the type
      and the property list stay. */
  method SetIdThenFindId(m: Message, id: int) returns (found: Result<int>)
    requires m.kind in {MODULE_DEL, PROPERTY_UPDATE, REQ_APPLY} && m.json.JObj? && InInt32(id)
    modifies m`json
    ensures found == Ok(id) && m.kind == old(m.kind)
    ensures UpdatesOf(m.json) == UpdatesOf(old(m.json)) && ValueToString(m.json, "type") == ValueToString(old(m.json), "type")
  {
    var threw := m.SetId(id);
    Int32Stays(id);
    found := m.FindId();
  }

  /** A load request is told apart from all others, names no module and carries no list. */
  lemma LoadNamesNothing(m: Message)
    requires m.json == LOAD_JSON && m.kind == TypeNamed("load")
    ensures m.kind == REQ_LOAD && m.FindId() == Ok(-1) && Decode(m.json) == Ok(None)
  {}

  /** A property without the flag arrives as read-only: the missing value is -1, which is not 0. */
  lemma MissingFlagIsReadOnly(p: Property)
    requires InInt32(p.kind)
    ensures ReadProperty(JObj(PropertyToJson(p).fields - {"read_only"})) == Ok(p.(readOnly := true))
  {
    Int32Stays(p.kind);
  }
}
