/** Calls that cross the library boundary as parallel C arrays: what the wrapper builds, what the
    library rebuilds, and how that compares with handing the lists over directly. */
module Marshalling {
  import opened Model
  import opened Instance
  import opened ModuleManager
  import Browser

  const NUL := '\0'

  /* ---- C strings ---- */

  /** What a reader of a C string sees of s. */
  function CStr(s: string): (r: string)
    ensures r <= s && NUL !in r
    ensures |r| < |s| ==> s[|r|] == NUL
  {
    if s == [] || s[0] == NUL then [] else [s[0]] + CStr(s[1..])
  }

  predicate Clean(s: string) {
    NUL !in s
  }

  lemma CStrIsWhole(s: string)
    ensures CStr(s) == s <==> Clean(s)
  {
    if CStr(s) != s { assert s[|CStr(s)|] == NUL; }
  }

  lemma {:induction false} CStrIsFirst(s: string, n: nat)
    requires n < |s| && s[n] == NUL && NUL !in s[..n]
    ensures CStr(s) == s[..n]
  {
    if n > 0 {
      assert s[0] == s[..n][0] && s[1..][..n - 1] == s[..n][1..];
      CStrIsFirst(s[1..], n - 1);
    }
  }

  lemma NoNulBefore(s: string, i: nat)
    ensures i < |CStr(s)| ==> s[i] != NUL
  {
    if i < |CStr(s)| { assert CStr(s)[i] == s[i]; }
  }

  /** The buffer holds s as a C string. */
  predicate Holds(a: array<char>, s: string)
    reads a
  {
    var r := CStr(s);
    |r| < a.Length && a[..|r|] == r && a[|r|] == NUL
  }

  lemma HeldIsRead(a: array<char>, s: string)
    requires Holds(a, s)
    ensures NUL in a[..] && CStr(a[..]) == CStr(s)
  {
    assert a[..][|CStr(s)|] == NUL && a[..][..|CStr(s)|] == CStr(s);
    CStrIsFirst(a[..], |CStr(s)|);
  }

  /** Copies up to the first NUL of the source, and a NUL. */
  method StrCpy(dst: array<char>, src: string)
    requires |src| < dst.Length
    modifies dst
    ensures Holds(dst, src)
  {
    var i := 0;
    while i < |src| && src[i] != NUL
      invariant 0 <= i <= |CStr(src)| && dst[..i] == src[..i]
    {
      assert i < |CStr(src)|;
      dst[i] := src[i];
      i := i + 1;
    }
    NoNulBefore(src, i);
    dst[i] := NUL;
  }

  method StrToChrA(s: string) returns (res: array<char>)
    ensures fresh(res) && res.Length == |s| + 1 && Holds(res, s)
  {
    if |s| > 0 {
      res := new char[|s| + 1];
      StrCpy(res, s);
    } else {
      res := new char[1];
      res[0] := NUL;
    }
  }

  /** The string constructed from a C string. */
  method FromChrA(a: array<char>) returns (s: string)
    requires NUL in a[..]
    ensures s == CStr(a[..])
  {
    var i := 0;
    while a[i] != NUL
      invariant 0 <= i < a.Length && NUL !in a[..i]
      invariant NUL in a[i..]
      decreases a.Length - i
    {
      assert a[i..] == [a[i]] + a[i + 1..];
      i := i + 1;
    }
    CStrIsFirst(a[..], i);
    s := a[..i];
  }

  /** The first n entries of an array of C strings are these. */
  ghost predicate HoldAll(a: array<array?<char>>, ss: seq<string>)
    reads a, a[..]
  {
    |ss| <= a.Length && forall i :: 0 <= i < |ss| ==> a[i] != null && Holds(a[i], ss[i])
  }

  /* ---- What both paths hand to the manager ---- */

  /** The types by which a program declares its properties. */
  datatype DeclaredType =
    | BUTTON | BUTTON_SW | BUTTON_SW_IN | TEXT | TEXT_BT | TEXT_RO
    | TEXT_AREA | TEXT_AREA_BT | TEXT_AREA_RO | LOG | SCRIPT

  /** The enumeration counts from 0. */
  function ToInt(t: DeclaredType): int {
    match t
    case BUTTON => 0
    case BUTTON_SW => 1
    case BUTTON_SW_IN => 2
    case TEXT => 3
    case TEXT_BT => 4
    case TEXT_RO => 5
    case TEXT_AREA => 6
    case TEXT_AREA_BT => 7
    case TEXT_AREA_RO => 8
    case LOG => 9
    case SCRIPT => 10
  }

  /** The page's type of the same name. */
  function PageType(t: DeclaredType): Browser.PropertyType {
    match t
    case BUTTON => Browser.BUTTON
    case BUTTON_SW => Browser.BUTTON_SW
    case BUTTON_SW_IN => Browser.BUTTON_SW_IN
    case TEXT => Browser.TEXT
    case TEXT_BT => Browser.TEXT_BT
    case TEXT_RO => Browser.TEXT_RO
    case TEXT_AREA => Browser.TEXT_AREA
    case TEXT_AREA_BT => Browser.TEXT_AREA_BT
    case TEXT_AREA_RO => Browser.TEXT_AREA_RO
    case LOG => Browser.LOG
    case SCRIPT => Browser.SCRIPT
  }

  /** Programs and page number the types alike: each of the eleven has a number of its own below 11, and the
      page looks up the type of the same name under it. */
  lemma NumbersAgree(t: DeclaredType, u: DeclaredType)
    ensures 0 <= ToInt(t) <= 10 && Browser.FromId(ToInt(t)) == Some(PageType(t))
    ensures ToInt(t) == ToInt(u) ==> t == u
    ensures ToInt(t) == 10 <==> PageType(t) == Browser.SCRIPT
  {}

  /** A property as an application declares it. */
  datatype Declared = Declared(kind: DeclaredType, name: string, value: string)

  /** Only script properties are read-only. */
  function IsPropertyTypeForReadOnly(t: DeclaredType): int {
    if t.SCRIPT? then 1 else 0
  }

  function Direct(d: Declared): Property {
    Property(ToInt(d.kind), d.name, d.value, IsPropertyTypeForReadOnly(d.kind) != 0)
  }

  function Listed(ds: seq<Declared>): seq<Property> {
    seq(|ds|, i requires 0 <= i < |ds| => Direct(ds[i]))
  }

  function DirectModule(name: string, ds: seq<Declared>, hasCallback: bool): Module {
    Module(name, Listed(ds), hasCallback)
  }

  /** What is left of a property, and of a module, whose strings crossed as C strings. */
  function Crossed(p: Property): Property {
    p.(name := CStr(p.name), value := CStr(p.value))
  }

  function CrossedModule(m: Module): Module {
    Module(CStr(m.name), seq(|m.properties|, i requires 0 <= i < |m.properties| => Crossed(m.properties[i])), m.hasCallback)
  }

  /* ---- What a registration means ---- */

  /** The property was declared like this: the page has it as a view of the declared type, an update after
      the registration gives it the value, whatever it is, unless the page has it as a script, and a script
      keeps the declared one. */
  ghost predicate Means(m: Module, j: nat, kind: DeclaredType, name: string, value: string)
    requires j < |m.properties|
  {
    var p := m.properties[j];
    && Browser.FromId(p.kind) == Some(PageType(kind)) && p.name == name && p.value == value
    && forall v: string ::
         UpdateModule(m, [Update(j, v)]).properties[j].value == if Browser.FromId(p.kind) == Some(Browser.SCRIPT) then value else v
  }

  ghost predicate MeansDirectly(m: Module, ds: seq<Declared>) {
    |m.properties| == |ds| && forall j :: 0 <= j < |ds| ==> Means(m, j, ds[j].kind, ds[j].name, ds[j].value)
  }

  ghost predicate MeansCut(m: Module, ds: seq<Declared>) {
    |m.properties| == |ds| && forall j :: 0 <= j < |ds| ==> Means(m, j, ds[j].kind, CStr(ds[j].name), CStr(ds[j].value))
  }

  lemma OneUpdate(m: Module, j: nat, v: string)
    requires j < |m.properties|
    ensures UpdateModule(m, [Update(j, v)]).properties[j] == SetValue(m.properties[j], v)
  {
    var ups := [Update(j, v)];
    assert ups[1..] == [];
    assert ApplyUpdates(m.properties, ups) == ApplyUpdates(SetProperty(m.properties, ups[0]), ups[1..]);
  }

  lemma RegisteredMeans(m: Module, j: nat, d: Declared, name: string, value: string)
    requires j < |m.properties| && m.properties[j] == Direct(d).(name := name, value := value)
    ensures Means(m, j, d.kind, name, value)
  {
    NumbersAgree(d.kind, d.kind);
    forall v: string
      ensures UpdateModule(m, [Update(j, v)]).properties[j].value
              == if Browser.FromId(m.properties[j].kind) == Some(Browser.SCRIPT) then value else v
    {
      OneUpdate(m, j, v);
    }
  }

  /** What both wrappers register means what the program declared, up to the first NUL of each string where
      it crosses the arrays. */
  lemma RegistrationsMean(name: string, ds: seq<Declared>, hasCallback: bool)
    ensures MeansDirectly(DirectModule(name, ds, hasCallback), ds)
    ensures MeansCut(CrossedModule(DirectModule(name, ds, hasCallback)), ds)
  {
    var d := DirectModule(name, ds, hasCallback);
    forall j | 0 <= j < |ds|
      ensures Means(d, j, ds[j].kind, ds[j].name, ds[j].value)
      ensures Means(CrossedModule(d), j, ds[j].kind, CStr(ds[j].name), CStr(ds[j].value))
    {
      RegisteredMeans(d, j, ds[j], ds[j].name, ds[j].value);
      RegisteredMeans(CrossedModule(d), j, ds[j], CStr(ds[j].name), CStr(ds[j].value));
    }
  }

  /** A module registered so appears on the page with one view for each declared property, in that order, of
      the declared type and with the declared name. */
  lemma DeclaredAppears(m: Module, ds: seq<Declared>)
    requires MeansDirectly(m, ds)
    ensures var ws := Browser.Opened(m).widgets;
            |ws| == |ds| && forall j :: 0 <= j < |ds| ==>
              ws[j].id == j && ws[j].kind == PageType(ds[j].kind) && Browser.ViewOf(ws[j], m.properties[j])
              && (ds[j].kind.SCRIPT? || ws[j].caption == ds[j].name)
  {
    var ps := m.properties;
    forall j | 0 <= j < |ps| ensures Browser.KnownType(ps[j]) { assert Means(m, j, ds[j].kind, ds[j].name, ds[j].value); }
    Browser.KnownTypesKeepIndices(ps);
    Browser.WidgetsInOrder(ps);
    forall j | 0 <= j < |ds|
      ensures Browser.Widgets(ps)[j].id == j && Browser.Widgets(ps)[j].kind == PageType(ds[j].kind) && Browser.ViewOf(Browser.Widgets(ps)[j], ps[j])
      ensures ds[j].kind.SCRIPT? || Browser.Widgets(ps)[j].caption == ds[j].name
    {
      assert Means(m, j, ds[j].kind, ds[j].name, ds[j].value) && Browser.KnownType(ps[j]);
      Browser.ViewIdOfKnown(ps, j);
      Browser.TypesByNumber(ps[j].kind);
      NumbersAgree(ds[j].kind, SCRIPT);
      assert Browser.ViewOf(Browser.Widgets(ps)[Browser.ViewId(ps, j)], ps[j]);
    }
  }

  function CrossedUpdates(ups: seq<Update>): seq<Update> {
    seq(|ups|, i requires 0 <= i < |ups| => Update(ups[i].prop, CStr(ups[i].value)))
  }

  predicate CleanModule(name: string, ds: seq<Declared>) {
    Clean(name) && forall i :: 0 <= i < |ds| ==> Clean(ds[i].name) && Clean(ds[i].value)
  }

  /** A registration through the C arrays is the direct one if and only if no string has a NUL. */
  lemma RegistrationsAgreeIff(name: string, ds: seq<Declared>, hasCallback: bool)
    ensures CrossedModule(DirectModule(name, ds, hasCallback)) == DirectModule(name, ds, hasCallback) <==> CleanModule(name, ds)
  {
    var d := DirectModule(name, ds, hasCallback);
    var c := CrossedModule(d);
    CStrIsWhole(name);
    forall i | 0 <= i < |ds| ensures c.properties[i] == d.properties[i] <==> Clean(ds[i].name) && Clean(ds[i].value) {
      CStrIsWhole(ds[i].name);
      CStrIsWhole(ds[i].value);
    }
    if CleanModule(name, ds) { assert c.properties == d.properties; }
  }

  /** Likewise for updates, from an application to the manager or from the manager to a callback; a
      list that crossed once crosses again unchanged. */
  lemma UpdatesAgreeIff(ups: seq<Update>)
    ensures CrossedUpdates(ups) == ups <==> forall i :: 0 <= i < |ups| ==> Clean(ups[i].value)
    ensures CrossedUpdates(CrossedUpdates(ups)) == CrossedUpdates(ups)
  {
    var c := CrossedUpdates(ups);
    forall i | 0 <= i < |ups| ensures c[i] == ups[i] <==> Clean(ups[i].value) {
      CStrIsWhole(ups[i].value);
    }
    forall i | 0 <= i < |ups| ensures CrossedUpdates(c)[i] == c[i] {
      CStrIsWhole(c[i].value);
    }
    if forall i :: 0 <= i < |ups| ==> Clean(ups[i].value) { assert c == ups; }
  }

  /* ---- The library ---- */

  function Names(ps: seq<Property>): seq<string> {
    seq(|ps|, i requires 0 <= i < |ps| => ps[i].name)
  }

  function DefaultValues(ps: seq<Property>): seq<string> {
    seq(|ps|, i requires 0 <= i < |ps| => ps[i].value)
  }

  function UpdateValues(ups: seq<Update>): seq<string> {
    seq(|ups|, i requires 0 <= i < |ups| => ups[i].value)
  }

  /** The first i entries of the four arrays are those of the list. */
  ghost predicate Filled(types: array<int>, names: array<array?<char>>, values: array<array?<char>>, readOnly: array<int>, ps: seq<Property>, i: nat)
    reads types, readOnly, names, values, names[..], values[..]
  {
    && i <= |ps| == types.Length == names.Length == values.Length == readOnly.Length
    && HoldAll(names, Names(ps)[..i]) && HoldAll(values, DefaultValues(ps)[..i])
    && forall j :: 0 <= j < i ==> types[j] == ps[j].kind && (readOnly[j] != 0 <==> ps[j].readOnly)
  }

  method Rebuild(count: nat, types: array<int>, names: array<array?<char>>, defaults: array<array?<char>>, readOnly: array<int>,
                 ghost ps: seq<Property>)
    returns (list: seq<Property>)
    requires count == |ps| && Filled(types, names, defaults, readOnly, ps, count)
    ensures list == CrossedModule(Module("", ps, false)).properties
  {
    list := [];
    for i := 0 to count
      invariant |list| == i && forall j :: 0 <= j < i ==> list[j] == Crossed(ps[j])
    {
      var n := ReadString(names, Names(ps)[..count], i);
      var v := ReadString(defaults, DefaultValues(ps)[..count], i);
      list := list + [Property(types[i], n, v, readOnly[i] != 0)];
    }
  }

  method ReadString(a: array<array?<char>>, ghost ss: seq<string>, i: nat) returns (s: string)
    requires i < |ss| && HoldAll(a, ss)
    ensures s == CStr(ss[i])
  {
    HeldIsRead(a[i], ss[i]);
    s := FromChrA(a[i]);
  }

  method RebuildUpdates(count: nat, ids: array<int>, values: array<array?<char>>, ghost ups: seq<Update>) returns (list: seq<Update>)
    requires ids.Length == values.Length == count == |ups|
    requires HoldAll(values, UpdateValues(ups)) && forall i :: 0 <= i < count ==> ids[i] == ups[i].prop
    ensures list == CrossedUpdates(ups)
  {
    list := [];
    for i := 0 to count
      invariant |list| == i && forall j :: 0 <= j < i ==> list[j] == Update(ups[j].prop, CStr(ups[j].value))
    {
      var v := ReadString(values, UpdateValues(ups), i);
      list := list + [Update(ids[i], v)];
    }
  }

  class Library {
    var mgr: Manager?

    constructor ()
      ensures mgr == null
    {
      mgr := null;
    }

    /** The manager is created once. */
    method Init()
      modifies this
      ensures mgr != null && (old(mgr) != null ==> mgr == old(mgr))
      ensures old(mgr) == null ==> fresh(mgr) && mgr.Valid() && mgr.View() == FRESH
    {
      if mgr == null { mgr := new Manager(); }
    }

    /** `ps` is what the arrays hold. The answer is -2 without a manager; otherwise the id comes from the
        loop, and there is no code yet. */
    method RegisterModule(name: array<char>, count: nat, types: array<int>, names: array<array?<char>>,
                          defaults: array<array?<char>>, readOnly: array<int>, hasCallback: bool,
                          ghost theName: string, ghost ps: seq<Property>)
      returns (code: Option<int>)
      requires mgr != null ==> mgr.Valid()
      requires Holds(name, theName) && count == |ps|
      requires Filled(types, names, defaults, readOnly, ps, count)
      modifies if mgr == null then {} else {mgr}
      ensures mgr == null ==> code == Some(-2)
      ensures mgr != null ==> code == None && mgr.Valid()
                              && mgr.View() == Post(old(mgr.View()), TRegister(CrossedModule(Module(theName, ps, hasCallback)), Own))
    {
      if mgr == null { return Some(-2); }
      var list := Rebuild(count, types, names, defaults, readOnly, ps);
      HeldIsRead(name, theName);
      var n := FromChrA(name);
      assert Module(n, list, hasCallback) == CrossedModule(Module(theName, ps, hasCallback));
      mgr.PostRegistration(Module(n, list, hasCallback), Own);
      code := None;
    }

    /** Without a manager this would dereference null: a caller initialises first. */
    method UpdateProperties(onLoop: bool, id: int, count: nat, ids: array<int>, values: array<array?<char>>, ghost ups: seq<Update>)
      returns (threw: bool)
      requires mgr != null && mgr.Valid()
      requires ids.Length == values.Length == count == |ups|
      requires HoldAll(values, UpdateValues(ups)) && forall i :: 0 <= i < count ==> ids[i] == ups[i].prop
      modifies mgr, mgr.modules.Values
      ensures mgr == old(mgr) && Updates(old(mgr.View()), mgr.View(), onLoop, threw, id, CrossedUpdates(ups))
    {
      var list := RebuildUpdates(count, ids, values, ups);
      threw := mgr.UpdateProperties(onLoop, id, list);
    }
  }

  /** What an update of these values does to a manager, and when the call throws instead of sending. */
  ghost predicate Updates(before: Inst, after: Inst, onLoop: bool, threw: bool, id: int, ups: seq<Update>) {
    && (threw <==> onLoop && id in before.modules && !NonNegative(ups))
    && after == if !onLoop then Post(Post(before, TSave(id, ups)), TSend(id, ups))
                else if threw then Save(before, id, ups)
                else Handle(Save(before, id, ups), Updated(id, ups))
  }

  /* ---- The two wrappers ---- */

  method NewPointers(n: nat) returns (a: array<array?<char>>)
    ensures fresh(a) && a.Length == n
  {
    a := new array?<char>[n](_ => null);
  }

  /** The i-th entry of an array of C strings. */
  method PutString(a: array<array?<char>>, ghost ss: seq<string>, i: nat, s: string)
    requires i < |ss| == a.Length && s == ss[i] && HoldAll(a, ss[..i])
    modifies a
    ensures HoldAll(a, ss[..i + 1])
  {
    a[i] := StrToChrA(s);
  }

  method FillNext(types: array<int>, names: array<array?<char>>, values: array<array?<char>>, readOnly: array<int>, ds: seq<Declared>, i: nat)
    requires i < |ds| && Filled(types, names, values, readOnly, Listed(ds), i) && names != values && types != readOnly
    modifies types, names, values, readOnly
    ensures Filled(types, names, values, readOnly, Listed(ds), i + 1)
  {
    types[i] := ToInt(ds[i].kind);
    PutString(names, Names(Listed(ds)), i, ds[i].name);
    PutString(values, DefaultValues(Listed(ds)), i, ds[i].value);
    readOnly[i] := IsPropertyTypeForReadOnly(ds[i].kind);
  }

  /** Four parallel arrays for a list of properties. */
  method FillProperties(ds: seq<Declared>)
    returns (types: array<int>, names: array<array?<char>>, values: array<array?<char>>, readOnly: array<int>)
    ensures Filled(types, names, values, readOnly, Listed(ds), |ds|)
    ensures fresh(types) && fresh(names) && fresh(values) && fresh(readOnly)
  {
    types := new int[|ds|];
    names := NewPointers(|ds|);
    values := NewPointers(|ds|);
    readOnly := new int[|ds|];
    for i := 0 to |ds|
      invariant Filled(types, names, values, readOnly, Listed(ds), i)
    {
      FillNext(types, names, values, readOnly, ds, i);
    }
  }

  /** Two parallel arrays for a list of updates. */
  method FillUpdates(ups: seq<Update>) returns (ids: array<int>, values: array<array?<char>>)
    ensures fresh(ids) && fresh(values) && ids.Length == values.Length == |ups|
    ensures HoldAll(values, UpdateValues(ups)) && forall i :: 0 <= i < |ups| ==> ids[i] == ups[i].prop
  {
    var n := |ups|;
    ids := new int[n];
    values := new array?<char>[n](_ => null);
    for i := 0 to n
      invariant forall j :: 0 <= j < i ==> ids[j] == ups[j].prop
      invariant forall j :: 0 <= j < i ==> values[j] != null && fresh(values[j]) && Holds(values[j], ups[j].value)
      modifies ids, values
    {
      ids[i] := ups[i].prop;
      var value := new char[|ups[i].value| + 1];
      StrCpy(value, ups[i].value);
      values[i] := value;
    }
  }

  class SacsWrapper {
    const lib: Library
    const isValid: bool            // were the library and its functions found?

    constructor (found: bool)
      ensures isValid == found && fresh(lib)
      ensures isValid ==> lib.mgr != null && fresh(lib.mgr) && lib.mgr.Valid() && lib.mgr.View() == FRESH
    {
      lib := new Library();
      isValid := found;
      new;
      if found { lib.Init(); }
    }

    /** Fills four parallel arrays. */
    method RegisterModule(name: string, ds: seq<Declared>, hasCallback: bool) returns (code: Option<int>)
      requires isValid ==> lib.mgr != null && lib.mgr.Valid()
      modifies if isValid then {lib.mgr} else {}
      ensures !isValid ==> code == Some(-2)
      ensures isValid ==> code == None && lib.mgr.Valid()
                          && lib.mgr.View() == Post(old(lib.mgr.View()), TRegister(CrossedModule(DirectModule(name, ds, hasCallback)), Own))
      ensures isValid ==> MeansCut(lib.mgr.loop[|lib.mgr.loop| - 1].mod, ds)
    {
      if !isValid { return Some(-2); }
      var types, names, values, readOnly := FillProperties(ds);
      var cname := StrToChrA(name);
      code := lib.RegisterModule(cname, |ds|, types, names, values, readOnly, hasCallback, name, Listed(ds));
      RegistrationsMean(name, ds, hasCallback);
    }

    method UpdateProperties(onLoop: bool, id: int, ups: seq<Update>) returns (threw: bool)
      requires isValid ==> lib.mgr != null && lib.mgr.Valid()
      modifies if isValid then {lib.mgr} + lib.mgr.modules.Values else {}
      ensures isValid ==> lib.mgr == old(lib.mgr) && Updates(old(lib.mgr.View()), lib.mgr.View(), onLoop, threw, id, CrossedUpdates(ups))
    {
      threw := false;
      if !isValid { return; }
      var ids, values := FillUpdates(ups);
      threw := lib.UpdateProperties(onLoop, id, |ups|, ids, values, ups);
    }
  }

  /** The wrapper for programs that are built with the library. */
  class SacsWrapperNoLib {
    const mgr: Manager

    constructor ()
      ensures fresh(mgr) && mgr.Valid() && mgr.View() == FRESH
    {
      mgr := new Manager();
    }

    method RegisterModule(name: string, ds: seq<Declared>, hasCallback: bool)
      requires mgr.Valid()
      modifies mgr
      ensures mgr.Valid() && mgr.View() == Post(old(mgr.View()), TRegister(DirectModule(name, ds, hasCallback), Own))
      ensures MeansDirectly(mgr.loop[|mgr.loop| - 1].mod, ds)
    {
      var ps: seq<Property> := [];
      for i := 0 to |ds|
        invariant |ps| == i && forall j :: 0 <= j < i ==> ps[j] == Direct(ds[j])
        modifies {}
      {
        ps := ps + [Property(ToInt(ds[i].kind), ds[i].name, ds[i].value, IsPropertyTypeForReadOnly(ds[i].kind) != 0)];
      }
      assert Module(name, ps, hasCallback) == DirectModule(name, ds, hasCallback);
      mgr.PostRegistration(Module(name, ps, hasCallback), Own);
      RegistrationsMean(name, ds, hasCallback);
    }

    method UpdateProperties(onLoop: bool, id: int, ups: seq<Update>) returns (threw: bool)
      requires mgr.Valid()
      modifies mgr, mgr.modules.Values
      ensures Updates(old(mgr.View()), mgr.View(), onLoop, threw, id, ups)
    {
      threw := mgr.UpdateProperties(onLoop, id, ups);
    }
  }

  /* ---- From the manager to a callback ---- */

  /** The list as the Android glue rebuilds it from the arrays of a callback. */
  method InternalCallback(count: nat, ids: array<int>, values: array<array?<char>>, ghost ups: seq<Update>) returns (list: seq<Update>)
    requires ids.Length == values.Length == count == |ups|
    requires HoldAll(values, UpdateValues(ups)) && forall i :: 0 <= i < count ==> ids[i] == ups[i].prop
    ensures list == CrossedUpdates(ups)
  {
    list := RebuildUpdates(count, ids, values, ups);
  }

  lemma CopiedWhole(a: array<char>, s: string)
    requires a.Length == |s| + 1 && a[..|s|] == s && a[|s|] == NUL
    ensures Holds(a, s)
  {
    assert a[..|CStr(s)|] == s[..|CStr(s)|];
  }

  /** Copies the characters, whatever they are, and ends them with a NUL. */
  method CopyChrA(value: string) returns (str: array<char>)
    ensures fresh(str) && Holds(str, value)
  {
    if |value| > 0 {
      str := new char[|value| + 1];
      str[|value|] := NUL;
      forall j | 0 <= j < |value| { str[j] := value[j]; }
      assert str[..|value|] == value;
      CopiedWhole(str, value);
    } else {
      str := new char[1];
      str[0] := NUL;
    }
  }

  /** The manager's arrays for a callback keep every character, NULs too; the callback reads C strings. */
  method CallModule(ups: seq<Update>) returns (got: seq<Update>)
    ensures got == CrossedUpdates(ups)
  {
    var n := |ups|;
    var ids := new int[n];
    var values := new array?<char>[n](_ => null);
    for i := 0 to n
      invariant forall j :: 0 <= j < i ==> ids[j] == ups[j].prop
      invariant forall j :: 0 <= j < i ==> values[j] != null && fresh(values[j]) && Holds(values[j], ups[j].value)
    {
      var value := ups[i].value;
      ids[i] := ups[i].prop;
      var str := CopyChrA(value);
      values[i] := str;
    }
    got := InternalCallback(n, ids, values, ups);
  }
}
