/** Values shared by every part of the model: properties, modules, messages, and what a
    sequence of messages says about which modules exist. */
module Model {

  datatype Option<+T> = None | Some(value: T)

  /** One entry of a property list: property id and new value. */
  datatype Update = Update(prop: int, value: string)

  datatype Property = Property(kind: int, name: string, value: string, readOnly: bool)

  /** A registered module. Of the callback only its presence matters to the protocol. */
  datatype Module = Module(name: string, properties: seq<Property>, hasCallback: bool)

  function SetValue(p: Property, value: string): Property {
    if p.readOnly then p else p.(value := value)
  }

  /** Only the upper bound of the property id is checked. */
  function SetProperty(ps: seq<Property>, u: Update): (r: seq<Property>)
    requires 0 <= u.prop
    ensures |r| == |ps|
  {
    if u.prop < |ps| then ps[u.prop := SetValue(ps[u.prop], u.value)] else ps
  }

  /** The first negative property id makes the indexed access throw: what precedes it is kept. */
  function ApplyUpdates(ps: seq<Property>, ups: seq<Update>): (r: seq<Property>)
    ensures |r| == |ps|
    decreases |ups|
  {
    if ups == [] || ups[0].prop < 0 then ps
    else ApplyUpdates(SetProperty(ps, ups[0]), ups[1..])
  }

  function UpdateModule(m: Module, ups: seq<Update>): Module {
    m.(properties := ApplyUpdates(m.properties, ups))
  }

  predicate NonNegative(ups: seq<Update>) {
    forall u <- ups :: 0 <= u.prop
  }

  /* ---- Frozen part of a module ---- */

  /** What no update may change: everything but the value, and the value too when read-only. */
  function Frozen(p: Property): Property {
    if p.readOnly then p else p.(value := "")
  }

  datatype Shape = Shape(name: string, properties: seq<Property>)

  function FrozenAll(ps: seq<Property>): (r: seq<Property>)
    ensures |r| == |ps|
    ensures forall i :: 0 <= i < |ps| ==> r[i] == Frozen(ps[i])
  {
    seq(|ps|, i requires 0 <= i < |ps| => Frozen(ps[i]))
  }

  function ShapeOf(m: Module): Shape {
    Shape(m.name, FrozenAll(m.properties))
  }

  lemma {:induction false} UpdatesKeepFrozen(ps: seq<Property>, ups: seq<Update>)
    ensures FrozenAll(ApplyUpdates(ps, ups)) == FrozenAll(ps)
    decreases |ups|
  {
    if ups != [] && ups[0].prop >= 0 {
      UpdatesKeepFrozen(SetProperty(ps, ups[0]), ups[1..]);
    }
  }

  /** No list of updates changes a module's name, its property count, names, types or flags,
      or the value of a read-only property. */
  lemma ShapeIsFrozen(m: Module, ups: seq<Update>)
    ensures ShapeOf(UpdateModule(m, ups)) == ShapeOf(m)
    ensures UpdateModule(m, ups).hasCallback == m.hasCallback
    ensures forall i :: 0 <= i < |m.properties| && m.properties[i].readOnly
              ==> UpdateModule(m, ups).properties[i] == m.properties[i]
  {
    UpdatesKeepFrozen(m.properties, ups);
    var qs := ApplyUpdates(m.properties, ups);
    forall i | 0 <= i < |m.properties| && m.properties[i].readOnly
      ensures qs[i] == m.properties[i]
    {
      assert FrozenAll(qs)[i] == Frozen(qs[i]) && FrozenAll(m.properties)[i] == Frozen(m.properties[i]);
    }
  }

  /* ---- Messages ---- */

  datatype Msg =
    | Added(id: int, name: string, properties: seq<Property>)
    | Removed(id: int)
    | Updated(id: int, updates: seq<Update>)

  /** The message announcing module m under the given id. */
  function AddedMsg(id: int, m: Module): Msg {
    Added(id, m.name, m.properties)
  }

  /** The module a receiver builds from an Added message; it has no callback. */
  function Received(m: Msg): Module
    requires m.Added?
  {
    Module(m.name, m.properties, false)
  }

  type Table = map<int, Shape>

  function TableOf(ms: map<int, Module>): Table {
    map id | id in ms :: ShapeOf(ms[id])
  }

  function ReplayOne(t: Table, m: Msg): Table {
    match m
    case Added(id, name, ps) => t[id := Shape(name, FrozenAll(ps))]
    case Removed(id) => t - {id}
    case Updated(_, _) => t
  }

  /** The table that a stream of messages describes, starting from t. */
  function ReplayFrom(t: Table, log: seq<Msg>): Table {
    if log == [] then t
    else ReplayOne(ReplayFrom(t, log[..|log| - 1]), log[|log| - 1])
  }

  function Replay(log: seq<Msg>): Table {
    ReplayFrom(map[], log)
  }

  lemma ReplayAppend(t: Table, log: seq<Msg>, m: Msg)
    ensures ReplayFrom(t, log + [m]) == ReplayOne(ReplayFrom(t, log), m)
  {
    assert (log + [m])[..|log|] == log;
  }

  lemma {:induction false} ReplayConcat(t: Table, a: seq<Msg>, b: seq<Msg>)
    ensures ReplayFrom(t, a + b) == ReplayFrom(ReplayFrom(t, a), b)
    decreases |b|
  {
    if b == [] {
      assert a + b == a;
    } else {
      var n := |b| - 1;
      ReplayConcat(t, a, b[..n]);
      assert a + b == (a + b[..n]) + [b[n]];
      ReplayAppend(t, a + b[..n], b[n]);
    }
  }

  /* ---- Identifiers in a stream ---- */

  function NumAdds(log: seq<Msg>): nat {
    if log == [] then 0
    else NumAdds(log[..|log| - 1]) + if log[|log| - 1].Added? then 1 else 0
  }

  /** After n modules were announced, the next one has id n, and any other message
      names one of them or the unknown id -1. */
  predicate Follows(n: nat, m: Msg) {
    if m.Added? then m.id == n else m.id == -1 || 0 <= m.id < n
  }

  predicate WellNumbered(log: seq<Msg>) {
    log == [] || (WellNumbered(log[..|log| - 1]) && Follows(NumAdds(log[..|log| - 1]), log[|log| - 1]))
  }

  lemma LogAppend(log: seq<Msg>, m: Msg)
    ensures NumAdds(log + [m]) == NumAdds(log) + if m.Added? then 1 else 0
    ensures WellNumbered(log + [m]) <==> WellNumbered(log) && Follows(NumAdds(log), m)
  {
    assert (log + [m])[..|log|] == log;
  }

  lemma {:induction false} PrefixWellNumbered(log: seq<Msg>, k: nat)
    requires WellNumbered(log) && k <= |log|
    ensures WellNumbered(log[..k]) && NumAdds(log[..k]) <= NumAdds(log)
    decreases |log|
  {
    if k < |log| {
      PrefixWellNumbered(log[..|log| - 1], k);
      assert log[..|log| - 1][..k] == log[..k];
    } else {
      assert log[..k] == log;
    }
  }

  /** Reading one more message of a well numbered stream. */
  lemma PrefixStep(log: seq<Msg>, k: nat)
    requires WellNumbered(log) && k < |log|
    ensures log[..k + 1] == log[..k] + [log[k]]
    ensures Follows(NumAdds(log[..k]), log[k])
    ensures NumAdds(log[..k + 1]) == NumAdds(log[..k]) + if log[k].Added? then 1 else 0
    ensures Replay(log[..k + 1]) == ReplayOne(Replay(log[..k]), log[k])
  {
    var before := log[..k];
    assert log[..k + 1] == before + [log[k]];
    assert WellNumbered(before + [log[k]]) by { PrefixWellNumbered(log, k + 1); }
    LogAppend(before, log[k]);
    ReplayAppend(map[], before, log[k]);
  }

  lemma {:induction false} ReplayKeys(log: seq<Msg>)
    requires WellNumbered(log)
    ensures forall id :: id in Replay(log) ==> 0 <= id < NumAdds(log)
  {
    if log != [] {
      var before, last := log[..|log| - 1], log[|log| - 1];
      ReplayKeys(before);
      assert Replay(log) == ReplayOne(Replay(before), last);
    }
  }
}
