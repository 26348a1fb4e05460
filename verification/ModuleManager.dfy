/** The process as an object: the module table, the id counter, the message queue and the task loop
    are updated in place. Each method is proved to do to the abstract process what the step
    functions of module Instance say. */
module ModuleManager {
  import opened Model
  import opened Instance

  /** A registered module; its property values are overwritten in place. */
  class ModuleObject {
    var id: int
    var name: string
    var properties: seq<Property>
    var hasCallback: bool

    constructor (name: string, properties: seq<Property>, hasCallback: bool)
      ensures id == -1 && Value() == Module(name, properties, hasCallback)
    {
      this.id, this.name, this.properties, this.hasCallback := -1, name, properties, hasCallback;
    }

    function Value(): Module
      reads this
    {
      Module(name, properties, hasCallback)
    }

    method SetId(id: int)
      modifies this`id
      ensures this.id == id
    {
      this.id := id;
    }

    /** Only the upper bound is checked: a negative id makes the indexed access throw. */
    method SetPropertyValue(propertyId: int, value: string) returns (threw: bool)
      modifies this`properties
      ensures threw <==> propertyId < 0
      ensures threw ==> properties == old(properties)
      ensures !threw ==> properties == SetProperty(old(properties), Update(propertyId, value))
    {
      threw := false;
      if propertyId < |properties| {
        if propertyId < 0 { return true; }
        if !properties[propertyId].readOnly {
          properties := properties[propertyId := properties[propertyId].(value := value)];
        }
      }
    }

    /** One value after the other, up to where the access throws. */
    method SetPropertyValues(ups: seq<Update>) returns (threw: bool)
      modifies this`properties
      ensures properties == ApplyUpdates(old(properties), ups)
      ensures threw <==> !NonNegative(ups)
    {
      threw := false;
      var i := 0;
      while i < |ups| && !threw
        invariant 0 <= i <= |ups|
        invariant threw ==> exists u <- ups :: u.prop < 0
        invariant !threw ==> NonNegative(ups[..i])
        invariant ApplyUpdates(old(properties), ups) == if threw then properties else ApplyUpdates(properties, ups[i..])
      {
        assert ups[i..][1..] == ups[i + 1..] && ups[..i + 1] == ups[..i] + [ups[i]];
        threw := SetPropertyValue(ups[i].prop, ups[i].value);
        i := i + 1;
      }
      assert ups[..|ups|] == ups;
    }
  }

  /** A task writes a negative property id of a module that is there. */
  predicate Throws(t: Task, ids: set<int>) {
    || (t.TSave? && t.id in ids && !NonNegative(t.updates))
    || (t.TPass? && t.apply.id in ids && t.apply.updates != [] && !NonNegative(t.apply.updates))
  }

  function ValuesOf(ms: map<int, ModuleObject>): map<int, Module>
    reads ms.Values
  {
    map i | i in ms :: ms[i].Value()
  }

  /** Every module is stored once, under its own id, which is below the counter. */
  ghost predicate Keyed(ms: map<int, ModuleObject>, counter: int)
    reads ms.Values
  {
    && (forall i :: i in ms ==> 0 <= i < counter && ms[i].id == i)
    && (forall i, j :: i in ms && j in ms && i != j ==> ms[i] != ms[j])
  }

  class Manager {
    var modules: map<int, ModuleObject>
    var idCounter: int
    var initialized: bool
    var hostMode: bool             // is there a web server?
    var msgQueue: seq<Msg>
    var loop: seq<Task>
    // what went out
    var pushed: seq<Msg>
    var called: seq<Apply>
    var replies: seq<Reply>
    // histories
    ghost var handled: seq<Msg>
    ghost var origins: seq<Origin>
    ghost var decided: Option<bool>
    ghost var calling: map<nat, Task>

    ghost predicate Valid()
      reads this, modules.Values
    {
      && idCounter == |origins|
      && handled == pushed + msgQueue && (initialized ==> msgQueue == [])
      && Keyed(modules, idCounter)
    }

    function Values(): map<int, Module>
      reads this, modules.Values
    {
      ValuesOf(modules)
    }

    ghost function View(): Inst
      reads this, modules.Values
    {
      Inst(Values(), origins, decided, if initialized then Some(hostMode) else None,
           msgQueue, loop, calling, handled, pushed, called, replies)
    }

    constructor ()
      ensures Valid() && View() == FRESH
    {
      modules, idCounter, initialized, hostMode := map[], 0, false, false;
      msgQueue, loop, pushed, called, replies := [], [], [], [], [];
      handled, origins, decided, calling := [], [], None, map[];
    }

    /** Runs on the loop, or posts itself there when called on another thread. */
    method OnProxyInitialized(onLoop: bool, host: bool)
      requires Valid()
      modifies this`initialized, this`hostMode, this`msgQueue, this`pushed, this`loop
      ensures Valid()
      ensures View() == if onLoop then Initialize(old(View()), host) else Post(old(View()), TInit(host))
    {
      if !onLoop {
        loop := loop + [TInit(host)];
        return;
      }
      hostMode := host;
      initialized := true;
      for i := 0 to |msgQueue|
        invariant msgQueue == old(msgQueue) && loop == old(loop) && initialized && hostMode == host
        invariant pushed == old(pushed) + msgQueue[..i]
      {
        pushed := pushed + [msgQueue[i]];
      }
      msgQueue := [];
      assert Values() == old(Values()) && pushed == old(pushed) + old(msgQueue);
    }

    /** On the loop: into the queue before initialisation, to the web server or the proxy after it. Off
        the loop it posts itself; the only messages that come from there are updates. */
    method HandleMessage(onLoop: bool, msg: Msg)
      requires Valid() && (!onLoop ==> msg.Updated?)
      modifies this`msgQueue, this`pushed, this`handled, this`loop
      ensures Valid()
      ensures View() == if onLoop then Handle(old(View()), msg) else Post(old(View()), TSend(msg.id, msg.updates))
      ensures if onLoop then loop == old(loop) else unchanged(this`msgQueue, this`pushed, this`handled)
    {
      if !onLoop {
        loop := loop + [TSend(msg.id, msg.updates)];
        return;
      }
      handled := handled + [msg];
      if !initialized {
        msgQueue := msgQueue + [msg];
      } else {
        pushed := pushed + [msg];
      }
    }

    /** What a caller on another thread does: the id comes with the promise, once the loop has run this.
        `origin` is a history: for whom the module is registered. */
    method PostRegistration(m: Module, origin: Origin)
      requires Valid()
      modifies this`loop
      ensures Valid() && View() == Post(old(View()), TRegister(m, origin))
    {
      loop := loop + [TRegister(m, origin)];
    }

    /** The module is stored under the next id. */
    method Insert(m: ModuleObject, ghost origin: Origin) returns (id: int)
      requires Valid() && m !in modules.Values
      modifies this`modules, this`idCounter, this`origins, m`id
      ensures Valid() && id == old(idCounter) && modules == old(modules)[id := m]
      ensures var i := old(View()); View() == i.(modules := i.modules[id := old(m.Value())], origins := i.origins + [origin])
    {
      id := idCounter;
      m.SetId(id);
      assert ValuesOf(modules) == old(Values());
      modules := modules[id := m];
      idCounter := idCounter + 1;
      origins := origins + [origin];
      assert Values() == old(Values())[id := m.Value()];
    }

    /** The module gets the next id and is announced before the caller learns the id. */
    method DoRegisterModule(m: ModuleObject, ghost origin: Origin) returns (id: int)
      requires Valid() && m !in modules.Values
      modifies this`modules, this`idCounter, this`origins, this`msgQueue, this`pushed, this`handled, this`loop, m`id
      ensures Valid() && View() == Register(old(View()), old(m.Value()), origin)
      ensures id == old(idCounter) && modules == old(modules)[id := m]
    {
      id := Insert(m, origin);
      assert View().modules[id] == m.Value();
      HandleMessage(true, AddedMsg(id, m.Value()));
    }

    method UnregisterModule(onLoop: bool, id: int)
      requires Valid()
      modifies this`modules, this`loop, this`msgQueue, this`pushed, this`handled
      ensures Valid()
      ensures View() == if onLoop then Unregister(old(View()), id) else Post(old(View()), TUnregister(id))
      ensures !onLoop ==> loop == old(loop) + [TUnregister(id)] && unchanged(this`modules, this`msgQueue, this`pushed, this`handled)
    {
      if !onLoop {
        loop := loop + [TUnregister(id)];
        return;
      }
      modules := modules - {id};
      assert Values() == old(Values()) - {id};
      HandleMessage(true, Removed(id));
    }

    /** Writes the values one after the other; stops where the access throws. */
    method SavePropertiesList(onLoop: bool, id: int, ups: seq<Update>) returns (threw: bool)
      requires Valid()
      modifies this`loop, if onLoop && id in modules then {modules[id]} else {}
      ensures Valid()
      ensures View() == if onLoop then Save(old(View()), id, ups) else Post(old(View()), TSave(id, ups))
      ensures threw <==> onLoop && id in modules && !NonNegative(ups)
      ensures id in modules ==> modules[id].hasCallback == old(modules[id].hasCallback)
    {
      threw := false;
      if !onLoop {
        loop := loop + [TSave(id, ups)];
        return;
      }
      if id !in modules {
        return;
      }
      threw := modules[id].SetPropertyValues(ups);
      assert forall j :: j in modules && j != id ==> modules[j].Value() == old(modules[j].Value());
      assert Values() == old(Values())[id := UpdateModule(old(modules[id].Value()), ups)];
    }

    /** From an application or network thread this makes two posts; from a callback it saves and
        sends at once, unless the save throws. */
    method UpdateProperties(onLoop: bool, id: int, ups: seq<Update>) returns (threw: bool)
      requires Valid()
      modifies this`loop, this`msgQueue, this`pushed, this`handled, if onLoop && id in modules then {modules[id]} else {}
      ensures Valid()
      ensures !onLoop ==> !threw && View() == Post(Post(old(View()), TSave(id, ups)), TSend(id, ups))
      ensures onLoop && !threw ==> View() == Handle(Save(old(View()), id, ups), Updated(id, ups))
      ensures onLoop && threw ==> View() == Save(old(View()), id, ups)
      ensures threw <==> onLoop && id in modules && !NonNegative(ups)
    {
      threw := SavePropertiesList(onLoop, id, ups);
      if threw { return; }
      HandleMessage(onLoop, Updated(id, ups));
    }

    /** On the loop: saves, and then calls the module or hands the request over to the proxy server. Off
        the loop, where a proxy process gets its requests, it posts itself. */
    method PassPropertyUpdateToModule(onLoop: bool, a: Apply) returns (forward: Option<Apply>, threw: bool)
      requires Valid()
      modifies this`loop, this`called, if onLoop && a.id in modules then {modules[a.id]} else {}
      ensures Valid()
      ensures !onLoop ==> forward.None? && View() == Post(old(View()), TPass(a))
      ensures onLoop && !threw ==> (View(), forward) == Pass(old(View()), a)
      ensures onLoop && !threw ==>
                var ms := old(Values());
                && called == (if a.id in ms && ms[a.id].hasCallback && a.updates != [] then old(called) + [a] else old(called))
                && forward == if a.id in ms && !ms[a.id].hasCallback && a.updates != [] then Some(a) else None
      ensures onLoop && threw ==> forward.None? && View() == Save(old(View()), a.id, a.updates)
      ensures threw <==> onLoop && a.id in modules && a.updates != [] && !NonNegative(a.updates)
    {
      forward, threw := None, false;
      if !onLoop {
        loop := loop + [TPass(a)];
        return;
      }
      if a.id !in modules { return; }
      if a.updates == [] { return; }
      assert old(Values())[a.id] == modules[a.id].Value();
      threw := SavePropertiesList(true, a.id, a.updates);
      if threw { return; }
      assert View() == Save(old(View()), a.id, a.updates);
      if !modules[a.id].hasCallback {
        forward := Some(a);
      } else {
        called := called + [a];
        assert View() == Save(old(View()), a.id, a.updates).(calls := called);
      }
    }

    /** A load request is answered with the whole table, and then falls through into apply handling
        with a message that has neither an id nor properties. */
    method DoLoad() returns (forward: Option<Apply>)
      requires Valid()
      modifies this`replies, this`loop, this`called
      ensures Valid() && (View(), forward) == Load(old(View()))
    {
      replies := replies + [Reply(|pushed| + |msgQueue|, Values())];
      assert View() == old(View()).(replies := replies);
      var threw;
      forward, threw := PassPropertyUpdateToModule(true, Apply(-1, [], 0));
    }

    /** What a task does on the loop; `newModule` is the object to be registered. */
    method Run(t: Task, newModule: ModuleObject?) returns (forward: Option<Apply>, threw: bool)
      requires Valid()
      requires t.TRegister? ==> newModule != null && newModule !in modules.Values && newModule.Value() == t.mod
      modifies this, modules.Values, if newModule != null then {newModule} else {}
      ensures Valid()
      ensures !threw ==> (View(), forward) == RunTask(old(View()), t)
      ensures threw <==> Throws(t, old(modules.Keys))
    {
      forward, threw := None, false;
      match t
      case TInit(host) => OnProxyInitialized(true, host);
      case TRegister(m, o) => var id := DoRegisterModule(newModule, o);
      case TUnregister(id) => UnregisterModule(true, id);
      case TSave(id, ups) => threw := SavePropertiesList(true, id, ups);
      case TSend(id, ups) => HandleMessage(true, Updated(id, ups));
      case TPass(a) => forward, threw := PassPropertyUpdateToModule(true, a);
      case TLoad => forward := DoLoad();
    }

    /** Takes the task at the head of the loop and runs it. */
    method RunOne(newModule: ModuleObject?) returns (forward: Option<Apply>, threw: bool)
      requires Valid() && loop != []
      requires loop[0].TRegister? ==> newModule != null && newModule !in modules.Values && newModule.Value() == loop[0].mod
      modifies this, modules.Values, if newModule != null then {newModule} else {}
      ensures Valid()
      ensures !threw ==> (View(), forward) == RunHead(old(View()))
      ensures threw <==> Throws(old(loop[0]), old(modules.Keys))
    {
      var t := loop[0];
      loop := loop[1..];
      assert View() == old(View()).(tasks := loop);
      forward, threw := Run(t, newModule);
    }
  }
}
