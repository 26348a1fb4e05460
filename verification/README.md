# SACS: the replication protocol and its edges, modelled and proved

SACS lets programs register *modules* (a name and a list of properties) and shows them on one web
page. The first instance on a machine becomes the **host**: it runs the web server and a proxy server.
Every later instance becomes a **proxy** process: it replicates its modules to the host, which gives
each one an id of its own, keeps a table that translates that id to (id at the process, client), pushes
every change to the web pages, and sends what is entered on a page back to the process that owns the
module. This project models that as a step system and proves what every run keeps, whatever the order
in which loops, network, registrations, deletions, disconnects and page requests interleave.

## How it is organised

| file | what it models |
|---|---|
| `Model.dfy` | properties, modules, messages; the table that a stream of messages describes (`Replay`) |
| `Instance.dfy` | one process as a value: table, id counter, queue before initialisation, task loop; what each task and each call does |
| `Lifecycle.dfy` | runs of one process: stream order, id lifecycle, frozen shapes, when initialisation ends does not show |
| `Network.dfy` | host, processes, channels, translation table, the network thread's position; the steps and the runs |
| `NetworkInvariant.dfy` | the invariant of every run (`RunsKeep`) |
| `Replication.dfy` | structural mirroring, the translation is a bijection, table and translation agree, disconnect |
| `Routing.dfy`, `Requests.dfy` | where callbacks come from; ids are never reused; when the module that a request reaches was registered |
| `Delivery.dfy` | that requests run their callbacks: each is taken once by a loop, and calls the module if and only if it is there |
| `Announcements.dfy` | what the host announces and tells of a replicated module is what its owner announced and told |
| `Draining.dfy` | nothing gets stuck: every reachable state can be drained |
| `Processes.dfy` | host and processes of a network run are process runs, so `Lifecycle` applies to them |
| `Effects.dfy`, `Syncs.dfy` | values: one property followed through tasks and messages; what each move of a process does to saves and sends |
| `HostValue.dfy`, `OwnerWrites.dfy` | the value that the host is to have; one writer at the owner |
| `Arrivals.dfy`, `BrowserWrites.dfy`, `EarlyRequest.dfy` | requests on their way to the owner; pages as the only writers; a run in which a request is lost |
| `ModuleManager.dfy`, `ProxyServer.dfy`, `ServerImpl.dfy` | the C++ objects as classes, updated in place, each method proved to do what the step functions say |
| `JsonMsg.dfy`, `PageJson.dfy` | messages as JSON trees: encoders, the message class, round trips; what the page reads from them |
| `Browser.dfy` | the page's objects: property views and their controls, modules, table; Apply lists; log fields |
| `PageReplica.dfy` | a page connected to the host of a network run: what is pushed to it, what its user does, same modules |
| `PageControls.dfy`, `PageWrites.dfy`, `PageValues.dfy` | what a list of updates does to a switch or a text on both sides; writes of the host and of its network thread; same values on the page, at the host and at the owner |
| `Batching.dfy`, `PageInput.dfy` | clicks and the Apply button from the page to the owner's callback; by which route each property leaves the page; that what was typed is sent |
| `Marshalling.dfy` | calls through parallel C arrays against direct calls |
| `Android.dfy` | the callback queue and its condition variable |
| `Order.dfy` | iteration in ascending order |

A run is any finite sequence of events; an event that can not happen in a state leaves it unchanged, so
every theorem "for all `es`" speaks of every reachable state. Histories (`handled`, `sent`, `calls`,
`replies`, `origins`, `ids`, `applies`) are kept in the state to be able to say where something came
from. Reading `module_added` takes two steps of the network thread (post and wait for the promise, then
store the translation), so do an update (save posted, send posted), a removal (unregistration posted,
entry erased) and each entry of a closing client; the loops of host and processes interleave between
them.

## Assumptions

- The task loop (`ThreadLoop`) is one thread and runs tasks in the order posted; connections are
  reliable and keep order. Both are libraries that are not part of this model.
- One thread of the host serialises reads and closes of the proxy connections; nothing is read from a
  connection after it closed; client ids are unique among live connections and never 2^32-1, the value
  that the code uses for "no client".
- Each access to the translation table is atomic. The loop and the network thread share it.
- Ids stay below 2^31, and property ids in the programs' own calls and in page requests are not negative.
  (`Module.cpp:47` checks only the upper bound; the classes model what a negative one does.)
- A program uses only module ids that were returned to it; in a proxy process every module has a
  callback. Without one, `Proxy.cpp:90-92` would dereference a server that a proxy does not have.
- Calls that a callback makes run at once, as steps of the loop between its tasks.
- A new process and its connection appear in one step (`Join`) of the host; when its own attempt to
  connect is decided is a separate step.
- Dumping a JSON tree and parsing the text gives the tree.
- What a user does on a page is three kinds of event: editing a control, clicking on what sends its property
  alone, and pressing an Apply button. What is said of a page's value asks that nobody edits or clicks that
  control on that page.
- The answer to a page's load request enters the page's stream at the loop step that computed it.
  `ServerImpl.cpp:68-70` sends it after a future resolves, so a later push could overtake it.

## Where the code and a reader's expectation part

- A page's request that the host runs after it registered a replicated module but before it stored the
  translation changes the host's value and never reaches the owner (`EarlyRequest.EarlyRequestIsLost`).
  Whether a request is sent on is decided by the translation alone (`BrowserWrites.SentIffTranslated`), and
  `BrowserWrites.OwnerAndHostAgreeIff` says exactly when owner and host agree all the same.
- A page may ask for an id that the host has not given yet, and its request then reaches the module that
  gets the id while the request waits (`Requests.RequestMeetsALaterModule`). A callback's module was
  registered before the request was made exactly when the id was below the counter then
  (`Requests.HostCallbackReaches`, `Requests.ProcessCallbackReaches`).
- For a list with a property id that no property has, the host skips the id and goes on, the page throws
  and loses the rest; `PageControls.ListAgreesIff` says exactly when they still agree.
- The ids a page uses are registration indices exactly when no property of a known type follows one of
  an unknown type (`Browser.IdsAreRegistrationIndices`).
- A property that arrives without its read-only flag is read-only: the missing value is -1, which
  converts to true (`JsonMsg.MissingFlagIsReadOnly`).
- Strings that cross the C interface end at their first NUL: the path through the library and the direct
  path agree exactly for strings without one (`Marshalling.RegistrationsAgreeIff`).
- An unregistration of an unknown id still tells listeners that -1 was removed; no table changes.
- A push of a value for a read-only property reaches the page and is shown there, while the host keeps
  the registered value (`PageControls.ReadOnlyAgreesIff`).
- A view that is marked as read-only (types 5, 8 and 9) can be typed into: only its background differs
  (`webapp/style.css:163-165`). What is typed there is never sent (`PageInput.EachPropertyHasItsRoute`).
- A text area with a Send button calls itself a read-only one (`webapp/properties.js:263`); nothing reads that
  field, and the views are told apart by their constructors here.

## Model

| member | source | states |
|---|---|---|
| Model.ShapeIsFrozen | Module.cpp:46-65 | no list of updates changes a module's name, its property count, names, types or flags, or the value of a read-only property |
| Model.ReplayKeys | ModuleManager.cpp:121-125 | a stream numbered by the id counter describes only ids below the counter |
| Instance.LoadIsARead | ModuleManager.cpp:198-210 | a load request, although it falls through into apply handling, changes nothing but the answers given |
| Instance.UnknownIdIsInert | ModuleManager.cpp:213-229 | removals, saves and applies for -1 leave the table and every module as they are |
| Instance.RunHeadKeeps | ModuleManager.cpp:57-180 | each task of the loop keeps: sent followed by queued is handled, one decision, table equal to what the handled messages describe, ids known |
| Instance.AppStepKeeps | ModuleManager.cpp:102-161 | each call of an application, from outside or inside a callback, keeps the same |
| Lifecycle.IdLifecycle | ModuleManager.cpp:121-131 | ids are announced at most once and in increasing order, and everything said of an id comes after its announcement |
| Lifecycle.EveryRunOfAProcess | ModuleManager.cpp:57-100 | over every run of a process nothing is lost, reordered or sent twice, the queue is empty once initialised, the mode is decided once, no module is keyed -1 |
| Lifecycle.ShapesNeverChange | Module.cpp:46-65 | through every run a module has the name, property names, types, flags and read-only values of its one announcement |
| Lifecycle.InitialisationIsInvisible | ModuleManager.cpp:57-100 | two runs that do the same work but end their connection attempts at different times or differently have the same modules and callbacks and send the same stream |
| NetworkInvariant.RunsKeep | ProxyServer.cpp:85-125 | every reachable state of the network satisfies the invariant on processes, connections, allocated ids, network thread, translation and pending removals |
| Replication.TranslationIsABijection | ProxyServer.cpp:41-74 | no two entries share (remote id, client); every key is an id of the counter and not one of the host's own; the two lookups undo each other; -1 is no key |
| Replication.TablesAgree | ProxyServer.cpp:96-110 | each translated id is in the table without callback and without a pending removal unless it is being erased, and each replicated module is translated, awaits that, or has its removal pending |
| Replication.PromisesAreKept | ModuleManager.cpp:109-131 | whenever the network thread waits for an id, the registration that will give it is among the host's tasks |
| Replication.StructuralMirroring | ProxyServer.cpp:85-121 | in every reachable state a process's modules as the host will hold them, followed by the messages in flight, queued and pending at the process, describe the process's own table |
| Replication.DrainedTablesCorrespond | ProxyServer.cpp:85-121 | with nothing pending, the process's modules and the host's copies correspond one to one, with equal shapes and read-only values |
| Replication.NothingRemainsOfTheGone | ProxyServer.cpp:123-125 | after a disconnect and once the loop drains, no module of that process is left in the host's table |
| Replication.ClosingSparesOthers | ProxyServer.cpp:49-59 | each step of the clean-up leaves every entry and module of other clients alone, and at its end none of the client's entries is left |
| Replication.HeldSurvives | ModuleManager.cpp:133-140 | pending tasks leave a module in place and in shape whose unregistration is not among them |
| Routing.CallbacksStemFromRequests | ModuleManager.cpp:213-272 | every callback at a process stems from exactly one page request addressed to the host id given to that registration, with the same updates in the same order, and callbacks come in the order of requests |
| Routing.RequestsReachOneProcess | ProxyServer.cpp:127-136 | a request, run or on its way, is for one module of one process, and for none of the host's own |
| Routing.HostCallbacksStemFromRequests | ModuleManager.cpp:213-272 | callbacks of the host's own modules get requests as they were made, in order, each once |
| Routing.IdsAreNeverReused | ModuleManager.cpp:121-125 | whatever happens later in a run, an id stands for the registration it was given to and a request stays as it was made |
| Requests.HostCallbackReaches | ModuleManager.cpp:213-272 | the module whose callback gets a request was registered before the request was made if and only if the requested id was below the id counter then |
| Requests.ProcessCallbackReaches | ProxyServer.cpp:96-136 | likewise for a callback at a process: the host's copy was registered before the request if and only if the id was below the counter, and then the owner had registered its module too |
| Requests.RequestMeetsALaterModule | ModuleManager.cpp:213-229 | a run in which a request made before any id was given runs the callback of a module registered later |
| Delivery.LoopCalls | ModuleManager.cpp:213-272 | a loop that takes a request calls the module with it, as it is, if and only if the module is there with a callback and the list is not empty; it hands the request over if and only if the module is there without one and the list is not empty |
| Delivery.HostCallsIff | ModuleManager.cpp:213-272 | over every run: a request that the host's loop has taken has run exactly one callback of the host if the module was there with one, and none if not |
| Delivery.ProcessCallsIff | ModuleManager.cpp:213-272 | likewise for a request that the loop of a process has taken |
| Delivery.RequestRunsItsCallback | ModuleManager.cpp:183-242 | every request made that no longer waits was taken by the host's loop later, once, with that outcome |
| Delivery.SentRequestRunsItsCallback | ProxyServer.cpp:127-136 | a request that the host sent to a process and that no longer waits there was taken by that process's loop later; it has run exactly one callback there, with the same updates, if and only if the module was still there, and none anywhere else |
| Delivery.DroppedRequestRunsNothing | ProxyServer.cpp:127-136 | a request that is neither for a module with a callback nor sent on runs no callback anywhere |
| Announcements.HostAnnouncesTheOwnersModule | ProxyServer.cpp:96-103 | in every reachable state the host announces each replicated id with exactly the name and property list, initial values and flags included, that its owner announced |
| Announcements.HostTellsTheOwnersUpdates | ProxyServer.cpp:111-117 | each update that the host told its listeners of a replicated module is one that the owner told the host, with the same list |
| Draining.EveryStateCanBeDrained | ProxyServer.cpp:85-125 | from every reachable state the loops and the network thread can go on, with no new request, until nothing is pending; then the tables correspond |
| Processes.ProcessesOfARun | ModuleManager.cpp:40-50 | host and processes of a network run are each a run of a process of its own |
| Processes.EveryProcessOfARun | Module.cpp:46-65 | in every reachable state of the network, host and processes keep stream order and id lifecycle, and every module has the shape and read-only values it was announced with |
| HostValue.ElsewhereKeepsComing | ModuleManager.cpp:151-180 | the value the host is to have after all that was emitted is changed by no step but the owner's own |
| OwnerWrites.OwnerAndHostConverge | ModuleManager.cpp:142-180 | in every reachable state the owner's value after its pending saves is the host's value after everything emitted and pending, although saves and sends are separate tasks |
| OwnerWrites.OwnerAndHostAgree | ModuleManager.cpp:142-180 | with one writing thread, or writes in callbacks only, and nothing pending, owner and host hold the same property |
| BrowserWrites.OwnerValueReachesHost | ProxyServer.cpp:111-117 | the same in terms of the translation: the host's copy under the translated id holds exactly the owner's property |
| BrowserWrites.OwnerAndHostAgreeIff | ModuleManager.cpp:213-242 | pages as the only writers: once drained, owner and host agree if and only if the property is read-only, or a request run while the module was translated wrote it, or the last value of the requests run before that is missing or the announced one |
| BrowserWrites.BrowserValueReachesOwner | ModuleManager.cpp:213-242 | so they agree if every request that writes the property runs while the module is translated |
| EarlyRequest.EarlyRequestIsLost | ProxyServer.cpp:96-103 | a run, fully drained, in which a request that came before the translation was stored left host and owner with different values |
| BrowserWrites.SentIffTranslated | ProxyServer.cpp:127-136 | a request for a replicated module goes down to a process if and only if the module is translated and its client connected, and then to that client only |
| ModuleManager.Manager.OnProxyInitialized | ModuleManager.cpp:57-84 | sends the queue in order and empties it, or posts itself |
| ModuleManager.Manager.HandleMessage | ModuleManager.cpp:86-100 | posts itself off the loop; on it queues before initialisation and sends after it |
| ModuleManager.Manager.DoRegisterModule | ModuleManager.cpp:121-131 | the module gets the next id and is announced; every other module is as it was |
| ModuleManager.Manager.UnregisterModule | ModuleManager.cpp:133-140 | posts off the loop; on it removes the module and says so |
| ModuleManager.ModuleObject.SetPropertyValues | ModuleManager.cpp:175-179 | the list is written in order, up to the first negative id, where it throws |
| ModuleManager.Manager.SavePropertiesList | ModuleManager.cpp:158-180 | posts off the loop; on it the one module gets the list and every other module is as it was |
| ModuleManager.Manager.UpdateProperties | ModuleManager.cpp:142-145 | two posts off the loop, save and then send on it; it throws, and then sends nothing, exactly on the loop for a list with a negative id of a known module |
| ModuleManager.Manager.PassPropertyUpdateToModule | ModuleManager.cpp:213-242 | posts itself off the loop; on it saves, and then calls a module that has a callback, once, and hands the request for one that has none to the proxy server, for every list but the empty one |
| ModuleManager.Manager.DoLoad | ModuleManager.cpp:198-210 | answers with the whole table and falls through without effect |
| ModuleManager.Manager.Run | ModuleManager.cpp:57-272 | each kind of task does to the object what the step function says |
| ModuleManager.Manager.RunOne | ModuleManager.cpp:57-272 | the loop's next task does to the object what the step function says, unless it throws, and it throws exactly for negative property ids of known modules |
| ModuleManager.ModuleObject.SetPropertyValue | Module.cpp:46-65 | the one value changes unless read-only or beyond the list; a negative id throws and changes nothing |
| ProxyServer.ProxyServerObject.LocalIdFromRemote | ProxyServer.cpp:61-67 | the search finds the least key of an entry with that id and client, or -1 when there is none |
| ProxyServer.ProxyServerObject.RemoteIdFromLocal | ProxyServer.cpp:69-74 | the entry, or -1 and the client id that nobody has |
| ProxyServer.ProxyServerObject.RemoveClientsModules | ProxyServer.cpp:49-59 | erasing while iterating removes exactly the client's entries and posts one unregistration for each, in ascending order |
| ProxyServer.ProxyServerObject.OnClientRead | ProxyServer.cpp:85-121 | a removal and an update leave object and manager as the two steps of the network thread would; an announcement as the first of them would, with the registration posted |
| ProxyServer.ProxyServerObject.OnRegistered | ProxyServer.cpp:100-101 | once the promise is kept, the translation is stored as the second step would |
| ProxyServer.ProxyServerObject.HandlePropertyUpdate | ProxyServer.cpp:127-136 | what is sent, under which id, to which client, and when nothing is |
| ProxyServer.WalkIsRemoveClientsModules | ProxyServer.cpp:49-59 | the walk as single steps of the network thread, taken without anything between, is the loop |
| ProxyServer.ProxyObject.OnClientConnecting | Proxy.cpp:55-74 | the first attempt decides host or proxy for good and tells the manager once; later ones change nothing |
| ServerImpl.Server.PushMsgForJS | ServerImpl.cpp:78-91 | every live listener gets the message once after what it had, gone ones are pruned during the walk, nobody else is touched |
| ServerImpl.Server.AddEventListener | ServerImpl.cpp:111-114 | an id already listening keeps its client |
| ServerImpl.Server.RemoveEventListener | ServerImpl.cpp:116-119 | exactly that listener goes |
| JsonMsg.ModuleToJson | JsonMsg.cpp:151-166 | the loop builds the tree of the module, property by property |
| JsonMsg.CreatePropertyUpdated | JsonMsg.cpp:198-211 | the loop builds the tree of the update, entry by entry |
| JsonMsg.CreateModuleList | JsonMsg.cpp:213-225 | the loop builds the answer to a load request: every module once, in the order of the ids |
| JsonMsg.Message.Parse | JsonMsg.cpp:35-71 | validity and detected type for every tree, and the type kept when it is none of the five |
| JsonMsg.Message.ToModule | JsonMsg.cpp:99-122 | the module announced, without callback, or nothing, or the exception of a wrong type |
| JsonMsg.Message.GetPropertiesList | JsonMsg.cpp:168-181 | the list of updates and applies, empty for every other type |
| JsonMsg.DecodeEncode | JsonMsg.cpp:99-211 | decoding any encoded message gives it back: type, id, name, all properties with their flags, all updates |
| JsonMsg.EncodeInjective | JsonMsg.cpp:151-211 | different messages have different trees |
| JsonMsg.SetIdThenFindId | JsonMsg.cpp:124-149 | after setting the id of a removal, update or apply it is found again; type and list stay |
| JsonMsg.ApplyRoundTrip | JsonMsg.cpp:147-181 | an apply whose id the host replaced still carries its list |
| JsonMsg.LoadNamesNothing | JsonMsg.cpp:124-145 | a load request has the id -1 and is no other message |
| JsonMsg.ConversionWraps | JsonMsg.cpp:88-97 | any number in a message arrives as one of 32 bits that differs from it by a multiple of 2^32 |
| JsonMsg.MissingFlagIsReadOnly | JsonMsg.cpp:117-118 | a property without its flag is decoded as read-only |
| PageJson.PageReads | webapp/module.manager.js:10-35 | the page, which looks fields up by name, makes of the tree of every pushed message and of every load answer what the message says |
| Browser.TypesByNumber | webapp/properties.js:15-39 | what the numbers 0 to 10 mean: the button, the two switches, the six texts, the log and the script, and which of them wait for the Apply button and which send themselves |
| Browser.OneRoute | webapp/properties.js:103-332 | from what the constructors build: a view that is neither a script's nor marked as read-only sends its property alone or leaves it to the Apply button, never both; one that is marked does neither |
| Browser.ValueComesBack | webapp/properties.js:103-158 | a text sends what it was last told, a switch sends whether it was told "1", a button always "1"; telling at creation and later are the same |
| Browser.WidgetsInOrder | webapp/module.js:18-63 | views keep the order of registration and are numbered by position; where the view of each property is, with its type, its name as caption, and its value, or for a switch whether that is "1" |
| Browser.IdsAreRegistrationIndices | webapp/module.js:18-63 | page ids are registration indices if and only if no known type follows an unknown one |
| Browser.BrowserModule.SetPropertyValue | webapp/module.js:65-67 | one view shows the value: a text the value, a switch "1" or "0" by whether it is "1"; an id without a view throws and changes nothing |
| Browser.BrowserModule.NeedsApplyButton | webapp/module.js:69-76 | true exactly when there is a plain switch, a text or a text area |
| Browser.ApplyByNumber | webapp/module.js:69-76 | over registered properties: exactly when one is of type 1, 3 or 6 |
| Browser.BrowserModule.CreatePropertiesUpdated | webapp/message.builder.js:12-21 | lists exactly the properties that are not independent, each once, with its value, in increasing order |
| Browser.ListsByNumber | webapp/message.builder.js:12-21 | over registered properties, such a list has an entry for exactly those of type 1, 3 and 6 |
| Browser.BatchIsUnique | webapp/message.builder.js:12-21 | that description leaves only one list |
| Browser.BrowserModuleManager.CrateModule | webapp/module.manager.js:10-18 | the module appears under its id with all its views; nothing else changes |
| Browser.BrowserModuleManager.DeleteModule | webapp/module.manager.js:20-24 | the module goes; an unknown id throws and changes nothing |
| Browser.BrowserModuleManager.SetModuleProperties | webapp/module.manager.js:26-35 | unknown modules are ignored; values are shown in turn up to an id without a view, where it throws |
| Browser.BrowserModuleManager.OnModuleList | webapp/web.app.js:50-54 | every listed module is created, others stay |
| Browser.BrowserModuleManager.OnMessage | webapp/web.app.js:38-55 | each kind of message does to the page what the fold over the stream says |
| Browser.BrowserModuleManager.Clear | webapp/module.manager.js:37-42 | after a disconnect no module is left on the page |
| Browser.LogAccumulates | webapp/properties.js:294-308 | after any updates a log is the newline join, newest first, of the non-empty values since the last empty one or since the initial value |
| Browser.LogShowsItsHistory | webapp/properties.js:294-308 | so does the log field of a registered property, from its registered value on |
| Browser.LogOfSplit | webapp/properties.js:294-308 | a split sequence of updates leaves the same text as the whole |
| Browser.LogFieldShows | webapp/module.manager.js:26-35 | a list of updates appends to a log field the values it has for it, in order |
| PageReplica.PageShowsTheTable | webapp/web.app.js:28-55 | in every network run, after every prefix of what it was sent a page shows only modules the host had at that point, and from the load answer on exactly the host's table as of that point, whatever its user typed |
| PageReplica.PageCatchesUp | webapp/web.app.js:28-55 | a page with its answer that has read everything shows the host's table as it is; a disconnected one shows nothing |
| PageReplica.OutlineMeans | webapp/module.manager.js:10-18 | equal outlines mean the same ids, names and property views |
| PageWrites.AlternatingAgree | ModuleManager.cpp:142-150 | saves and sends of one source, a thread of the host or its network thread, alternate, so whatever the table will hold after the saves, a listener holds after the sends |
| PageWrites.SnapshotSyncs | ModuleManager.cpp:198-210 | an answer computed between the save and the send of a write leaves the page in step |
| PageValues.PageShowsTheHostsValue | webapp/properties.js:130-258 | a switch or a text, of a module of the host's own that one thread writes or of a replicated module, shows the host's value once sends drain, whenever the page connected and got its answer |
| PageValues.PageShowsTheOwnersValue | ProxyServer.cpp:111-117 | a switch or a text that only its owner writes shows the owner's value on the page once nothing is in flight |
| PageControls.ControlShows | webapp/properties.js:155-205 | after a list whose ids are all there, a switch shows "1" if its last value was "1" and "0" if it was another, a text shows its last value, and both show what they did if there was none |
| PageControls.ListAgreesIff | webapp/module.js:65-67 | host and page agree on a switch or a text after any list, whatever its value was, if and only if what the list has for it before the first id that no property has ends as the whole list does |
| PageControls.ReadOnlyAgreesIff | webapp/module.manager.js:26-35 | the host keeps a read-only value after any list; the page still shows it if and only if the list has no other last value for it |
| Batching.BatchesAreDeclared | webapp/message.builder.js:12-21 | for known types the Apply list is in the declared order and names exactly the properties that wait for it |
| Batching.BatchCrossesAsJson | JsonMsg.cpp:168-181 | the list read from the message, and from the message with the id replaced, is the list sent |
| Batching.OwnerGetsTheBatch | ModuleManager.cpp:244-265 | a callback at the owner for a press of the Apply button gets what the page held then for the properties that the owner announced as waiting for it, in the order in which it announced them |
| Batching.HostGetsTheBatch | ModuleManager.cpp:244-265 | so does a callback of the host's own module |
| Batching.OwnerGetsTheClick | webapp/message.builder.js:7-10 | a callback at the owner for a click gets the one property, of a type that sends itself, with "1" for a button, what a switch was turned to, or what a text holds |
| Batching.HostGetsTheClick | webapp/message.builder.js:7-10 | so does a callback of the host's own module |
| PageInput.EachPropertyHasItsRoute | webapp/module.js:10-16 | in every run, for every module that a page shows: properties of types 0, 2, 4 and 7 leave the page by a click of their own, those of types 1, 3 and 6 with the Apply button, and 5, 8 and 9 by neither |
| PageInput.TypedIsSent | webapp/properties.js:179-279 | what was typed into a text or a text area, with nothing received and no further edit of it in between, is what its Send button or the Apply button sends |
| PageInput.TypedReachesTheOwner | ModuleManager.cpp:244-265 | and what a callback at the owner gets |
| Batching.BatchCrossesTheArrays | ModuleManager.cpp:244-265 | the callback's arrays carry it unchanged if and only if no value has a NUL |
| Marshalling.StrToChrA | wrappers/SacsWrapper.h:94-105 | a buffer one longer than the string that holds it as a C string, with every write in bounds |
| Marshalling.SacsWrapper.RegisterModule | wrappers/SacsWrapper.h:123-155 | through the four arrays the manager gets the module as declared, each string cut at its first NUL: of the declared types on the page, every property but a script open to updates; -2 without the library |
| Marshalling.SacsWrapper.UpdateProperties | wrappers/SacsWrapper.h:164-186 | through the two arrays the manager gets the list with each value cut at its first NUL, and throws exactly where the manager does |
| Marshalling.Library.RegisterModule | SacsLib.cpp:41-58 | the list rebuilt from the arrays, every read in bounds; -2 before initialisation |
| Marshalling.Library.UpdateProperties | SacsLib.cpp:64-74 | the list rebuilt from the arrays reaches the manager, and the call throws exactly where the manager does |
| Marshalling.SacsWrapperNoLib.RegisterModule | wrappers/SacsWrapperNoLib.h:86-96 | the simple form hands over the list as declared: of the declared types on the page, every property but a script open to updates |
| Marshalling.NumbersAgree | wrappers/SacsWrapper.h:35-47 | the programs' enumeration and the page's table agree: each of the eleven types has its own number, the page has the type of the same name under it, and 10 is the script |
| Marshalling.RegistrationsMean | wrappers/SacsWrapper.h:107-141 | after a registration by either wrapper an update gives a property any value, except that what the page has as a script keeps the declared one; types, names and values are as declared |
| Marshalling.DeclaredAppears | webapp/module.manager.js:10-18 | a module so registered appears with one view for each declared property, in order, of the declared type and with the declared name |
| Marshalling.RegistrationsAgreeIff | wrappers/SacsWrapperNoLib.h:86-96 | both wrappers hand over the same module if and only if no string has a NUL |
| Marshalling.UpdatesAgreeIff | wrappers/SacsWrapperNoLib.h:102-104 | likewise for updates; a list that crossed once crosses again unchanged |
| Marshalling.CallModule | ModuleManager.cpp:244-271 | what a callback rebuilds from the arrays made for it is the list with each value cut at its first NUL |
| Android.NoCallbackIsLost | wrappers/android/jni/src/MsgThread.cpp:39-60 | in every interleaving what Java got is a prefix of what was added; what waits is flagged, about to be flagged or about to be collected; no sleep on a set flag without a signal coming; at rest everything was delivered |
| Android.MessageThreadDelivers | wrappers/android/jni/src/MsgThread.cpp:54-60 | with no notification under way the message thread alone delivers everything in a known number of steps |
| Android.JniGlue.CallJavaPropertiesUpdate | wrappers/android/jni/src/JniGlue.cpp:106-130 | one call into Java for each collected callback, in order, with its updates in order |

## Left out

- Sockets, HTTP, WebSocket framing, MIME types and the packed web resources: channels and client ids stand for them.
- JSON text: lexing, printing and JSON reals (which the library would truncate to integers); messages are trees.
- The page's DOM, selector buttons, reconnect countdown, and the text controls' own normalisation of line breaks.
- Script properties: their value is code whose setter, getter and own sends are not modelled; the view keeps its place and id only.
- JNI lookups, Java reflection, `dlopen` and `dlsym`: whether the library was found is a parameter; freeing of arrays is not modelled.
- A process after an exception reached the top of its loop: methods say when they throw and what was written until then; the step system assumes property ids that do not throw.
- Value agreement with concurrent writers, such as a page and the owner writing one property or two threads in `UpdateProperties`: the code has no order that would give it.
- Page-to-page agreement of applied values: the apply path tells the owner, not the other pages (`ModuleManager.cpp:213-272`).
- `RegisterModule` from inside a callback, and callbacks into Java that block on a registration: both depend on the loop library.
- Migration of the host when its process ends: not implemented by the program.
- The exit of the Android message thread and a failing attachment to the Java machine.
- PageValues.PageShowsTheHostsValue: says nothing of read-only, log or script properties, nor of lists that name a property the module has not, where page and host can part (see `PageControls.ListAgreesIff`).
- PageJson.PageReads: covers the trees that the program sends; what JavaScript makes of a missing or mistyped field is not modelled.
- PageReplica.PageShowsTheTable: assumes that the load answer enters the stream where it was computed, because the program sends it later from another thread.
- Browser.BrowserModule.SetPropertyValue: property views are values inside the module object, so several references to one view are not modelled.
- BrowserWrites.BrowserValueReachesOwner: assumes that each request runs while the module is translated; the program does not ensure it, as `EarlyRequest.EarlyRequestIsLost` shows, and `BrowserWrites.OwnerAndHostAgreeIff` is the exact condition.
