/** What follows from the invariant in every reachable state: structural mirroring, the
    translation bijection, agreement of the tables, and clean-up after a disconnect. */
module Replication {
  import opened Model
  import opened Instance
  import opened Network
  import opened NetworkInvariant

  /* ---- The translation table ---- */

  ghost predicate OneToOne(remotes: map<int, Remote>) {
    forall k, l :: k in remotes && l in remotes && remotes[k] == remotes[l] ==> k == l
  }

  /** In every reachable state no two ids stand for the same module of the same client, every
      key was given out by the host to that very module and to nobody else, and the two lookups
      undo each other. */
  lemma {:induction false} TranslationIsABijection(es: seq<Event>)
    ensures var s := Run(es);
            && OneToOne(s.remotes)
            && (forall l :: l in s.remotes ==>
                  && 0 <= l < |s.host.origins| && !Owned(s.host, l)
                  && LocalId(s.remotes, s.remotes[l].id, s.remotes[l].client) == l)
            && (forall r, c :: LocalId(s.remotes, r, c) != -1 ==> s.remotes[LocalId(s.remotes, r, c)] == Remote(r, c))
            && -1 !in s.remotes
  {
    var s := Run(es);
    RunsKeep(es);
    forall k, l | k in s.remotes && l in s.remotes && s.remotes[k] == s.remotes[l] ensures k == l {
      EntryIsAllocated(s, k);
      EntryIsAllocated(s, l);
    }
    forall l | l in s.remotes
      ensures 0 <= l < |s.host.origins| && !Owned(s.host, l)
              && LocalId(s.remotes, s.remotes[l].id, s.remotes[l].client) == l
    {
      assert Maps(s.remotes, l, s.remotes[l].id, s.remotes[l].client);
    }
  }

  /* ---- Table and translation agree up to pending work ---- */

  /** Every translated id is in the host's table, without a callback and with no unregistration
      pending, unless it is being erased; every replicated module in the table is translated, or
      awaits that, or has its unregistration pending. */
  lemma {:induction false} TablesAgree(es: seq<Event>)
    ensures var s := Run(es);
            && (forall l :: l in s.remotes && !Doomed(s.net, l) ==>
                  l in s.host.modules && !s.host.modules[l].hasCallback && TUnregister(l) !in s.host.tasks)
            && (forall l :: l in s.host.modules && !Owned(s.host, l) ==>
                  || (l in s.remotes && !Doomed(s.net, l))
                  || (s.net.Registered? && s.net.local == l)
                  || TUnregister(l) in s.host.tasks)
  {
    var s := Run(es);
    RunsKeep(es);
    forall l | l in s.host.modules && !Owned(s.host, l) ensures Accounted(s, l) {
      assert 0 <= l < |s.host.origins|;
    }
  }

  /** The network thread never waits for a promise nobody will keep: its registration is among
      the host's tasks, once. */
  lemma {:induction false} PromisesAreKept(es: seq<Event>)
    ensures var s := Run(es);
            s.net.Registering? ==> TRegister(s.net.mod, Of(s.net.peer, s.net.remote)) in s.host.tasks
  {
    var s := Run(es);
    RunsKeep(es);
    if s.net.Registering? {
      RegistrationsAreTasks(s.host.tasks, TRegister(s.net.mod, Of(s.net.peer, s.net.remote)));
    }
  }

  lemma {:induction false} RegistrationsAreTasks(ts: seq<Task>, t: Task)
    requires t in NetRegistrations(ts)
    ensures t in ts
  {
    if t != ts[0] {
      RegistrationsAreTasks(ts[1..], t);
    }
  }

  /* ---- Draining a loop ---- */

  /** The process after its loop has run every pending task. */
  function RunAll(i: Inst): Inst
    decreases |i.tasks|
  {
    if i.tasks == [] then i else RunAll(RunHead(i).0)
  }

  lemma {:induction false} RunAllInv(i: Inst)
    requires LocalInv(i)
    ensures LocalInv(RunAll(i))
    decreases |i.tasks|
  {
    if i.tasks != [] {
      var j := RunHead(i).0;
      RunHeadGrows(i);
      assert LocalInv(j) by { RunHeadKeeps(i); }
      RunAllInv(j);
      assert RunAll(i) == RunAll(j);
    }
  }

  lemma {:induction false} RunAllEnds(i: Inst)
    ensures RunAll(i).tasks == []
    decreases |i.tasks|
  {
    if i.tasks != [] { RunAllEnds(RunHead(i).0); }
  }

  lemma RunAllKeeps(i: Inst)
    requires LocalInv(i)
    ensures LocalInv(RunAll(i)) && i.handled <= RunAll(i).handled && RunAll(i).tasks == []
  {
    RunAllInv(i);
    RunAllEnds(i);
    RunAllEmits(i);
  }

  /** What the pending tasks will send. */
  function Emits(i: Inst): seq<Msg>
    decreases |i.tasks|
  {
    if i.tasks == [] then [] else RunHead(i).0.handled[|i.handled|..] + Emits(RunHead(i).0)
  }

  lemma {:induction false} RunAllEmits(i: Inst)
    ensures RunAll(i).handled == i.handled + Emits(i)
    decreases |i.tasks|
  {
    if i.tasks != [] {
      var j := RunHead(i).0;
      RunHeadGrows(i);
      RunAllEmits(j);
      Splice(i.handled, j.handled, Emits(j));
    }
  }

  lemma Splice(a: seq<Msg>, b: seq<Msg>, c: seq<Msg>)
    requires a <= b
    ensures a + (b[|a|..] + c) == b + c
  {}

  ghost predicate HeldAs(h: Inst, l: int, sh: Shape) {
    Held(h, l) && ShapeOf(h.modules[l]) == sh
  }

  lemma {:induction false} HeldAsSurvives(h: Inst, l: int, sh: Shape)
    requires LocalInv(h) && HeldAs(h, l, sh)
    ensures HeldAs(RunAll(h), l, sh)
    decreases |h.tasks|
  {
    if h.tasks != [] {
      HeadKeepsHeld(h, l, sh);
      HeldAsSurvives(RunHead(h).0, l, sh);
    }
  }

  lemma HeadKeepsHeld(h: Inst, l: int, sh: Shape)
    requires LocalInv(h) && HeldAs(h, l, sh) && h.tasks != []
    ensures LocalInv(RunHead(h).0) && HeldAs(RunHead(h).0, l, sh) && |RunHead(h).0.tasks| < |h.tasks|
  {
    RunHeadKeeps(h);
    RunHeadHolds(h, l);
    RunHeadGrows(h);
  }

  /** Pending tasks leave a module alone whose unregistration is not among them. */
  lemma {:induction false} HeldSurvives(h: Inst, l: int)
    requires LocalInv(h) && Held(h, l)
    ensures Held(RunAll(h), l) && ShapeOf(RunAll(h).modules[l]) == ShapeOf(h.modules[l])
  {
    HeldAsSurvives(h, l, ShapeOf(h.modules[l]));
  }

  lemma RunHeadHolds(h: Inst, l: int)
    requires TableOk(h) && Held(h, l) && h.tasks != []
    ensures Held(RunHead(h).0, l) && ShapeOf(RunHead(h).0.modules[l]) == ShapeOf(h.modules[l])
  {
    var t, i := h.tasks[0], h.(tasks := h.tasks[1..]);
    assert t in h.tasks && forall u <- i.tasks :: u in h.tasks;
    match t
    case TSave(id, ups) => if id == l { ShapeIsFrozen(h.modules[l], ups); }
    case TPass(a) => if a.id == l { ShapeIsFrozen(h.modules[l], a.updates); }
    case _ =>
  }

  /* ---- Structural mirroring ---- */

  /** l is the host's copy of the client's module r. */
  ghost predicate Images(s: Sys, c: nat, r: int, l: int) {
    || (Maps(s.remotes, l, r, c) && !Doomed(s.net, l))
    || (s.net.Registered? && s.net.client == c && s.net.remote == r && s.net.local == l)
  }

  ghost predicate AwaitsCopy(s: Sys, c: nat, r: int) {
    s.net.Registering? && s.net.client == c && s.net.remote == r
  }

  ghost function ImageIds(s: Sys, c: nat): set<int> {
    (set l | l in s.remotes && s.remotes[l].client == c && !Doomed(s.net, l) :: s.remotes[l].id)
    + (if (s.net.Registered? || s.net.Registering?) && s.net.client == c then {s.net.remote} else {})
  }

  ghost function ImageOf(s: Sys, c: nat, r: int): Shape {
    if AwaitsCopy(s, c, r) then ShapeOf(s.net.mod)
    else if exists l :: Images(s, c, r, l) && l in RunAll(s.host).modules then
      var l :| Images(s, c, r, l) && l in RunAll(s.host).modules;
      ShapeOf(RunAll(s.host).modules[l])
    else Shape("", [])
  }

  /** The client's modules as the host will hold them once its pending tasks have run, under
      the client's own ids. */
  ghost function HostImage(s: Sys, c: nat): Table {
    map r | r in ImageIds(s, c) :: ImageOf(s, c, r)
  }

  lemma SeenAreImages(s: Sys, c: nat, r: int)
    requires NetOk(s) && AllocatedOk(s) && RemotesOk(s) && LiveOk(s) && MirrorsOk(s) && PeersOk(s) && c in s.live
    ensures var seen := Replay(Consumed(s.peers[s.live[c]]));
            (r in ImageIds(s, c) <==> r in seen)
            && (r in seen && !AwaitsCopy(s, c, r) ==>
                  && 0 <= r < |s.peers[s.live[c]].ids| && Copies(s, s.live[c], r, seen[r]))
            && (r in seen && AwaitsCopy(s, c, r) ==> ShapeOf(s.net.mod) == seen[r])
  {
    var p := s.live[c];
    var q := s.peers[p];
    var seen := Replay(Consumed(q));
    assert PeerOk(q);
    assert MirrorOk(s, c);
    SeenIds(q);
    if r in seen {
      assert Copies(s, p, r, seen[r]);
      if AwaitsCopy(s, c, r) { assert CountOk(s, p); } else { CopyIsImage(s, c, r, seen[r]); }
    }
  }

  /** The only copy decides what the image is. */
  lemma StoredImage(s: Sys, c: nat, r: int, sh: Shape)
    requires RemotesOk(s) && NetOk(s) && AllocatedOk(s) && LiveOk(s) && LocalInv(s.host) && c in s.live && !AwaitsCopy(s, c, r)
    requires 0 <= r < |s.peers[s.live[c]].ids| && Copies(s, s.live[c], r, sh)
    ensures ImageOf(s, c, r) == sh
  {
    var l := s.peers[s.live[c]].ids[r];
    CopyIsImage(s, c, r, sh);
    HeldSurvives(s.host, l);
    forall k | Images(s, c, r, k) ensures k == l { ImageIsCopy(s, c, r, k); }
  }

  lemma ImageIsConsumed(s: Sys, c: nat, r: int)
    requires Inv(s) && c in s.live
    ensures var seen := Replay(Consumed(s.peers[s.live[c]]));
            (r in ImageIds(s, c) <==> r in seen) && (r in seen ==> ImageOf(s, c, r) == seen[r])
  {
    var seen := Replay(Consumed(s.peers[s.live[c]]));
    SeenAreImages(s, c, r);
    if r in seen && !AwaitsCopy(s, c, r) { StoredImage(s, c, r, seen[r]); }
  }

  lemma ImageIsCopy(s: Sys, c: nat, r: int, l: int)
    requires RemotesOk(s) && NetOk(s) && OriginsOk(s) && c in s.live && Images(s, c, r, l)
    ensures var p := s.live[c]; p < |s.peers| && 0 <= r < |s.peers[p].ids| && s.peers[p].ids[r] == l
  {
    assert OriginOk(s, l, s.host.origins[l]);
  }

  lemma CopyIsImage(s: Sys, c: nat, r: int, sh: Shape)
    requires RemotesOk(s) && NetOk(s) && IdsOk(s) && LiveOk(s) && c in s.live
    requires 0 <= r < |s.peers[s.live[c]].ids| && Copies(s, s.live[c], r, sh)
    ensures Images(s, c, r, s.peers[s.live[c]].ids[r]) && Held(s.host, s.peers[s.live[c]].ids[r])
    ensures r in ImageIds(s, c)
  {
    var p, l := s.live[c], s.peers[s.live[c]].ids[r];
    if l in s.remotes && !Doomed(s.net, l) {
      assert s.host.origins[l] == Of(PeerOf(s, s.remotes[l].client), s.remotes[l].id);
      assert s.live[c] in s.live.Values;
    }
  }

  /** For every connected process and in every reachable state: take its modules as the host
      will hold them, apply what it has sent or queued and what its pending tasks will send, and
      the result is its own table after those tasks. */
  lemma {:induction false} StructuralMirroring(es: seq<Event>, c: nat)
    requires c in Run(es).live
    ensures var s := Run(es);
            && s.live[c] < |s.peers| && s.peers[s.live[c]].taken <= |s.peers[s.live[c]].inst.handled|
            && var q := s.peers[s.live[c]];
               && ReplayFrom(HostImage(s, c), Rest(q)) == TableOf(q.inst.modules)
               && ReplayFrom(HostImage(s, c), Rest(q) + Emits(q.inst)) == TableOf(RunAll(q.inst).modules)
  {
    RunsKeep(es);
    assert PeerOk(Run(es).peers[Run(es).live[c]]);
    ImageIsAllConsumed(Run(es), c);
    RestContinues(Run(es).peers[Run(es).live[c]]);
  }

  ghost predicate ImageAt(s: Sys, c: nat, seen: Table, r: int) {
    (r in ImageIds(s, c) <==> r in seen) && (r in seen ==> ImageOf(s, c, r) == seen[r])
  }

  lemma ImagePointwise(s: Sys, c: nat, seen: Table)
    requires forall r :: ImageAt(s, c, seen, r)
    ensures HostImage(s, c) == seen
  {
    var image := HostImage(s, c);
    forall r ensures (r in image <==> r in seen) && (r in seen ==> image[r] == seen[r]) {
      assert ImageAt(s, c, seen, r);
    }
  }

  lemma {:induction false} ImageIsAllConsumed(s: Sys, c: nat)
    requires Inv(s) && c in s.live
    ensures HostImage(s, c) == Replay(Consumed(s.peers[s.live[c]]))
  {
    var seen := Replay(Consumed(s.peers[s.live[c]]));
    forall r ensures ImageAt(s, c, seen, r) { ImageIsConsumed(s, c, r); }
    ImagePointwise(s, c, seen);
  }

  lemma RestContinues(q: Peer)
    requires PeerOk(q)
    ensures ReplayFrom(Replay(Consumed(q)), Rest(q)) == TableOf(q.inst.modules)
    ensures ReplayFrom(Replay(Consumed(q)), Rest(q) + Emits(q.inst)) == TableOf(RunAll(q.inst).modules)
  {
    ReplayConcat(map[], Consumed(q), Rest(q));
    assert Consumed(q) + Rest(q) == q.inst.handled;
    ReplayConcat(ReplayFrom(map[], Consumed(q)), Rest(q), Emits(q.inst));
    ReplayConcat(map[], q.inst.handled, Emits(q.inst));
    RunAllEmits(q.inst);
    assert TableOk(RunAll(q.inst)) by { RunAllKeeps(q.inst); }
  }

  /** The host gave the id l to a module of process p. */
  predicate From(h: Inst, l: int, p: nat) {
    0 <= l < |h.origins| && h.origins[l].Of? && h.origins[l].peer == p
  }

  /* ---- Once everything is drained ---- */

  predicate Drained(s: Sys, q: Peer) {
    s.net.Idle? && s.host.tasks == [] && q.inst.tasks == [] && q.taken == |q.inst.handled|
  }

  /** When nothing is pending, the process's modules and the host's copies of them correspond one
      to one: same names, property names, types, flags and read-only values. */
  lemma {:induction false} DrainedTablesCorrespond(es: seq<Event>, c: nat)
    requires var s := Run(es); c in s.live && s.live[c] < |s.peers| && Drained(s, s.peers[s.live[c]])
    ensures var s := Run(es); var p := s.live[c]; var q := s.peers[p];
            && (forall r :: r in q.inst.modules ==>
                  var l := LocalId(s.remotes, r, c);
                  Maps(s.remotes, l, r, c) && l in s.host.modules && ShapeOf(s.host.modules[l]) == ShapeOf(q.inst.modules[r]))
            && (forall l :: l in s.host.modules && From(s.host, l, p) ==>
                  l in s.remotes && s.remotes[l].client == c && s.remotes[l].id in q.inst.modules
                  && LocalId(s.remotes, s.remotes[l].id, c) == l)
  {
    var s := Run(es);
    RunsKeep(es);
    TranslationIsABijection(es);
    var p := s.live[c];
    assert PeerOk(s.peers[p]);
    forall r | r in s.peers[p].inst.modules
      ensures var l := LocalId(s.remotes, r, c);
              Maps(s.remotes, l, r, c) && l in s.host.modules && ShapeOf(s.host.modules[l]) == ShapeOf(s.peers[p].inst.modules[r])
    {
      DrainedCopy(s, c, r);
    }
    forall l | l in s.host.modules && From(s.host, l, p)
      ensures l in s.remotes && s.remotes[l].client == c && s.remotes[l].id in s.peers[p].inst.modules
    {
      DrainedOriginal(s, c, l);
    }
  }

  lemma DrainedSeen(q: Peer)
    requires PeerOk(q) && q.taken == |q.inst.handled|
    ensures Replay(Consumed(q)).Keys == q.inst.modules.Keys
    ensures forall r :: r in q.inst.modules ==> Replay(Consumed(q))[r] == ShapeOf(q.inst.modules[r])
    ensures forall r :: r in q.inst.modules ==> 0 <= r < NumAdds(Consumed(q))
  {
    assert Consumed(q) == q.inst.handled;
    SeenIds(q);
    assert TableOf(q.inst.modules) == Replay(Consumed(q));
    assert forall r :: r in q.inst.modules <==> r in TableOf(q.inst.modules);
  }

  lemma DrainedCopy(s: Sys, c: nat, r: int)
    requires Inv(s) && c in s.live && Drained(s, s.peers[s.live[c]]) && r in s.peers[s.live[c]].inst.modules
    ensures var l := s.peers[s.live[c]].ids;
            0 <= r < |l| && Maps(s.remotes, l[r], r, c) && l[r] in s.host.modules
            && ShapeOf(s.host.modules[l[r]]) == ShapeOf(s.peers[s.live[c]].inst.modules[r])
  {
    var p := s.live[c];
    var sh := ShapeOf(s.peers[p].inst.modules[r]);
    DrainedSeen(s.peers[p]) by { assert PeerOk(s.peers[p]); }
    assert MirrorOk(s, c);
    assert CountOk(s, p);
    assert Copies(s, p, r, sh);
    CopyIsImage(s, c, r, sh);
  }

  lemma {:induction false} DrainedOriginal(s: Sys, c: nat, l: int)
    requires Inv(s) && c in s.live && Drained(s, s.peers[s.live[c]])
    requires l in s.host.modules && From(s.host, l, s.live[c])
    ensures l in s.remotes && s.remotes[l].client == c && s.remotes[l].id in s.peers[s.live[c]].inst.modules
  {
    var p := s.live[c];
    DrainedSeen(s.peers[p]) by { assert PeerOk(s.peers[p]); }
    assert MirrorOk(s, c);
    OriginalIsKept(s, c, l);
  }

  lemma OriginalIsKept(s: Sys, c: nat, l: int)
    requires StaleOk(s) && RemotesOk(s) && LiveOk(s) && c in s.live && s.net.Idle? && s.host.tasks == []
    requires l in s.host.modules && From(s.host, l, s.live[c])
    ensures l in s.remotes && s.remotes[l].client == c
  {
    assert Accounted(s, l);
  }

  /* ---- After a disconnect ---- */

  /** Once a process has left and the host's loop has drained, none of its modules remains. */
  lemma {:induction false} NothingRemainsOfTheGone(es: seq<Event>, p: nat)
    requires var s := Run(es); p !in s.live.Values && !((s.net.Closing? || s.net.ClosingErase?) && s.net.peer == p)
    ensures var s := Run(es);
            forall l :: l in RunAll(s.host).modules ==> !From(s.host, l, p)
  {
    var s := Run(es);
    RunsKeep(es);
    forall l | From(s.host, l, p) ensures l !in RunAll(s.host).modules {
      GoneIsPending(s, l, p);
      if l in s.host.modules {
        UnregisteredGoes(s.host, l);
      } else if l in RunAll(s.host).modules {
        OldModulesOnly(s.host, l);
      }
    }
  }

  lemma GoneIsPending(s: Sys, l: int, p: nat)
    requires StaleOk(s) && RemotesOk(s) && NetOk(s) && From(s.host, l, p)
    requires p !in s.live.Values && !((s.net.Closing? || s.net.ClosingErase?) && s.net.peer == p)
    ensures l in s.host.modules ==> TUnregister(l) in s.host.tasks
  {
    assert forall c :: c in s.live ==> s.live[c] in s.live.Values;
    if l in s.host.modules {
      assert Accounted(s, l);
    }
  }

  /** A module in the table below the present counter was there before the pending tasks. */
  lemma HeadAddsNew(h: Inst, l: int)
    requires h.tasks != [] && l < |h.origins|
    ensures l in RunHead(h).0.modules ==> l in h.modules
  {}

  lemma {:induction false} OldModulesOnly(h: Inst, l: int)
    requires l in RunAll(h).modules && l < |h.origins|
    ensures l in h.modules
    decreases |h.tasks|
  {
    if h.tasks != [] {
      OldModulesOnly(RunHead(h).0, l);
      HeadAddsNew(h, l);
    }
  }

  lemma {:induction false} UnregisteredGoes(h: Inst, l: int)
    requires TUnregister(l) in h.tasks && l < |h.origins|
    ensures l !in RunAll(h).modules
    decreases |h.tasks|
  {
    var j := RunHead(h).0;
    if h.tasks[0] == TUnregister(l) {
      if l in RunAll(j).modules { OldModulesOnly(j, l); }
    } else {
      assert h.tasks == [h.tasks[0]] + h.tasks[1..];
      UnregisteredGoes(j, l);
    }
  }

  /** The walk over the table when a client closes touches no entry of another client and leaves
      the modules of the others in the host's table; when it ends, no entry of the client is left. */
  lemma {:induction false} ClosingSparesOthers(es: seq<Event>, e: Event)
    requires var s := Run(es); (s.net.Closing? || s.net.ClosingErase?) && Can(s, e) && (e.CloseNext? || e.CloseDone? || e.Continue?)
    ensures var s, s' := Run(es), Step(Run(es), e);
            && (forall l :: l in s.remotes && s.remotes[l].client != s.net.client ==>
                  l in s'.remotes && s'.remotes[l] == s.remotes[l] && Held(s'.host, l))
            && s'.remotes.Keys <= s.remotes.Keys
            && (e.CloseDone? ==> forall l :: l in s'.remotes ==> s'.remotes[l].client != s.net.client)
  {
    RunsKeep(es);
    ClosingSpares(Run(es), e);
  }

  lemma ClosingSpares(s: Sys, e: Event)
    requires RemotesOk(s) && NetOk(s)
    requires (s.net.Closing? || s.net.ClosingErase?) && Can(s, e) && (e.CloseNext? || e.CloseDone? || e.Continue?)
    ensures var s' := Do(s, e);
            && (forall l :: l in s.remotes && s.remotes[l].client != s.net.client ==>
                  l in s'.remotes && s'.remotes[l] == s.remotes[l] && Held(s'.host, l))
            && s'.remotes.Keys <= s.remotes.Keys
            && (e.CloseDone? ==> forall l :: l in s'.remotes ==> s'.remotes[l].client != s.net.client)
  {
    var s' := Do(s, e);
    forall l | l in s.remotes && s.remotes[l].client != s.net.client
      ensures l in s'.remotes && s'.remotes[l] == s.remotes[l] && Held(s'.host, l)
    {
      assert Held(s.host, l);
    }
  }
}
