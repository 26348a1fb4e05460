/** When the module that a request reaches was registered. A page may ask for any id, also for one that
    the host has not given yet: such a request reaches the module that gets the id while it waits. */
module Requests {
  import opened Model
  import opened Instance
  import opened Network
  import opened NetworkInvariant
  import opened Routing

  /** The n-th event makes the request numbered t. */
  ghost predicate MadeAt(es: seq<Event>, t: nat, n: nat) {
    n < |es| && es[n].BrowserApply? && Can(Run(es[..n]), es[n]) && |Run(es[..n]).applies| == t
  }

  /** The n-th event gives the id l to a module. */
  ghost predicate GivenAt(es: seq<Event>, l: int, n: nat) {
    n < |es| && Counter(es, n) == l && Counter(es, n + 1) == l + 1
  }

  /** The host's id counter before the n-th event. */
  ghost function Counter(es: seq<Event>, n: nat): nat
    requires n <= |es|
  {
    |Run(es[..n]).host.origins|
  }

  lemma StepCounts(s: Sys, e: Event)
    ensures |s.host.origins| <= |Step(s, e).host.origins| <= |s.host.origins| + 1
    ensures Step(s, e).applies
            == if Can(s, e) && e.BrowserApply? then s.applies + [Apply(e.id, e.updates, |s.applies|)] else s.applies
  {
    if Can(s, e) {
      Asks(s, e);
      if e.HostRun? {
        RunsHead(s);
        HeadOrigins(s.host);
      } else {
        OriginsStay(s, e);
      }
    }
  }

  lemma {:induction false} RequestWasMade(es: seq<Event>, t: nat) returns (n: nat)
    requires t < |Run(es).applies|
    ensures MadeAt(es, t, n) && Run(es).applies[t] == Apply(es[n].id, es[n].updates, t)
    decreases |es|
  {
    var m := |es| - 1;
    StepCounts(Run(es[..m]), es[m]);
    if t == |Run(es[..m]).applies| {
      n := m;
    } else {
      n := RequestWasMade(es[..m], t);
      assert es[..m][..n] == es[..n];
    }
  }

  lemma {:induction false} IdWasGiven(es: seq<Event>, l: int) returns (n: nat)
    requires 0 <= l < |Run(es).host.origins|
    ensures GivenAt(es, l, n)
    decreases |es|
  {
    var m := |es| - 1;
    StepCounts(Run(es[..m]), es[m]);
    if l == |Run(es[..m]).host.origins| {
      n := m;
      assert es[..m + 1] == es;
    } else {
      n := IdWasGiven(es[..m], l);
      assert es[..m][..n] == es[..n] && es[..m][..n + 1] == es[..n + 1];
    }
  }

  lemma {:induction false} CounterGrows(es: seq<Event>, i: nat, j: nat)
    requires i <= j <= |es|
    ensures Run(es[..i]).host.origins <= Run(es[..j]).host.origins
  {
    assert es[..i] + es[i..j] == es[..j];
    IdsAreNeverReused(es[..i], es[i..j]);
  }

  /** The id was given before the n-th event if and only if it was below the counter then. */
  lemma {:induction false} GivenBeforeIff(es: seq<Event>, l: int, m: nat, n: nat)
    requires GivenAt(es, l, m) && n <= |es|
    ensures m < n <==> l < Counter(es, n)
  {
    if m < n { CounterGrows(es, m + 1, n); } else { CounterGrows(es, n, m); }
  }

  /** The request of a callback was made by the n-th event, the id that it asked for was given by the
      m-th one to the registration that the callback belongs to, and that was before the request if and
      only if the id was below the host's counter when the request was made. */
  ghost predicate Reaches(es: seq<Event>, tag: nat, o: Origin, n: nat, m: nat) {
    && MadeAt(es, tag, n) && GivenAt(es, es[n].id, m)
    && es[n].id < |Run(es).host.origins| && Run(es).host.origins[es[n].id] == o
    && (m < n <==> es[n].id < Counter(es, n))
    && (m < n ==> Run(es[..n]).host.origins[es[n].id] == o)
  }

  lemma {:induction false} RequestReaches(es: seq<Event>, tag: nat) returns (n: nat, m: nat)
    requires var s := Run(es); tag < |s.applies| && 0 <= s.applies[tag].id < |s.host.origins|
    ensures var s := Run(es);
            MadeAt(es, tag, n) && es[n].id == s.applies[tag].id && Reaches(es, tag, s.host.origins[s.applies[tag].id], n, m)
  {
    n := RequestWasMade(es, tag);
    m := IdWasGiven(es, es[n].id);
    GivenBeforeIff(es, es[n].id, m, n);
    CounterGrows(es, n, |es|);
    assert es[..|es|] == es;
  }

  /** A module of the host's own: the callback's module was registered before the request was made if
      and only if the requested id was below the counter then. */
  lemma {:induction false} HostCallbackReaches(es: seq<Event>, k: nat) returns (n: nat, m: nat)
    requires k < |Run(es).host.calls|
    ensures var a := Run(es).host.calls[k]; Reaches(es, a.tag, Own, n, m) && es[n].id == a.id
  {
    HostCallbacksStemFromRequests(es, k);
    n, m := RequestReaches(es, Run(es).host.calls[k].tag);
  }

  /** A module of process p: the host registered its copy before the request was made if and only if the
      requested id was below the counter then; and in that case the process had registered it too. */
  lemma {:induction false} ProcessCallbackReaches(es: seq<Event>, p: nat, k: nat) returns (n: nat, m: nat)
    requires p < |Run(es).peers| && k < |Run(es).peers[p].inst.calls|
    ensures var a := Run(es).peers[p].inst.calls[k];
            && Reaches(es, a.tag, Of(p, a.id), n, m)
            && (m < n ==> p < |Run(es[..n]).peers| && 0 <= a.id < |Run(es[..n]).peers[p].inst.origins|)
  {
    var a := Run(es).peers[p].inst.calls[k];
    CallbacksStemFromRequests(es, p, k);
    n, m := RequestReaches(es, a.tag);
    if m < n { OwnerHasIt(es[..n], es[n].id); }
  }

  /** What stands for a module of a process was registered by it. */
  lemma {:induction false} OwnerHasIt(es: seq<Event>, l: int)
    requires 0 <= l < |Run(es).host.origins| && Run(es).host.origins[l].Of?
    ensures var s, o := Run(es), Run(es).host.origins[l]; o.peer < |s.peers| && 0 <= o.remote < |s.peers[o.peer].inst.origins|
  {
    RunsKeep(es);
    var s, o := Run(es), Run(es).host.origins[l];
    assert OriginOk(s, l, o);
    assert PeerOk(s.peers[o.peer]) && CountOk(s, o.peer);
    PrefixWellNumbered(s.peers[o.peer].inst.handled, s.peers[o.peer].taken);
  }

  /* ---- A request that comes before its module ---- */

  const LATE_MODULE := Module("m", [Property(3, "t", "", false)], true)

  const BEFORE_REGISTRATION: seq<Event> :=
    [HostApp(Decide(true)), HostRun, HostApp(AppRegister(LATE_MODULE)), BrowserApply(0, [Update(0, "x")])]

  const ALONE := FRESH.(decided := Some(true), mode := Some(true))
  const ASKED := Apply(0, [Update(0, "x")], 0)

  lemma HostStarts()
    ensures Run([HostApp(Decide(true)), HostRun]) == START.(host := ALONE)
  {
    Initializes(true);
    var e1 := [HostApp(Decide(true))];
    RunNext([], e1[0]);
    assert [] + e1 == e1;
    RunNext(e1, HostRun);
    assert e1 + [HostRun] == [HostApp(Decide(true)), HostRun];
    assert Run(e1) == START.(host := AppStep(FRESH, Decide(true)));
  }

  lemma RegistrationWaits()
    ensures Run(BEFORE_REGISTRATION[..3]) == START.(host := ALONE.(tasks := [TRegister(LATE_MODULE, Own)]))
  {
    var e2: seq<Event> := [HostApp(Decide(true)), HostRun];
    HostStarts();
    RunNext(e2, HostApp(AppRegister(LATE_MODULE)));
    assert e2 + [HostApp(AppRegister(LATE_MODULE))] == BEFORE_REGISTRATION[..3];
    assert ALONE.tasks + [TRegister(LATE_MODULE, Own)] == [TRegister(LATE_MODULE, Own)];
  }

  const WAITING := ALONE.(tasks := [TRegister(LATE_MODULE, Own), TPass(ASKED)])

  lemma AskedTooSoon()
    ensures MadeAt(BEFORE_REGISTRATION, 0, 3) && Run(BEFORE_REGISTRATION) == START.(host := WAITING, applies := [ASKED])
  {
    var t: seq<Task> := [TRegister(LATE_MODULE, Own)];
    RegistrationWaits();
    RunNext(BEFORE_REGISTRATION[..3], BrowserApply(0, [Update(0, "x")]));
    assert BEFORE_REGISTRATION[..3] + [BrowserApply(0, [Update(0, "x")])] == BEFORE_REGISTRATION;
    assert t + [TPass(ASKED)] == WAITING.tasks;
    assert START.applies + [ASKED] == [ASKED];
  }

  lemma CalledLater()
    ensures var i := RunHead(WAITING).0; i.tasks == [TPass(ASKED)] && RunHead(i).0.calls == [ASKED]
  {
    var i := RunHead(WAITING).0;
    assert WAITING.tasks[1..] == [TPass(ASKED)];
    assert 0 in i.modules && i.modules[0] == LATE_MODULE;
    assert i.calls + [ASKED] == [ASKED];
  }

  /** A request can reach a module registered later: the host has given no id when it is made, and still
      it runs the callback of the module that gets the id 0. */
  lemma RequestMeetsALaterModule()
    ensures MadeAt(BEFORE_REGISTRATION, 0, 3) && Run(BEFORE_REGISTRATION).host.origins == []
    ensures Run(BEFORE_REGISTRATION + [HostRun] + [HostRun]).host.calls == [ASKED]
  {
    var es := BEFORE_REGISTRATION;
    AskedTooSoon();
    CalledLater();
    RunsHead(Run(es));
    RunNext(es, HostRun);
    RunsHead(Run(es + [HostRun]));
    RunNext(es + [HostRun], HostRun);
  }
}
