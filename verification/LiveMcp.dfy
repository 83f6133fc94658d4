/** Transactional live mounting of MCP servers (kernel/live_mcp.py): managers are never
    lost, tools of other owners never change, failures roll back. */
module LiveMcp {
  type Name = string
  type Server = string

  datatype Wrapper = Wrapper(server: Server, identity: nat)
  datatype Binding = Binding(name: Name, wrapper: Wrapper)
  datatype Owned = Owned(spec: string, manager: nat, wrappers: seq<Binding>)
  datatype Operation = Add | Reload | Remove
  /** What connecting to a server comes to: there is no manager factory, or what it makes is no manager;
      the start or the answers of the manager are refused; or it lists these capabilities. */
  datatype Discovery = NoFactory | NoManager | Refused | Offered(wrappers: seq<Binding>)

  datatype Request =
    | Put(reload: bool, server: Server, spec: string, provenAbsent: bool, offer: Discovery)
    | Drop(server: Server, provenAbsent: bool)
    | Shutdown(servers: seq<Server>)

  /** connected is None when the live state can no longer be observed safely. */
  datatype Connection = Connected | Disconnected | Unknown
  datatype Outcome = Outcome(ok: bool, changed: bool, supported: bool, connection: Connection)

  // ----- tool maps ----------------------------------------------------------------------

  function Names(bs: seq<Binding>): (r: seq<Name>)
    ensures |r| == |bs| && forall i | 0 <= i < |bs| :: r[i] == bs[i].name
  {
    if bs == [] then [] else Names(bs[..|bs| - 1]) + [bs[|bs| - 1].name]
  }

  function Reversed(ns: seq<Name>): (r: seq<Name>)
    ensures |r| == |ns| && forall n :: n in r <==> n in ns
  {
    if ns == [] then [] else [ns[|ns| - 1]] + Reversed(ns[..|ns| - 1])
  }

  function NameSet(ns: seq<Name>): set<Name> { set n | n in ns }

  /** A dict of wrappers: one binding per name, in insertion order. */
  predicate IsDict(bs: seq<Binding>) {
    forall i, j | 0 <= i < j < |bs| :: bs[i].name != bs[j].name
  }

  /** The listed capabilities may be mounted: one per name, and all of this server. */
  predicate Accepted(server: Server, offer: Discovery) {
    && offer.Offered? && IsDict(offer.wrappers)
    && forall i | 0 <= i < |offer.wrappers| :: offer.wrappers[i].wrapper.server == server
  }

  predicate Unchanged(owned: map<Server, Owned>, server: Server, spec: string) {
    server in owned && owned[server].spec == spec
  }

  /** A server owned here, or a new one that nobody shows and that was not there at the start. */
  predicate InHand(op: Operation, server: Server, provenAbsent: bool, tools: map<Name, Wrapper>,
                   owned: map<Server, Owned>)
  {
    server in owned || (op.Add? && provenAbsent && forall n | n in tools :: tools[n].server != server)
  }

  /** Every name is free or one the server itself holds. */
  predicate NoCollision(server: Server, wrappers: seq<Binding>, tools: map<Name, Wrapper>, owned: map<Server, Owned>) {
    forall i | 0 <= i < |wrappers| ::
      wrappers[i].name !in tools ||
      (server in owned && exists k | 0 <= k < |owned[server].wrappers| ::
                            owned[server].wrappers[k].name == wrappers[i].name)
  }

  /** A connection reported as there, or as gone, is so; only of servers not handled here is it hearsay. */
  predicate Truthful(r: Outcome, server: Server, owned: map<Server, Owned>) {
    && (r.connection.Connected? && r.supported ==> server in owned)
    && (r.connection.Disconnected? ==> server !in owned)
  }

  function Mounted(tools: map<Name, Wrapper>, bs: seq<Binding>): map<Name, Wrapper> {
    if bs == [] then tools
    else Mounted(tools, bs[..|bs| - 1])[bs[|bs| - 1].name := bs[|bs| - 1].wrapper]
  }

  predicate AllMounted(tools: map<Name, Wrapper>, bs: seq<Binding>) {
    forall i | 0 <= i < |bs| :: bs[i].name in tools && tools[bs[i].name] == bs[i].wrapper
  }

  lemma MountedAt(tools: map<Name, Wrapper>, bs: seq<Binding>)
    ensures Mounted(tools, bs).Keys == tools.Keys + NameSet(Names(bs))
    ensures forall n | n in tools && n !in NameSet(Names(bs)) :: Mounted(tools, bs)[n] == tools[n]
    ensures IsDict(bs) ==> AllMounted(Mounted(tools, bs), bs)
  {
    MountedKeys(tools, bs);
    if IsDict(bs) { MountedOwn(tools, bs); }
  }

  lemma NamesSnoc(bs: seq<Binding>)
    requires bs != []
    ensures var k := |bs| - 1;
            NameSet(Names(bs)) == NameSet(Names(bs[..k])) + {bs[k].name}
  {
  }

  lemma {:induction false} MountedKeys(tools: map<Name, Wrapper>, bs: seq<Binding>)
    ensures Mounted(tools, bs).Keys == tools.Keys + NameSet(Names(bs))
    ensures forall n | n in tools && n !in NameSet(Names(bs)) :: Mounted(tools, bs)[n] == tools[n]
  {
    if bs != [] {
      MountedKeys(tools, bs[..|bs| - 1]);
      NamesSnoc(bs);
    }
  }

  lemma {:induction false} MountedOwn(tools: map<Name, Wrapper>, bs: seq<Binding>)
    requires IsDict(bs)
    ensures AllMounted(Mounted(tools, bs), bs)
  {
    if bs != [] {
      var k := |bs| - 1;
      MountedOwn(tools, bs[..k]);
      forall i | 0 <= i < k ensures bs[i].name != bs[k].name && bs[..k][i] == bs[i] {}
    }
  }

  // ----- third parties that may fail -------------------------------------------------------

  /** The live coordinator.  A mount or unmount that is in order either happens or raises.  It need not
      be: one may take effect and then raise, or others may change any tools meanwhile. */
  class Coordinator {
    var tools: map<Name, Wrapper>
    /** Whether every mount, unmount and stop succeeds. */
    const obedient: bool
    /** Something out of order has happened at some time. */
    ghost var surprised: bool

    method Mount(name: Name, w: Wrapper) returns (ok: bool)
      modifies this
      ensures !surprised ==> !old(surprised) && tools == if ok then old(tools)[name := w] else old(tools)
      ensures obedient ==> ok && surprised == old(surprised)
    {
      ok := *;
      ok := ok || obedient;
      if ok { tools := tools[name := w]; }
      Disorder();
    }

    method Unmount(name: Name) returns (ok: bool)
      modifies this
      ensures !surprised ==> !old(surprised) && tools == if ok then old(tools) - {name} else old(tools)
      ensures obedient ==> ok && surprised == old(surprised)
    {
      ok := *;
      ok := ok || obedient;
      if ok { tools := tools - {name}; }
      Disorder();
    }

    /** Whatever the call reported, the tools may be anything. */
    method Disorder()
      modifies this
      ensures !surprised ==> !old(surprised) && tools == old(tools)
      ensures obedient ==> surprised == old(surprised) && tools == old(tools)
    {
      var orderly: bool := *;
      if !orderly && !obedient {
        tools := *;
        surprised := true;
      }
    }
  }

  method MountWrappers(c: Coordinator, bs: seq<Binding>) returns (mounted: seq<Binding>, ok: bool)
    modifies c
    ensures mounted <= bs && (ok <==> mounted == bs) && (c.obedient ==> ok && c.surprised == old(c.surprised))
    ensures !c.surprised ==> !old(c.surprised) && c.tools == Mounted(old(c.tools), mounted)
  {
    mounted := [];
    for i := 0 to |bs|
      invariant mounted == bs[..i] && (c.obedient ==> c.surprised == old(c.surprised))
      invariant !c.surprised ==> !old(c.surprised) && c.tools == Mounted(old(c.tools), mounted)
    {
      var done := c.Mount(bs[i].name, bs[i].wrapper);
      if !done {
        return mounted, false;
      }
      assert bs[..i + 1][..i] == bs[..i];
      mounted := mounted + [bs[i]];
    }
    ok := true;
  }

  method UnmountNames(c: Coordinator, names: seq<Name>) returns (removed: seq<Name>, ok: bool)
    modifies c
    ensures removed <= names && (ok <==> removed == names) && (c.obedient ==> ok && c.surprised == old(c.surprised))
    ensures !c.surprised ==> !old(c.surprised) && c.tools == old(c.tools) - NameSet(removed)
  {
    removed := [];
    for i := 0 to |names|
      invariant removed == names[..i] && (c.obedient ==> c.surprised == old(c.surprised))
      invariant !c.surprised ==> !old(c.surprised) && c.tools == old(c.tools) - NameSet(removed)
    {
      var done := c.Unmount(names[i]);
      if !done {
        return removed, false;
      }
      removed := removed + [names[i]];
    }
    ok := true;
  }

  function Lookup(bs: seq<Binding>, n: Name): seq<Binding> {
    if bs == [] then []
    else if bs[|bs| - 1].name == n then [bs[|bs| - 1]]
    else Lookup(bs[..|bs| - 1], n)
  }

  lemma {:induction false} LookupFinds(bs: seq<Binding>, n: Name)
    ensures n in Names(bs) <==> Lookup(bs, n) != []
    ensures |Lookup(bs, n)| <= 1
    ensures Lookup(bs, n) != [] ==> Lookup(bs, n)[0] in bs && Lookup(bs, n)[0].name == n
  {
    if bs != [] {
      LookupFinds(bs[..|bs| - 1], n);
      assert Names(bs) == Names(bs[..|bs| - 1]) + [bs[|bs| - 1].name];
      assert bs == bs[..|bs| - 1] + [bs[|bs| - 1]];
    }
  }

  predicate Within(tools: map<Name, Wrapper>, full: map<Name, Wrapper>) {
    forall n | n in tools :: n in full && tools[n] == full[n]
  }

  /** Every error is remembered but the loop goes on. */
  method RemountSubset(c: Coordinator, bs: seq<Binding>, names: seq<Name>, ghost full: map<Name, Wrapper>)
    returns (ok: bool)
    modifies c
    ensures c.obedient ==> ok && c.surprised == old(c.surprised)
    ensures !c.surprised ==>
              && !old(c.surprised) && old(c.tools).Keys <= c.tools.Keys
              && (ok ==> c.tools.Keys == old(c.tools).Keys + NameSet(names) * NameSet(Names(bs)))
              && (AllMounted(full, bs) && Within(old(c.tools), full) ==> Within(c.tools, full))
  {
    ok := true;
    for i := 0 to |names|
      invariant c.obedient ==> ok && c.surprised == old(c.surprised)
      invariant !c.surprised ==>
                  && !old(c.surprised) && old(c.tools).Keys <= c.tools.Keys
                  && (ok ==> c.tools.Keys == old(c.tools).Keys + NameSet(names[..i]) * NameSet(Names(bs)))
                  && (AllMounted(full, bs) && Within(old(c.tools), full) ==> Within(c.tools, full))
    {
      var n := names[i];
      LookupFinds(bs, n);
      var w := Lookup(bs, n);
      if w != [] {
        var done := c.Mount(n, w[0].wrapper);
        ok := ok && done;
      }
      assert names[..i + 1] == names[..i] + [n];
    }
    assert names[..|names|] == names;
  }

  // ----- the reconciler ----------------------------------------------------------------------

  class Reconciler {
    const coordinator: Coordinator
    var owned: map<Server, Owned>
    var stranded: seq<Owned>
    /** Managers are numbered as they are created. */
    var created: nat
    ghost var started: set<nat>
    ghost var stopped: set<nat>
    /** A rollback step has itself failed at some time. */
    ghost var degraded: bool

    constructor (coordinator: Coordinator)
      ensures Conserved() && Clean() && this.coordinator == coordinator && !degraded
      ensures owned == map[] && stranded == []
    {
      this.coordinator := coordinator;
      owned, stranded, created := map[], [], 0;
      started, stopped, degraded := {}, {}, false;
    }

    /** Every started manager is in exactly one of owned, stranded and stopped. */
    ghost predicate Conserved()
      reads this
    {
      Ledger(started, owned, stranded, stopped, created)
    }

    /** A rollback has failed, or something was out of order. */
    ghost predicate Unsure()
      reads this, coordinator
    {
      degraded || coordinator.surprised
    }

    /** As long as all is sure: owned wrappers are mounted under their own names, no two
        servers share a name, and stranded connections hold no tools. */
    ghost predicate Clean()
      reads this, coordinator
    {
      !Unsure() ==> Tidy(coordinator.tools, owned, stranded)
    }

    method Stop(manager: nat) returns (ok: bool)
      requires manager in started
      modifies this`stopped
      ensures stopped == if ok then old(stopped) + {manager} else old(stopped)
      ensures coordinator.obedient ==> ok
    {
      ok := *;
      ok := ok || coordinator.obedient;
      if ok { stopped := stopped + {manager}; }
    }

    /** Stop a connection nobody will use; keep it for a later retry when that fails. */
    method StopDiscarded(manager: nat)
      requires InFlight(started, owned, stranded, stopped, created, manager)
      modifies this`stopped, this`stranded
      ensures Conserved()
      ensures stranded == old(stranded) || stranded == old(stranded) + [Owned("", manager, [])]
    {
      LedgerStopped(started, owned, stranded, stopped, created, manager);
      LedgerStranded(started, owned, stranded, stopped, created, Owned("", manager, []));
      var ok := Stop(manager);
      if !ok {
        stranded := stranded + [Owned("", manager, [])];
      }
    }

    /** Connect and discover one server in an isolated manager. */
    method Discover(server: Server, spec: string, offer: Discovery)
      returns (found: bool, manager: nat, wrappers: seq<Binding>)
      requires Conserved()
      modifies this`created, this`started, this`stopped, this`stranded
      ensures found ==> InFlight(started, owned, stranded, stopped, created, manager)
      ensures found <==> Accepted(server, offer)
      ensures found ==> stranded == old(stranded) && wrappers == offer.wrappers
      ensures !found ==> Conserved()
      ensures stranded == old(stranded) || exists m :: stranded == old(stranded) + [Owned(spec, m, [])]
    {
      manager, wrappers := created, [];
      if offer.NoFactory? || offer.NoManager? {
        return false, manager, wrappers;
      }
      created := created + 1;
      started := started + {manager};
      assert started - {manager} == old(started);
      if !Accepted(server, offer) {
        LedgerStopped(started, owned, stranded, stopped, created, manager);
        LedgerStranded(started, owned, stranded, stopped, created, Owned(spec, manager, []));
        var ok := Stop(manager);
        if !ok {
          stranded := stranded + [Owned(spec, manager, [])];
        }
        return false, manager, [];
      }
      found, wrappers := true, offer.wrappers;
    }

    /** Add or reload one server that this object may own. */
    method Upsert(op: Operation, server: Server, spec: string, provenAbsent: bool, offer: Discovery)
      returns (r: Outcome)
      requires Conserved() && Clean() && !op.Remove?
      modifies this, coordinator
      ensures Conserved() && Clean()
      ensures Guarded(old(coordinator.tools), old(owned), old(Unsure()), coordinator.tools, owned, Unsure(), r.changed)
      ensures r.ok ==> server in owned && owned[server].spec == spec && OthersKept(old(owned), owned, server)
      ensures r.changed <==> r.ok && !Unchanged(old(owned), server, spec)
      ensures r.changed ==> Accepted(server, offer) && owned[server].wrappers == offer.wrappers
      ensures r.supported <==> Unchanged(old(owned), server, spec)
                               || (InHand(op, server, provenAbsent, old(coordinator.tools), old(owned))
                                   && !offer.NoFactory?)
      ensures coordinator.obedient ==>
                (r.ok <==> Unchanged(old(owned), server, spec)
                           || (InHand(op, server, provenAbsent, old(coordinator.tools), old(owned))
                               && Accepted(server, offer)
                               && NoCollision(server, offer.wrappers, old(coordinator.tools), old(owned))))
      ensures Truthful(r, server, owned)
      ensures r.supported && r.connection == Unknown ==> degraded
      ensures coordinator.obedient ==> Unsure() == old(Unsure())
    {
      if server in owned && owned[server].spec == spec {
        return Outcome(true, false, true, Connected);
      }
      if server !in owned {
        var visible := exists n | n in coordinator.tools :: coordinator.tools[n].server == server;
        if visible {
          return Outcome(false, false, false, Connected);
        }
        if op.Reload? || !provenAbsent {
          return Outcome(false, false, false, Unknown);
        }
      }
      var live := if server in owned then Connected else Disconnected;
      var found, manager, wrappers := Discover(server, spec, offer);
      coordinator.Disorder();
      if !found {
        return Outcome(false, false, !offer.NoFactory?, live);
      }
      r := Install(server, spec, manager, wrappers);
    }

    /** A discovered server goes live unless one of its names is somebody else's. */
    method Install(server: Server, spec: string, manager: nat, wrappers: seq<Binding>) returns (r: Outcome)
      requires InFlight(started, owned, stranded, stopped, created, manager) && Clean() && IsDict(wrappers)
      modifies this, coordinator
      ensures Conserved() && Clean()
      ensures Guarded(old(coordinator.tools), old(owned), old(Unsure()), coordinator.tools, owned, Unsure(), r.changed)
      ensures r.ok == r.changed
      ensures r.ok ==> owned == old(owned)[server := Owned(spec, manager, wrappers)]
      ensures r.connection == Unknown ==> degraded
      ensures coordinator.obedient ==> Unsure() == old(Unsure())
      ensures coordinator.obedient ==>
                (r.ok <==> NoCollision(server, wrappers, old(coordinator.tools), old(owned)))
      ensures Truthful(r, server, owned) && r.supported
    {
      var allowed := if server in owned then owned[server].wrappers else [];
      if exists i | 0 <= i < |wrappers| ::
           wrappers[i].name in coordinator.tools && wrappers[i].name !in Names(allowed)
      {
        StopDiscarded(manager);
        return Outcome(false, false, true, if server in owned then Connected else Disconnected);
      }
      if server in owned {
        r := ReplaceOwned(server, spec, manager, wrappers);
      } else {
        r := AddOwned(server, spec, manager, wrappers);
      }
    }

    method AddOwned(server: Server, spec: string, manager: nat, wrappers: seq<Binding>) returns (r: Outcome)
      requires InFlight(started, owned, stranded, stopped, created, manager) && Clean()
      requires server !in owned && IsDict(wrappers)
      requires forall i | 0 <= i < |wrappers| :: wrappers[i].name !in coordinator.tools
      modifies this, coordinator
      ensures Conserved() && Clean()
      ensures Guarded(old(coordinator.tools), old(owned), old(Unsure()), coordinator.tools, owned, Unsure(), r.changed)
      ensures r.ok == r.changed
      ensures r.ok ==> owned == old(owned)[server := Owned(spec, manager, wrappers)]
      ensures Truthful(r, server, owned) && r.supported
      ensures r.connection == Unknown ==> degraded
      ensures coordinator.obedient ==> r.ok && Unsure() == old(Unsure())
    {
      ghost var tools0 := coordinator.tools;
      var mounted, ok := MountWrappers(coordinator, wrappers);
      if !ok {
        r := UndoAddition(spec, manager, wrappers, mounted, tools0);
        return;
      }
      LedgerOwned(started, owned, stranded, stopped, created, server, Owned(spec, manager, wrappers));
      if !Unsure() { FreshOwned(tools0, owned, stranded, server, Owned(spec, manager, wrappers)); }
      owned := owned[server := Owned(spec, manager, wrappers)];
      return Outcome(true, true, true, Connected);
    }

    /** The wrappers could not all be mounted: take those that were down again. */
    method UndoAddition(spec: string, manager: nat, wrappers: seq<Binding>, mounted: seq<Binding>,
                        ghost tools0: map<Name, Wrapper>)
      returns (r: Outcome)
      requires InFlight(started, owned, stranded, stopped, created, manager)
      requires !coordinator.surprised ==> coordinator.tools == Mounted(tools0, mounted)
      requires forall i | 0 <= i < |mounted| :: mounted[i].name !in tools0
      requires !Unsure() ==> Tidy(tools0, owned, stranded)
      modifies this, coordinator
      ensures Conserved() && Clean() && owned == old(owned)
      ensures Guarded(tools0, owned, old(Unsure()), coordinator.tools, owned, Unsure(), false)
      ensures !r.connection.Connected? && r.supported
      ensures !r.ok && !r.changed && (r.connection == Unknown ==> degraded)
    {
      var removed, undone := UnmountNames(coordinator, Reversed(Names(mounted)));
      if undone {
        if !coordinator.surprised { FreshUndone(tools0, mounted, coordinator.tools); }
        StopDiscarded(manager);
        return Outcome(false, false, true, Disconnected);
      }
      LedgerStranded(started, owned, stranded, stopped, created, Owned(spec, manager, wrappers));
      stranded := stranded + [Owned(spec, manager, wrappers)];
      degraded := true;
      r := Outcome(false, false, true, Unknown);
    }

    /** Mount tools of an owned server again after a failure; a failing remount degrades. */
    method RollBack(bs: seq<Binding>, names: seq<Name>, ghost full: map<Name, Wrapper>) returns (ok: bool)
      modifies this`degraded, coordinator
      ensures degraded == (old(degraded) || !ok)
      ensures coordinator.obedient ==> ok && coordinator.surprised == old(coordinator.surprised)
      ensures !coordinator.surprised ==> !old(coordinator.surprised)
      ensures !coordinator.surprised && ok && AllMounted(full, bs) && Within(old(coordinator.tools), full)
              && full.Keys == old(coordinator.tools).Keys + NameSet(names) * NameSet(Names(bs)) ==>
                coordinator.tools == full
    {
      ok := RemountSubset(coordinator, bs, names, full);
      if !ok {
        degraded := true;
      }
    }

    method ReplaceOwned(server: Server, spec: string, manager: nat, wrappers: seq<Binding>) returns (r: Outcome)
      requires InFlight(started, owned, stranded, stopped, created, manager) && Clean()
      requires server in owned && IsDict(wrappers)
      requires forall i | 0 <= i < |wrappers| ::
                 wrappers[i].name !in coordinator.tools || wrappers[i].name in Names(owned[server].wrappers)
      modifies this, coordinator
      ensures Conserved() && Clean()
      ensures Guarded(old(coordinator.tools), old(owned), old(Unsure()), coordinator.tools, owned, Unsure(), r.changed)
      ensures r.ok == r.changed
      ensures r.ok ==> owned == old(owned)[server := Owned(spec, manager, wrappers)]
      ensures Truthful(r, server, owned) && r.supported
      ensures r.connection == Unknown ==> degraded
      ensures coordinator.obedient ==> r.ok && Unsure() == old(Unsure())
    {
      ghost var tools0 := coordinator.tools;
      var was := owned[server];
      var removed, ok := UnmountNames(coordinator, Reversed(Names(was.wrappers)));
      if !ok {
        PrefixNames(was.wrappers, removed);
        r := KeepOld(server, manager, removed, tools0);
        return;
      }
      ReversedSet(Names(was.wrappers));
      r := InstallReplacement(server, spec, manager, wrappers, tools0);
    }

    /** The old tools are down: mount the new ones and let the new connection take over. */
    method InstallReplacement(server: Server, spec: string, manager: nat, wrappers: seq<Binding>,
                              ghost tools0: map<Name, Wrapper>)
      returns (r: Outcome)
      requires InFlight(started, owned, stranded, stopped, created, manager)
      requires server in owned && IsDict(wrappers)
      requires !coordinator.surprised ==> coordinator.tools == tools0 - NameSet(Names(owned[server].wrappers))
      requires !Unsure() ==> Tidy(tools0, owned, stranded)
      requires !Unsure() ==> forall i | 0 <= i < |wrappers| ::
                 wrappers[i].name !in tools0 || wrappers[i].name in Names(owned[server].wrappers)
      modifies this, coordinator
      ensures Conserved() && Clean()
      ensures Guarded(tools0, old(owned), old(Unsure()), coordinator.tools, owned, Unsure(), r.changed)
      ensures r.ok == r.changed
      ensures r.ok ==> owned == old(owned)[server := Owned(spec, manager, wrappers)]
      ensures Truthful(r, server, owned) && r.supported
      ensures r.connection == Unknown ==> degraded
      ensures coordinator.obedient ==> r.ok && Unsure() == old(Unsure())
    {
      var mounted, all := MountWrappers(coordinator, wrappers);
      if !all {
        r := UndoReplacement(server, spec, manager, wrappers, mounted, tools0);
        return;
      }
      if !Unsure() { Replaced(tools0, owned, stranded, server, Owned(spec, manager, wrappers)); }
      SwapOwned(server, Owned(spec, manager, wrappers));
      r := Outcome(true, true, true, Connected);
    }

    /** The old tools could not all be taken down: put those that were back, drop the new connection. */
    method KeepOld(server: Server, manager: nat, removed: seq<Name>, ghost tools0: map<Name, Wrapper>)
      returns (r: Outcome)
      requires InFlight(started, owned, stranded, stopped, created, manager)
      requires server in owned && (!coordinator.surprised ==> coordinator.tools == tools0 - NameSet(removed))
      requires forall n | n in removed :: n in Names(owned[server].wrappers)
      requires !Unsure() ==> Tidy(tools0, owned, stranded)
      modifies this, coordinator
      ensures Conserved() && Clean() && owned == old(owned)
      ensures Guarded(tools0, owned, old(Unsure()), coordinator.tools, owned, Unsure(), false)
      ensures Truthful(r, server, owned) && r.supported
      ensures !r.ok && !r.changed && (r.connection == Unknown ==> degraded)
    {
      r := KeepTools(server, removed, tools0);
      StopDiscarded(manager);
    }

    /** The replacement could not be mounted: take its part down, put the old tools back. */
    method UndoReplacement(server: Server, spec: string, manager: nat, wrappers: seq<Binding>,
                           mounted: seq<Binding>, ghost tools0: map<Name, Wrapper>)
      returns (r: Outcome)
      requires InFlight(started, owned, stranded, stopped, created, manager)
      requires server in owned && mounted <= wrappers
      requires !coordinator.surprised ==>
                 coordinator.tools == Mounted(tools0 - NameSet(Names(owned[server].wrappers)), mounted)
      requires !Unsure() ==> Tidy(tools0, owned, stranded)
      requires !Unsure() ==> forall i | 0 <= i < |wrappers| ::
                 wrappers[i].name !in tools0 || wrappers[i].name in Names(owned[server].wrappers)
      modifies this, coordinator
      ensures Conserved() && Clean() && owned == old(owned)
      ensures Guarded(tools0, owned, old(Unsure()), coordinator.tools, owned, Unsure(), false)
      ensures Truthful(r, server, owned) && r.supported
      ensures !r.ok && !r.changed && (r.connection == Unknown ==> degraded)
    {
      var was := owned[server];
      var down, cleaned := UnmountNames(coordinator, Reversed(Names(mounted)));
      ghost var bare := coordinator.tools;
      var missing := MissingNames(was.wrappers, coordinator.tools);
      var back := RollBack(was.wrappers, missing, tools0);
      if !cleaned {
        degraded := true;
        LedgerStranded(started, owned, stranded, stopped, created, Owned(spec, manager, wrappers));
        stranded := stranded + [Owned(spec, manager, wrappers)];
        return Outcome(false, false, true, Unknown);
      }
      if !Unsure() { BareThenBack(tools0, was.wrappers, mounted, bare, missing); }
      StopDiscarded(manager);
      return Outcome(false, false, true, if back then Connected else Unknown);
    }

    /** The new connection takes the server's place; the old one is stopped or kept for a retry. */
    method SwapOwned(server: Server, o: Owned)
      requires InFlight(started, owned, stranded, stopped, created, o.manager) && server in owned
      requires !Unsure() ==> Tidy(coordinator.tools, owned[server := o], stranded)
      modifies this
      ensures Conserved() && Clean() && degraded == old(degraded)
      ensures owned == old(owned)[server := o]
    {
      var was := owned[server];
      LedgerSwapped(started, owned, stranded, stopped, created, server, o);
      owned := owned[server := o];
      LedgerStopped(started, owned, stranded, stopped, created, was.manager);
      LedgerStranded(started, owned, stranded, stopped, created, Owned(was.spec, was.manager, []));
      var ok := Stop(was.manager);
      if !ok {
        stranded := stranded + [Owned(was.spec, was.manager, [])];
      }
    }

    method RemoveOwned(server: Server) returns (r: Outcome)
      requires Conserved() && Clean() && server in owned
      modifies this, coordinator
      ensures Conserved() && Clean() && stranded == old(stranded)
      ensures Guarded(old(coordinator.tools), old(owned), old(Unsure()), coordinator.tools, owned, Unsure(), r.changed)
      ensures r.ok == r.changed
      ensures owned == if r.ok then old(owned) - {server} else old(owned)
      ensures Truthful(r, server, owned) && r.supported
      ensures r.connection == Unknown ==> degraded
      ensures coordinator.obedient ==> r.ok && Unsure() == old(Unsure())
    {
      ghost var tools0 := coordinator.tools;
      var was := owned[server];
      var removed, ok := UnmountNames(coordinator, Reversed(Names(was.wrappers)));
      if !ok {
        PrefixNames(was.wrappers, removed);
        r := KeepTools(server, removed, tools0);
        return;
      }
      ReversedSet(Names(was.wrappers));
      LedgerReleased(started, owned, stranded, stopped, created, server);
      LedgerStopped(started, owned - {server}, stranded, stopped, created, was.manager);
      var stoppedNow := Stop(was.manager);
      coordinator.Disorder();
      if !stoppedNow {
        r := KeepTools(server, Names(was.wrappers), tools0);
        return;
      }
      if !Unsure() { Released(tools0, owned, stranded, server); }
      owned := owned - {server};
      return Outcome(true, true, true, Disconnected);
    }

    /** The server stays: put the tools already taken down back. */
    method KeepTools(server: Server, removed: seq<Name>, ghost tools0: map<Name, Wrapper>) returns (r: Outcome)
      requires server in owned && (!coordinator.surprised ==> coordinator.tools == tools0 - NameSet(removed))
      requires forall n | n in removed :: n in Names(owned[server].wrappers)
      requires !Unsure() ==> Tidy(tools0, owned, stranded)
      modifies this`degraded, coordinator
      ensures Clean() && Guarded(tools0, owned, old(Unsure()), coordinator.tools, owned, Unsure(), false)
      ensures Truthful(r, server, owned) && r.supported
      ensures !r.ok && !r.changed && (r.connection == Unknown ==> degraded)
    {
      var was := owned[server];
      ghost var without := coordinator.tools;
      var back := RollBack(was.wrappers, removed, tools0);
      if !Unsure() { RolledBack(tools0, was.wrappers, removed, without); }
      r := Outcome(false, false, true, if back then Connected else Unknown);
    }

    /** Remove a server when its cleanup is owned; a boot-time server is left alone. */
    method Discard(server: Server, provenAbsent: bool) returns (r: Outcome)
      requires Conserved() && Clean()
      modifies this, coordinator
      ensures Conserved() && Clean()
      ensures Guarded(old(coordinator.tools), old(owned), old(Unsure()), coordinator.tools, owned, Unsure(), r.changed)
      ensures r.ok ==> server !in owned && OthersKept(old(owned), owned, server)
      ensures coordinator.obedient ==> Unsure() == old(Unsure())
      ensures coordinator.obedient ==>
                (r.ok <==> InHand(Add, server, provenAbsent, old(coordinator.tools), old(owned)))
      ensures Truthful(r, server, owned)
    {
      if server in owned {
        r := RemoveOwned(server);
        return;
      }
      if exists n | n in coordinator.tools :: coordinator.tools[n].server == server {
        return Outcome(false, false, false, Connected);
      }
      if provenAbsent {
        return Outcome(true, false, true, Disconnected);
      }
      return Outcome(false, false, false, Unknown);
    }

    /** Any sequence of requests keeps the ledger, the tool names and everybody else's tools. */
    method Serve(requests: seq<Request>)
      requires Conserved() && Clean()
      modifies this, coordinator
      ensures Conserved() && Clean()
      ensures !Unsure() ==> Foreign(coordinator.tools, owned) == Foreign(old(coordinator.tools), old(owned))
      ensures coordinator.obedient ==> Unsure() == old(Unsure())
    {
      for i := 0 to |requests|
        invariant Conserved() && Clean()
        invariant old(Unsure()) ==> Unsure()
        invariant coordinator.obedient ==> Unsure() == old(Unsure())
        invariant !Unsure() ==> Foreign(coordinator.tools, owned) == Foreign(old(coordinator.tools), old(owned))
      {
        coordinator.Disorder();
        match requests[i] {
          case Put(reload, server, spec, provenAbsent, offer) =>
            var r := Upsert(if reload then Reload else Add, server, spec, provenAbsent, offer);
          case Drop(server, provenAbsent) =>
            var r := Discard(server, provenAbsent);
          case Shutdown(servers) =>
            Close(servers);
        }
      }
    }

    /** Unmount and stop everything this object created, retrying stranded connections. */
    method Close(servers: seq<Server>)
      requires Conserved() && Clean()
      modifies this, coordinator
      ensures Conserved() && Clean()
      ensures old(Unsure()) ==> Unsure()
      ensures !Unsure() ==> Foreign(coordinator.tools, owned) == Foreign(old(coordinator.tools), old(owned))
      ensures owned.Keys <= old(owned).Keys && forall s | s in owned :: owned[s] == old(owned)[s]
      ensures coordinator.obedient ==> Unsure() == old(Unsure())
      ensures coordinator.obedient && (forall s | s in old(owned) :: s in servers) ==>
                owned == map[] && stranded == [] && started == stopped
    {
      for i := 0 to |servers|
        invariant Conserved() && Clean()
        invariant old(Unsure()) ==> Unsure()
        invariant !Unsure() ==> Foreign(coordinator.tools, owned) == Foreign(old(coordinator.tools), old(owned))
        invariant owned.Keys <= old(owned).Keys && forall s | s in owned :: owned[s] == old(owned)[s]
        invariant coordinator.obedient ==> Unsure() == old(Unsure()) && forall s | s in owned :: s !in servers[..i]
      {
        if servers[i] in owned {
          var r := RemoveOwned(servers[i]);
        }
        assert servers[..i + 1] == servers[..i] + [servers[i]];
      }
      RetryStranded();
      assert servers[..|servers|] == servers;
      if coordinator.obedient && forall s | s in old(owned) :: s in servers {
        assert forall s :: s !in owned;
        AllStopped(started, owned, stranded, stopped, created);
      }
    }

    method RetryStranded()
      requires Conserved() && Clean()
      modifies this`stranded, this`stopped, coordinator
      ensures Conserved() && Clean()
      ensures coordinator.obedient ==> stranded == [] && Unsure() == old(Unsure())
      ensures old(Unsure()) ==> Unsure()
      ensures !Unsure() ==> coordinator.tools == old(coordinator.tools)
    {
      var i := 0;
      while i < |stranded|
        invariant i <= |stranded| && (coordinator.obedient ==> i == 0 && Unsure() == old(Unsure()))
        invariant Conserved() && Clean() && (old(Unsure()) ==> Unsure())
        invariant !Unsure() ==> coordinator.tools == old(coordinator.tools)
        decreases |stranded| - i
      {
        var o := stranded[i];
        var down, ok := UnmountNames(coordinator, Reversed(Names(o.wrappers)));
        assert !Unsure() ==> down == [];
        LedgerRetried(started, owned, stranded, stopped, created, i);
        assert IsStranded(stranded, o.manager);
        if ok {
          ok := Stop(o.manager);
        }
        if ok {
          stranded := stranded[..i] + stranded[i + 1..];
        } else {
          i := i + 1;
        }
      }
    }
  }

  predicate OwnedApart(owned: map<Server, Owned>) {
    forall s, t | s in owned && t in owned && s != t :: owned[s].manager != owned[t].manager
  }

  predicate StrandedApart(stranded: seq<Owned>) {
    forall i, j | 0 <= i < j < |stranded| :: stranded[i].manager != stranded[j].manager
  }

  predicate IsOwned(owned: map<Server, Owned>, m: nat) {
    exists s | s in owned :: owned[s].manager == m
  }

  predicate IsStranded(stranded: seq<Owned>, m: nat) {
    exists i | 0 <= i < |stranded| :: stranded[i].manager == m
  }

  /** m is held exactly once among the three places. */
  predicate HeldOnce(m: nat, owned: map<Server, Owned>, stranded: seq<Owned>, stopped: set<nat>) {
    && (IsOwned(owned, m) || IsStranded(stranded, m) || m in stopped)
    && !(IsOwned(owned, m) && IsStranded(stranded, m))
    && !(IsOwned(owned, m) && m in stopped)
    && !(IsStranded(stranded, m) && m in stopped)
  }

  ghost predicate Ledger(started: set<nat>, owned: map<Server, Owned>, stranded: seq<Owned>, stopped: set<nat>,
                         created: nat)
  {
    && OwnedApart(owned) && StrandedApart(stranded)
    && (forall m: nat :: m in started <==> IsOwned(owned, m) || IsStranded(stranded, m) || m in stopped)
    && (forall m | m in started :: m < created && HeldOnce(m, owned, stranded, stopped))
  }

  /** The ledger holds for everything but one started manager not yet placed. */
  ghost predicate InFlight(started: set<nat>, owned: map<Server, Owned>, stranded: seq<Owned>, stopped: set<nat>,
                           created: nat, m: nat)
  {
    && m in started && m < created
    && !IsOwned(owned, m) && !IsStranded(stranded, m) && m !in stopped
    && Ledger(started - {m}, owned, stranded, stopped, created)
  }

  predicate Disjoint(a: seq<Binding>, b: seq<Binding>) {
    forall n | n in Names(a) :: n !in Names(b)
  }

  lemma AllStopped(started: set<nat>, owned: map<Server, Owned>, stranded: seq<Owned>, stopped: set<nat>, created: nat)
    requires Ledger(started, owned, stranded, stopped, created) && owned == map[] && stranded == []
    ensures started == stopped
  {
    forall m: nat ensures m in started <==> m in stopped {
      assert !IsOwned(owned, m) && !IsStranded(stranded, m);
    }
  }

  predicate NamesApart(owned: map<Server, Owned>) {
    forall s, t | s in owned && t in owned && s != t :: Disjoint(owned[s].wrappers, owned[t].wrappers)
  }

  ghost predicate Tidy(tools: map<Name, Wrapper>, owned: map<Server, Owned>, stranded: seq<Owned>) {
    && (forall s | s in owned :: IsDict(owned[s].wrappers) && AllMounted(tools, owned[s].wrappers))
    && NamesApart(owned)
    && (forall i | 0 <= i < |stranded| :: stranded[i].wrappers == [])
  }

  /** Tools that belong to nobody here. */
  function Foreign(tools: map<Name, Wrapper>, owned: map<Server, Owned>): map<Name, Wrapper> {
    map n | n in tools && (forall s | s in owned :: n !in Names(owned[s].wrappers)) :: tools[n]
  }

  // ----- placing a manager -------------------------------------------------------------------

  lemma StrandedSnoc(stranded: seq<Owned>, o: Owned)
    ensures forall m: nat :: IsStranded(stranded + [o], m) <==> IsStranded(stranded, m) || o.manager == m
  {
    forall m: nat
      ensures IsStranded(stranded + [o], m) <==> IsStranded(stranded, m) || o.manager == m
    {
      if IsStranded(stranded, m) {
        var i :| 0 <= i < |stranded| && stranded[i].manager == m;
        assert (stranded + [o])[i].manager == m;
      }
      if o.manager == m {
        assert (stranded + [o])[|stranded|].manager == m;
      }
    }
  }

  lemma LedgerStranded(started: set<nat>, owned: map<Server, Owned>, stranded: seq<Owned>, stopped: set<nat>,
                       created: nat, o: Owned)
    requires InFlight(started, owned, stranded, stopped, created, o.manager)
    ensures Ledger(started, owned, stranded + [o], stopped, created)
  {
    StrandedSnoc(stranded, o);
    forall i | 0 <= i < |stranded| ensures stranded[i].manager != o.manager {
      assert IsStranded(stranded, stranded[i].manager);
    }
    forall m | m in started ensures m < created && HeldOnce(m, owned, stranded + [o], stopped) {
      if m != o.manager { assert m in started - {o.manager}; }
    }
    forall m: nat
      ensures m in started <==> IsOwned(owned, m) || IsStranded(stranded + [o], m) || m in stopped
    {
      if m != o.manager { assert m in started <==> m in started - {o.manager}; }
    }
  }

  lemma LedgerStopped(started: set<nat>, owned: map<Server, Owned>, stranded: seq<Owned>, stopped: set<nat>,
                      created: nat, m: nat)
    requires InFlight(started, owned, stranded, stopped, created, m)
    ensures Ledger(started, owned, stranded, stopped + {m}, created)
  {
    forall k | k in started ensures k < created && HeldOnce(k, owned, stranded, stopped + {m}) {
      if k != m { assert k in started - {m}; }
    }
    forall k: nat
      ensures k in started <==> IsOwned(owned, k) || IsStranded(stranded, k) || k in stopped + {m}
    {
      if k != m { assert k in started <==> k in started - {m}; }
    }
  }

  lemma OwnedPut(owned: map<Server, Owned>, s: Server, o: Owned)
    requires s !in owned
    ensures forall m: nat :: IsOwned(owned[s := o], m) <==> IsOwned(owned, m) || o.manager == m
  {
    forall m: nat
      ensures IsOwned(owned[s := o], m) <==> IsOwned(owned, m) || o.manager == m
    {
      if IsOwned(owned, m) {
        var t :| t in owned && owned[t].manager == m;
        assert owned[s := o][t].manager == m;
      }
      if o.manager == m {
        assert owned[s := o][s].manager == m;
      }
    }
  }

  lemma LedgerOwned(started: set<nat>, owned: map<Server, Owned>, stranded: seq<Owned>, stopped: set<nat>,
                    created: nat, s: Server, o: Owned)
    requires InFlight(started, owned, stranded, stopped, created, o.manager) && s !in owned
    ensures Ledger(started, owned[s := o], stranded, stopped, created)
  {
    OwnedPut(owned, s, o);
    forall t | t in owned ensures owned[t].manager != o.manager {
      assert IsOwned(owned, owned[t].manager);
    }
    forall m | m in started ensures m < created && HeldOnce(m, owned[s := o], stranded, stopped) {
      if m != o.manager { assert m in started - {o.manager}; }
    }
    forall m: nat
      ensures m in started <==> IsOwned(owned[s := o], m) || IsStranded(stranded, m) || m in stopped
    {
      if m != o.manager { assert m in started <==> m in started - {o.manager}; }
    }
  }

  /** Letting go of a server puts its manager in flight. */
  lemma LedgerReleased(started: set<nat>, owned: map<Server, Owned>, stranded: seq<Owned>, stopped: set<nat>,
                       created: nat, s: Server)
    requires Ledger(started, owned, stranded, stopped, created) && s in owned
    ensures InFlight(started, owned - {s}, stranded, stopped, created, owned[s].manager)
  {
    var rest, m0 := owned - {s}, owned[s].manager;
    assert rest[s := owned[s]] == owned;
    OwnedPut(rest, s, owned[s]);
    assert IsOwned(owned, m0);
    assert HeldOnce(m0, owned, stranded, stopped);
    assert !IsOwned(rest, m0) by {
      forall t | t in rest ensures rest[t].manager != m0 {}
    }
    forall m | m in started - {m0} ensures m < created && HeldOnce(m, rest, stranded, stopped) {
      assert HeldOnce(m, owned, stranded, stopped);
    }
    forall m: nat
      ensures m in started - {m0} <==> IsOwned(rest, m) || IsStranded(stranded, m) || m in stopped
    {
    }
  }

  lemma LedgerRetried(started: set<nat>, owned: map<Server, Owned>, stranded: seq<Owned>, stopped: set<nat>,
                      created: nat, i: nat)
    requires Ledger(started, owned, stranded, stopped, created) && i < |stranded|
    ensures Ledger(started, owned, stranded[..i] + stranded[i + 1..], stopped + {stranded[i].manager}, created)
  {
    var rest, m0 := stranded[..i] + stranded[i + 1..], stranded[i].manager;
    assert IsStranded(stranded, m0);
    assert HeldOnce(m0, owned, stranded, stopped);
    forall m: nat ensures IsStranded(stranded, m) <==> IsStranded(rest, m) || m == m0 {
      if IsStranded(stranded, m) && m != m0 {
        var j :| 0 <= j < |stranded| && stranded[j].manager == m;
        assert rest[if j < i then j else j - 1].manager == m;
      }
      if IsStranded(rest, m) {
        var j :| 0 <= j < |rest| && rest[j].manager == m;
        assert stranded[if j < i then j else j + 1].manager == m;
      }
    }
    forall j | 0 <= j < |rest| ensures rest[j].manager != m0 {
      assert rest[j] == stranded[if j < i then j else j + 1];
    }
    forall m | m in started ensures m < created && HeldOnce(m, owned, rest, stopped + {m0}) {
      assert HeldOnce(m, owned, stranded, stopped);
    }
  }

  // ----- effect on the tool map --------------------------------------------------------------

  /** What every operation guarantees while no rollback has failed: other owners' tools stay,
      and an operation that changed nothing left tools and ownership as they were. */
  ghost predicate Guarded(tools0: map<Name, Wrapper>, owned0: map<Server, Owned>, degraded0: bool,
                          tools: map<Name, Wrapper>, owned: map<Server, Owned>, degraded: bool, changed: bool)
  {
    && (degraded0 ==> degraded)
    && (!degraded ==>
          && Foreign(tools, owned) == Foreign(tools0, owned0)
          && (!changed ==> tools == tools0 && owned == owned0))
  }

  ghost predicate OthersKept(before: map<Server, Owned>, after: map<Server, Owned>, server: Server) {
    forall s | s != server :: (s in before <==> s in after) && (s in before ==> before[s] == after[s])
  }

  lemma ReversedSet(ns: seq<Name>)
    ensures NameSet(Reversed(ns)) == NameSet(ns)
  {
  }

  lemma FreshUndone(tools0: map<Name, Wrapper>, mounted: seq<Binding>, tools: map<Name, Wrapper>)
    requires forall i | 0 <= i < |mounted| :: mounted[i].name !in tools0
    requires tools == Mounted(tools0, mounted) - NameSet(Reversed(Names(mounted)))
    ensures tools == tools0
  {
    MountedAt(tools0, mounted);
    ReversedSet(Names(mounted));
    NamesFresh(tools0, mounted);
  }

  lemma NamesFresh(tools: map<Name, Wrapper>, bs: seq<Binding>)
    requires forall i | 0 <= i < |bs| :: bs[i].name !in tools
    ensures forall n | n in Names(bs) :: n !in tools
  {
    forall n | n in Names(bs) ensures n !in tools {
      var i :| 0 <= i < |bs| && Names(bs)[i] == n;
      assert bs[i].name == n;
    }
  }

  lemma StillMounted(tools: map<Name, Wrapper>, tools': map<Name, Wrapper>, bs: seq<Binding>)
    requires AllMounted(tools, bs)
    requires forall n | n in Names(bs) && n in tools :: n in tools' && tools'[n] == tools[n]
    ensures AllMounted(tools', bs)
  {
    forall i | 0 <= i < |bs| ensures bs[i].name in tools' && tools'[bs[i].name] == bs[i].wrapper {
      assert Names(bs)[i] == bs[i].name;
    }
  }

  lemma FreshOwned(tools0: map<Name, Wrapper>, owned: map<Server, Owned>, stranded: seq<Owned>, server: Server,
                   o: Owned)
    requires Tidy(tools0, owned, stranded) && server !in owned && IsDict(o.wrappers)
    requires forall i | 0 <= i < |o.wrappers| :: o.wrappers[i].name !in tools0
    ensures Tidy(Mounted(tools0, o.wrappers), owned[server := o], stranded)
    ensures Foreign(Mounted(tools0, o.wrappers), owned[server := o]) == Foreign(tools0, owned)
  {
    var tools := Mounted(tools0, o.wrappers);
    MountedAt(tools0, o.wrappers);
    NamesFresh(tools0, o.wrappers);
    forall s | s in owned
      ensures AllMounted(tools, owned[s].wrappers) && Disjoint(owned[s].wrappers, o.wrappers)
    {
      FreshApart(tools0, owned[s].wrappers, o.wrappers);
    }
    ApartExtend(owned, server, o);
    FreshForeign(tools0, owned, server, o);
  }

  lemma ApartExtend(owned: map<Server, Owned>, server: Server, o: Owned)
    requires NamesApart(owned) && server !in owned
    requires forall s | s in owned :: Disjoint(owned[s].wrappers, o.wrappers)
    ensures NamesApart(owned[server := o])
  {
    forall s | s in owned ensures Disjoint(o.wrappers, owned[s].wrappers) {
      DisjointBack(owned[s].wrappers, o.wrappers);
    }
  }

  lemma DisjointBack(a: seq<Binding>, b: seq<Binding>)
    requires Disjoint(a, b)
    ensures Disjoint(b, a)
  {
  }

  /** Wrappers mounted under free names leave mounted ones in place and share no name with them. */
  lemma FreshApart(tools0: map<Name, Wrapper>, standing: seq<Binding>, more: seq<Binding>)
    requires AllMounted(tools0, standing)
    requires forall n | n in Names(more) :: n !in tools0
    ensures AllMounted(Mounted(tools0, more), standing)
    ensures Disjoint(standing, more)
  {
    MountedAt(tools0, more);
    NamesMounted(tools0, standing);
    StillMounted(tools0, Mounted(tools0, more), standing);
  }

  lemma FreshForeign(tools0: map<Name, Wrapper>, owned: map<Server, Owned>, server: Server, o: Owned)
    requires server !in owned
    requires forall n | n in Names(o.wrappers) :: n !in tools0
    ensures Foreign(Mounted(tools0, o.wrappers), owned[server := o]) == Foreign(tools0, owned)
  {
    var tools, owned' := Mounted(tools0, o.wrappers), owned[server := o];
    MountedAt(tools0, o.wrappers);
    forall n ensures n in Foreign(tools, owned') <==> n in Foreign(tools0, owned) {
      if n in Foreign(tools, owned') {
        assert n !in Names(owned'[server].wrappers);
        forall s | s in owned ensures n !in Names(owned[s].wrappers) {
          assert n !in Names(owned'[s].wrappers);
        }
      }
    }
  }

  function MissingNames(bs: seq<Binding>, tools: map<Name, Wrapper>): (r: seq<Name>)
    ensures forall n :: n in r <==> n in Names(bs) && n !in tools
  {
    if bs == [] then []
    else
      var rest := MissingNames(bs[..|bs| - 1], tools);
      var n := bs[|bs| - 1].name;
      assert Names(bs) == Names(bs[..|bs| - 1]) + [n];
      if n in tools then rest else rest + [n]
  }

  lemma NamesMounted(tools: map<Name, Wrapper>, bs: seq<Binding>)
    requires AllMounted(tools, bs)
    ensures NameSet(Names(bs)) <= tools.Keys
  {
    forall n | n in NameSet(Names(bs)) ensures n in tools {
      var i :| 0 <= i < |bs| && Names(bs)[i] == n;
      assert bs[i].name in tools;
    }
  }

  /** After a partial unmount the rollback has exactly the removed names to put back. */
  lemma RolledBack(tools0: map<Name, Wrapper>, bs: seq<Binding>, removed: seq<Name>, without: map<Name, Wrapper>)
    requires AllMounted(tools0, bs)
    requires forall n | n in removed :: n in Names(bs)
    requires without == tools0 - NameSet(removed)
    ensures Within(without, tools0)
    ensures tools0.Keys == without.Keys + NameSet(removed) * NameSet(Names(bs))
  {
    NamesMounted(tools0, bs);
  }

  lemma PrefixNames(bs: seq<Binding>, removed: seq<Name>)
    requires removed <= Reversed(Names(bs))
    ensures forall n | n in removed :: n in Names(bs)
  {
    forall n | n in removed ensures n in Names(bs) {
      var i :| 0 <= i < |removed| && removed[i] == n;
      assert removed[i] == Reversed(Names(bs))[i];
    }
  }

  lemma BareThenBack(tools0: map<Name, Wrapper>, bs: seq<Binding>, mounted: seq<Binding>,
                     bare: map<Name, Wrapper>, missing: seq<Name>)
    requires AllMounted(tools0, bs)
    requires forall i | 0 <= i < |mounted| :: mounted[i].name !in tools0 || mounted[i].name in Names(bs)
    requires bare == Mounted(tools0 - NameSet(Names(bs)), mounted) - NameSet(Reversed(Names(mounted)))
    requires forall n :: n in missing <==> n in Names(bs) && n !in bare
    ensures Within(bare, tools0)
    ensures tools0.Keys == bare.Keys + NameSet(missing) * NameSet(Names(bs))
  {
    var base := tools0 - NameSet(Names(bs));
    NamesMounted(tools0, bs);
    FreshUndone(base, mounted, bare);
    assert bare == base;
  }

  lemma LedgerSwapped(started: set<nat>, owned: map<Server, Owned>, stranded: seq<Owned>, stopped: set<nat>,
                      created: nat, server: Server, o: Owned)
    requires InFlight(started, owned, stranded, stopped, created, o.manager) && server in owned
    ensures InFlight(started, owned[server := o], stranded, stopped, created, owned[server].manager)
  {
    var m0 := owned[server].manager;
    assert IsOwned(owned, m0);
    LedgerReleased(started - {o.manager}, owned, stranded, stopped, created, server);
    var rest := owned - {server};
    assert started - {o.manager} - {m0} == started - {m0} - {o.manager};
    assert !IsOwned(rest, o.manager) by {
      forall t | t in rest ensures rest[t].manager != o.manager { assert owned[t].manager == rest[t].manager; }
    }
    LedgerOwned(started - {m0}, rest, stranded, stopped, created, server, o);
    assert rest[server := o] == owned[server := o];
    OwnedPut(rest, server, o);
  }

  lemma Replaced(tools0: map<Name, Wrapper>, owned: map<Server, Owned>, stranded: seq<Owned>, server: Server, o: Owned)
    requires Tidy(tools0, owned, stranded) && server in owned && IsDict(o.wrappers)
    requires forall i | 0 <= i < |o.wrappers| ::
               o.wrappers[i].name !in tools0 || o.wrappers[i].name in Names(owned[server].wrappers)
    ensures var tools := Mounted(tools0 - NameSet(Names(owned[server].wrappers)), o.wrappers);
            && Tidy(tools, owned[server := o], stranded)
            && Foreign(tools, owned[server := o]) == Foreign(tools0, owned)
  {
    var was := owned[server].wrappers;
    var base := tools0 - NameSet(Names(was));
    BareNames(tools0, was, o.wrappers);
    Released(tools0, owned, stranded, server);
    FreshOwned(base, owned - {server}, stranded, server, o);
    TakenOver(owned, server, o);
  }

  lemma TakenOver(owned: map<Server, Owned>, server: Server, o: Owned)
    ensures (owned - {server})[server := o] == owned[server := o]
  {
  }

  lemma DisjointStay(tools0: map<Name, Wrapper>, kept: seq<Binding>, gone: seq<Binding>)
    requires AllMounted(tools0, kept) && Disjoint(kept, gone)
    ensures AllMounted(tools0 - NameSet(Names(gone)), kept)
  {
    StillMounted(tools0, tools0 - NameSet(Names(gone)), kept);
  }

  lemma BareNames(tools0: map<Name, Wrapper>, was: seq<Binding>, more: seq<Binding>)
    requires forall i | 0 <= i < |more| :: more[i].name !in tools0 || more[i].name in Names(was)
    ensures forall i | 0 <= i < |more| :: more[i].name !in tools0 - NameSet(Names(was))
  {
  }

  /** Taking a server's tools down disturbs nobody else's. */
  lemma Released(tools0: map<Name, Wrapper>, owned: map<Server, Owned>, stranded: seq<Owned>, server: Server)
    requires Tidy(tools0, owned, stranded) && server in owned
    ensures var tools := tools0 - NameSet(Names(owned[server].wrappers));
            && Tidy(tools, owned - {server}, stranded)
            && Foreign(tools, owned - {server}) == Foreign(tools0, owned)
  {
    var tools := tools0 - NameSet(Names(owned[server].wrappers));
    var rest := owned - {server};
    forall s | s in rest ensures AllMounted(tools, rest[s].wrappers) {
      assert Disjoint(owned[s].wrappers, owned[server].wrappers);
      DisjointStay(tools0, owned[s].wrappers, owned[server].wrappers);
    }
    assert NamesApart(rest);
    forall n
      ensures n in Foreign(tools, rest) <==> n in Foreign(tools0, owned)
    {
      if n in tools0 && (forall s | s in rest :: n !in Names(rest[s].wrappers)) && n !in Names(owned[server].wrappers) {
        forall s | s in owned ensures n !in Names(owned[s].wrappers) {
          if s != server { assert n !in Names(rest[s].wrappers); }
        }
      }
    }
    assert Foreign(tools, rest) == Foreign(tools0, owned);
  }
}
