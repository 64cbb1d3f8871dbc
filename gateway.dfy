/** The default-gateway override lifecycle: `DefaultGateway::create`
    snapshots the original default gateway, adds a host route to the remote
    endpoint through it and optionally replaces the default route;
    `Drop::drop` undoes those steps in reverse order.

    `Machine` holds the routing table and the log of external commands run
    against it. Its methods follow the source step by step. `RunRoute` is
    tied to `Interpret`, the `route` program's reading of the vector; every
    other method is tied to a step function on `Kernel` values, and the
    lemmas below state the lifecycle's properties about those functions. A failed command is an
    `Err` from the primitive; an `unwrap()` on it is a panic, modelled as the
    operation returning that `Err` at once with the table left as it is. */
module Gateway {
  import opened Process
  import opened Routes
  import opened Table
  import opened Query

  /** The `DefaultGateway` struct: what `drop` needs to undo `create`. */
  datatype DefaultGateway = DefaultGateway(origin: string, remote: string, default: bool)

  /** The host state the lifecycle acts on: the routing table and every
      external command issued so far, in order. */
  datatype Kernel = Kernel(routes: RouteTable, issued: seq<Invocation>)

  /** The outcomes the environment reports for each command `create` may run. */
  datatype CreateEnv = CreateEnv(query: Output, addHost: ExitStatus, deleteDefault: ExitStatus, setDefault: ExitStatus)

  /** The outcomes the environment reports for each command `drop` may run. */
  datatype DropEnv = DropEnv(deleteDefault: ExitStatus, setDefault: ExitStatus, deleteHost: ExitStatus)

  function RouteInvocation(argv: seq<string>): Invocation
  {
    Invocation("route", argv)
  }

  function QueryInvocation(p: Platform): Invocation
  {
    Invocation("bash", ["-c", DefaultGatewayCommand(p)])
  }

  /** The result of a `route` run: `Ok` on a successful status, otherwise an
      error reading `route: ` followed by the status's display text. */
  function RouteResult(status: ExitStatus): (r: Result<()>)
    ensures r.Ok? <==> status.success
    ensures r.Err? ==> r.error == "route: " + status.display
  {
    if status.success then Ok(()) else Err("route: " + status.display)
  }

  /** The state after `add_route`: its vector is logged, and on success the
      table is what `route` makes of it. */
  function AddRouteStep(k: Kernel, p: Platform, kind: RouteType, route: string, gateway: string, status: ExitStatus): (k': Kernel)
    ensures k'.routes == if status.success then Interpret(p, AddRouteArgs(p, kind, route, gateway), k.routes) else k.routes
    ensures k'.issued == k.issued + [RouteInvocation(AddRouteArgs(p, kind, route, gateway))]
  {
    InterpretAdd(p, kind, route, gateway, k.routes);
    Kernel(if status.success then k.routes[(kind, route) := gateway] else k.routes,
           k.issued + [RouteInvocation(AddRouteArgs(p, kind, route, gateway))])
  }

  /** The state after `delete_route`: its vector is logged, and on success
      the table is what `route` makes of it. */
  function DeleteRouteStep(k: Kernel, p: Platform, kind: RouteType, route: string, status: ExitStatus): (k': Kernel)
    ensures k'.routes == if status.success then Interpret(p, DeleteRouteArgs(p, kind, route), k.routes) else k.routes
    ensures k'.issued == k.issued + [RouteInvocation(DeleteRouteArgs(p, kind, route))]
  {
    InterpretDelete(p, kind, route, k.routes);
    Kernel(if status.success then k.routes - {(kind, route)} else k.routes,
           k.issued + [RouteInvocation(DeleteRouteArgs(p, kind, route))])
  }

  /** The state after `get_default_gateway`: the query is logged and the
      table is left alone. */
  function QueryStep(k: Kernel, p: Platform): (k': Kernel)
    ensures k'.routes == k.routes
    ensures k'.issued == k.issued + [QueryInvocation(p)]
  {
    k.(issued := k.issued + [QueryInvocation(p)])
  }

  /** `DefaultGateway::create(gateway, remote, default)`: the final state and
      either the constructed value or the error the panicking `unwrap` met. */
  function CreateSpec(k: Kernel, p: Platform, gateway: string, remote: string, default: bool, env: CreateEnv)
    : (res: (Kernel, Result<DefaultGateway>))
    ensures res.1.Ok? <==> CreateSucceeds(env, default)
    ensures res.1.Ok? ==> res.1.value == DefaultGateway(TrimEnd(env.query.stdout), remote, default)
    ensures k.issued <= res.0.issued
  {
    var k1 := QueryStep(k, p);
    match DefaultGatewayResult(env.query)
    case Err(e) => (k1, Err(e))
    case Ok(origin) =>
      var k2 := AddRouteStep(k1, p, Host, remote, origin, env.addHost);
      if !env.addHost.success then (k2, Err(RouteResult(env.addHost).error))
      else if !default then (k2, Ok(DefaultGateway(origin, remote, false)))
      else
        var k3 := DeleteRouteStep(k2, p, Net, DefaultTarget, env.deleteDefault);
        if !env.deleteDefault.success then (k3, Err(RouteResult(env.deleteDefault).error))
        else
          var k4 := AddRouteStep(k3, p, Net, DefaultTarget, gateway, env.setDefault);
          if !env.setDefault.success then (k4, Err(RouteResult(env.setDefault).error))
          else (k4, Ok(DefaultGateway(origin, remote, true)))
  }

  /** `drop`: the final state, and `Err` when one of its `unwrap`s panicked. */
  function DropSpec(k: Kernel, p: Platform, dg: DefaultGateway, env: DropEnv): (res: (Kernel, Result<()>))
    ensures res.1.Ok? <==> DropSucceeds(env, dg.default)
    ensures k.issued <= res.0.issued
  {
    if dg.default then
      var k1 := DeleteRouteStep(k, p, Net, DefaultTarget, env.deleteDefault);
      if !env.deleteDefault.success then (k1, RouteResult(env.deleteDefault))
      else
        var k2 := AddRouteStep(k1, p, Net, DefaultTarget, dg.origin, env.setDefault);
        if !env.setDefault.success then (k2, RouteResult(env.setDefault))
        else (DeleteRouteStep(k2, p, Host, dg.remote, env.deleteHost), RouteResult(env.deleteHost))
    else
      (DeleteRouteStep(k, p, Host, dg.remote, env.deleteHost), RouteResult(env.deleteHost))
  }

  /** Every command `create` runs succeeds; the default-route commands run
      only when the default is replaced. */
  predicate CreateSucceeds(env: CreateEnv, default: bool)
  {
    env.query.status.success && env.addHost.success
    && (default ==> env.deleteDefault.success && env.setDefault.success)
  }

  /** Every command `drop` runs succeeds. */
  predicate DropSucceeds(env: DropEnv, default: bool)
  {
    env.deleteHost.success && (default ==> env.deleteDefault.success && env.setDefault.success)
  }

  /** Two tables agree on one key: both lack it, or both map it alike. */
  predicate SameAt(m: RouteTable, m': RouteTable, key: Key)
  {
    (key in m <==> key in m') && (key in m ==> m[key] == m'[key])
  }

  /** The original gateway is captured first: the first command `create`
      issues is the query, any value it builds records the query's trimmed
      output, and the exception route it installs goes through that value. */
  lemma CreateSnapshotsFirst(k: Kernel, p: Platform, gateway: string, remote: string, default: bool, env: CreateEnv)
    ensures var (k', r) := CreateSpec(k, p, gateway, remote, default, env);
      && |k'.issued| > |k.issued|
      && k'.issued[..|k.issued| + 1] == k.issued + [QueryInvocation(p)]
      && (r.Ok? ==> r.value.origin == TrimEnd(env.query.stdout) && r.value.remote == remote && r.value.default == default)
      && (r.Ok? ==> (Host, remote) in k'.routes && k'.routes[(Host, remote)] == r.value.origin)
  {
  }

  /** With every command succeeding, `create` installs the exception route
      via the original gateway, points the default route at `gateway` exactly
      when asked to, and touches no other entry. It issues the query, then
      the host-route add, then (when replacing) delete-default and
      set-default, the commands `drop` undoes in reverse. */
  lemma CreateEstablishes(k: Kernel, p: Platform, gateway: string, remote: string, default: bool, env: CreateEnv)
    requires CreateSucceeds(env, default)
    ensures var (k', r) := CreateSpec(k, p, gateway, remote, default, env);
      var origin := TrimEnd(env.query.stdout);
      && r == Ok(DefaultGateway(origin, remote, default))
      && (Host, remote) in k'.routes && k'.routes[(Host, remote)] == origin
      && (default ==> DefaultKey in k'.routes && k'.routes[DefaultKey] == gateway)
      && (!default ==> SameAt(k.routes, k'.routes, DefaultKey))
      && (forall key :: key != (Host, remote) && key != DefaultKey ==> SameAt(k.routes, k'.routes, key))
      && k'.issued == k.issued
        + [QueryInvocation(p), RouteInvocation(AddRouteArgs(p, Host, remote, origin))]
        + (if default then [RouteInvocation(DeleteDefaultGatewayArgs(p)), RouteInvocation(SetDefaultGatewayArgs(p, gateway))] else [])
  {
  }

  /** A failed query stops `create` before any route command: the table is
      untouched and stderr is the error. */
  lemma CreateQueryFails(k: Kernel, p: Platform, gateway: string, remote: string, default: bool, env: CreateEnv)
    requires !env.query.status.success
    ensures CreateSpec(k, p, gateway, remote, default, env) == (QueryStep(k, p), Err(env.query.stderr))
    ensures CreateSpec(k, p, gateway, remote, default, env).0.routes == k.routes
  {
  }

  /** A failed exception-route add stops `create` with the table as it was. */
  lemma CreateAddFails(k: Kernel, p: Platform, gateway: string, remote: string, default: bool, env: CreateEnv)
    requires env.query.status.success && !env.addHost.success
    ensures var (k', r) := CreateSpec(k, p, gateway, remote, default, env);
      r == Err("route: " + env.addHost.display) && k'.routes == k.routes
  {
  }

  /** `create` is not atomic: when replacing the default fails after the
      exception route went in, that route stays, no `DefaultGateway` exists
      to remove it, and a failed set leaves no default route at all. */
  lemma CreateNotAtomic(k: Kernel, p: Platform, gateway: string, remote: string, env: CreateEnv)
    requires env.query.status.success && env.addHost.success
    requires !env.deleteDefault.success || !env.setDefault.success
    ensures var (k', r) := CreateSpec(k, p, gateway, remote, true, env);
      && r.Err?
      && (Host, remote) in k'.routes && k'.routes[(Host, remote)] == TrimEnd(env.query.stdout)
      && (!env.deleteDefault.success ==> SameAt(k.routes, k'.routes, DefaultKey))
      && (env.deleteDefault.success ==> DefaultKey !in k'.routes)
  {
  }

  /** `drop` reports a panic exactly when one of the steps it reaches fails;
      it has removed the exception route when it completes, and has left that
      route as it found it when it panicked. */
  lemma DropOutcome(k: Kernel, p: Platform, dg: DefaultGateway, env: DropEnv)
    ensures var (k', r) := DropSpec(k, p, dg, env);
      && (r.Ok? <==> DropSucceeds(env, dg.default))
      && (r.Ok? ==> (Host, dg.remote) !in k'.routes)
      && (r.Err? ==> SameAt(k.routes, k'.routes, (Host, dg.remote)))
  {
  }

  /** With every command succeeding, `drop` points the default route back to
      the original gateway when it had been replaced, removes the exception
      route, and touches no other entry; it issues its route commands in the
      reverse order of those `CreateEstablishes` records for `create`. */
  lemma DropRestores(k: Kernel, p: Platform, dg: DefaultGateway, env: DropEnv)
    requires DropSucceeds(env, dg.default)
    ensures var (k', r) := DropSpec(k, p, dg, env);
      && r == Ok(())
      && (Host, dg.remote) !in k'.routes
      && (dg.default ==> DefaultKey in k'.routes && k'.routes[DefaultKey] == dg.origin)
      && (!dg.default ==> SameAt(k.routes, k'.routes, DefaultKey))
      && (forall key :: key != (Host, dg.remote) && key != DefaultKey ==> SameAt(k.routes, k'.routes, key))
      && k'.issued == k.issued
        + (if dg.default then [RouteInvocation(DeleteDefaultGatewayArgs(p)), RouteInvocation(SetDefaultGatewayArgs(p, dg.origin))] else [])
        + [RouteInvocation(DeleteRouteArgs(p, Host, dg.remote))]
  {
  }

  /** Round trip as observed: whatever the table held, when every command
      runs successfully `drop` after `create` leaves no host route for the
      remote endpoint, a replaced default pointing at the gateway the query
      observed, an unreplaced default as it was, and every other entry as it
      was. */
  lemma RoundTripObserved(k: Kernel, p: Platform, gateway: string, remote: string, default: bool, env: CreateEnv, denv: DropEnv)
    requires CreateSucceeds(env, default) && DropSucceeds(denv, default)
    ensures var (k1, r) := CreateSpec(k, p, gateway, remote, default, env);
      var k2 := DropSpec(k1, p, r.value, denv).0;
      && (Host, remote) !in k2.routes
      && (default ==> DefaultKey in k2.routes && k2.routes[DefaultKey] == TrimEnd(env.query.stdout))
      && (!default ==> SameAt(k.routes, k2.routes, DefaultKey))
      && (forall key :: key != (Host, remote) && key != DefaultKey ==> SameAt(k.routes, k2.routes, key))
  {
  }

  /** Round trip: when every command succeeds, the table had no host route
      for the remote endpoint, and (if the default is replaced) the query
      reported the table's own default gateway, `drop` after `create` gives
      back the table exactly. */
  lemma RoundTrip(k: Kernel, p: Platform, gateway: string, remote: string, default: bool, env: CreateEnv, denv: DropEnv)
    requires CreateSucceeds(env, default) && DropSucceeds(denv, default)
    requires (Host, remote) !in k.routes
    requires default ==> DefaultKey in k.routes && k.routes[DefaultKey] == TrimEnd(env.query.stdout)
    ensures var (k1, r) := CreateSpec(k, p, gateway, remote, default, env);
      && r.Ok?
      && DropSpec(k1, p, r.value, denv).0.routes == k.routes
      && DropSpec(k1, p, r.value, denv).1 == Ok(())
  {
    var (k1, r) := CreateSpec(k, p, gateway, remote, default, env);
    CreateEstablishes(k, p, gateway, remote, default, env);
    DropRestores(k1, p, r.value, denv);
    var k2 := DropSpec(k1, p, r.value, denv).0;
    forall key ensures SameAt(k.routes, k2.routes, key) {
      if key == DefaultKey && !default {
        assert SameAt(k1.routes, k2.routes, key);
      }
    }
    assert k2.routes == k.routes;
  }

  /** Read through the `route` program, `drop`'s commands undo `create`'s one
      by one in reverse order: each brings back the table as it was before the
      command of `create` it mirrors. */
  lemma DropUndoesCreateInReverse(p: Platform, m: RouteTable, gateway: string, remote: string, origin: string)
    requires (Host, remote) !in m
    requires DefaultKey in m && m[DefaultKey] == origin
    ensures var m1 := Interpret(p, AddRouteArgs(p, Host, remote, origin), m);
      var m2 := Interpret(p, DeleteDefaultGatewayArgs(p), m1);
      var m3 := Interpret(p, SetDefaultGatewayArgs(p, gateway), m2);
      && Interpret(p, DeleteDefaultGatewayArgs(p), m3) == m2
      && Interpret(p, SetDefaultGatewayArgs(p, origin), m2) == m1
      && Interpret(p, DeleteRouteArgs(p, Host, remote), m1) == m
  {
  }

  /** While an override that replaced the default is held, the remote
      endpoint is still reached through the original gateway and any
      destination without a host route of its own through the new one;
      without replacement, every other destination is routed as before. */
  lemma OverrideReachability(k: Kernel, p: Platform, gateway: string, remote: string, default: bool, env: CreateEnv, dest: string)
    requires CreateSucceeds(env, default)
    ensures var k' := CreateSpec(k, p, gateway, remote, default, env).0;
      && Lookup(k'.routes, remote) == Some(TrimEnd(env.query.stdout))
      && (default && dest != remote && (Host, dest) !in k.routes ==> Lookup(k'.routes, dest) == Some(gateway))
      && (!default && dest != remote ==> Lookup(k'.routes, dest) == Lookup(k.routes, dest))
  {
  }

  /** A concrete Linux session: original default 192.168.1.1,
      new gateway 10.0.0.1, remote endpoint 203.0.113.5. */
  lemma ExampleSession(issued: seq<Invocation>, ok: ExitStatus)
    requires ok.success
    ensures var before := Kernel(map[DefaultKey := "192.168.1.1"], issued);
      var env := CreateEnv(Output(ok, "192.168.1.1\n", ""), ok, ok, ok);
      var (held, r) := CreateSpec(before, Linux, "10.0.0.1", "203.0.113.5", true, env);
      && r == Ok(DefaultGateway("192.168.1.1", "203.0.113.5", true))
      && held.routes == map[DefaultKey := "10.0.0.1", (Host, "203.0.113.5") := "192.168.1.1"]
      && DropSpec(held, Linux, r.value, DropEnv(ok, ok, ok)).0.routes == before.routes
  {
    var env := CreateEnv(Output(ok, "192.168.1.1\n", ""), ok, ok, ok);
    DefaultGatewayPrinted(ok, "192.168.1.1", "");
    assert TrimEnd(env.query.stdout) == "192.168.1.1";
    var before := Kernel(map[DefaultKey := "192.168.1.1"], issued);
    RoundTrip(before, Linux, "10.0.0.1", "203.0.113.5", true, env, DropEnv(ok, ok, ok));
    var (held, r) := CreateSpec(before, Linux, "10.0.0.1", "203.0.113.5", true, env);
    assert held.routes == map[DefaultKey := "10.0.0.1", (Host, "203.0.113.5") := "192.168.1.1"];
  }

  /** The host's routing table and the commands run against it. */
  class Machine {
    var routes: RouteTable
    var issued: seq<Invocation>

    constructor (initial: RouteTable)
      ensures routes == initial && issued == []
    {
      routes := initial;
      issued := [];
    }

    function Current(): Kernel
      reads this
    {
      Kernel(routes, issued)
    }

    /** `Command::new("route").args(argv).status()`: the command is logged,
        and the table changes as `route` reads the vector only when the
        reported status is a success. */
    method RunRoute(p: Platform, argv: seq<string>, status: ExitStatus)
      modifies this
      ensures routes == if status.success then Interpret(p, argv, old(routes)) else old(routes)
      ensures issued == old(issued) + [RouteInvocation(argv)]
    {
      issued := issued + [RouteInvocation(argv)];
      if status.success {
        routes := Interpret(p, argv, routes);
      }
    }

    /** `add_route(route_type, route, gateway)`. */
    method AddRoute(p: Platform, kind: RouteType, route: string, gateway: string, status: ExitStatus)
      returns (r: Result<()>)
      modifies this
      ensures Current() == AddRouteStep(old(Current()), p, kind, route, gateway, status)
      ensures r == RouteResult(status)
    {
      InterpretAdd(p, kind, route, gateway, routes);
      RunRoute(p, AddRouteArgs(p, kind, route, gateway), status);
      r := RouteResult(status);
    }

    /** `delete_route(route_type, route)`. */
    method DeleteRoute(p: Platform, kind: RouteType, route: string, status: ExitStatus)
      returns (r: Result<()>)
      modifies this
      ensures Current() == DeleteRouteStep(old(Current()), p, kind, route, status)
      ensures r == RouteResult(status)
    {
      InterpretDelete(p, kind, route, routes);
      RunRoute(p, DeleteRouteArgs(p, kind, route), status);
      r := RouteResult(status);
    }

    /** `set_default_gateway(gateway)`. */
    method SetDefaultGateway(p: Platform, gateway: string, status: ExitStatus) returns (r: Result<()>)
      modifies this
      ensures Current() == AddRouteStep(old(Current()), p, Net, "default", gateway, status)
      ensures r == RouteResult(status)
    {
      r := AddRoute(p, Net, DefaultTarget, gateway, status);
    }

    /** `delete_default_gateway()`. */
    method DeleteDefaultGateway(p: Platform, status: ExitStatus) returns (r: Result<()>)
      modifies this
      ensures Current() == DeleteRouteStep(old(Current()), p, Net, "default", status)
      ensures r == RouteResult(status)
    {
      r := DeleteRoute(p, Net, DefaultTarget, status);
    }

    /** `get_default_gateway()`, given what the query pipeline reports. */
    method GetDefaultGateway(p: Platform, out: Output) returns (r: Result<string>)
      modifies this
      ensures Current() == QueryStep(old(Current()), p)
      ensures r == DefaultGatewayResult(out)
    {
      issued := issued + [QueryInvocation(p)];
      r := DefaultGatewayResult(out);
    }

    /** `DefaultGateway::create(gateway, remote, default)`, step by step;
        `CreateSpec` is its functional form. */
    method Create(p: Platform, gateway: string, remote: string, default: bool, env: CreateEnv)
      returns (r: Result<DefaultGateway>)
      modifies this
      ensures (Current(), r) == CreateSpec(old(Current()), p, gateway, remote, default, env)
      ensures r.Ok? ==> (Host, remote) in routes && routes[(Host, remote)] == r.value.origin
    {
      var query := GetDefaultGateway(p, env.query);
      if query.Err? {
        return Err(query.error);
      }
      var origin := query.value;
      var added := AddRoute(p, Host, remote, origin, env.addHost);
      if added.Err? {
        return Err(added.error);
      }
      if default {
        var deleted := DeleteDefaultGateway(p, env.deleteDefault);
        if deleted.Err? {
          return Err(deleted.error);
        }
        var replaced := SetDefaultGateway(p, gateway, env.setDefault);
        if replaced.Err? {
          return Err(replaced.error);
        }
      }
      r := Ok(DefaultGateway(origin, remote, default));
    }

    /** `drop` of a `DefaultGateway`, invoked explicitly, step by step;
        `DropSpec` is its functional form. */
    method Drop(p: Platform, dg: DefaultGateway, env: DropEnv) returns (r: Result<()>)
      modifies this
      ensures (Current(), r) == DropSpec(old(Current()), p, dg, env)
      ensures r.Ok? ==> (Host, dg.remote) !in routes
    {
      if dg.default {
        var deleted := DeleteDefaultGateway(p, env.deleteDefault);
        if deleted.Err? {
          return deleted;
        }
        var replaced := SetDefaultGateway(p, dg.origin, env.setDefault);
        if replaced.Err? {
          return replaced;
        }
      }
      r := DeleteRoute(p, Host, dg.remote, env.deleteHost);
    }
  }
}
