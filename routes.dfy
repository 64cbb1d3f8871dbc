/** Construction of the argument vectors handed to the `route` program by
    `add_route`, `delete_route`, `set_default_gateway` and
    `delete_default_gateway`, one dialect per supported platform, together
    with a reference reading of those vectors (`ParseRoute`) that says which
    route command each of them denotes. */
module Routes {
  import opened Process

  datatype RouteType = Net | Host

  /** The two platforms the source dispatches on with `cfg!(target_os = ...)`.
      Being closed, the `unimplemented!()` fallback has no counterpart. */
  datatype Platform = Linux | MacOS

  /** The route target that stands for the default route. */
  const DefaultTarget: string := "default"

  /** The mode token `match route_type` selects. */
  function Mode(t: RouteType): (m: string)
    ensures ParseMode(m) == Some(t)
  {
    match t
    case Net => "-net"
    case Host => "-host"
  }

  /** Arguments of `route` for `add_route(route_type, route, gateway)`. */
  function AddRouteArgs(p: Platform, t: RouteType, route: string, gateway: string): (argv: seq<string>)
    ensures ParseRoute(p, argv) == Some(Add(t, route, gateway))
  {
    match p
    case Linux => ["-n", "add", Mode(t), route, "gw", gateway]
    case MacOS => ["-n", "add", Mode(t), route, gateway]
  }

  /** Arguments of `route` for `delete_route(route_type, route)`. */
  function DeleteRouteArgs(p: Platform, t: RouteType, route: string): (argv: seq<string>)
    ensures ParseRoute(p, argv) == Some(Delete(t, route))
  {
    match p
    case Linux => ["-n", "del", Mode(t), route]
    case MacOS => ["-n", "delete", Mode(t), route]
  }

  /** `set_default_gateway(gateway)` delegates to `add_route(Net, "default", gateway)`. */
  function SetDefaultGatewayArgs(p: Platform, gateway: string): (argv: seq<string>)
    ensures ParseRoute(p, argv) == Some(Add(Net, "default", gateway))
  {
    AddRouteArgs(p, Net, DefaultTarget, gateway)
  }

  /** `delete_default_gateway()` delegates to `delete_route(Net, "default")`. */
  function DeleteDefaultGatewayArgs(p: Platform): (argv: seq<string>)
    ensures ParseRoute(p, argv) == Some(Delete(Net, "default"))
  {
    DeleteRouteArgs(p, Net, DefaultTarget)
  }

  /** The route-table change a `route` invocation asks for. */
  datatype RouteCommand =
    | Add(kind: RouteType, target: string, gateway: string)
    | Delete(kind: RouteType, target: string)

  /** The argument vector the source builds for a command. */
  function Argv(p: Platform, c: RouteCommand): seq<string>
  {
    match c
    case Add(k, t, g) => AddRouteArgs(p, k, t, g)
    case Delete(k, t) => DeleteRouteArgs(p, k, t)
  }

  function ParseMode(token: string): Option<RouteType>
  {
    if token == "-net" then Some(Net)
    else if token == "-host" then Some(Host)
    else None
  }

  /** The reference reading of an argument vector in a platform's dialect:
      which add or delete it denotes, if any. It is written independently of
      the builders, position by position. */
  function ParseRoute(p: Platform, argv: seq<string>): Option<RouteCommand>
  {
    if |argv| < 4 || argv[0] != "-n" || ParseMode(argv[2]).None? then None
    else
      var kind := ParseMode(argv[2]).value;
      match p
      case Linux =>
        if argv[1] == "add" && |argv| == 6 && argv[4] == "gw" then Some(Add(kind, argv[3], argv[5]))
        else if argv[1] == "del" && |argv| == 4 then Some(Delete(kind, argv[3]))
        else None
      case MacOS =>
        if argv[1] == "add" && |argv| == 5 then Some(Add(kind, argv[3], argv[4]))
        else if argv[1] == "delete" && |argv| == 4 then Some(Delete(kind, argv[3]))
        else None
  }

  /** The mode token names the route kind, both ways, and add and delete put
      the same token in the same place. */
  lemma ModeTokenShared(p: Platform, t: RouteType, route: string, gateway: string)
    ensures AddRouteArgs(p, t, route, gateway)[2] == Mode(t) == DeleteRouteArgs(p, t, route)[2]
    ensures Mode(t) == "-net" <==> t == Net
    ensures Mode(t) == "-host" <==> t == Host
  {
  }

  /** The macOS add vector is the Linux one with the `gw` token taken out;
      the Linux one has it right before the gateway. */
  lemma AddDialects(t: RouteType, route: string, gateway: string)
    ensures |AddRouteArgs(Linux, t, route, gateway)| == 6
    ensures AddRouteArgs(Linux, t, route, gateway)[4] == "gw"
    ensures |AddRouteArgs(MacOS, t, route, gateway)| == 5
    ensures AddRouteArgs(MacOS, t, route, gateway)
         == AddRouteArgs(Linux, t, route, gateway)[..4] + AddRouteArgs(Linux, t, route, gateway)[5..]
    ensures AddRouteArgs(MacOS, t, route, gateway)[..4] == ["-n", "add", Mode(t), route]
  {
  }

  /** The two delete vectors differ only in the verb: `del` against `delete`. */
  lemma DeleteDialects(t: RouteType, route: string)
    ensures |DeleteRouteArgs(Linux, t, route)| == |DeleteRouteArgs(MacOS, t, route)| == 4
    ensures DeleteRouteArgs(Linux, t, route)[1] == "del"
    ensures DeleteRouteArgs(MacOS, t, route) == DeleteRouteArgs(Linux, t, route)[1 := "delete"]
  {
  }

  /** `Argv`-level summary of the builders' contracts: every vector the
      source builds reads back as the command it was built for. */
  lemma ParseArgv(p: Platform, c: RouteCommand)
    ensures ParseRoute(p, Argv(p, c)) == Some(c)
  {
  }

  /** Conversely, the reading accepts only vectors the source builds: it is
      a left inverse of `Argv`, so `Argv` is injective on each platform. */
  lemma ParseOnlyBuilt(p: Platform, argv: seq<string>)
    requires ParseRoute(p, argv).Some?
    ensures Argv(p, ParseRoute(p, argv).value) == argv
  {
  }

  /** The default-gateway helpers' concrete vectors: the add and the delete
      of the network route `default`, in each platform's dialect. */
  lemma DefaultGatewayCommands(gateway: string)
    ensures SetDefaultGatewayArgs(MacOS, gateway) == ["-n", "add", "-net", "default", gateway]
    ensures DeleteDefaultGatewayArgs(Linux) == ["-n", "del", "-net", "default"]
    ensures SetDefaultGatewayArgs(Linux, gateway) == ["-n", "add", "-net", "default", "gw", gateway]
    ensures DeleteDefaultGatewayArgs(MacOS) == ["-n", "delete", "-net", "default"]
  {
  }
}
