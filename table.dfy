/** An abstract routing table standing in for the kernel's: a map from
    (route kind, target) to gateway, and the effect a `route` invocation
    has on it when the command succeeds. */
module Table {
  import opened Process
  import opened Routes

  type Key = (RouteType, string)
  type RouteTable = map<Key, string>

  /** The system default route is the network route `default`. */
  const DefaultKey: Key := (Net, DefaultTarget)

  /** What a successful `route` run with these arguments does to the table:
      an add installs (or replaces) the entry, a delete removes it, and a
      vector that is not a route command leaves the table alone. */
  function Interpret(p: Platform, argv: seq<string>, m: RouteTable): RouteTable
  {
    match ParseRoute(p, argv)
    case Some(Add(k, t, g)) => m[(k, t) := g]
    case Some(Delete(k, t)) => m - {(k, t)}
    case None => m
  }

  /** The gateway a packet to `dest` leaves through: a host route for it
      takes precedence over the default route. Other network routes are not
      matched (no prefix matching is modelled). */
  function Lookup(m: RouteTable, dest: string): Option<string>
  {
    if (Host, dest) in m then Some(m[(Host, dest)])
    else if DefaultKey in m then Some(m[DefaultKey])
    else None
  }

  /** Running the vector `add_route` builds installs exactly that entry. */
  lemma InterpretAdd(p: Platform, k: RouteType, target: string, gateway: string, m: RouteTable)
    ensures Interpret(p, AddRouteArgs(p, k, target, gateway), m) == m[(k, target) := gateway]
  {
  }

  /** Running the vector `delete_route` builds removes exactly that entry. */
  lemma InterpretDelete(p: Platform, k: RouteType, target: string, m: RouteTable)
    ensures Interpret(p, DeleteRouteArgs(p, k, target), m) == m - {(k, target)}
  {
  }

  /** Adding a route for a target that had none and deleting it again gives
      back the table, and while it is there a lookup for the target goes
      through its gateway. */
  lemma AddThenDelete(p: Platform, k: RouteType, target: string, gateway: string, m: RouteTable)
    requires (k, target) !in m
    ensures Interpret(p, DeleteRouteArgs(p, k, target), Interpret(p, AddRouteArgs(p, k, target, gateway), m)) == m
    ensures k == Host ==> Lookup(Interpret(p, AddRouteArgs(p, k, target, gateway), m), target) == Some(gateway)
  {
  }
}
