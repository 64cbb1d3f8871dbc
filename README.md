# Default-gateway override in rusty-relay, modelled in Dafny

rusty-relay is a tunnel client. It can temporarily point a host's default gateway at a new
gateway and still reach its remote endpoint through the original one. `src/utils.rs` does this
in two steps:

- `DefaultGateway::create` reads the current default gateway with `get_default_gateway`. It adds a
  host route to the remote endpoint through that gateway. When asked to, it then replaces the
  default route.
- `Drop for DefaultGateway` undoes those steps in reverse order.

Every step shells out to `route`, `ip`, or `bash`.

The model has five modules:

- `Process` (process.dfy): what a command reports back, as values. An `ExitStatus` is a success
  flag plus its display text. An `Output` is a status plus stdout and stderr. An `Invocation` is
  a program plus its argument vector. It also defines `Option` and `Result`.
- `Routes` (routes.dfy): the argument vectors of `add_route`, `delete_route`,
  `set_default_gateway` and `delete_default_gateway` for the two platforms, Linux and macOS.
  `Platform` is a closed datatype of exactly those two, so the source's `unimplemented!()`
  fallback has no counterpart. `ParseRoute` is an independent, position-by-position reading of a
  vector as the add or delete it denotes. It is the partner of the builders.
- `Table` (table.dfy): the routing table as a map from (route kind, target) to gateway. The
  default route is the key `(Net, "default")`. `Interpret` is what a successful `route` run does
  to the table: it is defined through `ParseRoute`, so the table follows the tokens the source
  actually builds. `Lookup` lets a host route win over the default route.
- `Query` (query.dfy): the query pipeline of `get_default_gateway`. It also holds `TrimEnd`
  (Rust's `trim_right` over Unicode White_Space) and the success/stderr handling.
- `Gateway` (gateway.dfy): the lifecycle. Class `Machine` holds the table and the log of issued
  commands. Its methods follow the source step by step. `RunRoute` is tied to `Table.Interpret`.
  Every other method's postcondition ties the new state to a step function on `Kernel` values:
  `AddRouteStep`, `DeleteRouteStep`, `QueryStep`, `CreateSpec` and `DropSpec`. The lemmas state
  the lifecycle's properties about those functions.

The environment supplies every command's outcome as a parameter:

- the exit status of each `route` run;
- the captured `Output` of the query, bundled with the statuses in `CreateEnv` and `DropEnv`.

A failed command yields `Err("route: " + status)`, or the query's stderr. The source then calls
`unwrap()` on that error and panics. The model represents the panic as `Create` or `Drop`
returning that `Err` at once, with the table left as it is at that point.

What the code does on failure:

- `create` panics on a failed step rather than returning a `Result`.
- `get_default_gateway` has no parse error: whatever the pipeline prints, trimmed, is the gateway.
- `drop` panics on its first failure rather than logging it.

## Model

| member | source | states |
|---|---|---|
| `Routes.Mode` | src/utils.rs:141-144 | the mode token selected for a route kind reads back as that kind |
| `Routes.AddRouteArgs` | src/utils.rs:198-216 | builds the per-platform add vector (`gw` before the gateway on Linux only), which reads back as adding that route via that gateway |
| `Routes.DeleteRouteArgs` | src/utils.rs:146-161 | builds the per-platform delete vector (`del` on Linux, `delete` on macOS), which reads back as deleting that route |
| `Routes.SetDefaultGatewayArgs` | src/utils.rs:238-240 | the add vector for the network route `default`, which reads back as adding `default` via the gateway |
| `Routes.DeleteDefaultGatewayArgs` | src/utils.rs:248-250 | the delete vector for the network route `default`, which reads back as deleting `default` |
| `Query.DefaultGatewayCommand` | src/utils.rs:265-271 | the pipeline handed to `bash -c`: on Linux it starts from `ip -4 route list 0/0`, on macOS from `route -n get default` filtered by `grep gateway` |
| `Gateway.QueryStep` | src/utils.rs:264-272 | the state after `get_default_gateway`: the `bash -c` query is logged and the routing table is unchanged |
| `Gateway.RouteResult` | src/utils.rs:165-169 | a `route` run's result is `Ok` exactly on a successful status, otherwise the error `route: ` followed by the status's display text |
| `Gateway.AddRouteStep` | src/utils.rs:192-225 | the state after `add_route`: the add vector is logged, and on success the table is what `route` makes of that vector; otherwise the table is unchanged |
| `Gateway.DeleteRouteStep` | src/utils.rs:140-170 | the state after `delete_route`: the delete vector is logged, and on success the table is what `route` makes of that vector; otherwise the table is unchanged |
| `Gateway.CreateSpec` | src/utils.rs:89-102 | `create` as a function of the state and command outcomes: it succeeds exactly when every command it runs succeeds (the default-route commands only when replacing); the value then records the trimmed query output, the remote and the flag; the log only grows |
| `Gateway.DropSpec` | src/utils.rs:112-118 | `drop` as a function of the state and command outcomes: it completes exactly when every command it runs succeeds; the log only grows |
| `Routes.ModeTokenShared` | src/utils.rs:141-144 | the mode token is `-net` exactly for `Net` and `-host` exactly for `Host`, and add and delete put the same token at position 2 |
| `Routes.AddDialects` | src/utils.rs:198-216 | the Linux add vector has 6 tokens with `gw` just before the gateway; the macOS one is the Linux one with that `gw` taken out |
| `Routes.DeleteDialects` | src/utils.rs:146-161 | the Linux and macOS delete vectors have 4 tokens and differ only in the verb, `del` against `delete` |
| `Routes.ParseArgv` | src/utils.rs:192-219 | every add or delete vector the source builds reads back as the command it was built for |
| `Routes.ParseOnlyBuilt` | src/utils.rs:140-164 | any vector that reads as a route command is exactly the one the source builds for it, so the builders are injective per platform |
| `Routes.DefaultGatewayCommands` | src/utils.rs:238-250 | the concrete vectors of `set_default_gateway(g)` and `delete_default_gateway()` on both platforms: `-n add -net default gw g` and `-n del -net default` on Linux, `-n add -net default g` and `-n delete -net default` on macOS |
| `Table.InterpretAdd` | src/utils.rs:192-224 | running the add vector sets exactly the entry (kind, target) to the gateway and leaves all other entries alone |
| `Table.InterpretDelete` | src/utils.rs:140-169 | running the delete vector removes exactly the entry (kind, target) |
| `Table.AddThenDelete` | src/utils.rs:392-399 | adding a route for a target that had none and then deleting it restores the table; while the route exists, a host lookup goes through its gateway |
| `Query.IsWhitespace` | src/utils.rs:276 | the characters `trim_right` drops: exactly the 25 code points with the Unicode White_Space property, listed one by one |
| `Query.TrimEnd` | src/utils.rs:274-277 | the result is a prefix of the input, does not end in whitespace, and everything it drops is whitespace |
| `Query.TrimEndUnique` | src/utils.rs:274-277 | those three properties determine the trimmed string uniquely |
| `Query.TrimEndPadded` | src/utils.rs:274-277 | appending whitespace does not change the trim, and trimming twice equals trimming once |
| `Query.DefaultGatewayResult` | src/utils.rs:273-280 | success gives a prefix of stdout with no trailing whitespace (only whitespace is dropped); failure gives stderr as the error |
| `Query.DefaultGatewayPrinted` | src/utils.rs:265-277 | a query that prints a gateway and a newline yields that gateway |
| `Gateway.CreateSnapshotsFirst` | src/utils.rs:89-92 | the first command `create` issues is the query; the origin of the value it builds is the query's trimmed output, and the exception route goes through it |
| `Gateway.CreateEstablishes` | src/utils.rs:89-101 | when every command succeeds: `(Host, remote)` maps to the origin; the default maps to `gateway` if `default` is set and is unchanged otherwise; no other entry changes; the commands issued are the query, the host add, then (when replacing) delete-default and set-default(gateway), in that order |
| `Gateway.CreateQueryFails` | src/utils.rs:90 | a failed query stops `create` with stderr as the error, only the query issued, and the table untouched |
| `Gateway.CreateAddFails` | src/utils.rs:92 | a failed host-route add stops `create` with the `route:` error and the table as it was |
| `Gateway.CreateNotAtomic` | src/utils.rs:92-96 | if replacing the default fails after the host route went in, `create` fails and the host route stays; a failed set also leaves no default route |
| `Gateway.DropOutcome` | src/utils.rs:112-118 | `drop` completes exactly when every step it reaches succeeds; on completion the exception route is gone, and on a panic it is as `drop` found it |
| `Gateway.DropRestores` | src/utils.rs:112-118 | when every command succeeds: the default is restored to the origin if it was replaced; the exception route is removed; nothing else changes; the commands are delete-default, set-default(origin), delete-host, in that order |
| `Gateway.RoundTripObserved` | src/utils.rs:89-118 | whatever the table held, with every command succeeding, `drop` after `create` leaves no host route for the remote; a replaced default points at the observed original gateway, an unreplaced default is as it was, and every other entry is as it was |
| `Gateway.RoundTrip` | src/utils.rs:89-118 | with every command succeeding, no prior host route for the remote, and (when replacing) the query reporting the table's own default, `drop` after `create` gives back the original table exactly |
| `Gateway.DropUndoesCreateInReverse` | src/utils.rs:89-118 | read through `route`, each of `drop`'s commands restores the table as it was before the `create` command it mirrors, in reverse order |
| `Gateway.OverrideReachability` | src/utils.rs:89-101 | after a successful `create`, the remote is reached via the origin; with replacement, other destinations without host routes go via the new gateway; without it, they are routed as before |
| `Gateway.ExampleSession` | src/utils.rs:89-118 | a concrete Linux session: 192.168.1.1 is replaced by 10.0.0.1, with 203.0.113.5 as the remote, and the original table is restored afterwards |
| `Gateway.Machine.RunRoute` | src/utils.rs:146-164 | running `route` (here the delete branches; the add branches at src/utils.rs:198-219 are run the same way) logs the invocation; only on a successful status does it change the table, as `route` reads the vector |
| `Gateway.Machine.AddRoute` | src/utils.rs:192-225 | the new state is the add step of the old one: the entry is set on success and the table is unchanged on failure; the result is `Ok` exactly on success |
| `Gateway.Machine.DeleteRoute` | src/utils.rs:140-170 | the new state is the delete step of the old one; the result is `Ok` exactly on success, otherwise the `route:` error |
| `Gateway.Machine.SetDefaultGateway` | src/utils.rs:238-240 | the same as adding the network route `default` via the gateway |
| `Gateway.Machine.DeleteDefaultGateway` | src/utils.rs:248-250 | the same as deleting the network route `default` |
| `Gateway.Machine.GetDefaultGateway` | src/utils.rs:264-281 | logs the query, leaves the table unchanged, and returns the trimmed stdout or the stderr |
| `Gateway.Machine.Create` | src/utils.rs:89-102 | the final state and result are those of `CreateSpec`; on success the exception route goes through the captured origin |
| `Gateway.Machine.Drop` | src/utils.rs:112-118 | the final state and result are those of `DropSpec`; on completion no exception route for the remote remains |

## Left out

- `is_root` (src/utils.rs:24-26): a foreign `geteuid` call.
- `enable_ipv4_forwarding` (src/utils.rs:41-60): a single `sysctl` shell-out with no logic beyond its platform string.
- `get_public_ip` (src/utils.rs:289-299): an HTTP request made through `curl`.
- `set_dns` and `flush_dns` (src/utils.rs:338-373): a file overwrite and a `sudo` command, with side effects only.
- `get_route_gateway` (src/utils.rs:311-322): a shell query used only by the tests.
- Process spawning and its failures: `unwrap()` on `status()`/`output()`, and UTF-8 decoding with its `unwrap()`. Command outcomes are parameters.
- `info!` logging.
- The text the `ip`/`route`/`awk` pipelines print. The query's output is a parameter, and only the trim is modelled. Because the pipeline's status is that of `awk`, a real query almost always succeeds. With no default route it prints nothing, and the origin is then the empty string.
- The kernel's own acceptance rules, such as an add of an existing route failing or a delete of a missing route failing. Success is a free parameter, and `Interpret` describes only what a successful command does.
- `Lookup`: matches host routes and the default route only. Network prefixes other than `default` are not matched, because no address parsing is modelled.
- The panic message: a panic carries the error string itself, without the `called Result::unwrap()` text Rust adds.
- The `Drop` guarantee on unwind is a language property. `Drop` is an explicit method the caller invokes, and nothing proves that it runs on every exit path.
