# Verified model of chaos-tproxy

chaos-tproxy is a transparent HTTP proxy that injects faults. This project models its two halves in
Dafny and proves properties of both.

**The rewriting pipeline** (`chaos-tproxy-proxy`). An exchange selects request rules on the request as it
arrived, folds their actions over it, rebuilds the absolute URI, forwards once, selects response rules on
the rewritten request head and the untouched upstream response, and folds those.

- `FormCodec` is the application/x-www-form-urlencoded codec over bytes; `Uris` and `UriLaws` the request
  target and its three in-place rewrites; `Json` the merge patch of section 2 of RFC 7396; `Headers` the
  header multimap and its two loops.
- `Action` has the messages as classes changed field by field, proved against functions; `ActionLaws` what
  one rule promises, `Repetition` what an overlay of query pairs changes about applying a rule twice. `RawConfig`
  and `RawConfigLaws` lead from the configuration as written to the message.
- `Selector`, `Server` and `ServerLaws` cover whole exchanges.

**The proxy lifecycle and the host** (`chaos-tproxy-controller`).

- `Host` models namespaces with their packet tables, links (peer, master, addresses), routes and the ebtables nat
  list, and what each command does to them. A command reported as successful took effect; one reported as failed
  may have taken effect or not. `Bridge` has the commands of setup and undo and what every stopping point keeps,
  `Setup` the setup up to the packet rules, `SetupRun` a setup without failures, `UndoLimits` the hosts an undo does
  not bring back, `AddressText` the dotted text of addresses, `Iptables` and `IptablesLaws` the packet chain, `Ports`
  the free port and the port list as text.
- `Lifecycle` has `Proxy` as a class over channels, tasks and the host; `Shutdown` the concurrent protocol of
  the configuration server as a state machine over steps.

Laws on "a URI that recombines" (`UriLaws.Settled`) cover every origin-form URI and also absolute ones.
Lifecycle results hold on every host with free names. Conserved routes are conditional on the saved routes
installing one after the other (`Lifecycle.Reloads`), which `Lifecycle.RoutesConservedIff` shows to be exact. Only
that the whole host comes back also needs a device that had no master (`Lifecycle.Restorable`); after a completed
setup that is exact too (`UndoLimits.CompletedUndoIff`).

Bytes are integers below 256. The order in which a hash map yields its entries is a parameter that depends
on a seed per map, so results hold for every order. JSON text, wildcard matching, authority and header syntax
and base64 are parameters; where a law needs it, rendered JSON is assumed to parse back.

Assumptions about the host, all visible in the contracts: setup commands may fail in any way; in the lifecycle
results the commands of an undo take effect whenever they can, and the undo can read and delete routes
(`Bridge.FailingUndoIff` and `Bridge.LeftRoutesDoNoHarm` do without); a route add fails exactly when its device,
source or gateway is missing at that moment. That something succeeds is stated for `smooth` runs, those in which
nothing fails without a reason: every command that can be carried out is, and sockets, executable, gateway and route
dumps are found. One multiport option takes 15 ports, iptables' limit. Kernel route changes along with link,
address and route commands are arbitrary.

## Findings

- A rule that only sets things is not always idempotent. A replacement path with a `?` and no `#` pushes the
  old query behind its own, once more with every application. Without an overlay of query pairs a rule is
  idempotent if and only if its path has a `#` or no `?` (`UriLaws.ReplacePathIdempotentIff`,
  `ActionLaws.RequestRuleIdempotentIff`; `/a?b` on `/x` is an input, `ActionLaws.QuestionMarkPathNotIdempotent`).
  With an overlay that is exactly when a rule, unless it fails on every request, is idempotent on all requests up
  to query order (`Repetition.OverlayRuleRepeatsIff`); on single requests the overlay can hide the difference, as
  with the path `/a?k=1` and an overlay of `k` (`Repetition.OverlayCanHide`).
- Two merge patches equal one exactly when the second holds an object only where the first does
  (`Json.SinglePatchIff`).
- The undo is exact if and only if a device that got enslaved had no master before and the saved routes install
  in reverse dump order (`Bridge.UndoIsExactIff`; after a completed setup `UndoLimits.CompletedUndoIff`). A
  device that was a port of another bridge comes back without a master (`UndoLimits.MasterIsLost`), and a route
  that needs a gateway and was dumped last is lost (`Bridge.LastDumpedNeedsNoGateway`,
  `UndoLimits.GatewayRouteIsLost`).
- The setup recognizes the routes to delete by text. It takes another address for the moved one if and only if
  the middle bytes are equal, the first byte is a decimal suffix and the last byte a decimal prefix of the moved
  one's (`Bridge.KernelRouteIff`). Only routes of the moved address are recognized if and only if its first and
  last byte have one digit each (`Bridge.RecognitionExactIff`). With 10.0.0.12 moved, routes with source 10.0.0.1
  are deleted as well (`Bridge.OthersRecognized`).
- README.md:153-175 of the repository recovers with an empty port list and shows a 200 answer. In the code only
  an absent list takes the early return; the empty list becomes an empty text, which the multiport option
  refuses. The proxy does stop and the host changes are undone, but the request gets no 200: the service fails
  without building a response (`IptablesLaws.BuildsTable`, `Lifecycle.HandleConfig`).
- If `Proxy::stop` fails, `ConfigServer::stop` releases the mutex before its sender is dropped, so a waiting
  handler can start a reload that is then dropped half-way. In the protocol no reload is ever dropped unless
  `Proxy::stop` fails, and after every failure a continuation drops one (`Shutdown.NoFailureNoDrop`,
  `Shutdown.FailureCanDrop`). That failure is not shown reachable: the one `?` in `Proxy::stop` is the join of the
  task (chaos-tproxy-controller/src/proxy/exec.rs:141), and the one expression in the task that can panic is the
  `unwrap` of the process id in a branch of `select!` (exec.rs:120-128) that is taken only when the other branch
  has not seen the process exit, so that the id should still be there.

## Model

| member | source | states |
|---|---|---|
| FormCodec.RoundTrip | chaos-tproxy-proxy/src/raw_config.rs:331 | Parsing the serialized form of any list of byte-string pairs, empty ones included, gives the list back |
| FormCodec.SerializedText | chaos-tproxy-proxy/src/handler/http/action.rs:188-191 | Serialized text is empty only for the empty list and holds neither `?` nor `#` |
| FormCodec.ParseJoined | chaos-tproxy-proxy/src/handler/http/action.rs:139 | Any two texts joined by `&` decode to the concatenation of what they decode to |
| FormCodec.ParseName | chaos-tproxy-proxy/src/handler/http/action.rs:181 | A segment without `=` is a name with an empty value |
| FormCodec.ParseNameAndValue | chaos-tproxy-proxy/src/handler/http/action.rs:181 | A segment with an `=` is what stands on either side of the first one |
| FormCodec.EmptySegments | chaos-tproxy-proxy/src/handler/http/action.rs:181 | Leading and trailing empty segments give nothing |
| FormCodec.DecodePlus | chaos-tproxy-proxy/src/handler/http/action.rs:181 | A `+` is a space |
| FormCodec.DecodeEscape | chaos-tproxy-proxy/src/handler/http/action.rs:181 | A `%` and two hexadecimal digits of either case are one byte |
| FormCodec.DecodeOther | chaos-tproxy-proxy/src/handler/http/action.rs:181 | Any other byte stays, a stray `%` included |
| FormCodec.EncodeEscape | chaos-tproxy-proxy/src/handler/http/action.rs:188 | A byte that is neither kept nor a space becomes `%` and two upper-case digits of its value |
| UriLaws.ReplacePathExact | chaos-tproxy-proxy/src/handler/http/action.rs:153-171 | On a URI that recombines, a plain path replaces the path and nothing else, or is refused for a bad byte |
| UriLaws.LastPathWinsIff | chaos-tproxy-proxy/src/handler/http/action.rs:153-171 | The exact condition on any two paths for only the last of two replacements to remain visible |
| UriLaws.LastPathWins | chaos-tproxy-proxy/src/handler/http/action.rs:153-171 | In particular, of two plain paths only the last remains visible |
| UriLaws.ReplacePathTotal | chaos-tproxy-proxy/src/handler/http/action.rs:153-171 | For every path: a `#` cuts off the rest and the old query, a `?` pushes the old query behind the new one, anything else keeps it; refused exactly for a bad byte |
| UriLaws.QueryIntactIff | chaos-tproxy-proxy/src/handler/http/action.rs:161-167 | A path without `#` leaves the query intact if and only if it holds no `?`, one with a `#` if and only if it brings the same query itself |
| UriLaws.ReplacePathIdempotentIff | chaos-tproxy-proxy/src/handler/http/action.rs:153-171 | Replacing the path twice is replacing it once if and only if the path has a `#` or no `?` |
| UriLaws.AppendExact | chaos-tproxy-proxy/src/handler/http/action.rs:133-151 | Appending keeps scheme, authority and path (up to a leading slash) and extends the query text, or is refused for a bad byte |
| UriLaws.AppendTwice | chaos-tproxy-proxy/src/handler/http/action.rs:133-151 | Appending a then b equals appending `a&b`, failures included |
| UriLaws.AppendDecoded | chaos-tproxy-proxy/src/handler/http/action.rs:133-151 | Appending serialized pairs appends exactly those pairs to the decoded query |
| UriLaws.OverlayDecoded | chaos-tproxy-proxy/src/handler/http/action.rs:173-197 | Replacing queries always succeeds on a recombining URI, keeps the path, and decodes to the listed overlay of the last-wins map |
| UriLaws.LastWinsIsLast | chaos-tproxy-proxy/src/handler/http/action.rs:181 | Collecting pairs into a map keeps, for every key, the value at its last position |
| UriLaws.OverlayStable | chaos-tproxy-proxy/src/handler/http/action.rs:173-197 | Overlaying the same map again leaves the decoded map unchanged |
| UriLaws.OnlyPathAndQueryChanges | chaos-tproxy-proxy/src/handler/http/action.rs:133-197 | No successful rewrite touches scheme or authority, whatever the URI |
| UriLaws.HalfServerRefusesRewrites | chaos-tproxy-proxy/src/handler/http/action.rs:133-197 | A target with exactly one of scheme and authority, as CONNECT has it, refuses every rewrite that gives it a path or query |
| Json.MergeDoesWhatPatchAsks | chaos-tproxy-proxy/src/handler/http/action.rs:112-119 | At every member path the merged document holds what the patch asks for there, and the old value where it asks nothing |
| Json.MergeIdempotent | chaos-tproxy-proxy/src/handler/http/action.rs:112-119 | Merging a patch twice is merging it once |
| Json.ComposeSound | chaos-tproxy-proxy/src/handler/http/action.rs:238-245 | Composable patches act on every document as their composition |
| Json.SinglePatchIff | chaos-tproxy-proxy/src/raw_config.rs:122 | Some single patch stands for two successive ones on all documents if and only if they are composable |
| Json.OrderIrrelevantIff | chaos-tproxy-proxy/src/raw_config.rs:122 | Two patches commute on all documents if and only if they agree recursively at shared members; disjoint ones do |
| Headers.InsertAll | chaos-tproxy-proxy/src/handler/http/action.rs:99-104 | The insert loop, in any order of names, leaves the last configured value under each configured name |
| Headers.AppendAll | chaos-tproxy-proxy/src/handler/http/action.rs:122-126 | The append loop, in any order of names, leaves old values followed by configured ones |
| Action.ReadValue | chaos-tproxy-proxy/src/handler/http/action.rs:53-62 | The body is read chunk by chunk and parsed as a whole; a broken or unparsable body is an error |
| Action.Request.ApplyReplace | chaos-tproxy-proxy/src/handler/http/action.rs:81-105 | The replace half of a rule on the mutable request, proved against the message function |
| Action.Request.ApplyPatch | chaos-tproxy-proxy/src/handler/http/action.rs:107-127 | The patch half of a rule on the mutable request, proved against the message function |
| Action.Request.ApplyActions | chaos-tproxy-proxy/src/handler/http/action.rs:67-131 | Abort before delay, then both halves; the message, the error and the time slept |
| Action.Response.ApplyActions | chaos-tproxy-proxy/src/handler/http/action.rs:202-256 | The same for a response |
| Action.RequestInTwoParts | chaos-tproxy-proxy/src/handler/http/action.rs:67-131 | A rule that does not abort is its replace part followed by its patch part, failures included |
| Action.HeaderClosedForm | chaos-tproxy-proxy/src/handler/http/action.rs:90-126 | Removals, inserts and appends come down to one formula per header name, Content-Length included |
| ActionLaws.QueryPipeline | chaos-tproxy-proxy/src/handler/http/action.rs:81-110 | For every path: the rewritten query decodes to what the path leaves of the old one, or a duplicate-free listing of that overlaid, followed by the patch pairs; path, scheme and authority as configured or kept |
| ActionLaws.PlainQueryPipeline | chaos-tproxy-proxy/src/handler/http/action.rs:81-110 | With a plain path or none, that is the old list, or a duplicate-free listing of the overlaid old map, followed by the patch pairs |
| ActionLaws.RewriteSucceedsIff | chaos-tproxy-proxy/src/handler/http/action.rs:81-110 | Rewriting the URI fails exactly if a path with a bad byte is configured |
| ActionLaws.RequestRuleIdempotent | chaos-tproxy-proxy/src/handler/http/action.rs:81-131 | A rule without abort, appended queries and appended headers whose path has a `#` or no `?` and that succeeds once succeeds again and gives the same request up to query order |
| ActionLaws.RequestRuleIdempotentIff | chaos-tproxy-proxy/src/handler/http/action.rs:81-131 | Without an overlay such a rule is idempotent if and only if its path has a `#` or no `?` |
| ActionLaws.ResponseRuleIdempotent | chaos-tproxy-proxy/src/handler/http/action.rs:202-256 | Such a rule applied twice to a response is the rule applied once |
| ActionLaws.QuestionMarkPathNotIdempotent | chaos-tproxy-proxy/src/handler/http/action.rs:153-171 | An input for the failing side: the path `/a?b` on a request for `/x` |
| Repetition.OverlayRepeatsIff | chaos-tproxy-proxy/src/handler/http/action.rs:153-197 | With an overlay, rewriting the URI twice is rewriting it once up to query order on all requests if and only if the path has a `#` or no `?`, or is refused |
| Repetition.OverlayRuleRepeatsIff | chaos-tproxy-proxy/src/handler/http/action.rs:81-131 | The same of whole requests: a rule with an overlay is idempotent on all of them if and only if its path has a `#` or no `?`, or it fails on every request |
| Repetition.SomeRequestDiffers | chaos-tproxy-proxy/src/handler/http/action.rs:153-197 | For every other rule with an overlay, a request whose first application keeps a pair that the second one loses |
| Repetition.OverlayCanHide | chaos-tproxy-proxy/src/handler/http/action.rs:153-197 | A family of rules with a `?` and an overlay that do repeat on requests without a query |
| ActionLaws.RequestRuleEffect | chaos-tproxy-proxy/src/handler/http/action.rs:81-131 | Method, body and every header after one rule, read off its fields: set where configured, kept otherwise, bodies replaced and then patched |
| ActionLaws.ResponseRuleEffect | chaos-tproxy-proxy/src/handler/http/action.rs:216-256 | The same of a response, with its status |
| ActionLaws.RequestRuleFailsIff | chaos-tproxy-proxy/src/handler/http/action.rs:67-131 | A rule fails exactly for an abort, a path with a bad byte or an unreadable document to patch, and the error is that of the first of these |
| ActionLaws.ResponseRuleFailsIff | chaos-tproxy-proxy/src/handler/http/action.rs:202-256 | The same of a response, which has no path |
| ActionLaws.PatchedBody | chaos-tproxy-proxy/src/handler/http/action.rs:111-119 | The patched body parses to the merge of the replaced or old document with the patch, and fails exactly if that document does not parse |
| ActionLaws.LengthAfterRule | chaos-tproxy-proxy/src/handler/http/action.rs:90-119 | A rule that does not configure Content-Length drops it exactly when it changes the body |
| ActionLaws.DirectionsAgree | chaos-tproxy-proxy/src/handler/http/action.rs:202-256 | Corollary: on equal headers and bodies both directions give the same headers and body whenever URI rewriting succeeds |
| RawConfig.TryFromVec | chaos-tproxy-proxy/src/raw_config.rs:164-175 | The insert loop over configured pairs, refused as a whole for one bad header |
| RawConfig.LastConfiguredValue | chaos-tproxy-proxy/src/raw_config.rs:164-175 | Under every name stands exactly the value configured last for it, names compared without case |
| RawConfig.HashMapHeaders | chaos-tproxy-proxy/src/raw_config.rs:152-162 | With names distinct ignoring case every entry of a configured map is the only value under its name |
| RawConfig.RulesKeepPositions | chaos-tproxy-proxy/src/raw_config.rs:194-215 | Rules are read entry by entry in order, and one bad entry refuses the configuration |
| RawConfigLaws.RuleReadSelects | chaos-tproxy-proxy/src/raw_config.rs:272-311 | A rule that was read selects requests and responses exactly as its entry says: port, path, method, code, and each configured header value among the headers of its own side |
| RawConfigLaws.RuleReadActs | chaos-tproxy-proxy/src/raw_config.rs:312-389 | It aborts, delays, replaces and patches exactly as its entry says, with base64 and JSON decoded and query pairs stored so that they parse back |
| RawConfigLaws.RuleReadIff | chaos-tproxy-proxy/src/raw_config.rs:272-389 | An entry is read exactly if its methods, codes, headers, base64 and JSON are well-formed |
| RawConfigLaws.LowerCase | chaos-tproxy-proxy/src/raw_config.rs:152-175 | Header names are compared with A to Z in lower case |
| RawConfigLaws.ConfiguredPairsArrive | chaos-tproxy-proxy/src/raw_config.rs:325-335 | Path, overlay and query pairs arrive as configured, whatever they are; the decoded query ends with exactly the configured pairs, in order and with repetitions |
| RawConfigLaws.ConfiguredHeaderArrives | chaos-tproxy-proxy/src/raw_config.rs:325-335 | A patch header reaches the message once, as the value configured last, after the base values |
| RawConfigLaws.HeaderSelectionExact | chaos-tproxy-proxy/src/handler/http/selector.rs:48-52 | A configured header map selects exactly the messages that carry every configured value, for any spelling of names |
| RawConfigLaws.ResponseSelection | chaos-tproxy-proxy/src/handler/http/selector.rs:56-82 | Corollary: selecting on a response is selecting the request head and then status and response headers |
| RawConfigLaws.BodyPatchesCompose | chaos-tproxy-proxy/src/proxy/http/server.rs:325-328 | Two body-patch rules in a row act as one rule with the composed patch |
| Server.Service.RewriteRequest | chaos-tproxy-proxy/src/proxy/http/server.rs:244-248 | The rule loop refines the fold over the selected actions, its failure and the time slept |
| Server.Service.Rebuild | chaos-tproxy-proxy/src/proxy/http/server.rs:254-278 | The rebuilt URI or the failure, nothing else changed |
| Server.Service.Handle | chaos-tproxy-proxy/src/proxy/http/server.rs:228-330 | Result, forwarded requests and time slept of one exchange |
| ServerLaws.ActionsNeverSteerSelection | chaos-tproxy-proxy/src/proxy/http/server.rs:232-252 | Which rules fire in a phase depends on the arriving request, or on the rewritten head and the upstream response, never on what rules of that phase do; they fire in configuration order |
| ServerLaws.ResponseActionsStayBehind | chaos-tproxy-proxy/src/proxy/http/server.rs:244-329 | In one exchange, changing what response rules do changes neither what is forwarded nor which response rules fire |
| ServerLaws.ForwardsAtMostOnce | chaos-tproxy-proxy/src/proxy/http/server.rs:245-304 | At most one upstream call, exactly one when rules and rebuild succeed, none when a selected request rule aborts; all delays slept on success |
| ServerLaws.SleptBeforeAbort | chaos-tproxy-proxy/src/handler/http/action.rs:72-79 | An abort reached by succeeding rules ends the exchange after exactly the delays before it |
| ServerLaws.SleptBeforeResponseAbort | chaos-tproxy-proxy/src/handler/http/action.rs:207-214 | A response rule's abort reached by succeeding ones ends the exchange after all request delays and exactly the response delays before it, with one request forwarded |
| ServerLaws.ResponseAbortFails | chaos-tproxy-proxy/src/proxy/http/server.rs:325-328 | Any selected response rule that aborts makes the exchange an error, with one request forwarded |
| ServerLaws.RequestLength | chaos-tproxy-proxy/src/proxy/http/server.rs:245-248 | Over any rule list that does not configure it, Content-Length is gone once a rule changed the body, else untouched |
| ServerLaws.ResponseLength | chaos-tproxy-proxy/src/proxy/http/server.rs:325-328 | The same for responses |
| ServerLaws.TransparentWithoutRole | chaos-tproxy-proxy/src/proxy/http/server.rs:218-225 | With the wrong role the exchange only rebuilds the URI and returns the upstream answer |
| ServerLaws.AnswerReachesClient | chaos-tproxy-proxy/src/proxy/http/server.rs:296-329 | The client gets the upstream's answer, or without one status 502 with no header and no body, after exactly the response rules that select it; that very answer if none does |
| ServerLaws.ForwardedVerb | chaos-tproxy-proxy/src/handler/http/action.rs:85-88 | The forwarded method is the one set by the last selected request rule that sets any, else the arriving one |
| ServerLaws.ClientStatus | chaos-tproxy-proxy/src/handler/http/action.rs:218-220 | The client's status is the one set by the last selected response rule that sets any, else that of the answer or 502 |
| ServerLaws.RoleLooksAt | chaos-tproxy-proxy/src/handler/http/selector.rs:24-40 | Without a role every connection is affected; a client role looks at the IPv4 source, a server role at the IPv4 destination |
| ServerLaws.RebuildSucceedsIff | chaos-tproxy-proxy/src/proxy/http/server.rs:254-278 | The rebuild succeeds exactly if the first Host value, or without one the target's address, reads as an authority |
| ServerLaws.ForwardedUri | chaos-tproxy-proxy/src/proxy/http/server.rs:254-278 | Corollary: scheme by TLS, authority by the first Host value or the target, path and query as rewritten |
| Ports.GetFreePort | chaos-tproxy-controller/src/proxy/config.rs:58-74 | The least unlisted port of 1025 to 65534, within the number of distinct listed ports; failure exactly when all are listed |
| Ports.PortsRoundTrip | chaos-tproxy-controller/src/proxy/config.rs:34-39 | Every non-empty port list is recovered from its joined text; the empty text lists nothing |
| IptablesLaws.BuildsTable | chaos-tproxy-controller/src/proxy/net/set_net.rs:33-41 | Appending the proxy rules and then inserting the safe rules builds one table, or is refused exactly for an empty or overlong port list |
| IptablesLaws.PacketVerdict | chaos-tproxy-controller/src/proxy/net/iptables.rs:3-132 | A packet goes to the listen port exactly when it is TCP, not left alone by safe mode, matches no socket and its port is configured |
| IptablesLaws.ListEffects | chaos-tproxy-controller/src/proxy/net/iptables.rs:52-132 | All tables a whole list leaves, and the dnat rules it appends on the host |
| IptablesLaws.ListServes | chaos-tproxy-controller/src/proxy/net/set_net.rs:33-41 | The tables hand over TCP but SSH to the chain, and every handed over packet fares as ports, listen port and safe mode say |
| IptablesLaws.ListenPortNotRedirected | chaos-tproxy-controller/src/proxy/net/iptables.rs:9-31 | No packet addressed to an unlisted listen port is redirected |
| Host.LoadsAllIff | chaos-tproxy-controller/src/proxy/net/routes.rs:28-41 | Loading a list into an empty table brings back every route if and only if each installs after those before it |
| Host.LoadedAreSound | chaos-tproxy-controller/src/proxy/net/routes.rs:28-41 | Loading adds no route whose device is missing, whose source is not local or whose gateway is out of reach of the routes then in place |
| Host.Machine.Execute | chaos-tproxy-controller/src/proxy/net/bridge.rs:384-403 | Success means the effect took place; failure leaves it open; smooth runs succeed exactly where the command applies |
| Host.Machine.DeleteRoutes | chaos-tproxy-controller/src/proxy/net/routes.rs:15-26 | Each listed route is tried; refused ones stay and make the call fail, none but listed ones disappear |
| Host.Machine.LoadRoutes | chaos-tproxy-controller/src/proxy/net/routes.rs:28-41 | Routes are added in order, those that do not install are skipped |
| Bridge.NamesSeparate | chaos-tproxy-controller/src/proxy/net/bridge.rs:35-53 | The names built from a key never collide with each other |
| Bridge.ExecuteAll | chaos-tproxy-controller/src/proxy/net/bridge.rs:377-382 | Either every command ran and was reported as successful, or the run stopped at the first one that was not |
| Bridge.ExecutedKeepsProgress | chaos-tproxy-controller/src/proxy/net/bridge.rs:377-382 | Wherever such a run stops the host stays between original and set up; on success every command's effect is in force, and nothing done before is taken back |
| Bridge.ExecuteAllWithLogError | chaos-tproxy-controller/src/proxy/net/bridge.rs:370-375 | Runs every command whatever the failures |
| Setup.SetenvBridge | chaos-tproxy-controller/src/proxy/net/bridge.rs:74-223 | At every stopping point the host stays between original and set up; on success the packet path stands, the namespace has fresh tables and no kernel route of the address is left; a smooth run on the original wiring succeeds with exactly the completed setup |
| Setup.DeleteKernelRoutes | chaos-tproxy-controller/src/proxy/net/bridge.rs:202-220 | Only recognized routes disappear, and on success none of them is left |
| Setup.RunChain | chaos-tproxy-controller/src/proxy/net/set_net.rs:33-41 | On success the namespace has the tables the whole list builds and the nat list gains its dnat rules; a smooth run of a list the tables take succeeds |
| Setup.SetNet | chaos-tproxy-controller/src/proxy/net/set_net.rs:13-48 | On success every packet fares as ports, listen port and safe mode say, on a wired host, and the nat list ends with the dnat rules; a smooth run succeeds for every usable port list |
| AddressText.OccursIff | chaos-tproxy-controller/src/proxy/net/bridge.rs:207-214 | The text of one address occurs in that of another with its prefix length exactly for equal middle bytes, a first byte that is a decimal suffix and a last byte that is a decimal prefix |
| Bridge.KernelRouteIff | chaos-tproxy-controller/src/proxy/net/bridge.rs:202-220 | A route is recognized exactly if it has no gateway and a source of that kind |
| Bridge.RecognitionExactIff | chaos-tproxy-controller/src/proxy/net/bridge.rs:202-220 | Only routes of the moved address are recognized if and only if its first and last byte have one digit each |
| Bridge.OwnRoutesRecognized | chaos-tproxy-controller/src/proxy/net/bridge.rs:202-220 | Corollary: routes whose source is the moved address are always recognized |
| Bridge.OthersRecognized | chaos-tproxy-controller/src/proxy/net/bridge.rs:207-214 | An input for the inexact side: 10.0.0.12 moved, a route with source 10.0.0.1 |
| Bridge.UndoRestores | chaos-tproxy-controller/src/proxy/net/bridge.rs:228-235 | From every stopping point the undo commands restore namespaces, links and the device address, an enslaved device ending without master |
| Bridge.ClearBridge | chaos-tproxy-controller/src/proxy/net/bridge.rs:225-269 | The undo commands whatever fails, then the saved routes loaded next to any that could not be deleted; the whole state if everything takes effect that can |
| Bridge.FailingUndoIff | chaos-tproxy-controller/src/proxy/net/bridge.rs:228-235 | Whichever undo commands fail, namespaces and links are restored if and only if namespace and bridge are gone and the device has its address |
| Bridge.LeftRoutesDoNoHarm | chaos-tproxy-controller/src/proxy/net/bridge.rs:237-252 | If routes cannot be dumped or deleted, the saved ones that install are all in place afterwards, next to the left ones |
| Bridge.UndoIsExactIff | chaos-tproxy-controller/src/proxy/net/bridge.rs:225-252 | The undo brings back the original host if and only if an enslaved device had no master and the saved routes install in order |
| Bridge.LastDumpedNeedsNoGateway | chaos-tproxy-controller/src/proxy/net/bridge.rs:56-58 | For the undo to be exact the route dumped last must not need a gateway |
| SetupRun.SetupCompletes | chaos-tproxy-controller/src/proxy/net/bridge.rs:95-198 | From every host with free names the setup commands, none failing, all apply and lead to the completed setup |
| UndoLimits.SetUpHostIsWired | chaos-tproxy-controller/src/proxy/net/bridge.rs:95-198 | That host has the whole packet path |
| UndoLimits.CompletedUndoIff | chaos-tproxy-controller/src/proxy/net/bridge.rs:225-252 | The undo of a completed setup is exact if and only if the device had no master and the saved routes install in order |
| UndoLimits.MasterIsLost | chaos-tproxy-controller/src/proxy/net/bridge.rs:228-235 | A host, its device a port of another bridge, that the undo of a completed setup does not bring back |
| UndoLimits.GatewayRouteIsLost | chaos-tproxy-controller/src/proxy/net/bridge.rs:56-58 | A host whose routes install in dump order but not in reverse, so that the undo loses one |
| Lifecycle.ConfigFrom | chaos-tproxy-controller/src/proxy/config.rs:16-56 | The configuration handed over, its listen port never among the proxied ones |
| Lifecycle.Runtime.Join | chaos-tproxy-controller/src/proxy/exec.rs:109-131 | A task told to stop ends with its child exited, signalled or never spawned; the join fails exactly if the task panicked |
| Lifecycle.PickKey | chaos-tproxy-controller/src/proxy/net/bridge.rs:35-44 | Of the drawn keys the first with which no link name starts |
| Lifecycle.KeyGivesFreshNames | chaos-tproxy-controller/src/proxy/net/bridge.rs:35-53 | With such a key and a free namespace name, none of the names built from the key is taken, on this host or any undone one |
| Lifecycle.NewEnv | chaos-tproxy-controller/src/proxy/net/bridge.rs:33-72 | Draws a key; the environment's names are free on the current host, and its routes are saved |
| Lifecycle.Proxy.constructor | chaos-tproxy-controller/src/proxy/exec.rs:41-59 | A new proxy satisfies the lifecycle invariant, with paired sender and receiver |
| Lifecycle.Proxy.Exec | chaos-tproxy-controller/src/proxy/exec.rs:61-133 | Called only with a receiver present; succeeds exactly when a task was stored, and then the host serves the configuration; a smooth run succeeds for every usable port list |
| Lifecycle.Proxy.Wait | chaos-tproxy-controller/src/proxy/exec.rs:109-131 | Whatever tasks do on their own keeps the invariant |
| Lifecycle.Proxy.Stop | chaos-tproxy-controller/src/proxy/exec.rs:135-144 | Ok exactly without a task or if the task did not panic; afterwards no task, no live child, and an undone host: with the routes from before the first generation if they install, and that very host if it can be restored |
| Lifecycle.Proxy.Renew | chaos-tproxy-controller/src/proxy/exec.rs:151-157 | A new environment on the undone host and a receiver for the next task |
| Lifecycle.Proxy.Reload | chaos-tproxy-controller/src/proxy/exec.rs:146-166 | Either a new generation runs on a host that serves its ports, listen port and safe mode, or the host is undone with no task; a smooth reload succeeds for an absent or usable list; if the routes install, the saved ones are always those before the first generation |
| Lifecycle.HandleConfig | chaos-tproxy-controller/src/cmd/interactive/handler.rs:97-118 | Only a PUT with a readable configuration touches the proxy; 200 means that the host serves it, or that the generation has ended for an absent list, and a smooth run gives it; an empty port list ends the generation and undoes its host changes but gets no 200 |
| Lifecycle.Drive | chaos-tproxy-controller/src/proxy/exec.rs:135-166 | The invariant over every run of reloads, stops and waits; if the routes install, every generation saves those before the first one and they are in place whenever no task runs; on a host that can be restored it is then the original one |
| Lifecycle.RoutesConservedIff | chaos-tproxy-controller/src/proxy/exec.rs:146-157 | The next generation saves the routes the first one saved if and only if they install one after the other |
| Shutdown.SafeShutdown | chaos-tproxy-controller/src/cmd/interactive/handler.rs:44-78 | In every interleaving the signal `stop` sends drops no handler inside a reload, and after Ok no task and no handler is left |
| Shutdown.ProxyTaskIff | chaos-tproxy-controller/src/cmd/interactive/handler.rs:44-78 | The proxy has a task if and only if the last step that ends a reload or a `Proxy::stop` was a reload that left one running |
| Shutdown.NothingAfterOk | chaos-tproxy-controller/src/cmd/interactive/handler.rs:67-77 | After `stop` returned Ok no step, in particular no reload, can follow |
| Shutdown.StopNeverStuck | chaos-tproxy-controller/src/cmd/interactive/handler.rs:67-77 | Until `stop` returns some step towards its end is possible in every reachable state |
| Shutdown.StopReturns | chaos-tproxy-controller/src/cmd/interactive/handler.rs:67-77 | From every reachable state in which `stop` was called, some continuation without new requests ends with `stop` returned |
| Shutdown.MaximalRunsReturn | chaos-tproxy-controller/src/cmd/interactive/handler.rs:67-77 | Every run that only a new request could continue ends with `stop` returned |
| Shutdown.RunsEnd | chaos-tproxy-controller/src/cmd/interactive/handler.rs:44-77 | Without new requests every run is over after a bounded number of steps, in whichever order they interleave |
| Shutdown.NoFailureNoDrop | chaos-tproxy-controller/src/cmd/interactive/handler.rs:67-77 | As long as `Proxy::stop` does not fail no reload is dropped, in any interleaving |
| Shutdown.FailureCanDrop | chaos-tproxy-controller/src/cmd/interactive/handler.rs:67-77 | Every run in which `Proxy::stop` has just failed has a continuation in which a reload is dropped |
| Shutdown.FailedStopCanDropReload | chaos-tproxy-controller/src/cmd/interactive/handler.rs:67-77 | Such a run exists in the protocol, given that `Proxy::stop` can fail |

## Left out

- hyper, TLS and raw TCP (connection loops, the fallback to copying, transparent sockets): library and kernel behaviour.
- JSON text, base64, YAML, certificates, command line, Unix-socket transfer: library work, parameters where needed.
- Invalid UTF-8 in percent-encoded queries, which the original replaces by U+FFFD: the codec keeps the bytes.
- Length limits of URIs and header maps.
- The relative order of different header names; values under one name keep their order.
- The wildcard matcher: a parameter.
- Which error is reported among several: errors are grouped by kind.
- Panics (`unwrap` on a missing interface, MAC or process id elsewhere than in the joined task): no undo runs after them.
- Kernel state the undo does not target: sysctl values, ARP entries, ebtables nat rules present before (they are flushed), the order of addresses, resolv.conf.
- What a dnat rule of the ebtables nat list does to a frame: the list is kept, not interpreted.
- A namespace's own ip rules and routes, which send marked packets to its sockets: `Iptables` stops at the mark.
- Secondary addresses: deleting a primary address can remove them along with it, so the real undo may fall short on a host that meets the condition of `Bridge.UndoIsExactIff`.
- The order of a route dump as the kernel keeps it: a dump is taken to be a function of the route set, which the conserved routes of `Lifecycle.Drive` rest on.
- Lifecycle.Drive: takes the undo's commands to take effect where they can, and routes to be dumped and deleted; what becomes of an undo that cannot is stated in `Bridge` only.
- A namespace kept alive by a child that still runs when the undo starts.
- The random draws of a key and the choice of the default interface: parameters, the latter a function of the links. That no namespace has the name built from the key is assumed, as the original does not look.
- Lifecycle.Proxy.Stop: does not model a child that never reacts to the signal beyond being signalled.
- Shutdown.SafeShutdown: assumes a connection runs its handler to completion unless the server task ends.
- Ping, gratuitous ARP, logging.
