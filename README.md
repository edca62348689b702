# Scaleway target plugin for the Nomad autoscaler — a Dafny model

This project models the core of a Nomad-autoscaler target plugin that scales a
pool of Scaleway compute instances. The model covers six parts:

- the Idle/Active flag that brackets every scaling action (`PluginState`);
- the text decoders of the plugin configuration: `Bool`, `SliceString`, and
  `MapString` with its file lookups (`Types`, on top of a small `Strings`
  module for Go's `strings.Split`, `Join` and `Replace`);
- the server value, the blueprint decoded from configuration, the request
  builders and the helpers over a list of servers (`InstanceServer`);
- the paged listing request, whose page number lives in a cell that every
  copy of the request shares (`InstanceRequest`);
- the provider client: paginated listing, creation (create, user data,
  power-on) and deletion (power-off, delete, volumes) (`InstanceApi`);
- the plugin: `Scale`, `ScaleUp`, `ScaleDown`, the worker-pool size,
  `Status`, `LookupNodeID` and the pre-scale-in node selection
  (`TargetPlugin`).

The Scaleway SDK and the cluster scale-utils hooks are oracles (module
`Remote`). An oracle is a total function of the calls issued so far and the
call's arguments. Every call the core issues, to the provider or to a hook, is
appended to one shared log. Each sequence of calls has a specification function
(`Fetch`, `CreateRun`, `DeleteRun`, `ScaleRun`, …). That function returns
the result together with the calls issued, in order. Each method is proved
to append exactly those calls and to return exactly that result. Lemmas
about the specification functions state what the source promises:
fail-fast order, call counts, pagination and the scaling deltas.

The worker pool (goroutines reading a channel) is modelled as one worker
draining a queue in order. Each work item's calls come after those of the
items before it. The pool size is still computed.

## Model

| member | source | states |
|---|---|---|
| PluginState.State.constructor | plugin/state.go:8-12 | the zero-valued flag holds Idle and has stored nothing |
| PluginState.State.SetIdle | plugin/state.go:14-17 | the flag holds Idle whatever it held, so a repeated call changes nothing; only Idle or Active is ever stored |
| PluginState.State.SetActive | plugin/state.go:19-22 | the flag holds Active whatever it held; only Idle or Active is ever stored |
| PluginState.State.Get | plugin/state.go:24-27 | returns the stored value, which is Idle or Active, and changes nothing |
| PluginState.StateSequence | plugin/state_test.go:8-23 | a fresh flag reads Idle, then Active after SetActive, then Idle after SetIdle, even when each setter is called twice |
| Types.Bool.UnmarshalText | types/types.go:13-24 | true exactly for "true", false exactly for "false"; any other text is an error and leaves the receiver unchanged |
| Types.SliceString.UnmarshalText | types/types.go:30-33 | never fails; the receiver becomes the comma-separated pieces, one more than the commas, and joining them with commas gives the text back |
| Types.FileText | types/types.go:65-76 | the text itself when no such path exists; the stat's own error when the stat fails otherwise; the outcome of reading the file when it exists |
| Types.MapString.UnmarshalText | types/types.go:39-62 | succeeds exactly when the decoding succeeds, and then the receiver is replaced by a fresh decoded map; on any error the receiver is unchanged |
| Types.DecodeEntriesNext | types/types.go:51-57 | one more line: no change when it has no `=`, else its key is set to the resolved value or the resolution error is returned |
| Types.DecodeEntriesErrorSticks | types/types.go:53-55 | the first resolution error is the result of the whole decoding |
| Types.LinesSeparators | types/types.go:51 | commas and newlines both separate entries: no line holds either, and the lines joined by newlines are the text with commas turned into newlines |
| Types.EntryShape | types/types.go:52-53 | a line is an entry exactly when it holds `=`; the key is the text before the first `=`, the value the text up to the second `=` or the end |
| Types.DecodedKeys | types/types.go:51-57 | the decoded keys are exactly the keys of the entry lines |
| Types.LastEntryWins | types/types.go:53 | a key maps to the resolved value of its last entry line, so a later duplicate overwrites an earlier one |
| Types.UserDataExample | types/types.go:39-62 | "foo=bar,hello=world" decodes to {foo: bar, hello: world} when no path of that name exists |
| Strings.Split | types/types.go:31 | `n` separators give `n + 1` pieces and no piece holds the separator |
| Strings.Replace | types/types.go:51 | same length; every `from` character becomes `to` and every other character is kept |
| Strings.JoinSplit | types/types.go:31 | joining the pieces of a split with the separator gives the text back |
| Strings.SplitJoin | types/types.go:31 | splitting the join of separator-free pieces gives the pieces back |
| InstanceRequest.Next | scaleway/instance/request.go:15-19 | the returned request shares the receiver's page cell, the page advances by one for both, and every other field is unchanged |
| InstanceRequest.NextTwice | scaleway/instance/request.go:15-19 | two `Next` calls on one request both advance the single shared page: 2, then 3, and the original reads 3 |
| InstanceServer.Decode | scaleway/instance/server.go:47-69 | tags are the three fixed tags followed by the configured ones; image, security group and placement group are present exactly when configured; the other fields are copied and nothing else is set |
| InstanceServer.CreateServerRequest | scaleway/instance/server.go:75-102 | copies zone, name, flags, type and tags; image (empty when unset), security group and placement group only when the blueprint has them |
| InstanceServer.ListQueryFor | scaleway/instance/server.go:105-133 | page 1, 100 per page, the blueprint's tags, and name, zone and commercial type filters exactly when those fields are non-empty |
| InstanceServer.ListServersRequest | scaleway/instance/server.go:105-133 | a fresh page cell, and the request as sent is `ListQueryFor` of the blueprint |
| InstanceServer.NewServers | scaleway/instance/server.go:177-185 | same length and the same server at every index |
| InstanceServer.Ready | scaleway/instance/server.go:188-196 | true exactly when every server is running, so the empty list is ready |
| InstanceServer.IDs | scaleway/instance/server.go:204-210 | one ID per server, in list order |
| InstanceServer.DeleteServerRequest | scaleway/instance/server.go:145-150 | the request names the server's own zone and ID |
| InstanceServer.ActionAndWaitRequest | scaleway/instance/server.go:136-142 | the request names the server's ID, the requested action and the given timeout |
| InstanceServer.WithID | scaleway/instance/server.go:224-232 | none exactly when no server has the ID; otherwise a listed server with it |
| InstanceServer.WithIDIsFirst | scaleway/instance/server.go:224-232 | the server returned is the first one with the ID |
| InstanceServer.WithName | scaleway/instance/server.go:235-243 | none exactly when no server has the name; otherwise a listed server with it |
| InstanceServer.WithNameIsFirst | scaleway/instance/server.go:235-243 | the first server with the name is the one returned |
| InstanceServer.WithNameFound | scaleway/instance/server.go:235-243 | the server returned sits at an index before which no server has the name |
| InstanceServer.WithIDs | scaleway/instance/server.go:213-221 | the result is each ID's match in ID order, missing IDs skipped |
| InstanceServer.SelectedAppend | scaleway/instance/server.go:213-221 | selection distributes over concatenated ID lists, so a repeated ID yields a repeated entry |
| InstanceServer.SelectedSingle | scaleway/instance/server.go:214-218 | one ID contributes its first match or nothing |
| InstanceServer.SelectedMembers | scaleway/instance/server.go:213-221 | every selected server is listed and carries a requested ID, and there are no more of them than IDs |
| InstanceServer.DecodedCreateRequest | scaleway/instance/server.go:47-102 | the create request of a decoded blueprint carries the fixed tags first and each optional reference exactly when configured |
| Remote.ClusterScaleUtils.RunPreScaleInTasksWithRemoteCheck | plugin/plugin.go:297 | answers with the hook's node selection for the IDs and count, and logs the call |
| Remote.ClusterScaleUtils.RunPostScaleInTasks | plugin/plugin.go:194 | answers with the hook's outcome for the nodes, and logs the call |
| Remote.ClusterScaleUtils.IsPoolReady | plugin/plugin.go:237 | answers with the hook's readiness, and logs the call |
| InstanceApi.API.ListServers | scaleway/instance/instance.go:27-39 | one listing call for the blueprint's first page; returns that page's servers or its error |
| InstanceApi.API.ListAndAdvance | scaleway/instance/instance.go:45-50 | one listing call of the request's current page, answered by the provider; the shared page cell advances by one exactly when the call succeeded |
| InstanceApi.API.ListServersAll | scaleway/instance/instance.go:42-60 | issues exactly the calls of `Fetch` from page 1 and returns its result |
| InstanceApi.FetchQueries | scaleway/instance/instance.go:45-51 | at least one call; call `i` lists page `1 + i` with the same filters, so the page advances once per answered call |
| InstanceApi.FetchFailsFast | scaleway/instance/instance.go:46-49 | a failing page is the last call and the error returned is the provider's answer to that listing, with no partial list; otherwise every call succeeded |
| InstanceApi.FetchGathers | scaleway/instance/instance.go:54-58 | a successful listing returns every page's servers concatenated in arrival order |
| InstanceApi.FetchCount | scaleway/instance/instance.go:41-60 | the `Count` (server.go:198-201) of a successful listing is the number of servers the provider returned, summed over its listing calls |
| InstanceApi.FetchEmptyExample | scaleway/instance/instance.go:41-60 | an empty first page gives one call and an empty inventory |
| InstanceApi.FetchInventoryExample | scaleway/instance/instance.go:41-60 | pages of 100, 100 and 37 servers then an empty page give four calls and a count of 237 |
| InstanceApi.FetchPageCount | scaleway/instance/instance.go:45-59 | `k` non-empty pages followed by an empty one give exactly `k + 1` calls and success |
| InstanceApi.API.ApplyServerUserData | scaleway/instance/instance.go:105-120 | no call for a nil map; otherwise one call carrying a copy of the whole map for the server's zone and ID, whose outcome is the result |
| InstanceApi.API.ApplyServerOpt | scaleway/instance/instance.go:91-102 | no call for nil options; otherwise the user-data step and its outcome |
| InstanceApi.API.CreateServer | scaleway/instance/instance.go:63-88 | issues exactly the calls of `CreateRun`; the new server on success, the zero server and the first error otherwise |
| InstanceApi.CreateFailsFast | scaleway/instance/instance.go:64-85 | the first failing call is the last one issued, and the error returned is the provider's answer to that call (the create's error or the action's); otherwise every call succeeded |
| InstanceApi.CreateOrder | scaleway/instance/instance.go:63-88 | the create request comes first; once it succeeds, options carrying user data always give the user-data call for the created server second, and no other user-data call occurs; the power-on with a 180-second wait is only ever the last call; success returns the created server |
| InstanceApi.CreateCounts | scaleway/instance/instance.go:63-88 | exactly one creation, no deletion, and exactly one user-data call when the create succeeds and the options carry user data, none otherwise |
| InstanceApi.NoUserDataWithoutOptions | scaleway/instance/instance.go:92-108 | nil options or a nil user-data map mean no user-data call |
| InstanceApi.API.DeleteServer | scaleway/instance/instance.go:123-146 | issues exactly the calls of `DeleteRun` and returns its first error |
| InstanceApi.API.DeleteVolumes | scaleway/instance/instance.go:138-143 | issues exactly the calls of `VolumesRun` and returns its first error |
| InstanceApi.VolumesOrder | scaleway/instance/instance.go:138-143 | volumes are deleted in order in the server's zone, one call each, none beyond the first failure |
| InstanceApi.VolumesFailFast | scaleway/instance/instance.go:138-143 | volume deletion stops at the first failure, after the volumes before it were deleted, and returns that deletion's own error |
| InstanceApi.DeleteFailsFast | scaleway/instance/instance.go:128-143 | the first failing call is the last one issued, and the error returned is the provider's answer to that call; otherwise every call succeeded |
| InstanceApi.DeleteOrder | scaleway/instance/instance.go:123-146 | a power-off with a 300-second wait first, then the server deletion, then only volume deletions |
| InstanceApi.DeleteActions | scaleway/instance/instance.go:123-146 | the only power action of a deletion is the server's power-off with a 300-second wait |
| InstanceApi.DeleteKinds | scaleway/instance/instance.go:123-146 | exactly one power action, no creation, and no volume deletion for a server without volumes |
| TargetPlugin.WorkerCount | plugin/plugin.go:215-216 | the pool size is the smaller of the item count and five |
| TargetPlugin.SendRange | plugin/plugin.go:148-151 | the send loop from `lo` to `hi` queues exactly `lo`, …, `hi - 1` |
| TargetPlugin.SendNodes | plugin/plugin.go:186-189 | the send loop queues one work item per node, in order |
| TargetPlugin.WorkItems | plugin/plugin.go:187-189 | each item carries its node's remote resource ID and the blueprint's zone, and no volumes |
| TargetPlugin.DrainActions | plugin/plugin.go:203-212 | when every item issues exactly its own power action, draining the queue issues those actions in queue order |
| TargetPlugin.DrainCount | plugin/plugin.go:160-168 | when every item issues `m` calls of a kind, draining the queue issues `m` per item |
| TargetPlugin.ScaleUpCreatesNothing | plugin/plugin.go:139-157 | as written, `ScaleUp` issues no call for any `n` and fails exactly for a negative `n` |
| TargetPlugin.ScaleUpIntendedCreatesN | plugin/plugin.go:139-157 | with the send loop starting at 0, `n >= 0` gives exactly `n` creations and no error |
| TargetPlugin.ScaleUpFallsShort | plugin/plugin.go:149 | for every `n > 0`, the as-written loop creates no server where `n` were asked for |
| TargetPlugin.ScaleDownSequence | plugin/plugin.go:172-200 | after a successful selection: one power-off per selected node, of that node's server with a 300-second wait and in selection order, no creation or volume deletion, then the post-scale-in tasks as the last call, whose answer is the result |
| TargetPlugin.DryRunIsInert | plugin/plugin.go:97-100 | a dry run makes no call and succeeds |
| TargetPlugin.ScaleUpOnlyLists | plugin/plugin.go:124-126 | as written, scaling up after a successful listing makes no further call and creates no server; it errs with `NegativeCount` exactly when the desired count is below the current one |
| TargetPlugin.ScaleListingFails | plugin/plugin.go:114-117 | in every direction, a failed initial listing ends the scale with only the listing's calls and that listing's own error |
| TargetPlugin.NoScaleOnlyLists | plugin/plugin.go:124-135 | direction None or unknown only lists, and returns the listing's error or nothing |
| TargetPlugin.ScaleDeltas | plugin/plugin.go:124-128 | Up scales by desired minus current, Down by current minus desired |
| TargetPlugin.StatusWhileActive | plugin/plugin.go:233-235 | while Active, the status is not ready and no call is made |
| TargetPlugin.StatusReportsInventory | plugin/plugin.go:250-262 | when idle and the pool is ready, the status is ready exactly when every listed server runs, and its count is their number |
| TargetPlugin.LookupOutcomes | plugin/plugin.go:266-287 | a missing or empty hostname errors without any call; otherwise one listing by name, whose error is returned when it fails, then not-found exactly when no server has the name, else the ID of the first one that does |
| TargetPlugin.Plugin.constructor | plugin/plugin.go:47-52 | a new plugin's flag is Idle |
| TargetPlugin.Plugin.Scale | plugin/plugin.go:91-136 | Active is stored at entry and Idle on every way out; the calls and result are those of `ScaleRun` |
| TargetPlugin.Plugin.ScaleUp | plugin/plugin.go:139-157 | as written: issues exactly the calls of `ScaleUpRun`, which are none, and errs exactly for a negative `n` |
| TargetPlugin.Plugin.ScaleUpIntended | plugin/plugin.go:139-157 | corrected: issues exactly the calls of `ScaleUpIntendedRun` and errs exactly for a negative `n` |
| TargetPlugin.Plugin.CreateItem | plugin/plugin.go:162-166 | one queued creation issues the creation sequence; its error is dropped |
| TargetPlugin.Plugin.DeleteItem | plugin/plugin.go:205-209 | one queued deletion issues the deletion sequence; its error is dropped |
| TargetPlugin.Plugin.DrainCreates | plugin/plugin.go:160-168 | one creation sequence per queued item, each after the previous ones |
| TargetPlugin.Plugin.DrainDeletes | plugin/plugin.go:203-212 | one deletion sequence per queued server, each after the previous ones |
| TargetPlugin.Plugin.ClusterRunPreScaleInTasks | plugin/plugin.go:291-303 | lists the servers, then passes their IDs to the hook; a listing error is returned without calling the hook |
| TargetPlugin.Plugin.ScaleDown | plugin/plugin.go:172-200 | issues exactly the calls of `ScaleDownRun`; a negative `n` is an error with no call |
| TargetPlugin.Plugin.Status | plugin/plugin.go:232-263 | issues exactly the calls of `StatusRun`; while Active, not ready with no call |
| TargetPlugin.Plugin.LookupNodeID | plugin/plugin.go:266-287 | issues exactly the calls of `LookupRun` and returns its result |

## Left out

- Goroutines, channels, `sync.WaitGroup` and the atomic flag: one worker drains the queue in order, and the flag is a plain field. Interleavings of concurrent workers are not modelled.
- Logging, and the one-hour `context` deadline passed to the scale-down hooks.
- The Scaleway SDK and the cluster scale-utils hooks are oracles over the call history. The configuration map handed to the hooks is not modelled.
- mapstructure decoding and `scw.ParseZone` in `Decode` and `ServerOpt.Decode`: `Config` carries their outcome, either the typed fields or the decoding error.
- `Native` of the request and of the API: a pointer type conversion with no behaviour of its own.
- `SetConfig`, `New`'s logger, `PluginInfo` and client construction: setup with no logic of their own.
- `TotalCount` of `ListServers`: nothing in the core reads it.
- The page number is an `int32` and the counts are `int64` in the source; here they are unbounded integers.
- The provider's volume map is a sequence, in the order the Go map happens to be iterated.
- The create request's empty volume-template map: it is constant and not a field of the model.
- `math.Min` over floats in the worker count is an integer minimum.
- The `time.Duration` timeouts are whole seconds: 180 and 300.
- InstanceApi.Fetch: pagination needs a page beyond which the provider answers an empty page or an error (`Paginates`). Against a provider that never does, the source's loop never ends, and that case is not modelled.
- TargetPlugin.Plugin.ScaleUp: the `int64`-to-`int` conversion of `n` is the identity here.
- The pre-scale-in hook calls back into `LookupNodeID` to map nodes to servers (plugin/plugin.go:85). Its answer is an oracle, so the listing calls it makes for itself are not in the log; the log holds the calls the core itself issues.
- Go strings are byte sequences; here they are sequences of characters. The separators the decoders split on (`,`, newline and `=`) are ASCII, so splitting and replacing give the same pieces either way.

## Findings

| source | as written | input that shows it | evidently intended | confidence | as-written member | corrected member |
|---|---|---|---|---|---|---|
| plugin/plugin.go:149 | the send loop starts at `num` (`for i := num; i < num; i++`), so no server is ever queued and `ScaleUp` creates nothing | any `n > 0`, e.g. `n = 3`: zero creations where three were asked for | the loop starts at 0 and queues `n` creations | not executed | TargetPlugin.ScaleUpFallsShort | TargetPlugin.ScaleUpIntendedCreatesN |
