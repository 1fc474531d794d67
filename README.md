# Opt-in regions custom resource: a Dafny model

The landing-zone accelerator enables AWS opt-in regions in member accounts through a
CloudFormation custom resource with two Lambda handlers:

- the **onEvent** handler (`source/packages/@aws-accelerator/constructs/lib/aws-controltower/enable-opt-in-regions/index.ts`) answers Create, Update and Delete. Create and Update
  report "not complete yet" and hand the request's `props` back; Delete reports completion
  at once.
- the **isComplete** handler (`source/packages/@aws-accelerator/constructs/lib/aws-controltower/enable-opt-in-regions-status/index.ts`) is polled by the custom-resource framework until it
  reports completion. Each poll walks every account and every requested region (accounts
  outer, regions inner). It keeps a pair only if the region is on the opt-in whitelist and
  the account is not the management account. For each kept pair it fetches cross-account
  credentials, queries the region's opt-in status, calls EnableRegion when the status is
  `DISABLED`, and reports the pair complete unless the status is `DISABLED`, `ENABLING`
  or `DISABLING` or the query failed. The poll is complete when every kept pair is.

Files:

- `wrappers.dfy`: `Option` (a value or `undefined`) and `Settled` (a promise that
  resolves with a value or rejects).
- `custom_resource.dfy`: the custom-resource `Event` and the lookup of one of its properties.
- `on_event.dfy`: module `OptInRegionsOnEvent`, the onEvent handler as a pure function.
- `status_poller.dfy`: module `OptInRegionsStatus`, the isComplete handler.
  - The outside world is a value `Oracles`. It says what STS answers to the credential
    request made while visiting an account and region (each fetch of a poll can fail on
    its own, including two fetches for the same account), what GetRegionOptStatus answers for an account and region (a status string,
    an undefined status, or an error), and whether EnableRegion succeeds.
  - The class `AccountApi` makes the calls and records each one, in order, in its `calls` field.
  - The methods `ProcessAccountRegion`, `ProcessAllAccountsRegions` and `Handler`
    follow the source functions: nested `while` loops, the guard, the credential fetch
    outside any `try`, and the per-pair catch. The inner loop over one account's
    regions is the method `ProcessAccountRegions`, called from the outer loop.
  - `LoopRegions` and `LoopAccounts` restate the two loops as functions, one iteration
    per step. `LoopsFollowPoll` proves that together they compute `Poll`.
  - They are proved against pure functions. `EligiblePairs` is the filtered cross product,
    `ProcessPair` is the status rule, and `Run`/`Poll` is the whole poll as a list of calls,
    the pair states, and whether it aborted. The lemmas state the poll's properties about
    these functions.

How the model reads the source, where a plain reading might differ:

- `managementAccountId` is optional. The construct that creates the resource
  (`enable-opt-in-regions.ts`, lines 119-125) never puts it in `props`. When it is absent,
  the account test `accountId !== props.managementAccountId` is always true, so no account
  is excluded.
- A credential fetch that throws propagates out of the handler. It sits outside the
  `try` of `processAccountRegion` and is awaited inside the loop. So the poll rejects at
  that pair, and later pairs are not visited. Such a failure
  does not become an incomplete pair, and the handler does throw. A response without a `Credentials` object also throws there
  (a property read on `undefined`), and the model folds it into the same failure.
- Completion is not "status is ENABLED". Any status other than the three named values
  counts as complete, including an undefined status and an unknown string.
- The whitelist test is the only region filter. Regions already enabled are queried on
  every poll.
- An error from the enable call is caught like an error from the status query. In both
  cases the pair is incomplete, so whether EnableRegion succeeds never changes a poll's
  calls or outcome (`PollIgnoresEnableOutcome`).
- The onEvent handler switches on the request-type string with no `default`. A request
  type other than Create, Update or Delete therefore makes it return `undefined` (`None`).

## Model

| member | source | states |
|---|---|---|
| `CustomResource.Property` | source/packages/@aws-accelerator/constructs/lib/aws-controltower/enable-opt-in-regions-status/index.ts:28 | `event.ResourceProperties[key]` is defined exactly when the key is present, and then it is that entry |
| `OptInRegionsOnEvent.Handler` | source/packages/@aws-accelerator/constructs/lib/aws-controltower/enable-opt-in-regions/index.ts:39-54 | a response exists iff the request type is Create, Update or Delete; Status is always `SUCCESS` and Reason is never set; IsComplete holds iff the request is Delete; Create/Update return the event's `props` as Props, and Delete returns no Props |
| `OptInRegionsOnEvent.UpdateAnsweredAsCreate` | source/packages/@aws-accelerator/constructs/lib/aws-controltower/enable-opt-in-regions/index.ts:40-41 | an Update gets exactly the response a Create with the same properties gets |
| `OptInRegionsOnEvent.PropsForwardedUnchanged` | source/packages/@aws-accelerator/constructs/lib/aws-controltower/enable-opt-in-regions/index.ts:40-46 | for Create/Update the response is `{IsComplete: false, Status: SUCCESS, Props: props}`, with props unchanged |
| `OptInRegionsOnEvent.DeleteCompletesAtOnce` | source/packages/@aws-accelerator/constructs/lib/aws-controltower/enable-opt-in-regions/index.ts:48-53 | Delete answers `{IsComplete: true, Status: SUCCESS}` with no Props and no Reason |
| `OptInRegionsStatus.EligiblePairsMembership` | source/packages/@aws-accelerator/constructs/lib/aws-controltower/enable-opt-in-regions-status/index.ts:40-42 | a pair is processed iff its account is listed, its region is requested, the region is on the opt-in whitelist, and the account differs from `managementAccountId` (never excluded when absent) |
| `OptInRegionsStatus.ExampleEligiblePairs` | source/packages/@aws-accelerator/constructs/lib/aws-controltower/enable-opt-in-regions-status/index.ts:40-42 | with the management account and one member account and one opt-in region, only the member account's pair is processed |
| `OptInRegionsStatus.ProcessPair` | source/packages/@aws-accelerator/constructs/lib/aws-controltower/enable-opt-in-regions-status/index.ts:59-91 | a processed pair makes one status query, plus one enable call iff the status is `DISABLED`; it is complete iff the query answered with a status other than `DISABLED`, `ENABLING`, `DISABLING` |
| `OptInRegionsStatus.DisabledStartsOptIn` | source/packages/@aws-accelerator/constructs/lib/aws-controltower/enable-opt-in-regions-status/index.ts:73-76 | status `DISABLED`: the pair's calls are the query and exactly one enable call for that region, and the pair is incomplete |
| `OptInRegionsStatus.TransitionInProgress` | source/packages/@aws-accelerator/constructs/lib/aws-controltower/enable-opt-in-regions-status/index.ts:77-79 | status `ENABLING` or `DISABLING`: no enable call, and the pair is incomplete |
| `OptInRegionsStatus.OtherStatusComplete` | source/packages/@aws-accelerator/constructs/lib/aws-controltower/enable-opt-in-regions-status/index.ts:80-82 | any other status, including an undefined one: no enable call, and the pair is complete |
| `OptInRegionsStatus.StatusErrorCaught` | source/packages/@aws-accelerator/constructs/lib/aws-controltower/enable-opt-in-regions-status/index.ts:84-90 | a failing status query (rethrown at lines 98-104) is caught for the pair: the pair is incomplete, no enable call is made, and nothing escapes |
| `OptInRegionsStatus.PollIgnoresEnableOutcome` | source/packages/@aws-accelerator/constructs/lib/aws-controltower/enable-opt-in-regions-status/index.ts:73-90 | a failing enable call (rethrown at lines 111-117) is caught with the same answer as a successful one, so a poll's calls and outcome are the same either way |
| `OptInRegionsStatus.RunIgnoresEnableOutcome` | source/packages/@aws-accelerator/constructs/lib/aws-controltower/enable-opt-in-regions-status/index.ts:73-90 | the same for the loop over any list of pairs |
| `OptInRegionsStatus.AllComplete` | source/packages/@aws-accelerator/constructs/lib/aws-controltower/enable-opt-in-regions-status/index.ts:56 | `every(state => state.isComplete)` holds iff every collected pair state is complete |
| `OptInRegionsStatus.RunAllIssued` | source/packages/@aws-accelerator/constructs/lib/aws-controltower/enable-opt-in-regions-status/index.ts:40-51 | when every credential fetch succeeds, the loop does not abort; its calls are, pair after pair, one fetch followed by that pair's own calls; and the k-th state belongs to the k-th pair, complete iff its status reports complete |
| `OptInRegionsStatus.RunStopsAt` | source/packages/@aws-accelerator/constructs/lib/aws-controltower/enable-opt-in-regions-status/index.ts:43-45 | when the k-th fetch is the first that fails, the loop aborts; its calls are the full calls of the first k pairs and then that one fetch |
| `OptInRegionsStatus.PollIsComplete` | source/packages/@aws-accelerator/constructs/lib/aws-controltower/enable-opt-in-regions-status/index.ts:38-57 | the poll rejects iff a credential fetch for some eligible pair fails; otherwise IsComplete is true iff every eligible pair's status reports complete (vacuously true when none is eligible) |
| `OptInRegionsStatus.NothingEligibleIsComplete` | source/packages/@aws-accelerator/constructs/lib/aws-controltower/enable-opt-in-regions-status/index.ts:55-56 | when no listed pair passes the filter, the poll makes no call at all and resolves to true |
| `OptInRegionsStatus.PollCallsPermitted` | source/packages/@aws-accelerator/constructs/lib/aws-controltower/enable-opt-in-regions-status/index.ts:40-45 | every call of a poll is for a listed account other than the management account; every fetch uses the request's home region, partition and role, and is only made when some requested region is on the whitelist; every status query or enable call names a requested region on the whitelist |
| `OptInRegionsStatus.PollVisitsEveryEligiblePair` | source/packages/@aws-accelerator/constructs/lib/aws-controltower/enable-opt-in-regions-status/index.ts:40-51 | with every credential issued, the fetched accounts, in order, are those of the eligible pairs (one fetch per pair, accounts outer, regions inner); the queried pairs are exactly the eligible pairs in that order; the enabled pairs are exactly the `DISABLED` ones among them |
| `OptInRegionsStatus.PollAbortsOnCredentialFailure` | source/packages/@aws-accelerator/constructs/lib/aws-controltower/enable-opt-in-regions-status/index.ts:43-45 | if the k-th eligible pair's fetch is the first to fail, the handler rejects; the pairs before it were fetched, queried and (if `DISABLED`) enabled; that pair was only fetched; later pairs got no call |
| `OptInRegionsStatus.ExampleFirstPoll` | source/packages/@aws-accelerator/constructs/lib/aws-controltower/enable-opt-in-regions-status/index.ts:38-57 | example: the member account's `DISABLED` region gets one fetch, one query and one enable call, and the poll resolves to false |
| `OptInRegionsStatus.ExampleLaterPoll` | source/packages/@aws-accelerator/constructs/lib/aws-controltower/enable-opt-in-regions-status/index.ts:38-57 | example: once that region reports `ENABLED`, the poll makes a fetch and a query, no enable call, and resolves to true |
| `OptInRegionsStatus.ExampleSecondFetchFails` | source/packages/@aws-accelerator/constructs/lib/aws-controltower/enable-opt-in-regions-status/index.ts:39-50 | example: one account, two whitelisted regions; the first region's fetch succeeds and the second's throws, so the first pair is fetched and queried, the second only fetched, and the poll rejects |
| `OptInRegionsStatus.AccountApi.GetCrossAccountCredentials` | source/packages/@aws-accelerator/constructs/lib/aws-controltower/enable-opt-in-regions-status/index.ts:43-45 | records one credential fetch, scoped to the account, home region, partition and role, and returns the oracle's answer for the fetch made while visiting that account and region |
| `OptInRegionsStatus.AccountApi.CheckRegionOptStatus` | source/packages/@aws-accelerator/constructs/lib/aws-controltower/enable-opt-in-regions-status/index.ts:93-105 | records one GetRegionOptStatus call for the region and returns the response's status (possibly undefined) or the error |
| `OptInRegionsStatus.AccountApi.OptInRegion` | source/packages/@aws-accelerator/constructs/lib/aws-controltower/enable-opt-in-regions-status/index.ts:107-118 | records one EnableRegion call for the region and returns whether it succeeded |
| `OptInRegionsStatus.ProcessAccountRegion` | source/packages/@aws-accelerator/constructs/lib/aws-controltower/enable-opt-in-regions-status/index.ts:59-91 | appends exactly the pair's calls of `ProcessPair` to the log and returns its pair state, so an error from either call ends as an incomplete pair |
| `OptInRegionsStatus.LoopRegionsFollowRun` | source/packages/@aws-accelerator/constructs/lib/aws-controltower/enable-opt-in-regions-status/index.ts:40-50 | running the inner loop over one account's regions after some pairs are done equals running the poll over those pairs followed by that account's admitted pairs, in region order |
| `OptInRegionsStatus.LoopAccountsFollowRun` | source/packages/@aws-accelerator/constructs/lib/aws-controltower/enable-opt-in-regions-status/index.ts:39-51 | the outer loop over any prefix of the accounts equals the poll over the admitted pairs of those accounts, accounts outer and regions inner |
| `OptInRegionsStatus.LoopsFollowPoll` | source/packages/@aws-accelerator/constructs/lib/aws-controltower/enable-opt-in-regions-status/index.ts:39-51 | the nested loops over the request's accounts and regions compute exactly `Poll`: the same calls, the same pair states, and the same abort |
| `OptInRegionsStatus.ProcessAccountRegions` | source/packages/@aws-accelerator/constructs/lib/aws-controltower/enable-opt-in-regions-status/index.ts:40-50 | the inner loop over one account's regions appends exactly the calls of `LoopRegions` to the log; it rejects iff `LoopRegions` aborts at a failing fetch, and otherwise returns the states collected so far extended by that account's pair states |
| `OptInRegionsStatus.ProcessAllAccountsRegions` | source/packages/@aws-accelerator/constructs/lib/aws-controltower/enable-opt-in-regions-status/index.ts:38-57 | the nested loops append exactly the calls of `Poll` to the log, and settle as `Poll` says: rejected at the first failing fetch, otherwise the AND of the pair states |
| `OptInRegionsStatus.Handler` | source/packages/@aws-accelerator/constructs/lib/aws-controltower/enable-opt-in-regions-status/index.ts:22-36 | a missing `props` rejects before any call; otherwise the handler makes the poll's calls and answers `{IsComplete}` from it, or rejects when the poll does |

## Left out

- `enable-opt-in-regions.ts` is not modelled. It only wires up resources: the Lambda functions, log groups, IAM policy and Provider. The 300-second query interval and the 4-hour total timeout are enforced by the hosting framework, so the sequence of polls is not modelled.
- `aws-opt-in-regions/enable-opt-in-regions/index.ts` is not modelled. It maps `setStsTokenPreferences`, a library function whose code is not part of this model, over the accounts.
- `Promise.all` concurrency is not modelled: pairs are processed one after another. In the source, when a later credential fetch throws, the status queries and enable calls of earlier pairs may still be in flight. The model finishes them before it aborts.
- `throttlingBackOff` retries and backoff are not modelled. Each oracle gives the final answer after any retries.
- `getCrossAccountCredentials`, the STS and Account API clients, and the network are oracles. They are fixed for one poll, so a pair listed twice (a repeated account or region) gets the same credential and status answers both times. The real service could answer `ENABLING` the second time.
- `AccountApi` answers by account id. Building the `AccountClient` from `credentials` and `homeRegion` is not modelled. Neither are credential fields that are present but undefined.
- The contents of the `OptInRegions` whitelist come from a module that is not part of this model. The whitelist is a parameter.
- `console.log` output is not modelled.
- Event entries other than `props` (`uuid`, `ServiceToken`) are not modelled. The isComplete handler's property bag is typed as `Props`.
