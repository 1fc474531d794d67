/** The isComplete handler of the opt-in regions custom resource. Every poll walks
    the accounts x regions cross product, keeps the pairs whose region may be opted
    into and whose account is not the management account, fetches credentials for
    each kept pair, queries the pair's opt-in status, starts the opt-in of a
    DISABLED region, and reports completion when every kept pair is complete.

    The outside world is a set of oracles: what STS answers to a credential
    request, what GetRegionOptStatus answers for an account and region, and
    whether EnableRegion succeeds. `AccountApi` records every call in order. */
module OptInRegionsStatus {
  import opened Wrappers
  import opened CustomResource

  type AccountId = string
  type RegionName = string

  const DISABLED := "DISABLED"
  const ENABLING := "ENABLING"
  const DISABLING := "DISABLING"

  /** `OptInRegionsProps`. The construct that creates the resource never sets
      `managementAccountId`, so it is optional here. */
  datatype Props = Props(
    managementAccountId: Option<AccountId>,
    accountIds: seq<AccountId>,
    homeRegion: RegionName,
    enabledRegions: seq<RegionName>,
    managementAccountAccessRole: string,
    partition: string)

  datatype Credentials = Credentials(accessKeyId: string, secretAccessKey: string, sessionToken: string)

  /** What a GetRegionOptStatus call gives back: the response's `RegionOptStatus`,
      which may be undefined, or an error (rethrown by checkRegionOptStatus). */
  datatype StatusReply = StatusOk(optStatus: Option<string>) | StatusFailed

  /** The answers of the outside world. `credentials` is None when
      getCrossAccountCredentials throws or its response has no Credentials object.
      The loop fetches credentials anew for every admitted pair, and each fetch can
      fail on its own, so the answer is keyed by the pair whose visit makes the fetch
      (its region is not sent to STS) as well as by the fetch's arguments. */
  datatype Oracles = Oracles(
    credentials: (Pair, RegionName, string, string) -> Option<Credentials>,
    status: (AccountId, RegionName) -> StatusReply,
    enable: (AccountId, RegionName) -> bool)

  /** One external call made by the poller. */
  datatype Call =
    | FetchCredentials(account: AccountId, homeRegion: RegionName, partition: string, role: string)
    | GetRegionOptStatus(account: AccountId, region: RegionName)
    | EnableRegion(account: AccountId, region: RegionName)

  datatype Pair = Pair(account: AccountId, region: RegionName)

  /** `{ accountId, isComplete }`, the value processAccountRegion resolves to. */
  datatype PairState = PairState(accountId: AccountId, isComplete: bool)

  /** `{ IsComplete }`, the handler's response. */
  datatype IsCompleteResponse = IsCompleteResponse(isComplete: bool)

  // ---------------------------------------------------------------------------
  // Which pairs are processed

  /** The test guarding the loop body: the region is on the opt-in list and the
      account is not the management account (always true when that id is absent). */
  predicate Eligible(p: Pair, managementAccountId: Option<AccountId>, optInRegions: set<RegionName>)
  {
    p.region in optInRegions && Some(p.account) != managementAccountId
  }

  /** The pairs of one account, in the order of its regions. */
  function Row(account: AccountId, regions: seq<RegionName>): seq<Pair>
  {
    seq(|regions|, j requires 0 <= j < |regions| => Pair(account, regions[j]))
  }

  /** The cross product, accounts outer and regions inner. */
  function Cross(accounts: seq<AccountId>, regions: seq<RegionName>): seq<Pair>
  {
    if accounts == [] then [] else Row(accounts[0], regions) + Cross(accounts[1..], regions)
  }

  /** The eligible pairs of `ps`, in their order. */
  function Keep(ps: seq<Pair>, managementAccountId: Option<AccountId>, optInRegions: set<RegionName>): seq<Pair>
  {
    if ps == [] then []
    else (if Eligible(ps[0], managementAccountId, optInRegions) then [ps[0]] else [])
         + Keep(ps[1..], managementAccountId, optInRegions)
  }

  /** The pairs the nested loops process, in the order they process them. */
  function EligiblePairs(props: Props, optInRegions: set<RegionName>): seq<Pair>
  {
    Keep(Cross(props.accountIds, props.enabledRegions), props.managementAccountId, optInRegions)
  }

  /** What the loop guard admits of a pair, stated without the loops. */
  predicate Admissible(p: Pair, props: Props, optInRegions: set<RegionName>)
  {
    p.account in props.accountIds && p.region in props.enabledRegions
    && Eligible(p, props.managementAccountId, optInRegions)
  }

  // ---------------------------------------------------------------------------
  // One pair

  /** The status values the rule treats as needing work; any other value, and an
      undefined status, counts as opted in. */
  predicate ReportsComplete(reply: StatusReply)
  {
    reply.StatusOk? && reply.optStatus !in {Some(DISABLED), Some(ENABLING), Some(DISABLING)}
  }

  predicate NeedsOptIn(reply: StatusReply)
  {
    reply == StatusOk(Some(DISABLED))
  }

  datatype PairRun = PairRun(calls: seq<Call>, state: PairState)

  /** processAccountRegion once its credentials are in hand: the status query, the
      status rule and, for DISABLED, the enable call. A failing query or enable call is
      caught and makes the pair incomplete; so the enable call's own result never
      changes the pair's outcome. */
  function ProcessPair(p: Pair, o: Oracles): (r: PairRun)
    ensures r.state == PairState(p.account, ReportsComplete(o.status(p.account, p.region)))
    ensures r.calls == [GetRegionOptStatus(p.account, p.region)]
                       + (if NeedsOptIn(o.status(p.account, p.region)) then [EnableRegion(p.account, p.region)] else [])
  {
    var query := GetRegionOptStatus(p.account, p.region);
    match o.status(p.account, p.region)
    case StatusFailed =>
      PairRun([query], PairState(p.account, false))
    case StatusOk(optStatus) =>
      if optStatus == Some(DISABLED) then
        PairRun([query, EnableRegion(p.account, p.region)], PairState(p.account, false))
      else if optStatus == Some(ENABLING) || optStatus == Some(DISABLING) then
        PairRun([query], PairState(p.account, false))
      else
        PairRun([query], PairState(p.account, true))
  }

  lemma DisabledStartsOptIn(p: Pair, o: Oracles)
    requires o.status(p.account, p.region) == StatusOk(Some(DISABLED))
    ensures ProcessPair(p, o).calls == [GetRegionOptStatus(p.account, p.region), EnableRegion(p.account, p.region)]
    ensures !ProcessPair(p, o).state.isComplete
  {
  }

  lemma TransitionInProgress(p: Pair, o: Oracles)
    requires o.status(p.account, p.region) in {StatusOk(Some(ENABLING)), StatusOk(Some(DISABLING))}
    ensures ProcessPair(p, o).calls == [GetRegionOptStatus(p.account, p.region)]
    ensures !ProcessPair(p, o).state.isComplete
  {
  }

  lemma OtherStatusComplete(p: Pair, o: Oracles, optStatus: Option<string>)
    requires o.status(p.account, p.region) == StatusOk(optStatus)
    requires optStatus !in {Some(DISABLED), Some(ENABLING), Some(DISABLING)}
    ensures ProcessPair(p, o).calls == [GetRegionOptStatus(p.account, p.region)]
    ensures ProcessPair(p, o).state.isComplete
  {
  }

  lemma StatusErrorCaught(p: Pair, o: Oracles)
    requires o.status(p.account, p.region) == StatusFailed
    ensures ProcessPair(p, o).calls == [GetRegionOptStatus(p.account, p.region)]
    ensures ProcessPair(p, o).state == PairState(p.account, false)
  {
  }

  // ---------------------------------------------------------------------------
  // The whole poll

  predicate Issued(p: Pair, props: Props, o: Oracles)
  {
    o.credentials(p, props.homeRegion, props.partition, props.managementAccountAccessRole).Some?
  }

  function FetchCall(p: Pair, props: Props): Call
  {
    FetchCredentials(p.account, props.homeRegion, props.partition, props.managementAccountAccessRole)
  }

  /** The calls made so far, the pair states collected so far, and whether a
      credential fetch has thrown out of the loop. */
  datatype Trace = Trace(calls: seq<Call>, states: seq<PairState>, aborted: bool)

  /** One pass of the loop body for an eligible pair. */
  function Step(t: Trace, p: Pair, props: Props, o: Oracles): Trace
  {
    if !Issued(p, props, o) then
      Trace(t.calls + [FetchCall(p, props)], t.states, true)
    else
      var r := ProcessPair(p, o);
      Trace(t.calls + [FetchCall(p, props)] + r.calls, t.states + [r.state], false)
  }

  /** The loop body over `ps` in order, stopping at the first thrown credential fetch. */
  function Run(ps: seq<Pair>, props: Props, o: Oracles): Trace
  {
    if ps == [] then Trace([], [], false)
    else
      var t := Run(ps[..|ps| - 1], props, o);
      if t.aborted then t else Step(t, ps[|ps| - 1], props, o)
  }

  function Poll(props: Props, optInRegions: set<RegionName>, o: Oracles): Trace
  {
    Run(EligiblePairs(props, optInRegions), props, o)
  }

  /** `results.every(state => state.isComplete)` */
  function AllComplete(states: seq<PairState>): (r: bool)
    ensures r <==> forall k :: 0 <= k < |states| ==> states[k].isComplete
  {
    states == [] || (states[0].isComplete && AllComplete(states[1..]))
  }

  /** How processAllAccountsRegions settles after a poll. */
  function PollOutcome(t: Trace): Settled<bool>
  {
    if t.aborted then Rejected else Resolved(AllComplete(t.states))
  }

  // Reference descriptions of the calls, written without the loop.

  /** The calls of pairs whose credentials were all issued, pair after pair. */
  function Segments(ps: seq<Pair>, props: Props, o: Oracles): seq<Call>
  {
    if ps == [] then [] else [FetchCall(ps[0], props)] + ProcessPair(ps[0], o).calls + Segments(ps[1..], props, o)
  }

  /** The accounts credentials were fetched for, in call order. */
  function Fetched(calls: seq<Call>): seq<AccountId>
  {
    if calls == [] then []
    else (if calls[0].FetchCredentials? then [calls[0].account] else []) + Fetched(calls[1..])
  }

  /** The pairs whose status was queried, in call order. */
  function Queried(calls: seq<Call>): seq<Pair>
  {
    if calls == [] then []
    else (if calls[0].GetRegionOptStatus? then [Pair(calls[0].account, calls[0].region)] else []) + Queried(calls[1..])
  }

  /** The pairs an enable call was issued for, in call order. */
  function Enabled(calls: seq<Call>): seq<Pair>
  {
    if calls == [] then []
    else (if calls[0].EnableRegion? then [Pair(calls[0].account, calls[0].region)] else []) + Enabled(calls[1..])
  }

  function Accounts(ps: seq<Pair>): seq<AccountId>
  {
    if ps == [] then [] else [ps[0].account] + Accounts(ps[1..])
  }

  /** The pairs of `ps` whose status is DISABLED. */
  function NeedingOptIn(ps: seq<Pair>, o: Oracles): seq<Pair>
  {
    if ps == [] then []
    else (if NeedsOptIn(o.status(ps[0].account, ps[0].region)) then [ps[0]] else []) + NeedingOptIn(ps[1..], o)
  }

  /** What the filter of the loop allows of a call: it concerns a listed account that is
      not the management account; a fetch is scoped to the home region, partition and
      role of the request and is only made while some requested region is on the
      opt-in list; a status query or enable call names a requested region on the
      opt-in list. */
  predicate Permitted(c: Call, props: Props, optInRegions: set<RegionName>)
  {
    && c.account in props.accountIds
    && Some(c.account) != props.managementAccountId
    && match c
       case FetchCredentials(_, homeRegion, partition, role) =>
         && homeRegion == props.homeRegion && partition == props.partition && role == props.managementAccountAccessRole
         && exists r | r in props.enabledRegions :: r in optInRegions
       case GetRegionOptStatus(_, region) => region in optInRegions && region in props.enabledRegions
       case EnableRegion(_, region) => region in optInRegions && region in props.enabledRegions
  }

  // ---------------------------------------------------------------------------
  // Lemmas about the pair list

  lemma {:induction false} CrossAppend(xs: seq<AccountId>, ys: seq<AccountId>, regions: seq<RegionName>)
    ensures Cross(xs + ys, regions) == Cross(xs, regions) + Cross(ys, regions)
  {
    if xs != [] {
      assert (xs + ys)[1..] == xs[1..] + ys;
      CrossAppend(xs[1..], ys, regions);
    } else {
      assert xs + ys == ys;
    }
  }

  lemma {:induction false} KeepAppend(xs: seq<Pair>, ys: seq<Pair>, m: Option<AccountId>, w: set<RegionName>)
    ensures Keep(xs + ys, m, w) == Keep(xs, m, w) + Keep(ys, m, w)
  {
    if xs != [] {
      assert (xs + ys)[1..] == xs[1..] + ys;
      KeepAppend(xs[1..], ys, m, w);
    } else {
      assert xs + ys == ys;
    }
  }

  lemma RowSnoc(account: AccountId, regions: seq<RegionName>, j: nat)
    requires j < |regions|
    ensures Row(account, regions[..j + 1]) == Row(account, regions[..j]) + [Pair(account, regions[j])]
  {
  }

  lemma {:induction false} KeepMembership(ps: seq<Pair>, m: Option<AccountId>, w: set<RegionName>, p: Pair)
    ensures p in Keep(ps, m, w) <==> p in ps && Eligible(p, m, w)
  {
    if ps != [] {
      KeepMembership(ps[1..], m, w, p);
      assert ps == [ps[0]] + ps[1..];
    }
  }

  lemma {:induction false} CrossMembership(accounts: seq<AccountId>, regions: seq<RegionName>, p: Pair)
    ensures p in Cross(accounts, regions) <==> p.account in accounts && p.region in regions
  {
    if accounts != [] {
      CrossMembership(accounts[1..], regions, p);
      assert accounts == [accounts[0]] + accounts[1..];
      if p.account == accounts[0] && p.region in regions {
        var j :| 0 <= j < |regions| && regions[j] == p.region;
        assert Row(accounts[0], regions)[j] == p;
      }
    }
  }

  /** A pair is processed exactly when the guard of the nested loops admits it. */
  lemma EligiblePairsMembership(props: Props, optInRegions: set<RegionName>, p: Pair)
    ensures p in EligiblePairs(props, optInRegions) <==> Admissible(p, props, optInRegions)
  {
    KeepMembership(Cross(props.accountIds, props.enabledRegions), props.managementAccountId, optInRegions, p);
    CrossMembership(props.accountIds, props.enabledRegions, p);
  }

  // ---------------------------------------------------------------------------
  // Lemmas about the poll

  lemma {:induction false} SegmentsAppend(xs: seq<Pair>, ys: seq<Pair>, props: Props, o: Oracles)
    ensures Segments(xs + ys, props, o) == Segments(xs, props, o) + Segments(ys, props, o)
  {
    if xs != [] {
      assert (xs + ys)[1..] == xs[1..] + ys;
      SegmentsAppend(xs[1..], ys, props, o);
    } else {
      assert xs + ys == ys;
    }
  }

  /** Once a credential fetch has thrown, later pairs add nothing. */
  lemma {:induction false} RunStaysAborted(xs: seq<Pair>, ys: seq<Pair>, props: Props, o: Oracles)
    requires Run(xs, props, o).aborted
    ensures Run(xs + ys, props, o) == Run(xs, props, o)
    decreases |ys|
  {
    if ys == [] {
      assert xs + ys == xs;
    } else {
      var zs := xs + ys;
      assert zs[..|zs| - 1] == xs + ys[..|ys| - 1];
      RunStaysAborted(xs, ys[..|ys| - 1], props, o);
    }
  }

  /** When every credential fetch succeeds, the poll processes each pair in turn. */
  lemma {:induction false} RunAllIssued(ps: seq<Pair>, props: Props, o: Oracles)
    requires forall k :: 0 <= k < |ps| ==> Issued(ps[k], props, o)
    ensures !Run(ps, props, o).aborted
    ensures Run(ps, props, o).calls == Segments(ps, props, o)
    ensures |Run(ps, props, o).states| == |ps|
    ensures forall k :: 0 <= k < |ps| ==>
              Run(ps, props, o).states[k] == PairState(ps[k].account, ReportsComplete(o.status(ps[k].account, ps[k].region)))
  {
    if ps != [] {
      var init, last := ps[..|ps| - 1], ps[|ps| - 1];
      RunAllIssued(init, props, o);
      SegmentsAppend(init, [last], props, o);
      assert ps == init + [last];
      assert Segments([last], props, o) == [FetchCall(last, props)] + ProcessPair(last, o).calls;
    }
  }

  /** The first credential fetch that throws ends the poll right after that fetch. */
  lemma RunStopsAt(ps: seq<Pair>, k: nat, props: Props, o: Oracles)
    requires k < |ps|
    requires forall i :: 0 <= i < k ==> Issued(ps[i], props, o)
    requires !Issued(ps[k], props, o)
    ensures Run(ps, props, o).aborted
    ensures Run(ps, props, o).calls == Segments(ps[..k], props, o) + [FetchCall(ps[k], props)]
  {
    var q := ps[..k + 1];
    assert q[..k] == ps[..k];
    RunAllIssued(ps[..k], props, o);
    assert ps == q + ps[k + 1..];
    RunStaysAborted(q, ps[k + 1..], props, o);
  }

  lemma {:induction false} FirstFailure(ps: seq<Pair>, props: Props, o: Oracles) returns (k: nat)
    requires !(forall p | p in ps :: Issued(p, props, o))
    ensures k < |ps| && !Issued(ps[k], props, o)
    ensures forall i :: 0 <= i < k ==> Issued(ps[i], props, o)
  {
    if Issued(ps[0], props, o) {
      assert !(forall p | p in ps[1..] :: Issued(p, props, o)) by {
        var p :| p in ps && !Issued(p, props, o);
        assert p != ps[0];
        assert ps == [ps[0]] + ps[1..];
      }
      var k' := FirstFailure(ps[1..], props, o);
      k := k' + 1;
    } else {
      k := 0;
    }
  }

  /** IsComplete is true iff every processed pair reports complete (vacuously so when
      there is none), and the handler throws iff some credential fetch fails. */
  lemma PollIsComplete(props: Props, optInRegions: set<RegionName>, o: Oracles)
    ensures var ps := EligiblePairs(props, optInRegions);
            PollOutcome(Poll(props, optInRegions, o))
            == if forall p | p in ps :: Issued(p, props, o)
               then Resolved(forall p | p in ps :: ReportsComplete(o.status(p.account, p.region)))
               else Rejected
  {
    var ps := EligiblePairs(props, optInRegions);
    if forall p | p in ps :: Issued(p, props, o) {
      RunAllIssued(ps, props, o);
      var states := Run(ps, props, o).states;
      if forall p | p in ps :: ReportsComplete(o.status(p.account, p.region)) {
        assert forall k :: 0 <= k < |states| ==> states[k].isComplete by {
          forall k | 0 <= k < |states| ensures states[k].isComplete {
            assert ps[k] in ps;
          }
        }
      } else {
        var p :| p in ps && !ReportsComplete(o.status(p.account, p.region));
        var k :| 0 <= k < |ps| && ps[k] == p;
        assert !states[k].isComplete;
      }
    } else {
      var k := FirstFailure(ps, props, o);
      RunStopsAt(ps, k, props, o);
    }
  }

  /** A poll with no eligible pair makes no call at all and reports completion. */
  lemma NothingEligibleIsComplete(props: Props, optInRegions: set<RegionName>, o: Oracles)
    requires forall a, r | a in props.accountIds && r in props.enabledRegions ::
               !Eligible(Pair(a, r), props.managementAccountId, optInRegions)
    ensures Poll(props, optInRegions, o).calls == []
    ensures PollOutcome(Poll(props, optInRegions, o)) == Resolved(true)
  {
    var ps := EligiblePairs(props, optInRegions);
    if ps != [] {
      EligiblePairsMembership(props, optInRegions, ps[0]);
      assert false;
    }
  }

  lemma {:induction false} FetchedAppend(xs: seq<Call>, ys: seq<Call>)
    ensures Fetched(xs + ys) == Fetched(xs) + Fetched(ys)
  {
    if xs != [] {
      assert (xs + ys)[1..] == xs[1..] + ys;
      FetchedAppend(xs[1..], ys);
    } else {
      assert xs + ys == ys;
    }
  }

  lemma {:induction false} QueriedAppend(xs: seq<Call>, ys: seq<Call>)
    ensures Queried(xs + ys) == Queried(xs) + Queried(ys)
  {
    if xs != [] {
      assert (xs + ys)[1..] == xs[1..] + ys;
      QueriedAppend(xs[1..], ys);
    } else {
      assert xs + ys == ys;
    }
  }

  lemma {:induction false} EnabledAppend(xs: seq<Call>, ys: seq<Call>)
    ensures Enabled(xs + ys) == Enabled(xs) + Enabled(ys)
  {
    if xs != [] {
      assert (xs + ys)[1..] == xs[1..] + ys;
      EnabledAppend(xs[1..], ys);
    } else {
      assert xs + ys == ys;
    }
  }

  /** Each processed pair contributes one credential fetch, in the order of the pairs. */
  lemma {:induction false} SegmentsFetched(ps: seq<Pair>, props: Props, o: Oracles)
    ensures Fetched(Segments(ps, props, o)) == Accounts(ps)
  {
    if ps != [] {
      var p := ps[0];
      var f := [FetchCall(p, props)];
      var q := [GetRegionOptStatus(p.account, p.region)];
      var e := if NeedsOptIn(o.status(p.account, p.region)) then [EnableRegion(p.account, p.region)] else [];
      var rest := Segments(ps[1..], props, o);
      assert Segments(ps, props, o) == f + q + e + rest;
      SegmentsFetched(ps[1..], props, o);
      FetchedAppend(f + q + e, rest);
      FetchedAppend(f + q, e);
      FetchedAppend(f, q);
      assert ps == [p] + ps[1..];
    }
  }

  /** Each processed pair contributes one status query, in the order of the pairs. */
  lemma {:induction false} SegmentsQueried(ps: seq<Pair>, props: Props, o: Oracles)
    ensures Queried(Segments(ps, props, o)) == ps
  {
    if ps != [] {
      var p := ps[0];
      var f := [FetchCall(p, props)];
      var q := [GetRegionOptStatus(p.account, p.region)];
      var e := if NeedsOptIn(o.status(p.account, p.region)) then [EnableRegion(p.account, p.region)] else [];
      var rest := Segments(ps[1..], props, o);
      assert Segments(ps, props, o) == f + q + e + rest;
      SegmentsQueried(ps[1..], props, o);
      QueriedAppend(f + q + e, rest);
      QueriedAppend(f + q, e);
      QueriedAppend(f, q);
      assert ps == [p] + ps[1..];
    }
  }

  /** Exactly the DISABLED pairs contribute an enable call, in the order of the pairs. */
  lemma {:induction false} SegmentsEnabled(ps: seq<Pair>, props: Props, o: Oracles)
    ensures Enabled(Segments(ps, props, o)) == NeedingOptIn(ps, o)
  {
    if ps != [] {
      var p := ps[0];
      var f := [FetchCall(p, props)];
      var q := [GetRegionOptStatus(p.account, p.region)];
      var e := if NeedsOptIn(o.status(p.account, p.region)) then [EnableRegion(p.account, p.region)] else [];
      var rest := Segments(ps[1..], props, o);
      assert Segments(ps, props, o) == f + q + e + rest;
      SegmentsEnabled(ps[1..], props, o);
      EnabledAppend(f + q + e, rest);
      EnabledAppend(f + q, e);
      EnabledAppend(f, q);
      assert ps == [p] + ps[1..];
    }
  }

  lemma SegmentsProjections(ps: seq<Pair>, props: Props, o: Oracles)
    ensures Fetched(Segments(ps, props, o)) == Accounts(ps)
    ensures Queried(Segments(ps, props, o)) == ps
    ensures Enabled(Segments(ps, props, o)) == NeedingOptIn(ps, o)
  {
    SegmentsFetched(ps, props, o);
    SegmentsQueried(ps, props, o);
    SegmentsEnabled(ps, props, o);
  }

  /** Only calls the filter permits are ever made. */
  lemma {:induction false} SegmentsPermitted(ps: seq<Pair>, props: Props, optInRegions: set<RegionName>, o: Oracles)
    requires forall k :: 0 <= k < |ps| ==> Admissible(ps[k], props, optInRegions)
    ensures forall c | c in Segments(ps, props, o) :: Permitted(c, props, optInRegions)
  {
    if ps != [] {
      assert Admissible(ps[0], props, optInRegions);
      assert Permitted(FetchCall(ps[0], props), props, optInRegions);
      SegmentsPermitted(ps[1..], props, optInRegions, o);
    }
  }

  /** Every call a poll makes, up to a thrown credential fetch, passes the filter:
      a listed non-management account, a fetch only while some requested region is
      whitelisted, and a query or enable call only for a requested, whitelisted region. */
  lemma PollCallsPermitted(props: Props, optInRegions: set<RegionName>, o: Oracles)
    ensures forall c | c in Poll(props, optInRegions, o).calls :: Permitted(c, props, optInRegions)
  {
    var ps := EligiblePairs(props, optInRegions);
    forall k | 0 <= k < |ps| ensures Admissible(ps[k], props, optInRegions) {
      EligiblePairsMembership(props, optInRegions, ps[k]);
    }
    if forall p | p in ps :: Issued(p, props, o) {
      RunAllIssued(ps, props, o);
      SegmentsPermitted(ps, props, optInRegions, o);
    } else {
      var k := FirstFailure(ps, props, o);
      RunStopsAt(ps, k, props, o);
      SegmentsPermitted(ps[..k], props, optInRegions, o);
      assert Admissible(ps[k], props, optInRegions);
      assert Permitted(FetchCall(ps[k], props), props, optInRegions);
    }
  }

  /** With every credential issued, the poll fetches credentials once per eligible
      pair and queries each pair once, accounts outer and regions inner, and enables
      exactly the DISABLED pairs. */
  lemma PollVisitsEveryEligiblePair(props: Props, optInRegions: set<RegionName>, o: Oracles)
    requires forall p | p in EligiblePairs(props, optInRegions) :: Issued(p, props, o)
    ensures var ps, calls := EligiblePairs(props, optInRegions), Poll(props, optInRegions, o).calls;
            && Fetched(calls) == Accounts(ps)
            && Queried(calls) == ps
            && Enabled(calls) == NeedingOptIn(ps, o)
  {
    var ps := EligiblePairs(props, optInRegions);
    RunAllIssued(ps, props, o);
    SegmentsProjections(ps, props, o);
  }

  /** A credential fetch that throws at the k-th eligible pair ends the poll there:
      the earlier pairs were processed in full, that pair only had its credentials
      requested, later pairs nothing, and the handler throws. */
  lemma PollAbortsOnCredentialFailure(props: Props, optInRegions: set<RegionName>, o: Oracles, k: nat)
    requires k < |EligiblePairs(props, optInRegions)|
    requires forall i :: 0 <= i < k ==> Issued(EligiblePairs(props, optInRegions)[i], props, o)
    requires !Issued(EligiblePairs(props, optInRegions)[k], props, o)
    ensures PollOutcome(Poll(props, optInRegions, o)) == Rejected
    ensures var ps, calls := EligiblePairs(props, optInRegions), Poll(props, optInRegions, o).calls;
            && Fetched(calls) == Accounts(ps[..k]) + [ps[k].account]
            && Queried(calls) == ps[..k]
            && Enabled(calls) == NeedingOptIn(ps[..k], o)
  {
    var ps := EligiblePairs(props, optInRegions);
    RunStopsAt(ps, k, props, o);
    var segs := Segments(ps[..k], props, o);
    SegmentsProjections(ps[..k], props, o);
    FetchedAppend(segs, [FetchCall(ps[k], props)]);
    QueriedAppend(segs, [FetchCall(ps[k], props)]);
    EnabledAppend(segs, [FetchCall(ps[k], props)]);
  }

  /** Whether an enable call succeeds or throws never shows: the catch gives the
      same answer, so the calls and the outcome of a poll do not depend on it. */
  lemma {:induction false} RunIgnoresEnableOutcome(ps: seq<Pair>, props: Props, o: Oracles, enable: (AccountId, RegionName) -> bool)
    ensures Run(ps, props, o) == Run(ps, props, o.(enable := enable))
  {
    if ps != [] {
      RunIgnoresEnableOutcome(ps[..|ps| - 1], props, o, enable);
    }
  }

  lemma PollIgnoresEnableOutcome(props: Props, optInRegions: set<RegionName>, o: Oracles, enable: (AccountId, RegionName) -> bool)
    ensures Poll(props, optInRegions, o) == Poll(props, optInRegions, o.(enable := enable))
  {
    RunIgnoresEnableOutcome(EligiblePairs(props, optInRegions), props, o, enable);
  }

  /** A management account and a member account, one opt-in region: only the member
      account is touched. */
  function ExampleProps(): Props
  {
    Props(Some("111111111111"), ["111111111111", "222222222222"], "us-east-1", ["ap-east-1"], "Role", "aws")
  }

  lemma ExampleEligiblePairs()
    ensures EligiblePairs(ExampleProps(), {"ap-east-1"}) == [Pair("222222222222", "ap-east-1")]
  {
    var props := ExampleProps();
    assert props.accountIds[1..][1..] == [];
    assert Cross(props.accountIds, props.enabledRegions) == [Pair("111111111111", "ap-east-1"), Pair("222222222222", "ap-east-1")];
    assert "111111111111" != "222222222222" by { assert "111111111111"[0] != "222222222222"[0]; }
  }

  /** First poll: the member account's region is DISABLED, so it is enabled once and
      the poll is not complete. */
  lemma ExampleFirstPoll(o: Oracles)
    requires Issued(Pair("222222222222", "ap-east-1"), ExampleProps(), o)
    requires o.status("222222222222", "ap-east-1") == StatusOk(Some(DISABLED))
    ensures Poll(ExampleProps(), {"ap-east-1"}, o).calls
            == [ FetchCredentials("222222222222", "us-east-1", "aws", "Role"),
                 GetRegionOptStatus("222222222222", "ap-east-1"),
                 EnableRegion("222222222222", "ap-east-1") ]
    ensures PollOutcome(Poll(ExampleProps(), {"ap-east-1"}, o)) == Resolved(false)
  {
    var p := Pair("222222222222", "ap-east-1");
    ExampleEligiblePairs();
    assert [p][..0] == [];
    assert Run([p], ExampleProps(), o) == Step(Run([], ExampleProps(), o), p, ExampleProps(), o);
    assert Poll(ExampleProps(), {"ap-east-1"}, o) == Step(Trace([], [], false), p, ExampleProps(), o);
  }

  /** A later poll: the region is ENABLED, nothing is enabled and the poll is complete. */
  lemma ExampleLaterPoll(o: Oracles)
    requires Issued(Pair("222222222222", "ap-east-1"), ExampleProps(), o)
    requires o.status("222222222222", "ap-east-1") == StatusOk(Some("ENABLED"))
    ensures Poll(ExampleProps(), {"ap-east-1"}, o).calls
            == [ FetchCredentials("222222222222", "us-east-1", "aws", "Role"),
                 GetRegionOptStatus("222222222222", "ap-east-1") ]
    ensures PollOutcome(Poll(ExampleProps(), {"ap-east-1"}, o)) == Resolved(true)
  {
    var p := Pair("222222222222", "ap-east-1");
    ExampleEligiblePairs();
    assert [p][..0] == [];
    assert Run([p], ExampleProps(), o) == Step(Run([], ExampleProps(), o), p, ExampleProps(), o);
    assert Poll(ExampleProps(), {"ap-east-1"}, o) == Step(Trace([], [], false), p, ExampleProps(), o);
  }

  /** One member account and two opt-in regions, both whitelisted. */
  function ExampleTwoRegionProps(): Props
  {
    Props(None, ["222222222222"], "us-east-1", ["ap-east-1", "me-south-1"], "Role", "aws")
  }

  /** The fetch for the account's first region succeeds and the fetch for its second
      region throws: the first pair is fully processed, the second only fetched, and
      the handler rejects. */
  lemma ExampleSecondFetchFails(o: Oracles)
    requires Issued(Pair("222222222222", "ap-east-1"), ExampleTwoRegionProps(), o)
    requires !Issued(Pair("222222222222", "me-south-1"), ExampleTwoRegionProps(), o)
    requires o.status("222222222222", "ap-east-1") == StatusOk(Some("ENABLED"))
    ensures Poll(ExampleTwoRegionProps(), {"ap-east-1", "me-south-1"}, o).calls
            == [ FetchCredentials("222222222222", "us-east-1", "aws", "Role"),
                 GetRegionOptStatus("222222222222", "ap-east-1"),
                 FetchCredentials("222222222222", "us-east-1", "aws", "Role") ]
    ensures PollOutcome(Poll(ExampleTwoRegionProps(), {"ap-east-1", "me-south-1"}, o)) == Rejected
  {
    var props, w := ExampleTwoRegionProps(), {"ap-east-1", "me-south-1"};
    var ps := [Pair("222222222222", "ap-east-1"), Pair("222222222222", "me-south-1")];
    assert Row("222222222222", props.enabledRegions) == ps;
    assert Cross(props.accountIds, props.enabledRegions) == ps + Cross([], props.enabledRegions);
    assert EligiblePairs(props, w) == ps;
    RunStopsAt(ps, 1, props, o);
    assert ps[..1] == [ps[0]];
  }

  // ---------------------------------------------------------------------------
  // The nested loops as functions

  /** The inner loop over the regions of one account, continuing from trace `t`. */
  function LoopRegions(t: Trace, account: AccountId, regions: seq<RegionName>, props: Props,
                       optInRegions: set<RegionName>, o: Oracles): Trace
  {
    if regions == [] then t
    else
      var t' := LoopRegions(t, account, regions[..|regions| - 1], props, optInRegions, o);
      var p := Pair(account, regions[|regions| - 1]);
      if t'.aborted || !Eligible(p, props.managementAccountId, optInRegions) then t' else Step(t', p, props, o)
  }

  /** The outer loop over the accounts. */
  function LoopAccounts(accounts: seq<AccountId>, props: Props, optInRegions: set<RegionName>, o: Oracles): Trace
  {
    if accounts == [] then Trace([], [], false)
    else
      LoopRegions(LoopAccounts(accounts[..|accounts| - 1], props, optInRegions, o),
                  accounts[|accounts| - 1], props.enabledRegions, props, optInRegions, o)
  }

  lemma {:induction false} LoopRegionsFollowRun(done: seq<Pair>, account: AccountId, regions: seq<RegionName>,
                                                props: Props, optInRegions: set<RegionName>, o: Oracles)
    ensures LoopRegions(Run(done, props, o), account, regions, props, optInRegions, o)
            == Run(done + Keep(Row(account, regions), props.managementAccountId, optInRegions), props, o)
  {
    var m, w := props.managementAccountId, optInRegions;
    if regions == [] {
      assert Row(account, regions) == [];
      assert done + [] == done;
    } else {
      var j := |regions| - 1;
      var p := Pair(account, regions[j]);
      LoopRegionsFollowRun(done, account, regions[..j], props, w, o);
      RowSnoc(account, regions, j);
      assert regions[..j + 1] == regions;
      KeepAppend(Row(account, regions[..j]), [p], m, w);
      var ys := done + Keep(Row(account, regions[..j]), m, w);
      if Eligible(p, m, w) {
        assert done + Keep(Row(account, regions), m, w) == ys + [p];
        assert (ys + [p])[..|ys|] == ys;
      } else {
        assert done + Keep(Row(account, regions), m, w) == ys;
      }
    }
  }

  /** The nested loops compute exactly the poll over the eligible pairs. */
  lemma {:induction false} LoopAccountsFollowRun(accounts: seq<AccountId>, props: Props, optInRegions: set<RegionName>, o: Oracles)
    ensures LoopAccounts(accounts, props, optInRegions, o)
            == Run(Keep(Cross(accounts, props.enabledRegions), props.managementAccountId, optInRegions), props, o)
  {
    var rs, m, w := props.enabledRegions, props.managementAccountId, optInRegions;
    if accounts != [] {
      var i := |accounts| - 1;
      var init := accounts[..i];
      LoopAccountsFollowRun(init, props, w, o);
      LoopRegionsFollowRun(Keep(Cross(init, rs), m, w), accounts[i], rs, props, w, o);
      assert accounts == init + [accounts[i]];
      CrossAppend(init, [accounts[i]], rs);
      assert Cross([accounts[i]], rs) == Row(accounts[i], rs) + Cross([], rs) == Row(accounts[i], rs);
      KeepAppend(Cross(init, rs), Row(accounts[i], rs), m, w);
    }
  }

  lemma LoopsFollowPoll(props: Props, optInRegions: set<RegionName>, o: Oracles)
    ensures LoopAccounts(props.accountIds, props, optInRegions, o) == Poll(props, optInRegions, o)
  {
    LoopAccountsFollowRun(props.accountIds, props, optInRegions, o);
  }

  lemma {:induction false} LoopRegionsStayAborted(t: Trace, account: AccountId, regions: seq<RegionName>, k: nat, n: nat,
                                                  props: Props, optInRegions: set<RegionName>, o: Oracles)
    requires k <= n <= |regions|
    requires LoopRegions(t, account, regions[..k], props, optInRegions, o).aborted
    ensures LoopRegions(t, account, regions[..n], props, optInRegions, o) == LoopRegions(t, account, regions[..k], props, optInRegions, o)
    decreases n
  {
    if n > k {
      LoopRegionsStayAborted(t, account, regions, k, n - 1, props, optInRegions, o);
      assert regions[..n][..n - 1] == regions[..n - 1];
    }
  }

  lemma {:induction false} LoopAccountsStayAborted(accounts: seq<AccountId>, k: nat, n: nat,
                                                   props: Props, optInRegions: set<RegionName>, o: Oracles)
    requires k <= n <= |accounts|
    requires LoopAccounts(accounts[..k], props, optInRegions, o).aborted
    ensures LoopAccounts(accounts[..n], props, optInRegions, o) == LoopAccounts(accounts[..k], props, optInRegions, o)
    decreases n
  {
    if n > k {
      LoopAccountsStayAborted(accounts, k, n - 1, props, optInRegions, o);
      assert accounts[..n][..n - 1] == accounts[..n - 1];
      var t := LoopAccounts(accounts[..n - 1], props, optInRegions, o);
      LoopRegionsStayAborted(t, accounts[n - 1], props.enabledRegions, 0, |props.enabledRegions|, props, optInRegions, o);
      assert props.enabledRegions[..|props.enabledRegions|] == props.enabledRegions;
    }
  }

  // ---------------------------------------------------------------------------
  // The handler, with its calls made through AccountApi

  /** The services the poller calls, each behind throttlingBackOff: STS through
      getCrossAccountCredentials, and GetRegionOptStatus and EnableRegion of the
      Account API through checkRegionOptStatus and optInRegion, which log an error
      and rethrow it. Answers come from `oracles`; `calls` records every call. */
  class AccountApi {
    const oracles: Oracles
    var calls: seq<Call>

    constructor (oracles: Oracles)
      ensures this.oracles == oracles && calls == []
    {
      this.oracles := oracles;
      calls := [];
    }

    /** getCrossAccountCredentials for the visit of (`accountId`, `visitedRegion`).
        The region is not part of the request; it only tells this fetch apart from the
        fetches for the account's other regions, each of which may fail on its own. */
    method GetCrossAccountCredentials(accountId: AccountId, visitedRegion: RegionName, homeRegion: RegionName, partition: string, role: string)
      returns (r: Option<Credentials>)
      modifies this
      ensures calls == old(calls) + [FetchCredentials(accountId, homeRegion, partition, role)]
      ensures r == oracles.credentials(Pair(accountId, visitedRegion), homeRegion, partition, role)
    {
      calls := calls + [FetchCredentials(accountId, homeRegion, partition, role)];
      r := oracles.credentials(Pair(accountId, visitedRegion), homeRegion, partition, role);
    }

    method CheckRegionOptStatus(accountId: AccountId, optinRegion: RegionName) returns (r: StatusReply)
      modifies this
      ensures calls == old(calls) + [GetRegionOptStatus(accountId, optinRegion)]
      ensures r == oracles.status(accountId, optinRegion)
    {
      calls := calls + [GetRegionOptStatus(accountId, optinRegion)];
      r := oracles.status(accountId, optinRegion);
    }

    method OptInRegion(accountId: AccountId, optinRegion: RegionName) returns (ok: bool)
      modifies this
      ensures calls == old(calls) + [EnableRegion(accountId, optinRegion)]
      ensures ok == oracles.enable(accountId, optinRegion)
    {
      calls := calls + [EnableRegion(accountId, optinRegion)];
      ok := oracles.enable(accountId, optinRegion);
    }
  }

  /** processAccountRegion: its try block and the catch that turns any error of the
      status query or of the enable call into an incomplete pair. */
  method ProcessAccountRegion(api: AccountApi, accountId: AccountId, optinRegion: RegionName) returns (state: PairState)
    modifies api
    ensures api.calls == old(api.calls) + ProcessPair(Pair(accountId, optinRegion), api.oracles).calls
    ensures state == ProcessPair(Pair(accountId, optinRegion), api.oracles).state
  {
    var reply := api.CheckRegionOptStatus(accountId, optinRegion);
    match reply {
      case StatusFailed =>
        state := PairState(accountId, false);
      case StatusOk(optStatus) =>
        if optStatus == Some(DISABLED) {
          var ok := api.OptInRegion(accountId, optinRegion);
          if ok {
            state := PairState(accountId, false);
          } else {
            // the enable call threw; the catch gives the same answer
            state := PairState(accountId, false);
          }
        } else if optStatus == Some(ENABLING) || optStatus == Some(DISABLING) {
          state := PairState(accountId, false);
        } else {
          state := PairState(accountId, true);
        }
    }
  }

  /** The inner loop of processAllAccountsRegions, over the regions of one account:
      the guard, the credential fetch outside any try, and processAccountRegion for
      each admitted region. It starts after the calls and states of `outer` and
      rejects when a credential fetch throws. */
  method ProcessAccountRegions(props: Props, optInRegions: set<RegionName>, api: AccountApi, accountId: AccountId,
                               results: seq<PairState>, ghost calls0: seq<Call>, ghost outer: Trace)
    returns (r: Settled<seq<PairState>>)
    requires !outer.aborted && results == outer.states && api.calls == calls0 + outer.calls
    modifies api
    ensures var t := LoopRegions(outer, accountId, props.enabledRegions, props, optInRegions, api.oracles);
            && api.calls == calls0 + t.calls
            && (r.Resolved? <==> !t.aborted)
            && (r.Resolved? ==> r.value == t.states)
  {
    var rs, o := props.enabledRegions, api.oracles;
    ghost var trace := outer;
    var states := results;
    var j := 0;
    while j < |rs|
      invariant 0 <= j <= |rs|
      invariant trace == LoopRegions(outer, accountId, rs[..j], props, optInRegions, o)
      invariant api.calls == calls0 + trace.calls && !trace.aborted && states == trace.states
    {
      var enabledRegion := rs[j];
      assert rs[..j + 1][..j] == rs[..j];
      if enabledRegion in optInRegions && Some(accountId) != props.managementAccountId {
        var credentials := api.GetCrossAccountCredentials(accountId, enabledRegion, props.homeRegion, props.partition, props.managementAccountAccessRole);
        if credentials.None? {
          // the rejection is not caught: it leaves the loops and the handler
          LoopRegionsStayAborted(outer, accountId, rs, j + 1, |rs|, props, optInRegions, o);
          assert rs[..|rs|] == rs;
          return Rejected;
        }
        var state := ProcessAccountRegion(api, accountId, enabledRegion);
        states := states + [state];
        trace := Step(trace, Pair(accountId, enabledRegion), props, o);
      }
      j := j + 1;
    }
    assert rs[..j] == rs;
    r := Resolved(states);
  }

  /** processAllAccountsRegions: the outer loop over the accounts, then the final `every`. */
  method ProcessAllAccountsRegions(props: Props, optInRegions: set<RegionName>, api: AccountApi)
    returns (r: Settled<bool>)
    modifies api
    ensures api.calls == old(api.calls) + Poll(props, optInRegions, api.oracles).calls
    ensures r == PollOutcome(Poll(props, optInRegions, api.oracles))
  {
    var accts, o := props.accountIds, api.oracles;
    ghost var calls0 := api.calls;
    ghost var trace := LoopAccounts([], props, optInRegions, o);
    var results: seq<PairState> := [];
    var i := 0;
    while i < |accts|
      invariant 0 <= i <= |accts|
      invariant trace == LoopAccounts(accts[..i], props, optInRegions, o)
      invariant api.calls == calls0 + trace.calls && !trace.aborted && results == trace.states
    {
      assert accts[..i + 1][..i] == accts[..i];
      var settled := ProcessAccountRegions(props, optInRegions, api, accts[i], results, calls0, trace);
      trace := LoopAccounts(accts[..i + 1], props, optInRegions, o);
      if settled.Rejected? {
        LoopAccountsStayAborted(accts, i + 1, |accts|, props, optInRegions, o);
        assert accts[..|accts|] == accts;
        LoopsFollowPoll(props, optInRegions, o);
        return Rejected;
      }
      results := settled.value;
      i := i + 1;
    }
    assert accts[..i] == accts;
    LoopsFollowPoll(props, optInRegions, o);
    r := Resolved(AllComplete(results));
  }

  /** handler: reads `props` from the event (a missing `props` makes reading
      `props.accountIds` throw) and wraps the result as `{ IsComplete }`. */
  method Handler(event: Event<Props>, optInRegions: set<RegionName>, api: AccountApi)
    returns (r: Settled<IsCompleteResponse>)
    modifies api
    ensures "props" !in event.resourceProperties ==> r == Rejected && api.calls == old(api.calls)
    ensures "props" in event.resourceProperties ==>
              var poll := Poll(event.resourceProperties["props"], optInRegions, api.oracles);
              && api.calls == old(api.calls) + poll.calls
              && r == match PollOutcome(poll)
                      case Resolved(isComplete) => Resolved(IsCompleteResponse(isComplete))
                      case Rejected => Rejected
  {
    var props := Property(event, "props");
    if props.None? {
      return Rejected;
    }
    var settled := ProcessAllAccountsRegions(props.value, optInRegions, api);
    match settled {
      case Resolved(isComplete) => r := Resolved(IsCompleteResponse(isComplete));
      case Rejected => r := Rejected;
    }
  }
}
