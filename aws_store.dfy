/** The client-side credential store `useAWSStore` (lib/store/aws-store.ts):
    the connected role, its temporary credentials, cached cost data, and the
    periodic refresh that renews the credentials before they expire. The
    clock reading `now` (milliseconds) and the outcome of the refresh request
    are parameters. */
module Store {
  import opened Wrappers
  import opened AwsTypes
  import Sts

  /** 25 minutes, in milliseconds. */
  const CredentialRefreshInterval := 25 * 60 * 1000

  /** A snapshot of every field of the store; `None` is `null`. */
  datatype StoreState = StoreState(
    credentials: Option<AwsCredentials>,
    roleArn: Option<string>,
    accountId: Option<string>,
    externalId: Option<string>,
    costData: Option<CostExplorerResponse>,
    forecastData: Option<ForecastResponse>,
    recommendationsData: Option<RecommendationsResponse>,
    isConnected: bool,
    isRefreshing: bool,
    lastRefresh: Option<int>)

  /** Every field null or false. */
  const InitialState := StoreState(None, None, None, None, None, None, None, false, false, None)

  /** What `partialize` hands to the persistence layer. */
  datatype PersistedState = PersistedState(roleArn: Option<string>, accountId: Option<string>, externalId: Option<string>)

  /** How the refresh request ended: the request or its body could not be
      read, the route answered with a non-ok status, or it answered ok with a
      body whose `credentials` field may be missing. */
  datatype RefreshOutcome = Unreachable | Refused | Granted(credentials: Option<AwsCredentials>)

  /** JavaScript truthiness of a `string | null`. */
  predicate Truthy(s: Option<string>) {
    s.Some? && s.value != ""
  }

  /** The effect of `setCredentials` at time `now`. */
  function WithCredentials(s: StoreState, c: Option<AwsCredentials>, now: int): StoreState {
    s.(credentials := c, isConnected := true, lastRefresh := Some(now))
  }

  /** `refreshCredentials` sends a request only with a role ARN and an external
      ID and while no other refresh is running. */
  predicate RefreshGuardPasses(s: StoreState) {
    Truthy(s.roleArn) && Truthy(s.externalId) && !s.isRefreshing
  }

  /** The state once `refreshCredentials` has finished. */
  function AfterRefresh(s: StoreState, outcome: RefreshOutcome, now: int): StoreState {
    if !RefreshGuardPasses(s) then s
    else
      var started := s.(isRefreshing := true);
      var settled := if outcome.Granted? then WithCredentials(started, outcome.credentials, now) else started;
      settled.(isRefreshing := false)
  }

  function AfterClearCredentials(s: StoreState): StoreState {
    s.(credentials := None, isConnected := false, lastRefresh := None)
  }

  /** `partialize`: the role identity only. */
  function Partialize(s: StoreState): (p: PersistedState)
    ensures p.roleArn == s.roleArn && p.accountId == s.accountId && p.externalId == s.externalId
  {
    PersistedState(s.roleArn, s.accountId, s.externalId)
  }

  /** The state on reload: the persisted fields merged over the initial state. */
  function Rehydrate(p: PersistedState): (s: StoreState)
    ensures Partialize(s) == p
    ensures s.credentials.None? && !s.isConnected && !s.isRefreshing && s.lastRefresh.None?
    ensures s.costData.None? && s.forecastData.None? && s.recommendationsData.None?
  {
    InitialState.(roleArn := p.roleArn, accountId := p.accountId, externalId := p.externalId)
  }

  /** The timer's condition: credentials present, a truthy (non-null, non-zero)
      last refresh, no refresh running, and more than 25 minutes since the last
      refresh. */
  predicate ShouldRefresh(s: StoreState, now: int) {
    && s.credentials.Some?
    && s.lastRefresh.Some? && s.lastRefresh.value != 0
    && !s.isRefreshing
    && now - s.lastRefresh.value > CredentialRefreshInterval
  }

  class AwsStore {
    var credentials: Option<AwsCredentials>
    var roleArn: Option<string>
    var accountId: Option<string>
    var externalId: Option<string>
    var costData: Option<CostExplorerResponse>
    var forecastData: Option<ForecastResponse>
    var recommendationsData: Option<RecommendationsResponse>
    var isConnected: bool
    var isRefreshing: bool
    var lastRefresh: Option<int>

    function State(): StoreState
      reads this
    {
      StoreState(credentials, roleArn, accountId, externalId, costData, forecastData,
        recommendationsData, isConnected, isRefreshing, lastRefresh)
    }

    constructor()
      ensures State() == InitialState
    {
      credentials := None;
      roleArn := None;
      accountId := None;
      externalId := None;
      costData := None;
      forecastData := None;
      recommendationsData := None;
      isConnected := false;
      isRefreshing := false;
      lastRefresh := None;
    }

    method SetCredentials(c: AwsCredentials, now: int)
      modifies this
      ensures State() == WithCredentials(old(State()), Some(c), now)
    {
      credentials := Some(c);
      isConnected := true;
      lastRefresh := Some(now);
    }

    method SetRoleInfo(arn: string, account: string, external: string)
      modifies this
      ensures State() == old(State()).(roleArn := Some(arn), accountId := Some(account), externalId := Some(external))
    {
      roleArn := Some(arn);
      accountId := Some(account);
      externalId := Some(external);
    }

    method SetCostData(data: CostExplorerResponse)
      modifies this
      ensures State() == old(State()).(costData := Some(data))
    {
      costData := Some(data);
    }

    method SetForecastData(data: ForecastResponse)
      modifies this
      ensures State() == old(State()).(forecastData := Some(data))
    {
      forecastData := Some(data);
    }

    method SetRecommendationsData(data: RecommendationsResponse)
      modifies this
      ensures State() == old(State()).(recommendationsData := Some(data))
    {
      recommendationsData := Some(data);
    }

    /** `refreshCredentials`, run to completion: `requested` tells whether the
        request was sent. A failed refresh is only logged, and the flag is
        always cleared at the end. */
    method RefreshCredentials(now: int, outcome: RefreshOutcome) returns (requested: bool)
      modifies this
      ensures requested <==> RefreshGuardPasses(old(State()))
      ensures State() == AfterRefresh(old(State()), outcome, now)
    {
      if !Truthy(roleArn) || !Truthy(externalId) || isRefreshing {
        return false;
      }
      isRefreshing := true;
      requested := true;
      if outcome.Granted? {
        credentials := outcome.credentials;
        isConnected := true;
        lastRefresh := Some(now);
      }
      isRefreshing := false;
    }

    method ClearCredentials()
      modifies this
      ensures State() == AfterClearCredentials(old(State()))
    {
      credentials := None;
      isConnected := false;
      lastRefresh := None;
    }

    method ClearAll()
      modifies this
      ensures State() == InitialState
    {
      credentials := None;
      roleArn := None;
      accountId := None;
      externalId := None;
      costData := None;
      forecastData := None;
      recommendationsData := None;
      isConnected := false;
      isRefreshing := false;
      lastRefresh := None;
    }

    /** One firing of the one-minute timer: refresh when the condition holds.
        `requested` tells whether a request was sent. */
    method Tick(now: int, outcome: RefreshOutcome) returns (requested: bool)
      modifies this
      ensures requested <==> ShouldRefresh(old(State()), now) && RefreshGuardPasses(old(State()))
      ensures State() == if ShouldRefresh(old(State()), now) then AfterRefresh(old(State()), outcome, now) else old(State())
    {
      var due := credentials.Some? && lastRefresh.Some? && lastRefresh.value != 0 && !isRefreshing
        && now - lastRefresh.value > CredentialRefreshInterval;
      requested := false;
      if due {
        requested := RefreshCredentials(now, outcome);
      }
    }
  }

  /** Without a role ARN or external ID, or while a refresh runs, nothing
      changes. */
  lemma RefreshSkippedWhenGuardFails(s: StoreState, outcome: RefreshOutcome, now: int)
    requires !Truthy(s.roleArn) || !Truthy(s.externalId) || s.isRefreshing
    ensures AfterRefresh(s, outcome, now) == s
  {
  }

  /** A refresh that ran leaves the flag cleared; on success it acts as
      `setCredentials`, on failure the credentials, the connection flag and
      the last refresh time are as before. */
  lemma RefreshSettles(s: StoreState, outcome: RefreshOutcome, now: int)
    requires RefreshGuardPasses(s)
    ensures !AfterRefresh(s, outcome, now).isRefreshing
    ensures outcome.Granted? ==> AfterRefresh(s, outcome, now) == WithCredentials(s, outcome.credentials, now)
    ensures !outcome.Granted? ==> AfterRefresh(s, outcome, now) == s
  {
  }

  /** A refresh touches neither the role identity nor the cached cost data. */
  lemma RefreshKeepsIdentityAndData(s: StoreState, outcome: RefreshOutcome, now: int)
    ensures var r := AfterRefresh(s, outcome, now);
      && Partialize(r) == Partialize(s)
      && r.costData == s.costData && r.forecastData == s.forecastData
      && r.recommendationsData == s.recommendationsData
  {
  }

  /** Logging out keeps the role identity and the cached cost data. */
  lemma ClearCredentialsKeepsIdentityAndData(s: StoreState)
    ensures var r := AfterClearCredentials(s);
      && Partialize(r) == Partialize(s)
      && r.costData == s.costData && r.forecastData == s.forecastData
      && r.recommendationsData == s.recommendationsData
      && r.credentials == None && !r.isConnected
  {
  }

  /** Credentials never reach storage: a reloaded store starts disconnected
      and without credentials, whatever they were when it was saved. */
  lemma PersistenceDropsCredentials(s: StoreState, c: Option<AwsCredentials>, now: int)
    ensures Partialize(WithCredentials(s, c, now)) == Partialize(s)
    ensures var r := Rehydrate(Partialize(s));
      r.credentials == None && !r.isConnected && !r.isRefreshing && r.lastRefresh == None
    ensures Partialize(Rehydrate(Partialize(s))) == Partialize(s)
  {
  }

  /** After credentials are stored at time `t`, the timer triggers exactly
      when more than 25 minutes have passed, provided `t` is not 0 and no
      refresh is running. */
  lemma TickAfterSetCredentials(s: StoreState, c: AwsCredentials, t: int, now: int)
    ensures ShouldRefresh(WithCredentials(s, Some(c), t), now) <==>
      t != 0 && !s.isRefreshing && now > t + 1500000
  {
  }

  /** A cleared or fresh store never triggers a refresh. */
  lemma ClearedStoreNeverTicks(s: StoreState, now: int)
    ensures !ShouldRefresh(AfterClearCredentials(s), now)
    ensures !ShouldRefresh(InitialState, now)
  {
  }

  /** Credentials obtained at `issuedMs` with the default session length and
      no provider expiration, and stored at `t >= issuedMs`, already count as
      expired under the default 5-minute buffer whenever the timer triggers:
      the 25-minute interval equals the 30-minute session minus the buffer. */
  lemma TickComesAfterBufferedExpiry(s: StoreState, pc: Sts.ProviderCredentials, issuedMs: int, t: int, now: int)
    requires pc.expirationMs.None? && issuedMs <= t
    requires ShouldRefresh(WithCredentials(s, Some(Sts.ToCredentials(pc, Sts.DefaultDurationSeconds, issuedMs)), t), now)
    ensures Sts.AreCredentialsExpired(Sts.ToCredentials(pc, Sts.DefaultDurationSeconds, issuedMs), None, now)
  {
    var c := Sts.ToCredentials(pc, Sts.DefaultDurationSeconds, issuedMs);
    assert (c.expiration - 1800) * 1000 <= issuedMs;
  }
}
