/**
 * The usage aggregations over the usage log: per-key buckets of requests,
 * tokens and cost, as `get_user_usage_stats` (app/services/ai_service.py)
 * and the admin dashboard and analytics (app/controllers/admin.py) build
 * them, with the totals they must add up to, the success rate, the average
 * response times and the error analysis.
 */
module Tally {
  import opened Common
  import opened Text
  import opened Dict
  import opened Accounts

  /** `{'requests': n, 'tokens': t, 'cost': c}`. */
  datatype Bucket = Bucket(requests: nat, tokens: int, cost: real)

  const Empty := Bucket(0, 0, 0.0)

  function Plus(a: Bucket, b: Bucket): Bucket {
    Bucket(a.requests + b.requests, a.tokens + b.tokens, a.cost + b.cost)
  }

  /** One log's share: one request, its total tokens and its cost. */
  function Unit(log: UsageLog): Bucket {
    Bucket(1, log.totalTokens, log.cost)
  }

  /** `len(logs)`, `sum(log.total_tokens for log in logs)` and `sum(log.cost for log in logs)`. */
  function Totals(logs: seq<UsageLog>): (t: Bucket)
    ensures t.requests == |logs|
  {
    if logs == [] then Empty else Plus(Totals(logs[..|logs| - 1]), Unit(logs[|logs| - 1]))
  }

  /** The sum of the buckets of a dict. */
  function SumBuckets(m: seq<(string, Bucket)>): Bucket {
    if m == [] then Empty else Plus(m[0].1, SumBuckets(m[1..]))
  }

  /** The body of the aggregation loops: create the bucket on first sight, then count the log in it. */
  function Bump(m: seq<(string, Bucket)>, k: string, log: UsageLog): seq<(string, Bucket)> {
    Put(m, k, Plus(Get(m, k).GetOr(Empty), Unit(log)))
  }

  /** Counting a log in one bucket adds exactly that log to the sum of all buckets. */
  lemma {:induction false} BumpSum(m: seq<(string, Bucket)>, k: string, log: UsageLog)
    ensures SumBuckets(Bump(m, k, log)) == Plus(SumBuckets(m), Unit(log))
  {
    if m != [] && m[0].0 != k {
      BumpSum(m[1..], k, log);
      assert Bump(m, k, log) == [m[0]] + Bump(m[1..], k, log);
      assert ([m[0]] + Bump(m[1..], k, log))[1..] == Bump(m[1..], k, log);
    }
  }

  /** The dimensions the dashboards group by. */
  datatype Dimension = ByModel | ByProvider | ByUser

  /** The dict key of a log; users are shown as `user_<id>`. */
  function KeyOf(d: Dimension, log: UsageLog): string {
    match d
    case ByModel => log.modelName
    case ByProvider => log.provider
    case ByUser => "user_" + NatToString(log.userId)
  }

  /** The per-key buckets the loops build, log by log. */
  function GroupBy(logs: seq<UsageLog>, d: Dimension): seq<(string, Bucket)> {
    if logs == [] then []
    else
      var log := logs[|logs| - 1];
      Bump(GroupBy(logs[..|logs| - 1], d), KeyOf(d, log), log)
  }

  /** The buckets add up to the overall totals: every log is counted once, in one bucket. */
  lemma {:induction false} GroupByTotals(logs: seq<UsageLog>, d: Dimension)
    ensures SumBuckets(GroupBy(logs, d)) == Totals(logs)
  {
    if logs != [] {
      var log := logs[|logs| - 1];
      GroupByTotals(logs[..|logs| - 1], d);
      BumpSum(GroupBy(logs[..|logs| - 1], d), KeyOf(d, log), log);
    }
  }

  /** Each key has one bucket. */
  lemma {:induction false} GroupByDistinct(logs: seq<UsageLog>, d: Dimension)
    ensures DistinctKeys(GroupBy(logs, d))
  {
    if logs != [] {
      var init := logs[..|logs| - 1];
      var log := logs[|logs| - 1];
      var prev := GroupBy(init, d);
      GroupByDistinct(init, d);
      PutKeepsDistinct(prev, KeyOf(d, log), Plus(Get(prev, KeyOf(d, log)).GetOr(Empty), Unit(log)));
    }
  }

  /** The totals of the logs whose key is `k`. */
  function TotalsWhere(logs: seq<UsageLog>, d: Dimension, k: string): Bucket {
    if logs == [] then Empty
    else
      var log := logs[|logs| - 1];
      var prev := TotalsWhere(logs[..|logs| - 1], d, k);
      if KeyOf(d, log) == k then Plus(prev, Unit(log)) else prev
  }

  /** The bucket under `k` holds exactly the logs with that key, and it exists exactly when there is one. */
  lemma {:induction false} GroupByBucket(logs: seq<UsageLog>, d: Dimension, k: string)
    ensures Get(GroupBy(logs, d), k).GetOr(Empty) == TotalsWhere(logs, d, k)
    ensures Get(GroupBy(logs, d), k).Some? <==> TotalsWhere(logs, d, k).requests > 0
  {
    if logs != [] {
      var init := logs[..|logs| - 1];
      var log := logs[|logs| - 1];
      var prev := GroupBy(init, d);
      var v := Plus(Get(prev, KeyOf(d, log)).GetOr(Empty), Unit(log));
      GroupByBucket(init, d, k);
      if KeyOf(d, log) == k {
        GetPutSame(prev, k, v);
      } else {
        GetPutOther(prev, KeyOf(d, log), v, k);
      }
    }
  }

  /** Distinct users get distinct keys, so no two users share a bucket. */
  lemma UserKeysDistinct(a: UsageLog, b: UsageLog)
    requires a.userId != b.userId
    ensures KeyOf(ByUser, a) != KeyOf(ByUser, b)
  {
    var sa := NatToString(a.userId);
    var sb := NatToString(b.userId);
    NatToStringRoundTrip(a.userId);
    NatToStringRoundTrip(b.userId);
    assert ("user_" + sa)[5..] == sa;
    assert ("user_" + sb)[5..] == sb;
  }

  /** The model and provider buckets that `get_user_usage_stats` and the admin dashboard both build. */
  method ModelAndProviderBuckets(logs: seq<UsageLog>)
    returns (models: seq<(string, Bucket)>, providers: seq<(string, Bucket)>)
    ensures models == GroupBy(logs, ByModel) && providers == GroupBy(logs, ByProvider)
  {
    models, providers := [], [];
    var i := 0;
    while i < |logs|
      invariant 0 <= i <= |logs|
      invariant models == GroupBy(logs[..i], ByModel) && providers == GroupBy(logs[..i], ByProvider)
    {
      var log := logs[i];
      assert logs[..i + 1][..i] == logs[..i];
      models := Bump(models, log.modelName, log);
      providers := Bump(providers, log.provider, log);
      i := i + 1;
    }
    assert logs[..i] == logs;
  }

  /** The dict `get_user_usage_stats` returns, without the daily breakdown. */
  datatype UsageStats = UsageStats(
    totals: Bucket,
    currentMonthUsage: real,
    monthlyBudget: real,
    budgetRemaining: real,
    modelsUsed: seq<(string, Bucket)>,
    providersUsed: seq<(string, Bucket)>)

  /** The query of `get_user_usage_stats`: the logs of one user, in table order. */
  function OfUser(logs: seq<UsageLog>, userId: nat): (mine: seq<UsageLog>)
    ensures |mine| <= |logs|
    ensures forall i :: 0 <= i < |mine| ==> mine[i].userId == userId
  {
    if logs == [] then []
    else OfUser(logs[..|logs| - 1], userId) + (if logs[|logs| - 1].userId == userId then [logs[|logs| - 1]] else [])
  }

  /**
   * `get_user_usage_stats(user)` over the logs of the period: the totals of
   * the user's own logs, the budget left, and buckets that add up to the
   * totals.
   */
  method UserUsageStats(user: User, logs: seq<UsageLog>) returns (stats: UsageStats)
    ensures stats.totals == Totals(OfUser(logs, user.id))
    ensures stats.currentMonthUsage == user.currentUsage && stats.monthlyBudget == user.monthlyBudget
    ensures stats.budgetRemaining == user.monthlyBudget - user.currentUsage
    ensures stats.modelsUsed == GroupBy(OfUser(logs, user.id), ByModel)
    ensures stats.providersUsed == GroupBy(OfUser(logs, user.id), ByProvider)
    ensures SumBuckets(stats.modelsUsed) == stats.totals && SumBuckets(stats.providersUsed) == stats.totals
  {
    var mine := OfUser(logs, user.id);
    var totals := TotalsOf(mine);
    var models, providers := ModelAndProviderBuckets(mine);
    GroupByTotals(mine, ByModel);
    GroupByTotals(mine, ByProvider);
    stats := UsageStats(totals, user.currentUsage, user.monthlyBudget, user.monthlyBudget - user.currentUsage,
                        models, providers);
  }

  /** The three sums over the logs, as one loop. */
  method TotalsOf(logs: seq<UsageLog>) returns (t: Bucket)
    ensures t == Totals(logs)
  {
    t := Empty;
    var i := 0;
    while i < |logs|
      invariant 0 <= i <= |logs|
      invariant t == Totals(logs[..i])
    {
      assert logs[..i + 1][..i] == logs[..i];
      t := Plus(t, Unit(logs[i]));
      i := i + 1;
    }
    assert logs[..i] == logs;
  }

  /** The log part of the admin dashboard, without the daily chart. */
  datatype Dashboard = Dashboard(totals: Bucket, modelStats: seq<(string, Bucket)>, providerStats: seq<(string, Bucket)>)

  /** The aggregation of `admin_dashboard` over the recent logs: the per-model and per-provider stats each add up to the totals. */
  method DashboardStats(recent: seq<UsageLog>) returns (dash: Dashboard)
    ensures dash.totals == Totals(recent)
    ensures dash.modelStats == GroupBy(recent, ByModel) && dash.providerStats == GroupBy(recent, ByProvider)
    ensures SumBuckets(dash.modelStats) == dash.totals && SumBuckets(dash.providerStats) == dash.totals
  {
    var totals := TotalsOf(recent);
    var models, providers := ModelAndProviderBuckets(recent);
    GroupByTotals(recent, ByModel);
    GroupByTotals(recent, ByProvider);
    dash := Dashboard(totals, models, providers);
  }

  /** The number of logs whose status is `success`. */
  function Successes(logs: seq<UsageLog>): (n: nat)
    ensures n <= |logs|
  {
    if logs == [] then 0
    else Successes(logs[..|logs| - 1]) + (if logs[|logs| - 1].status == "success" then 1 else 0)
  }

  /** Every log is counted exactly when every log's status is `success`. */
  lemma {:induction false} AllSucceeded(logs: seq<UsageLog>)
    ensures Successes(logs) == |logs| <==> forall i :: 0 <= i < |logs| ==> logs[i].status == "success"
    decreases |logs|
  {
    if logs != [] {
      var front := logs[..|logs| - 1];
      var last := logs[|logs| - 1];
      assert Successes(logs) == Successes(front) + (if last.status == "success" then 1 else 0);
      AllSucceeded(front);
      if Successes(logs) == |logs| {
        assert Successes(front) == |front| && last.status == "success";
        forall i | 0 <= i < |logs|
          ensures logs[i].status == "success"
        {
          if i < |front| {
            assert front[i] == logs[i];
          }
        }
      } else if last.status == "success" {
        var k :| 0 <= k < |front| && front[k].status != "success";
        assert front[k] == logs[k];
      }
    }
  }

  /** A share of a positive whole, in percent, lies between 0 and 100 and is 100 only for the whole. */
  lemma PercentBounds(part: nat, whole: nat)
    requires 0 < whole && part <= whole
    ensures 0.0 <= part as real / whole as real * 100.0 <= 100.0
    ensures part as real / whole as real * 100.0 == 100.0 <==> part == whole
  {
    var q := part as real / whole as real;
    assert q * whole as real == part as real;
    assert 0.0 <= q <= 1.0;
    if q * 100.0 == 100.0 {
      assert q == 1.0;
      assert part as real == whole as real;
    }
    if part == whole {
      assert q == 1.0;
    }
  }

  /** `success_rate`: the percentage of logs that succeeded, or 0 when there are none. */
  function SuccessRate(logs: seq<UsageLog>): (rate: real)
    ensures 0.0 <= rate <= 100.0
    ensures logs != [] ==> (rate == 100.0 <==> Successes(logs) == |logs|)
    ensures logs == [] ==> rate == 0.0
    ensures logs != [] ==> (rate == 100.0 <==> forall i :: 0 <= i < |logs| ==> logs[i].status == "success")
  {
    if logs == [] then 0.0
    else
      PercentBounds(Successes(logs), |logs|);
      AllSucceeded(logs);
      Successes(logs) as real / |logs| as real * 100.0
  }

  /** A response time counts when it is truthy, that is non-zero. */
  function ResponseShare(log: UsageLog): real {
    if log.responseTime != 0.0 then log.responseTime else 0.0
  }

  /** `sum(log.response_time for log in logs if log.response_time)`. */
  function ResponseSum(logs: seq<UsageLog>): real {
    if logs == [] then 0.0 else ResponseSum(logs[..|logs| - 1]) + ResponseShare(logs[|logs| - 1])
  }

  /** `average_response_time`: the sum over all logs divided by the number of logs, or 0 when there are none. */
  function AverageResponseTime(logs: seq<UsageLog>): (avg: real)
    ensures logs == [] ==> avg == 0.0
    ensures logs != [] ==> avg * |logs| as real == ResponseSum(logs)
  {
    if logs == [] then 0.0 else ResponseSum(logs) / |logs| as real
  }

  /** The sum of the response times of the logs with model `k`. */
  function ResponseSumWhere(logs: seq<UsageLog>, k: string): real {
    if logs == [] then 0.0
    else
      var log := logs[|logs| - 1];
      ResponseSumWhere(logs[..|logs| - 1], k) + (if log.modelName == k then ResponseShare(log) else 0.0)
  }

  /** One value of `analytics['models']`: the bucket and the response-time field. */
  datatype ModelStat = ModelStat(bucket: Bucket, responseTime: real)

  /** A model's row after counting one more of its logs. */
  function Counted(prev: ModelStat, log: UsageLog): ModelStat {
    ModelStat(Plus(prev.bucket, Unit(log)), prev.responseTime + ResponseShare(log))
  }

  /** The body of the per-model loop: count the log and add its response time. */
  function BumpModel(m: seq<(string, ModelStat)>, log: UsageLog): seq<(string, ModelStat)> {
    Put(m, log.modelName, Counted(Get(m, log.modelName).GetOr(ModelStat(Empty, 0.0)), log))
  }

  /** `analytics['models']` before the averaging pass: the response-time field still holds the sum. */
  function ModelRows(logs: seq<UsageLog>): seq<(string, ModelStat)> {
    if logs == [] then [] else BumpModel(ModelRows(logs[..|logs| - 1]), logs[|logs| - 1])
  }

  /** Counting a log touches the row of its own model only. */
  lemma GetBumpModel(m: seq<(string, ModelStat)>, log: UsageLog, k: string)
    ensures log.modelName != k ==> Get(BumpModel(m, log), k) == Get(m, k)
    ensures log.modelName == k ==> Get(BumpModel(m, log), k).Some?
    ensures log.modelName == k ==>
      Get(BumpModel(m, log), k).value.bucket == Plus(Get(m, k).GetOr(ModelStat(Empty, 0.0)).bucket, Unit(log))
    ensures log.modelName == k ==>
      Get(BumpModel(m, log), k).value.responseTime == Get(m, k).GetOr(ModelStat(Empty, 0.0)).responseTime + ResponseShare(log)
  {
    var v := Counted(Get(m, log.modelName).GetOr(ModelStat(Empty, 0.0)), log);
    if log.modelName == k {
      GetPutSame(m, k, v);
    } else {
      GetPutOther(m, log.modelName, v, k);
    }
  }

  /**
   * The row of a model holds the bucket of that model's logs and the sum
   * of their response times, and exists exactly when the model has a log.
   */
  lemma {:induction false} ModelRowsSpec(logs: seq<UsageLog>, k: string)
    ensures Get(ModelRows(logs), k).Some? <==> TotalsWhere(logs, ByModel, k).requests > 0
    ensures Get(ModelRows(logs), k).GetOr(ModelStat(Empty, 0.0)).bucket == TotalsWhere(logs, ByModel, k)
    ensures Get(ModelRows(logs), k).GetOr(ModelStat(Empty, 0.0)).responseTime == ResponseSumWhere(logs, k)
  {
    if logs != [] {
      var init := logs[..|logs| - 1];
      var log := logs[|logs| - 1];
      ModelRowsSpec(init, k);
      GetBumpModel(ModelRows(init), log, k);
    }
  }

  /** The averaging pass: each model's response-time sum divided by its request count. */
  function Averaged(m: seq<(string, ModelStat)>): (r: seq<(string, ModelStat)>)
    ensures |r| == |m|
    ensures forall i :: 0 <= i < |m| ==> r[i].0 == m[i].0 && r[i].1.bucket == m[i].1.bucket
    ensures forall i :: 0 <= i < |m| && m[i].1.bucket.requests > 0 ==>
      r[i].1.responseTime * m[i].1.bucket.requests as real == m[i].1.responseTime
  {
    seq(|m|, i requires 0 <= i < |m| =>
      var s := m[i].1;
      (m[i].0, if s.bucket.requests > 0 then ModelStat(s.bucket, s.responseTime / s.bucket.requests as real) else s))
  }

  /** An error's key: its message, or else its status. */
  function ErrorKey(log: UsageLog): string {
    if Truthy(log.errorMessage) then log.errorMessage.value else log.status
  }

  /** Counting one more occurrence of `k`. */
  function Tick(m: seq<(string, nat)>, k: string): seq<(string, nat)> {
    Put(m, k, Get(m, k).GetOr(0) + 1)
  }

  function SumCounts<K>(m: seq<(K, nat)>): nat {
    if m == [] then 0 else m[0].1 + SumCounts(m[1..])
  }

  /** Assigning `d[k] = v` moves the total by the difference between the new and the old count. */
  lemma {:induction false} PutSum<K>(m: seq<(K, nat)>, k: K, v: nat)
    ensures SumCounts(Put(m, k, v)) + Get(m, k).GetOr(0) == SumCounts(m) + v
  {
    if m == [] {
      assert Put(m, k, v)[1..] == [];
    } else if m[0].0 == k {
      assert Put(m, k, v)[1..] == m[1..];
    } else {
      PutSum(m[1..], k, v);
      assert Put(m, k, v)[1..] == Put(m[1..], k, v);
    }
  }

  lemma TickSum(m: seq<(string, nat)>, k: string)
    ensures SumCounts(Tick(m, k)) == SumCounts(m) + 1
  {
    PutSum(m, k, Get(m, k).GetOr(0) + 1);
  }

  /** `error_analysis`: occurrences of each error key among the logs that did not succeed. */
  function ErrorAnalysis(logs: seq<UsageLog>): seq<(string, nat)> {
    if logs == [] then []
    else
      var prev := ErrorAnalysis(logs[..|logs| - 1]);
      var log := logs[|logs| - 1];
      if log.status != "success" then Tick(prev, ErrorKey(log)) else prev
  }

  /** Every failed log is counted once and no successful one is. */
  lemma {:induction false} ErrorAnalysisTotal(logs: seq<UsageLog>)
    ensures SumCounts(ErrorAnalysis(logs)) == |logs| - Successes(logs)
  {
    if logs != [] {
      var log := logs[|logs| - 1];
      ErrorAnalysisTotal(logs[..|logs| - 1]);
      if log.status != "success" {
        TickSum(ErrorAnalysis(logs[..|logs| - 1]), ErrorKey(log));
      }
    }
  }

  /** The number of failed logs whose error key is `k`. */
  function FailuresWith(logs: seq<UsageLog>, k: string): nat {
    if logs == [] then 0
    else
      var log := logs[|logs| - 1];
      FailuresWith(logs[..|logs| - 1], k) + if log.status != "success" && ErrorKey(log) == k then 1 else 0
  }

  /** Each error key's count is the number of failed logs with that key; a key is listed exactly when it occurs. */
  lemma {:induction false} ErrorAnalysisCount(logs: seq<UsageLog>, k: string)
    ensures Get(ErrorAnalysis(logs), k).GetOr(0) == FailuresWith(logs, k)
    ensures Get(ErrorAnalysis(logs), k).Some? <==> FailuresWith(logs, k) > 0
  {
    if logs != [] {
      var init := logs[..|logs| - 1];
      var log := logs[|logs| - 1];
      var prev := ErrorAnalysis(init);
      var key := ErrorKey(log);
      ErrorAnalysisCount(init, k);
      if log.status != "success" {
        var v := Get(prev, key).GetOr(0) + 1;
        assert ErrorAnalysis(logs) == Put(prev, key, v);
        if key == k {
          GetPutSame(prev, k, v);
        } else {
          GetPutOther(prev, key, v, k);
        }
      } else {
        assert ErrorAnalysis(logs) == prev;
      }
    }
  }

  /** Counting an occurrence never lists a key twice. */
  lemma TickKeepsDistinct(m: seq<(string, nat)>, k: string)
    requires DistinctKeys(m)
    ensures DistinctKeys(Tick(m, k))
  {
    PutKeepsDistinct(m, k, Get(m, k).GetOr(0) + 1);
  }

  /** Each error key is listed once. */
  lemma {:induction false} ErrorAnalysisDistinct(logs: seq<UsageLog>)
    ensures DistinctKeys(ErrorAnalysis(logs))
  {
    if logs != [] {
      var init := logs[..|logs| - 1];
      var log := logs[|logs| - 1];
      ErrorAnalysisDistinct(init);
      if log.status != "success" {
        TickKeepsDistinct(ErrorAnalysis(init), ErrorKey(log));
      }
    }
  }

  /** What `api_usage_analytics` returns, without the daily and hourly breakdowns. */
  datatype Analytics = Analytics(
    totals: Bucket,
    averageResponseTime: real,
    successRate: real,
    models: seq<(string, ModelStat)>,
    providers: seq<(string, Bucket)>,
    users: seq<(string, Bucket)>,
    errors: seq<(string, nat)>)

  /** `api_usage_analytics` over the logs of the period: one pass over the logs, then the averaging pass. */
  method UsageAnalytics(logs: seq<UsageLog>) returns (a: Analytics)
    ensures a.totals == Totals(logs)
    ensures a.averageResponseTime == AverageResponseTime(logs) && a.successRate == SuccessRate(logs)
    ensures a.models == Averaged(ModelRows(logs))
    ensures a.providers == GroupBy(logs, ByProvider) && a.users == GroupBy(logs, ByUser)
    ensures a.errors == ErrorAnalysis(logs)
  {
    var totals := TotalsOf(logs);
    var rows, providers, users, errors := AnalyticsPass(logs);
    var models := AverageRows(rows);
    a := Analytics(totals, AverageResponseTime(logs), SuccessRate(logs), models, providers, users, errors);
  }

  /** The loop of `api_usage_analytics` over the logs. */
  method AnalyticsPass(logs: seq<UsageLog>)
    returns (rows: seq<(string, ModelStat)>, providers: seq<(string, Bucket)>, users: seq<(string, Bucket)>,
             errors: seq<(string, nat)>)
    ensures rows == ModelRows(logs)
    ensures providers == GroupBy(logs, ByProvider) && users == GroupBy(logs, ByUser)
    ensures errors == ErrorAnalysis(logs)
  {
    rows, providers, users, errors := [], [], [], [];
    var i := 0;
    while i < |logs|
      invariant 0 <= i <= |logs|
      invariant rows == ModelRows(logs[..i])
      invariant providers == GroupBy(logs[..i], ByProvider) && users == GroupBy(logs[..i], ByUser)
      invariant errors == ErrorAnalysis(logs[..i])
    {
      var log := logs[i];
      AnalyticsStep(logs, i);
      rows := BumpModel(rows, log);
      providers := Bump(providers, log.provider, log);
      users := Bump(users, KeyOf(ByUser, log), log);
      if log.status != "success" {
        errors := Tick(errors, ErrorKey(log));
      }
      i := i + 1;
    }
    assert logs[..i] == logs;
  }

  /** One more log extends each of the pass's tables by that log alone. */
  lemma AnalyticsStep(logs: seq<UsageLog>, i: nat)
    requires i < |logs|
    ensures ModelRows(logs[..i + 1]) == BumpModel(ModelRows(logs[..i]), logs[i])
    ensures GroupBy(logs[..i + 1], ByProvider) == Bump(GroupBy(logs[..i], ByProvider), logs[i].provider, logs[i])
    ensures GroupBy(logs[..i + 1], ByUser) == Bump(GroupBy(logs[..i], ByUser), KeyOf(ByUser, logs[i]), logs[i])
    ensures ErrorAnalysis(logs[..i + 1])
      == if logs[i].status != "success" then Tick(ErrorAnalysis(logs[..i]), ErrorKey(logs[i])) else ErrorAnalysis(logs[..i])
  {
    var cur := logs[..i + 1];
    assert cur[..|cur| - 1] == logs[..i] && cur[|cur| - 1] == logs[i];
  }

  /** The loop that turns each model's response-time sum into an average. */
  method AverageRows(rows: seq<(string, ModelStat)>) returns (averaged: seq<(string, ModelStat)>)
    ensures averaged == Averaged(rows)
  {
    averaged := [];
    var i := 0;
    while i < |rows|
      invariant 0 <= i <= |rows|
      invariant averaged == Averaged(rows)[..i]
    {
      var s := rows[i].1;
      var entry := if s.bucket.requests > 0 then ModelStat(s.bucket, s.responseTime / s.bucket.requests as real) else s;
      averaged := averaged + [(rows[i].0, entry)];
      i := i + 1;
    }
  }
}
