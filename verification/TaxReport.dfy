/** The yearly tax report over a user's completed transactions: totals, and the same
    transactions grouped by asset and by month. */
module TaxReport {
  import opened Sums

  datatype Asset = ETH | BTC | SOL | XLM | USDC | INR

  /** `month` counts from 0 within the year of the report. */
  datatype Transaction = Transaction(asset: Asset, month: int, paise: int, rewards: seq<int>)

  datatype Grouping = ByAsset | ByMonth

  /** The name under which a transaction is filed in a grouping. */
  datatype Key = AssetKey(asset: Asset) | MonthKey(month: int)

  datatype Measure = Count | Paise | Stars

  datatype AssetGroup = AssetGroup(count: int, totalPaise: int)

  datatype MonthGroup = MonthGroup(count: int, totalPaise: int, starRewards: int)

  datatype Report = Report(
    totalTransactions: nat, totalSpentPaise: int, totalStarRewards: int,
    byAsset: map<Key, AssetGroup>, byMonth: map<Key, MonthGroup>)

  function KeyOf(g: Grouping, tx: Transaction): Key {
    match g
    case ByAsset => AssetKey(tx.asset)
    case ByMonth => MonthKey(tx.month)
  }

  function Sum(xs: seq<int>): int {
    if xs == [] then 0 else Sum(xs[..|xs| - 1]) + xs[|xs| - 1]
  }

  function Value(m: Measure, tx: Transaction): int {
    match m
    case Count => 1
    case Paise => tx.paise
    case Stars => Sum(tx.rewards)
  }

  function SumOf(m: Measure, txs: seq<Transaction>): int {
    if txs == [] then 0 else SumOf(m, txs[..|txs| - 1]) + Value(m, txs[|txs| - 1])
  }

  lemma SumAppend(m: Measure, txs: seq<Transaction>, tx: Transaction)
    ensures SumOf(m, txs + [tx]) == SumOf(m, txs) + Value(m, tx)
  {
    assert (txs + [tx])[..|txs|] == txs;
  }

  lemma {:induction false} CountIsLength(txs: seq<Transaction>)
    ensures SumOf(Count, txs) == |txs|
  {
    if txs != [] {
      CountIsLength(txs[..|txs| - 1]);
    }
  }

  /** The measures are the number of transactions, their amounts and their rewards. */
  lemma {:induction false} MeasuresAdd(txs: seq<Transaction>)
    ensures SumOf(Count, txs) == |txs|
    ensures SumOf(Paise, txs) == Sum(seq(|txs|, i requires 0 <= i < |txs| => txs[i].paise))
    ensures SumOf(Stars, txs) == Sum(seq(|txs|, i requires 0 <= i < |txs| => Sum(txs[i].rewards)))
  {
    CountIsLength(txs);
    if txs != [] {
      var n := |txs| - 1;
      MeasuresAdd(txs[..n]);
      assert seq(|txs|, i requires 0 <= i < |txs| => txs[i].paise)[..n] == seq(n, i requires 0 <= i < n => txs[..n][i].paise);
      assert seq(|txs|, i requires 0 <= i < |txs| => Sum(txs[i].rewards))[..n] == seq(n, i requires 0 <= i < n => Sum(txs[..n][i].rewards));
    }
  }

  // ---------------------------------------------------------------- groups

  /** The transactions of one group, in report order. */
  function Members(g: Grouping, txs: seq<Transaction>, k: Key): seq<Transaction> {
    if txs == [] then []
    else
      var earlier := Members(g, txs[..|txs| - 1], k);
      if KeyOf(g, txs[|txs| - 1]) == k then earlier + [txs[|txs| - 1]] else earlier
  }

  /** Either grouping partitions the list: a transaction occurs in the group of its key
      exactly as often as in the list, and in no other group. */
  lemma {:induction false} MembersPartition(g: Grouping, txs: seq<Transaction>, k: Key, tx: Transaction)
    ensures multiset(Members(g, txs, k))[tx] == if KeyOf(g, tx) == k then multiset(txs)[tx] else 0
  {
    if txs != [] {
      var n := |txs| - 1;
      MembersPartition(g, txs[..n], k, tx);
      assert txs == txs[..n] + [txs[n]];
    }
  }

  /** The group of an asset holds the transactions in that asset, the group of a month those
      of that month; a grouping has no other groups. */
  lemma GroupsAre(txs: seq<Transaction>, tx: Transaction, asset: Asset, month: int)
    ensures multiset(Members(ByAsset, txs, AssetKey(asset)))[tx] == if tx.asset == asset then multiset(txs)[tx] else 0
    ensures multiset(Members(ByMonth, txs, MonthKey(month)))[tx] == if tx.month == month then multiset(txs)[tx] else 0
    ensures multiset(Members(ByAsset, txs, MonthKey(month)))[tx] == 0 == multiset(Members(ByMonth, txs, AssetKey(asset)))[tx]
  {
    MembersPartition(ByAsset, txs, AssetKey(asset), tx);
    MembersPartition(ByMonth, txs, MonthKey(month), tx);
    MembersPartition(ByAsset, txs, MonthKey(month), tx);
    MembersPartition(ByMonth, txs, AssetKey(asset), tx);
  }

  /** One measure, summed up group by group. */
  function GroupSums(g: Grouping, m: Measure, txs: seq<Transaction>): map<Key, int> {
    if txs == [] then map[]
    else
      var tx := txs[|txs| - 1];
      var sums := GroupSums(g, m, txs[..|txs| - 1]);
      sums[KeyOf(g, tx) := Get(sums, KeyOf(g, tx)) + Value(m, tx)]
  }

  /** A group is there exactly when it has members, and its sum is theirs. */
  lemma {:induction false} GroupSumOfMembers(g: Grouping, m: Measure, txs: seq<Transaction>, k: Key)
    ensures k in GroupSums(g, m, txs) <==> Members(g, txs, k) != []
    ensures Get(GroupSums(g, m, txs), k) == SumOf(m, Members(g, txs, k))
  {
    if txs != [] {
      var n := |txs| - 1;
      GroupSumOfMembers(g, m, txs[..n], k);
      OneMoreMember(g, m, txs[n], Members(g, txs[..n], k), Members(g, txs, k), k);
    }
  }

  lemma OneMoreMember(g: Grouping, m: Measure, tx: Transaction, before: seq<Transaction>, after: seq<Transaction>, k: Key)
    requires after == if KeyOf(g, tx) == k then before + [tx] else before
    ensures SumOf(m, after) == SumOf(m, before) + if KeyOf(g, tx) == k then Value(m, tx) else 0
    ensures after == [] <==> before == [] && KeyOf(g, tx) != k
  {
    SumAppend(m, before, tx);
  }

  /** Whatever is measured, the groups' sums add up to the sum over the whole list. */
  lemma {:induction false} GroupsAddUp(g: Grouping, m: Measure, txs: seq<Transaction>)
    ensures Total(GroupSums(g, m, txs)) == SumOf(m, txs)
  {
    if txs != [] {
      var n := |txs| - 1;
      GroupsAddUp(g, m, txs[..n]);
      var sums, k := GroupSums(g, m, txs[..n]), KeyOf(g, txs[n]);
      TotalPut(sums, k, Get(sums, k) + Value(m, txs[n]));
    }
  }

  // ---------------------------------------------------------------- the report

  method SumRewards(rewards: seq<int>) returns (sum: int)
    ensures sum == Sum(rewards)
  {
    sum := 0;
    for i := 0 to |rewards|
      invariant sum == Sum(rewards[..i])
    {
      assert rewards[..i + 1][..i] == rewards[..i];
      sum := sum + rewards[i];
    }
    assert rewards[..|rewards|] == rewards;
  }

  method Totals(txs: seq<Transaction>) returns (spent: int, stars: int)
    ensures spent == SumOf(Paise, txs) && stars == SumOf(Stars, txs)
  {
    spent, stars := 0, 0;
    for i := 0 to |txs|
      invariant spent == SumOf(Paise, txs[..i]) && stars == SumOf(Stars, txs[..i])
    {
      assert txs[..i + 1][..i] == txs[..i];
      spent := spent + txs[i].paise;
      var own := SumRewards(txs[i].rewards);
      stars := stars + own;
    }
    assert txs[..|txs|] == txs;
  }

  /** The groups agree with the sums of the transactions. */
  ghost predicate AssetsGrouped(acc: map<Key, AssetGroup>, txs: seq<Transaction>) {
    var counts, paise := GroupSums(ByAsset, Count, txs), GroupSums(ByAsset, Paise, txs);
    && acc.Keys == counts.Keys == paise.Keys
    && forall k | k in acc :: acc[k] == AssetGroup(counts[k], paise[k])
  }

  ghost predicate MonthsGrouped(acc: map<Key, MonthGroup>, txs: seq<Transaction>) {
    var counts, paise, stars := GroupSums(ByMonth, Count, txs), GroupSums(ByMonth, Paise, txs), GroupSums(ByMonth, Stars, txs);
    && acc.Keys == counts.Keys == paise.Keys == stars.Keys
    && forall k | k in acc :: acc[k] == MonthGroup(counts[k], paise[k], stars[k])
  }

  method GroupByAsset(txs: seq<Transaction>) returns (acc: map<Key, AssetGroup>)
    ensures AssetsGrouped(acc, txs)
  {
    acc := map[];
    for i := 0 to |txs|
      invariant AssetsGrouped(acc, txs[..i])
    {
      assert txs[..i + 1][..i] == txs[..i];
      var asset := AssetKey(txs[i].asset);
      if asset !in acc {
        acc := acc[asset := AssetGroup(0, 0)];
      }
      var group := acc[asset];
      acc := acc[asset := AssetGroup(group.count + 1, group.totalPaise + txs[i].paise)];
    }
    assert txs[..|txs|] == txs;
  }

  method GroupByMonth(txs: seq<Transaction>) returns (acc: map<Key, MonthGroup>)
    ensures MonthsGrouped(acc, txs)
  {
    acc := map[];
    for i := 0 to |txs|
      invariant MonthsGrouped(acc, txs[..i])
    {
      assert txs[..i + 1][..i] == txs[..i];
      var month := MonthKey(txs[i].month);
      if month !in acc {
        acc := acc[month := MonthGroup(0, 0, 0)];
      }
      var group := acc[month];
      var own := SumRewards(txs[i].rewards);
      acc := acc[month := MonthGroup(group.count + 1, group.totalPaise + txs[i].paise, group.starRewards + own)];
    }
    assert txs[..|txs|] == txs;
  }

  /** The report is consistent with itself: in both groupings the counts add up to the
      number of transactions and the amounts to the total spent, and the monthly rewards
      add up to the total rewards. */
  method GetTaxReport(txs: seq<Transaction>) returns (r: Report)
    ensures r.totalTransactions == |txs| && r.totalSpentPaise == SumOf(Paise, txs) && r.totalStarRewards == SumOf(Stars, txs)
    ensures Total(map k | k in r.byAsset :: r.byAsset[k].count) == r.totalTransactions
    ensures Total(map k | k in r.byAsset :: r.byAsset[k].totalPaise) == r.totalSpentPaise
    ensures Total(map k | k in r.byMonth :: r.byMonth[k].count) == r.totalTransactions
    ensures Total(map k | k in r.byMonth :: r.byMonth[k].totalPaise) == r.totalSpentPaise
    ensures Total(map k | k in r.byMonth :: r.byMonth[k].starRewards) == r.totalStarRewards
    ensures AssetsGrouped(r.byAsset, txs) && MonthsGrouped(r.byMonth, txs)
  {
    var spent, stars := Totals(txs);
    var byAsset := GroupByAsset(txs);
    var byMonth := GroupByMonth(txs);
    r := Report(|txs|, spent, stars, byAsset, byMonth);
    AssetsConserved(txs, byAsset);
    MonthsConserved(txs, byMonth);
  }

  lemma AssetsConserved(txs: seq<Transaction>, groups: map<Key, AssetGroup>)
    requires AssetsGrouped(groups, txs)
    ensures Total(map k | k in groups :: groups[k].count) == |txs|
    ensures Total(map k | k in groups :: groups[k].totalPaise) == SumOf(Paise, txs)
  {
    CountIsLength(txs);
    GroupsAddUp(ByAsset, Count, txs);
    GroupsAddUp(ByAsset, Paise, txs);
    assert (map k | k in groups :: groups[k].count) == GroupSums(ByAsset, Count, txs);
    assert (map k | k in groups :: groups[k].totalPaise) == GroupSums(ByAsset, Paise, txs);
  }

  lemma MonthsConserved(txs: seq<Transaction>, groups: map<Key, MonthGroup>)
    requires MonthsGrouped(groups, txs)
    ensures Total(map k | k in groups :: groups[k].count) == |txs|
    ensures Total(map k | k in groups :: groups[k].totalPaise) == SumOf(Paise, txs)
    ensures Total(map k | k in groups :: groups[k].starRewards) == SumOf(Stars, txs)
  {
    CountIsLength(txs);
    GroupsAddUp(ByMonth, Count, txs);
    GroupsAddUp(ByMonth, Paise, txs);
    GroupsAddUp(ByMonth, Stars, txs);
    assert (map k | k in groups :: groups[k].count) == GroupSums(ByMonth, Count, txs);
    assert (map k | k in groups :: groups[k].totalPaise) == GroupSums(ByMonth, Paise, txs);
    assert (map k | k in groups :: groups[k].starRewards) == GroupSums(ByMonth, Stars, txs);
  }
}
