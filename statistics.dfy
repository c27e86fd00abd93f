/** The grouping half of calculateClusterStatistics in run_clustering.php:
    for each cluster index in turn, the ids of the customers labelled with
    it; clusters nobody is labelled with are skipped. The per-cluster SQL
    aggregates that follow are database queries and are not part of this
    model. */
module ClusterStatistics {

  /** One entry of the statistics list: the cluster index and the ids of
      the customers in it. */
  datatype ClusterGroup = ClusterGroup(clusterId: nat, customerIds: set<int>)

  /** The customers labelled c (array_keys of the filtered labels). */
  function Members(labels: map<int, nat>, c: int): set<int>
  {
    set id | id in labels && labels[id] == c
  }

  /** g is a non-empty cluster holding exactly the customers labelled with it. */
  predicate IsEntry(labels: map<int, nat>, g: ClusterGroup)
  {
    g.customerIds != {} && g.customerIds == Members(labels, g.clusterId)
  }

  /** The labelled customers whose cluster lies in [lo, k). */
  function InRange(labels: map<int, nat>, lo: int, k: int): set<int>
  {
    set id | id in labels && lo <= labels[id] < k
  }

  /** Distinct clusters share no customer. */
  lemma MembersDisjoint(labels: map<int, nat>, c: int, c': int)
    requires c != c'
    ensures Members(labels, c) * Members(labels, c') == {}
  {
  }

  /** The customers of [lo, k) are those of cluster lo and, apart from
      them, those of [lo + 1, k); so the clusters of [lo, k) together hold
      exactly the customers labelled in that range. */
  lemma RangeSplits(labels: map<int, nat>, lo: int, k: int)
    requires lo < k
    ensures InRange(labels, lo, k) == Members(labels, lo) + InRange(labels, lo + 1, k)
    ensures Members(labels, lo) * InRange(labels, lo + 1, k) == {}
  {
    forall id | id in InRange(labels, lo, k)
      ensures id in Members(labels, lo) + InRange(labels, lo + 1, k)
    {
      if labels[id] != lo {
        assert lo + 1 <= labels[id];
      }
    }
  }

  /** The entries the loop emits for cluster indices lo, lo + 1, ..., k - 1. */
  function Summary(labels: map<int, nat>, lo: nat, k: int): seq<ClusterGroup>
    decreases k - lo
  {
    if lo >= k then []
    else
      var ids := Members(labels, lo);
      (if ids == {} then [] else [ClusterGroup(lo, ids)]) + Summary(labels, lo + 1, k)
  }

  /** Every entry is a non-empty cluster in [lo, k) holding exactly the
      customers labelled with it, and the cluster ids strictly increase. */
  predicate WellFormed(labels: map<int, nat>, s: seq<ClusterGroup>, lo: int, k: int)
  {
    && (forall i :: 0 <= i < |s| ==> lo <= s[i].clusterId < k && IsEntry(labels, s[i]))
    && (forall i, j :: 0 <= i < j < |s| ==> s[i].clusterId < s[j].clusterId)
  }

  lemma {:induction false} SummaryWellFormed(labels: map<int, nat>, lo: nat, k: int)
    ensures WellFormed(labels, Summary(labels, lo, k), lo, k)
    decreases k - lo
  {
    if lo < k {
      SummaryWellFormed(labels, lo + 1, k);
      var s, rest := Summary(labels, lo, k), Summary(labels, lo + 1, k);
      var ids := Members(labels, lo);
      assert WellFormed(labels, rest, lo + 1, k);
      if ids != {} {
        assert s == [ClusterGroup(lo, ids)] + rest;
        forall i | 0 <= i < |s|
          ensures lo <= s[i].clusterId < k && IsEntry(labels, s[i])
        {
          if i > 0 {
            assert s[i] == rest[i - 1];
          }
        }
        forall i, j | 0 <= i < j < |s|
          ensures s[i].clusterId < s[j].clusterId
        {
          assert s[j] == rest[j - 1];
          if i > 0 {
            assert s[i] == rest[i - 1];
          }
        }
      } else {
        assert s == rest;
      }
    }
  }

  /** Every cluster in [lo, k) with at least one customer has an entry. */
  lemma {:induction false} SummaryComplete(labels: map<int, nat>, lo: nat, k: int, c: int)
    requires lo <= c < k && Members(labels, c) != {}
    ensures exists i :: 0 <= i < |Summary(labels, lo, k)| && Summary(labels, lo, k)[i].clusterId == c
    decreases k - lo
  {
    var s := Summary(labels, lo, k);
    if c == lo {
      assert s[0].clusterId == c;
    } else {
      SummaryComplete(labels, lo + 1, k, c);
      var rest := Summary(labels, lo + 1, k);
      var i :| 0 <= i < |rest| && rest[i].clusterId == c;
      var head := s[..|s| - |rest|];
      assert s == head + rest;
      assert s[|head| + i] == rest[i];
    }
  }

  /** The entries' id sets partition the customers labelled in [lo, k):
      each such customer is in exactly one entry, that of its own cluster. */
  lemma SummaryPartitions(labels: map<int, nat>, lo: nat, k: int, id: int)
    requires id in labels && lo <= labels[id] < k
    ensures var s := Summary(labels, lo, k);
            exists i :: 0 <= i < |s| && id in s[i].customerIds && s[i].clusterId == labels[id]
    ensures var s := Summary(labels, lo, k);
            forall i, j :: 0 <= i < |s| && 0 <= j < |s| && id in s[i].customerIds && id in s[j].customerIds
              ==> i == j
  {
    var s := Summary(labels, lo, k);
    SummaryWellFormed(labels, lo, k);
    assert id in Members(labels, labels[id]);
    SummaryComplete(labels, lo, k, labels[id]);
    forall i, j | 0 <= i < |s| && 0 <= j < |s| && id in s[i].customerIds && id in s[j].customerIds
      ensures i == j
    {
      assert s[i].clusterId == labels[id] == s[j].clusterId;
    }
  }

  /** Sum of the entries' customer counts. */
  function TotalCount(s: seq<ClusterGroup>): nat
  {
    if |s| == 0 then 0 else |s[0].customerIds| + TotalCount(s[1..])
  }

  lemma {:induction false} TotalCountAppend(s: seq<ClusterGroup>, t: seq<ClusterGroup>)
    ensures TotalCount(s + t) == TotalCount(s) + TotalCount(t)
  {
    if |s| == 0 {
      assert s + t == t;
    } else {
      assert (s + t)[1..] == s[1..] + t;
      TotalCountAppend(s[1..], t);
    }
  }

  /** The counts add up to the number of customers labelled in [lo, k). */
  lemma {:induction false} SummaryCounts(labels: map<int, nat>, lo: nat, k: int)
    ensures TotalCount(Summary(labels, lo, k)) == |InRange(labels, lo, k)|
    decreases k - lo
  {
    if lo >= k {
      assert InRange(labels, lo, k) == {};
    } else {
      var ids := Members(labels, lo);
      var head := if ids == {} then [] else [ClusterGroup(lo, ids)];
      SummaryCounts(labels, lo + 1, k);
      TotalCountAppend(head, Summary(labels, lo + 1, k));
      assert TotalCount(head) == |ids|;
      RangeSplits(labels, lo, k);
    }
  }

  /** With every label below k (as fit produces them), the counts add up to
      the number of labelled customers. */
  lemma CountsCoverAllLabels(labels: map<int, nat>, k: int)
    requires forall id :: id in labels ==> labels[id] < k
    ensures TotalCount(Summary(labels, 0, k)) == |labels|
  {
    SummaryCounts(labels, 0, k);
    forall id | id in labels
      ensures id in InRange(labels, 0, k)
    {
      assert 0 <= labels[id] < k;
    }
    assert InRange(labels, 0, k) == labels.Keys;
  }

  /** The loop of calculateClusterStatistics, without its SQL: visit the
      cluster indices in order, collect each one's customers and skip the
      empty ones. */
  method GroupByCluster(labels: map<int, nat>, k: int) returns (stats: seq<ClusterGroup>)
    ensures stats == Summary(labels, 0, k)
    ensures WellFormed(labels, stats, 0, k)
    ensures TotalCount(stats) == |InRange(labels, 0, k)|
  {
    stats := [];
    var i: nat := 0;
    while i < k
      invariant i == 0 || i <= k
      invariant stats + Summary(labels, i, k) == Summary(labels, 0, k)
      decreases k - i
    {
      var customerIds := set id | id in labels && labels[id] == i;
      assert customerIds == Members(labels, i);
      ghost var rest := Summary(labels, i + 1, k);
      if customerIds != {} {
        var entry := ClusterGroup(i, customerIds);
        assert Summary(labels, i, k) == [entry] + rest;
        assert stats + ([entry] + rest) == (stats + [entry]) + rest;
        stats := stats + [entry];
      } else {
        assert Summary(labels, i, k) == rest;
      }
      i := i + 1;
    }
    assert Summary(labels, i, k) == [];
    SummaryWellFormed(labels, 0, k);
    SummaryCounts(labels, 0, k);
  }
}
