/** The dashboard's deployment store: the list of deployments the browser holds, the one
    selected for the detail view, and the counters shown above the list. Network fetches,
    the websocket connection and the floating-point statistics are outside the model;
    timestamps are whole milliseconds. */
module Dashboard {
  import opened Wrappers

  datatype Status = Queued | InProgress | Success | Failed

  /** A deployment as the API serialises it. */
  datatype Deployment = Deployment(id: string, owner: string, repo: string, ref: string, sha: string,
                                   environment: string, status: Status, startedAt: int,
                                   completedAt: Option<int>, url: Option<string>, port: Option<int>,
                                   projectType: Option<string>, error: Option<string>)

  /** The integer counters of the statistics panel. */
  datatype Stats = Stats(total: nat, successful: nat, failed: nat)

  // ---------------------------------------------------------------------------
  // Array.prototype.filter

  /** The elements that `keep` accepts, in their original order. */
  function Where(ds: seq<Deployment>, keep: Deployment -> bool): seq<Deployment>
  {
    if ds == [] then []
    else Where(ds[..|ds| - 1], keep) + (if keep(ds[|ds| - 1]) then [ds[|ds| - 1]] else [])
  }

  /** Filtering distributes over concatenation: the order of what is kept is the order of the
      input. */
  lemma {:induction false} WhereConcat(a: seq<Deployment>, b: seq<Deployment>, keep: Deployment -> bool)
    ensures Where(a + b, keep) == Where(a, keep) + Where(b, keep)
    decreases |b|
  {
    if b == [] {
      assert a + b == a;
    } else {
      var last := b[|b| - 1];
      assert (a + b)[..|a + b| - 1] == a + b[..|b| - 1];
      assert (a + b)[|a + b| - 1] == last;
      WhereConcat(a, b[..|b| - 1], keep);
    }
  }

  /** Exactly the accepted elements survive a filter, and no more of them than there are. */
  lemma {:induction false} WhereMembers(ds: seq<Deployment>, keep: Deployment -> bool)
    ensures forall d :: d in Where(ds, keep) <==> d in ds && keep(d)
    ensures |Where(ds, keep)| <= |ds|
  {
    if ds != [] {
      var init := ds[..|ds| - 1];
      WhereMembers(init, keep);
      assert ds == init + [ds[|ds| - 1]];
    }
  }

  /** How many elements a filter keeps depends only on the multiset of its input. */
  lemma {:induction false} WherePermutation(a: seq<Deployment>, b: seq<Deployment>, keep: Deployment -> bool)
    requires multiset(a) == multiset(b)
    ensures |Where(a, keep)| == |Where(b, keep)|
    decreases |a|
  {
    if a != [] {
      var x := a[|a| - 1];
      var init := a[..|a| - 1];
      assert a == init + [x];
      var k := FindIn(b, x);
      RemoveOne(init, x, b, k);
      WherePermutation(init, b[..k] + b[k + 1..], keep);
      WhereConcat(init, [x], keep);
      WhereSingle(x, keep);
      WhereRemoved(b, k, keep);
    }
  }

  /** A position of an element the multiset of `b` holds. */
  function FindIn(b: seq<Deployment>, x: Deployment): (k: nat)
    requires x in multiset(b)
    ensures k < |b| && b[k] == x
  {
    if b[0] == x then 0 else FindIn(b[1..], x) + 1
  }

  /** Taking the same element out of two equal multisets leaves equal multisets. */
  lemma RemoveOne(init: seq<Deployment>, x: Deployment, b: seq<Deployment>, k: nat)
    requires k < |b| && b[k] == x && multiset(init + [x]) == multiset(b)
    ensures multiset(init) == multiset(b[..k] + b[k + 1..])
  {
    var rest := b[..k] + b[k + 1..];
    assert b == b[..k] + [x] + b[k + 1..];
    assert multiset(rest) == multiset(b[..k]) + multiset(b[k + 1..]);
    assert multiset(b) == multiset(b[..k]) + multiset{x} + multiset(b[k + 1..]);
    assert multiset(rest) == multiset(b) - multiset{x};
  }

  /** Removing one element changes a filter's count by one exactly when it is kept. */
  lemma WhereRemoved(b: seq<Deployment>, k: nat, keep: Deployment -> bool)
    requires k < |b|
    ensures |Where(b, keep)| == |Where(b[..k] + b[k + 1..], keep)| + (if keep(b[k]) then 1 else 0)
  {
    assert b == b[..k] + [b[k]] + b[k + 1..];
    WhereConcat(b[..k] + [b[k]], b[k + 1..], keep);
    WhereConcat(b[..k], [b[k]], keep);
    WhereConcat(b[..k], b[k + 1..], keep);
    WhereSingle(b[k], keep);
  }

  lemma {:induction false} WhereNone(ds: seq<Deployment>, keep: Deployment -> bool)
    requires forall d :: d in ds ==> !keep(d)
    ensures Where(ds, keep) == []
  {
    if ds != [] {
      WhereNone(ds[..|ds| - 1], keep);
    }
  }

  lemma WhereSingle(x: Deployment, keep: Deployment -> bool)
    ensures Where([x], keep) == if keep(x) then [x] else []
  {
    assert [x][..0] == [];
  }

  // ---------------------------------------------------------------------------
  // Getters

  predicate IsActive(d: Deployment)
  {
    d.status == Queued || d.status == InProgress
  }

  /** activeDeployments: the queued and running deployments, in list order. */
  function ActiveDeployments(ds: seq<Deployment>): seq<Deployment>
  {
    Where(ds, IsActive)
  }

  /** The active list holds exactly the queued and in-progress deployments, and filtering
      each part of a list filters the whole, so the list's order is kept. */
  lemma ActiveExactly(ds: seq<Deployment>, more: seq<Deployment>)
    ensures forall d :: d in ActiveDeployments(ds) <==> d in ds && (d.status == Queued || d.status == InProgress)
    ensures ActiveDeployments(ds + more) == ActiveDeployments(ds) + ActiveDeployments(more)
  {
    WhereMembers(ds, IsActive);
    WhereConcat(ds, more, IsActive);
  }

  function HasStatus(s: Status): Deployment -> bool
  {
    (d: Deployment) => d.status == s
  }

  function InEnvironment(e: string): Deployment -> bool
  {
    (d: Deployment) => d.environment == e
  }

  /** calculateStats' counters for a list. */
  function StatsOf(ds: seq<Deployment>): Stats
  {
    Stats(|ds|, |Where(ds, HasStatus(Success))|, |Where(ds, HasStatus(Failed))|)
  }

  /** Successful and failed deployments are distinct ones, so they never outnumber the total. */
  lemma {:induction false} StatsBound(ds: seq<Deployment>)
    ensures StatsOf(ds).successful + StatsOf(ds).failed <= StatsOf(ds).total
  {
    if ds != [] {
      StatsBound(ds[..|ds| - 1]);
    }
  }

  /** Reordering a list leaves its counters unchanged. */
  lemma StatsPermutation(a: seq<Deployment>, b: seq<Deployment>)
    requires multiset(a) == multiset(b)
    ensures StatsOf(a) == StatsOf(b)
  {
    assert |a| == |multiset(a)| == |multiset(b)| == |b|;
    WherePermutation(a, b, HasStatus(Success));
    WherePermutation(a, b, HasStatus(Failed));
  }

  /** The environments the list mentions. */
  function Environments(ds: seq<Deployment>): set<string>
  {
    set d | d in ds :: d.environment
  }

  /** deploymentsByEnvironment's groups: one per environment, holding that environment's
      deployments in list order. */
  function Grouped(ds: seq<Deployment>): map<string, seq<Deployment>>
  {
    map e | e in Environments(ds) :: Where(ds, InEnvironment(e))
  }

  /** Each deployment sits in its own environment's group and in no other. */
  lemma GroupMembership(ds: seq<Deployment>, d: Deployment, e: string)
    requires d in ds
    ensures d.environment in Grouped(ds) && d in Grouped(ds)[d.environment]
    ensures e in Grouped(ds) && e != d.environment ==> d !in Grouped(ds)[e]
  {
    WhereMembers(ds, InEnvironment(d.environment));
    WhereMembers(ds, InEnvironment(e));
  }

  /** Sum of the group sizes over a list of keys. */
  function GroupSizes(ds: seq<Deployment>, keys: seq<string>): nat
  {
    if keys == [] then 0 else |Where(ds, InEnvironment(keys[0]))| + GroupSizes(ds, keys[1..])
  }

  lemma {:induction false} GroupSizesConcat(a: seq<Deployment>, b: seq<Deployment>, keys: seq<string>)
    ensures GroupSizes(a + b, keys) == GroupSizes(a, keys) + GroupSizes(b, keys)
  {
    if keys != [] {
      WhereConcat(a, b, InEnvironment(keys[0]));
      GroupSizesConcat(a, b, keys[1..]);
    }
  }

  /** A single deployment is counted once over keys that list its environment once. */
  lemma {:induction false} GroupSizesSingle(x: Deployment, keys: seq<string>)
    requires forall i, j :: 0 <= i < j < |keys| ==> keys[i] != keys[j]
    ensures GroupSizes([x], keys) == if x.environment in keys then 1 else 0
  {
    if keys != [] {
      WhereSingle(x, InEnvironment(keys[0]));
      assert keys == [keys[0]] + keys[1..];
      GroupSizesSingle(x, keys[1..]);
      if x.environment == keys[0] {
        assert x.environment !in keys[1..] by {
          forall j | 0 <= j < |keys[1..]|
            ensures keys[1..][j] != x.environment
          {
            assert keys[1..][j] == keys[j + 1];
          }
        }
      }
    }
  }

  /** Every deployment lands in exactly one group: over any duplicate-free list of keys that
      covers the environments, the group sizes add up to the length of the list. */
  lemma {:induction false} GroupsPartition(ds: seq<Deployment>, keys: seq<string>)
    requires forall i, j :: 0 <= i < j < |keys| ==> keys[i] != keys[j]
    requires Environments(ds) <= set k | k in keys
    ensures GroupSizes(ds, keys) == |ds|
  {
    if ds == [] {
      EmptyGroups(keys);
    } else {
      var init, x := ds[..|ds| - 1], ds[|ds| - 1];
      assert ds == init + [x];
      assert Environments(init) <= Environments(ds);
      assert x.environment in Environments(ds);
      GroupsPartition(init, keys);
      GroupSizesConcat(init, [x], keys);
      GroupSizesSingle(x, keys);
    }
  }

  lemma {:induction false} EmptyGroups(keys: seq<string>)
    ensures GroupSizes([], keys) == 0
  {
    if keys != [] {
      EmptyGroups(keys[1..]);
    }
  }

  /** Later start first (the comparator b - a). */
  predicate NewestFirst(ds: seq<Deployment>)
  {
    forall i, j :: 0 <= i < j < |ds| ==> ds[i].startedAt >= ds[j].startedAt
  }

  // ---------------------------------------------------------------------------
  // Array.prototype.findIndex and the upsert

  /** The first position holding `id`, or -1. */
  function FindIndex(ds: seq<Deployment>, id: string): (r: int)
    ensures -1 <= r < |ds|
  {
    if ds == [] then -1
    else if ds[0].id == id then 0
    else
      var k := FindIndex(ds[1..], id);
      if k < 0 then -1 else k + 1
  }

  lemma {:induction false} FindIndexFirst(ds: seq<Deployment>, id: string)
    ensures FindIndex(ds, id) >= 0 ==> ds[FindIndex(ds, id)].id == id
    ensures forall j :: 0 <= j < |ds| && (FindIndex(ds, id) < 0 || j < FindIndex(ds, id)) ==> ds[j].id != id
  {
    if ds != [] && ds[0].id != id {
      FindIndexFirst(ds[1..], id);
      forall j | 1 <= j < |ds|
        ensures ds[j] == ds[1..][j - 1]
      {
      }
    }
  }

  predicate Known(ds: seq<Deployment>, id: string)
  {
    exists j :: 0 <= j < |ds| && ds[j].id == id
  }

  /** updateDeploymentFromWS' list: the first entry with the incoming identifier is replaced,
      otherwise the deployment is appended. */
  function Upserted(ds: seq<Deployment>, d: Deployment): seq<Deployment>
  {
    var i := FindIndex(ds, d.id);
    if i >= 0 then ds[i := d] else ds + [d]
  }

  /** A known identifier: the length is kept, its first entry becomes the incoming deployment
      and every other entry is untouched. An unknown one: the deployment goes to the end. */
  lemma UpsertEffect(ds: seq<Deployment>, d: Deployment)
    ensures Known(ds, d.id) ==>
              var i := FindIndex(ds, d.id);
              0 <= i && ds[i].id == d.id && (forall j :: 0 <= j < i ==> ds[j].id != d.id)
              && |Upserted(ds, d)| == |ds| && Upserted(ds, d)[i] == d
              && forall j :: 0 <= j < |ds| && j != i ==> Upserted(ds, d)[j] == ds[j]
    ensures !Known(ds, d.id) ==> Upserted(ds, d) == ds + [d]
  {
    FindIndexFirst(ds, d.id);
  }

  /** Identifiers that were unique stay unique, and pushing the same update twice changes
      nothing the second time. */
  lemma UpsertUnique(ds: seq<Deployment>, d: Deployment)
    requires UniqueIds(ds)
    ensures UniqueIds(Upserted(ds, d))
    ensures Upserted(Upserted(ds, d), d) == Upserted(ds, d)
  {
    var r := Upserted(ds, d);
    FindIndexFirst(ds, d.id);
    FindIndexFirst(r, d.id);
    var i := FindIndex(ds, d.id);
    if i < 0 {
      assert r[|ds|] == d;
    } else {
      assert r[i] == d;
    }
  }

  predicate UniqueIds(ds: seq<Deployment>)
  {
    forall i, j :: 0 <= i < j < |ds| ==> ds[i].id != ds[j].id
  }

  // ---------------------------------------------------------------------------
  // The store

  class Store {
    var deployments: seq<Deployment>
    var selected: Option<Deployment>
    var stats: Stats

    /** The counters describe the list. */
    ghost predicate StatsCurrent()
      reads this
    {
      stats == StatsOf(deployments)
    }

    constructor ()
      ensures deployments == [] && selected == None && stats == Stats(0, 0, 0)
      ensures StatsCurrent()
    {
      deployments, selected, stats := [], None, Stats(0, 0, 0);
    }

    /** calculateStats: the counters, recomputed from the list. */
    method CalculateStats()
      modifies this`stats
      ensures stats == StatsOf(deployments)
      ensures stats.successful + stats.failed <= stats.total
    {
      var successful := CountStatus(deployments, Success);
      var failed := CountStatus(deployments, Failed);
      stats := Stats(|deployments|, successful, failed);
      StatsBound(deployments);
    }

    /** updateDeploymentFromWS: merge a deployment pushed over the websocket. */
    method UpdateDeploymentFromWS(d: Deployment)
      modifies this
      ensures deployments == Upserted(old(deployments), d)
      ensures selected == (if old(selected).Some? && old(selected).value.id == d.id then Some(d) else old(selected))
      ensures StatsCurrent()
    {
      var index := FindIndex(deployments, d.id);
      if index >= 0 {
        deployments := deployments[index := d];
      } else {
        deployments := deployments + [d];
      }
      if selected.Some? && selected.value.id == d.id {
        selected := Some(d);
      }
      CalculateStats();
    }

    /** recentDeployments: sorts the store's own list newest first (the getter sorts in place)
        and returns the first ten. */
    method RecentDeployments() returns (recent: seq<Deployment>)
      modifies this`deployments
      ensures multiset(deployments) == multiset(old(deployments)) && NewestFirst(deployments)
      ensures recent == deployments[..if |deployments| < 10 then |deployments| else 10]
      ensures old(StatsCurrent()) ==> StatsCurrent()
    {
      deployments := SortNewestFirst(deployments);
      StatsPermutation(old(deployments), deployments);
      recent := deployments[..if |deployments| < 10 then |deployments| else 10];
    }

    /** deploymentsByEnvironment: one group per environment, built in one pass. */
    method DeploymentsByEnvironment() returns (grouped: map<string, seq<Deployment>>)
      ensures grouped == Grouped(deployments)
    {
      grouped := map[];
      var i := 0;
      while i < |deployments|
        invariant 0 <= i <= |deployments|
        invariant grouped == Grouped(deployments[..i])
      {
        var d := deployments[i];
        GroupedStep(deployments[..i + 1]);
        assert deployments[..i + 1][..i] == deployments[..i];
        if d.environment !in grouped {
          grouped := grouped[d.environment := []];
        }
        grouped := grouped[d.environment := grouped[d.environment] + [d]];
        i := i + 1;
      }
      assert deployments[..i] == deployments;
    }
  }

  /** Appending one deployment adds it to the end of its environment's group, creating the
      group when it is the first of its environment. */
  lemma GroupedStep(ds: seq<Deployment>)
    requires ds != []
    ensures var init, x := ds[..|ds| - 1], ds[|ds| - 1];
            Grouped(ds) == Grouped(init)[x.environment :=
                             (if x.environment in Grouped(init) then Grouped(init)[x.environment] else []) + [x]]
  {
    var init, x := ds[..|ds| - 1], ds[|ds| - 1];
    var before, after := Grouped(init), Grouped(ds);
    var expected := before[x.environment := (if x.environment in before then before[x.environment] else []) + [x]];
    assert ds == init + [x];
    assert Environments(ds) == Environments(init) + {x.environment};
    assert after.Keys == expected.Keys;
    forall e | e in after
      ensures after[e] == expected[e]
    {
      assert after[e] == Where(ds, InEnvironment(e));
      assert InEnvironment(e)(x) <==> x.environment == e;
      assert after[e] == Where(init, InEnvironment(e)) + (if x.environment == e then [x] else []);
      if e == x.environment && x.environment !in Environments(init) {
        WhereNone(init, InEnvironment(e));
      }
    }
  }

  /** filter(...).length for one status, counted in one pass. */
  method CountStatus(ds: seq<Deployment>, s: Status) returns (n: nat)
    ensures n == |Where(ds, HasStatus(s))|
  {
    n := 0;
    var i := 0;
    while i < |ds|
      invariant 0 <= i <= |ds|
      invariant n == |Where(ds[..i], HasStatus(s))|
    {
      assert ds[..i + 1][..i] == ds[..i];
      if ds[i].status == s {
        n := n + 1;
      }
      i := i + 1;
    }
    assert ds[..i] == ds;
  }

  /** The engine's sort with the comparator b - a, on start times: an insertion sort. */
  method SortNewestFirst(ds: seq<Deployment>) returns (r: seq<Deployment>)
    ensures multiset(r) == multiset(ds) && NewestFirst(r)
  {
    r := ds;
    var i := 0;
    while i < |r|
      invariant 0 <= i <= |r|
      invariant multiset(r) == multiset(ds)
      invariant NewestFirst(r[..i])
    {
      r := InsertNewestFirst(r, i);
      i := i + 1;
    }
    assert r[..i] == r;
  }

  /** Moves r[i] left past every later-started entry of the sorted prefix r[..i]. */
  method InsertNewestFirst(s: seq<Deployment>, i: nat) returns (r: seq<Deployment>)
    requires i < |s| && NewestFirst(s[..i])
    ensures |r| == |s| && multiset(r) == multiset(s) && NewestFirst(r[..i + 1])
  {
    r := s;
    var j := i;
    InsertStart(s, i);
    while j > 0 && r[j - 1].startedAt < r[j].startedAt
      invariant 0 <= j <= i < |r| == |s|
      invariant multiset(r) == multiset(s)
      invariant Inserting(r, i, j)
    {
      SwapKeepsMultiset(r, j);
      SwapKeepsInserting(r, i, j);
      r := r[j - 1 := r[j]][j := r[j - 1]];
      j := j - 1;
    }
    InsertDone(r, i, j);
  }

  /** The state of the insertion: r[..i+1] is newest first except at the moving entry r[j],
      which is no older than anything after it and whose neighbours are in order. */
  predicate Inserting(r: seq<Deployment>, i: nat, j: nat)
    requires j <= i < |r|
  {
    (forall a, b :: 0 <= a < b <= i && b != j ==> r[a].startedAt >= r[b].startedAt)
    && (forall b :: j < b <= i ==> r[j].startedAt >= r[b].startedAt)
    && (0 < j < i ==> r[j - 1].startedAt >= r[j + 1].startedAt)
  }

  lemma InsertStart(s: seq<Deployment>, i: nat)
    requires i < |s| && NewestFirst(s[..i])
    ensures Inserting(s, i, i)
  {
    forall a, b | 0 <= a < b <= i && b != i
      ensures s[a].startedAt >= s[b].startedAt
    {
      assert s[a] == s[..i][a] && s[b] == s[..i][b];
    }
  }

  lemma SwapKeepsInserting(r: seq<Deployment>, i: nat, j: nat)
    requires 0 < j <= i < |r| && Inserting(r, i, j) && r[j - 1].startedAt < r[j].startedAt
    ensures Inserting(r[j - 1 := r[j]][j := r[j - 1]], i, j - 1)
  {
  }

  lemma InsertDone(r: seq<Deployment>, i: nat, j: nat)
    requires j <= i < |r| && Inserting(r, i, j)
    requires j == 0 || r[j - 1].startedAt >= r[j].startedAt
    ensures NewestFirst(r[..i + 1])
  {
  }

  lemma SwapKeepsMultiset(r: seq<Deployment>, j: int)
    requires 0 < j < |r|
    ensures multiset(r[j - 1 := r[j]][j := r[j - 1]]) == multiset(r)
  {
    var t := r[j - 1 := r[j]][j := r[j - 1]];
    assert r == r[..j - 1] + [r[j - 1], r[j]] + r[j + 1..];
    assert t == r[..j - 1] + [r[j], r[j - 1]] + r[j + 1..];
  }
}
