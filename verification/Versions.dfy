/** Version chains of CRON jobs: what `get_versions` lists, and when updates keep a chain a
    chain. */
module Versions {
  import opened Wrappers
  import opened Tables
  import opened Protocol
  import opened Invariant
  import opened Runs

  ghost predicate Chained(jobs: map<JobId, Job>) {
    forall j <- jobs :: ChainOk(jobs, jobs[j])
  }

  lemma HistoryChained(states: seq<State>, i: nat)
    requires History(states) && i < |states|
    ensures Chained(states[i].db.jobs)
  {
    hide History, ExecutionsOk, TxsOk, Locked, AnswersOk, KeysOk, DistinctOk, OneShotOk, SettledOk;
    HistoryInv(states, i);
    forall j <- states[i].db.jobs ensures ChainOk(states[i].db.jobs, states[i].db.jobs[j]) {
      assert JobOk(states[i].db, j);
    }
  }

  /** `get_versions`: the job and, before it, the versions its previous links lead to. */
  ghost function GetVersions(jobs: map<JobId, Job>, j: JobId): (r: seq<JobId>)
    requires Chained(jobs) && j in jobs
    ensures r != [] && r[|r| - 1] == j
    decreases jobs[j].version
  {
    match jobs[j].previous
    case None => [j]
    case Some(p) => GetVersions(jobs, p) + [j]
  }

  /** A listing of some job's versions: oldest first, each linked to the one before it. */
  ghost predicate Lists(jobs: map<JobId, Job>, versions: seq<JobId>, j: JobId) {
    && versions != [] && versions[|versions| - 1] == j
    && (forall k | 0 <= k < |versions| :: versions[k] in jobs && jobs[versions[k]].version == k + 1)
    && jobs[versions[0]].previous.None?
    && (forall k | 0 < k < |versions| :: Replaces(jobs, versions[k - 1], versions[k]))
  }

  predicate Replaces(jobs: map<JobId, Job>, p: JobId, n: JobId) {
    && p in jobs && n in jobs && jobs[n].previous == Some(p)
    && jobs[p].status == Retired && jobs[p].trigger == Cron
  }

  /** In every reachable state the listing of a job runs through versions 1, 2, ... up to its
      own, without a gap, and every version but the last is RETIRED. */
  lemma {:induction false} ListingIsComplete(jobs: map<JobId, Job>, j: JobId)
    requires Chained(jobs) && j in jobs
    ensures Lists(jobs, GetVersions(jobs, j), j) && |GetVersions(jobs, j)| == jobs[j].version
    decreases jobs[j].version
  {
    assert ChainOk(jobs, jobs[j]);
    if jobs[j].previous.Some? {
      var p := jobs[j].previous.value;
      ListingIsComplete(jobs, p);
      var before, r := GetVersions(jobs, p), GetVersions(jobs, j);
      assert r == before + [j];
      forall k | 0 < k < |r| ensures Replaces(jobs, r[k - 1], r[k]) {
        if k < |before| { assert Replaces(jobs, before[k - 1], before[k]); }
      }
    }
  }

  /** Nothing else lists them. */
  lemma {:induction false} ListingIsUnique(jobs: map<JobId, Job>, versions: seq<JobId>, j: JobId)
    requires Chained(jobs) && j in jobs && Lists(jobs, versions, j)
    ensures versions == GetVersions(jobs, j)
    decreases |versions|
  {
    var n := |versions| - 1;
    if n > 0 {
      assert Replaces(jobs, versions[n - 1], versions[n]);
      assert Lists(jobs, versions[..n], versions[n - 1]);
      ListingIsUnique(jobs, versions[..n], versions[n - 1]);
      assert versions == versions[..n] + [j];
    } else {
      assert versions == [j];
    }
  }

  /** The lineage a job belongs to, named by its first version. */
  ghost function Root(jobs: map<JobId, Job>, j: JobId): JobId
    requires Chained(jobs) && j in jobs
  {
    GetVersions(jobs, j)[0]
  }

  /** No version has been replaced twice. */
  ghost predicate Linear(jobs: map<JobId, Job>) {
    forall i <- jobs, j <- jobs :: i != j && jobs[i].previous.Some? ==> jobs[i].previous != jobs[j].previous
  }

  ghost predicate Replaced(jobs: map<JobId, Job>, j: JobId) {
    exists i <- jobs :: jobs[i].previous == Some(j)
  }

  /** In a linear table, the jobs of one lineage are told apart by their versions. */
  lemma {:induction false} SameVersion(jobs: map<JobId, Job>, i: JobId, j: JobId, k: nat)
    requires Chained(jobs) && Linear(jobs) && i in jobs && j in jobs && Root(jobs, i) == Root(jobs, j)
    requires k < |GetVersions(jobs, i)| && k < |GetVersions(jobs, j)|
    ensures GetVersions(jobs, i)[k] == GetVersions(jobs, j)[k]
  {
    ListingIsComplete(jobs, i);
    ListingIsComplete(jobs, j);
    if k > 0 {
      SameVersion(jobs, i, j, k - 1);
      var a, b := GetVersions(jobs, i)[k], GetVersions(jobs, j)[k];
      assert Replaces(jobs, GetVersions(jobs, i)[k - 1], a) && Replaces(jobs, GetVersions(jobs, j)[k - 1], b);
    }
  }

  /** In a linear table a lineage is one list: of two of its jobs, the lower version is listed
      among the versions of the higher. */
  lemma LineageIsAList(jobs: map<JobId, Job>, i: JobId, j: JobId)
    requires Chained(jobs) && Linear(jobs) && i in jobs && j in jobs && Root(jobs, i) == Root(jobs, j)
    requires jobs[i].version <= jobs[j].version
    ensures 1 <= jobs[i].version <= |GetVersions(jobs, j)| && GetVersions(jobs, j)[jobs[i].version - 1] == i
    ensures i != j ==> jobs[i].status == Retired
  {
    ListingIsComplete(jobs, i);
    ListingIsComplete(jobs, j);
    var k := jobs[i].version - 1;
    SameVersion(jobs, i, j, k);
    if i != j {
      var r := GetVersions(jobs, j);
      assert k + 1 < |r|;
      assert Replaces(jobs, r[k], r[k + 1]);
    }
  }

  /** So a lineage has at most one ACTIVE version, and only its highest can be. */
  lemma OneActiveVersion(jobs: map<JobId, Job>, i: JobId, j: JobId)
    requires Chained(jobs) && Linear(jobs) && i in jobs && j in jobs && Root(jobs, i) == Root(jobs, j)
    requires jobs[i].status == Active
    ensures jobs[j].version <= jobs[i].version
    ensures jobs[j].status == Active ==> i == j
  {
    if jobs[i].version <= jobs[j].version {
      LineageIsAList(jobs, i, j);
    } else {
      LineageIsAList(jobs, j, i);
    }
  }

  /** No version but the last of the list has been replaced by anything but the next. */
  ghost predicate ReplacedInTurn(jobs: map<JobId, Job>, versions: seq<JobId>) {
    forall k, i: JobId | 0 <= k < |versions| - 1 && i in jobs && jobs[i].previous == Some(versions[k]) :: i == versions[k + 1]
  }

  lemma RootOfReplacer(jobs: map<JobId, Job>, j: JobId, i: JobId, k: nat)
    requires Chained(jobs) && i in jobs && j in jobs && k < |GetVersions(jobs, j)|
    requires jobs[i].previous == Some(GetVersions(jobs, j)[k])
    ensures Root(jobs, i) == Root(jobs, j) && jobs[i].version == k + 2
  {
    ListingIsComplete(jobs, j);
    var v := GetVersions(jobs, j)[k];
    PrefixListed(jobs, j, k);
    assert GetVersions(jobs, i) == GetVersions(jobs, v) + [i];
    assert ChainOk(jobs, jobs[i]);
  }

  /** A listed version's own list is the beginning of the list. */
  lemma {:induction false} PrefixListed(jobs: map<JobId, Job>, j: JobId, k: nat)
    requires Chained(jobs) && j in jobs && k < |GetVersions(jobs, j)|
    ensures GetVersions(jobs, j)[k] in jobs && GetVersions(jobs, GetVersions(jobs, j)[k]) == GetVersions(jobs, j)[..k + 1]
    decreases jobs[j].version
  {
    var r := GetVersions(jobs, j);
    assert ChainOk(jobs, jobs[j]);
    if k < |r| - 1 {
      PrefixListed(jobs, jobs[j].previous.value, k);
    } else {
      assert r[..k + 1] == r;
    }
  }

  lemma {:induction false} ListedAsFar(jobs: map<JobId, Job>, j: JobId, i: JobId, k: nat)
    requires Chained(jobs) && i in jobs && j in jobs && Root(jobs, i) == Root(jobs, j)
    requires !Replaced(jobs, j) && ReplacedInTurn(jobs, GetVersions(jobs, j)) && k < |GetVersions(jobs, i)|
    ensures k < |GetVersions(jobs, j)| && GetVersions(jobs, i)[k] == GetVersions(jobs, j)[k]
  {
    ListingIsComplete(jobs, i);
    if k > 0 {
      ListedAsFar(jobs, j, i, k - 1);
      var r := GetVersions(jobs, i);
      assert Replaces(jobs, r[k - 1], r[k]);
    }
  }

  ghost predicate ListsLineage(jobs: map<JobId, Job>, j: JobId)
    requires Chained(jobs) && j in jobs
  {
    forall i <- jobs :: Root(jobs, i) == Root(jobs, j) ==> i in GetVersions(jobs, j)
  }

  /** Documented: any version lists its whole lineage.  In every reachable table, forked or
      not, it does if and only if it has not been replaced and no version it lists has been
      replaced twice. */
  lemma WholeLineageExactly(jobs: map<JobId, Job>, j: JobId)
    requires Chained(jobs) && j in jobs
    ensures ListsLineage(jobs, j) <==> !Replaced(jobs, j) && ReplacedInTurn(jobs, GetVersions(jobs, j))
  {
    if ListsLineage(jobs, j) {
      ListsOnlyIfInTurn(jobs, j);
    }
    if !Replaced(jobs, j) && ReplacedInTurn(jobs, GetVersions(jobs, j)) {
      forall i <- jobs | Root(jobs, i) == Root(jobs, j) ensures i in GetVersions(jobs, j) {
        ListedAsFar(jobs, j, i, |GetVersions(jobs, i)| - 1);
      }
    }
  }

  lemma ListsOnlyIfInTurn(jobs: map<JobId, Job>, j: JobId)
    requires Chained(jobs) && j in jobs && ListsLineage(jobs, j)
    ensures !Replaced(jobs, j) && ReplacedInTurn(jobs, GetVersions(jobs, j))
  {
    var r := GetVersions(jobs, j);
    ListingIsComplete(jobs, j);
    forall k: nat, i: JobId | k < |r| && i in jobs && jobs[i].previous == Some(r[k]) ensures k + 1 < |r| && i == r[k + 1] {
      RootOfReplacer(jobs, j, i, k);
      assert i in r;
    }
  }

  /** So in a linear table any version lists its whole lineage exactly if it has not been
      replaced. */
  lemma WholeLineageOnlyFromHead(jobs: map<JobId, Job>, j: JobId)
    requires Chained(jobs) && Linear(jobs) && j in jobs
    ensures (forall i <- jobs :: Root(jobs, i) == Root(jobs, j) ==> i in GetVersions(jobs, j)) <==> !Replaced(jobs, j)
  {
    ListingIsComplete(jobs, j);
    if Replaced(jobs, j) {
      var i :| i in jobs && jobs[i].previous == Some(j);
      assert GetVersions(jobs, i) == GetVersions(jobs, j) + [i];
      assert Root(jobs, i) == Root(jobs, j);
      ListingIsComplete(jobs, i);
      assert forall k | 0 <= k < |GetVersions(jobs, j)| :: jobs[GetVersions(jobs, j)[k]].version < jobs[i].version;
    } else {
      forall i <- jobs | Root(jobs, i) == Root(jobs, j) ensures i in GetVersions(jobs, j) {
        if jobs[i].version <= jobs[j].version {
          LineageIsAList(jobs, i, j);
        } else {
          HigherReplaces(jobs, j, i);
        }
      }
    }
  }

  lemma HigherReplaces(jobs: map<JobId, Job>, j: JobId, i: JobId)
    requires Chained(jobs) && Linear(jobs) && i in jobs && j in jobs && Root(jobs, i) == Root(jobs, j)
    requires jobs[j].version < jobs[i].version
    ensures Replaced(jobs, j)
  {
    LineageIsAList(jobs, j, i);
    ListingIsComplete(jobs, i);
    var r, k := GetVersions(jobs, i), jobs[j].version;
    assert Replaces(jobs, r[k - 1], r[k]);
  }
}
