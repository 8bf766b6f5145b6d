/** The proof vault and history store (lib/db.ts) with the key-value server
    replaced by an in-memory object. Each key family of the source is a field:
    `set`/`get`/`del` on a key family become updates and lookups of a map,
    `lpush` followed by `ltrim 0 k-1` becomes `PushTrim`, `lrange` becomes
    `LRange`, and `sadd`/`srem`/`smembers` become set operations. The drift
    records (`drift:<id>`) and the per-competitor drift lists (`drift:<url>`)
    share a key prefix in the source; here they are two separate fields. The
    proof id set lives at `proof:all`, which is also the record key of the id
    `all`; the delete below follows that clash. */
module Db {
  import opened Wrappers
  import opened Seqs
  import opened Types

  /** How many ids the per-competitor and global lists keep (`ltrim 0 9`,
      `ltrim 0 49`, `ltrim 0 99`). */
  const SnapshotsKept: nat := 10
  const DriftsKept: nat := 50
  const ReportsKept: nat := 100
  /** The `limit` `getSnapshotHistory` and `getRecentMarketPulseReports` use
      when none is given. */
  const DefaultHistoryLimit: nat := 10

  // ---------------------------------------------------------------------------
  // List commands

  /** The elements `LRANGE start stop` returns, and the elements `LTRIM start stop`
      keeps: both ends inclusive, a negative index counts from the end, and an
      index past an end is clamped to it. */
  function LRange<T>(xs: seq<T>, start: int, stop: int): (r: seq<T>)
    ensures |r| <= |xs|
  {
    var n := |xs|;
    var s := if start < 0 then Max(start + n, 0) else start;
    var e := if stop < 0 then stop + n else Min(stop, n - 1);
    if s > e || s >= n then [] else xs[s..e + 1]
  }

  /** `LRANGE 0 k-1` for a positive `k`: the first `k` elements. */
  lemma LRangeFront<T>(xs: seq<T>, k: nat)
    requires k >= 1
    ensures LRange(xs, 0, k - 1) == Take(xs, k)
  {
  }

  /** `LRANGE -1 -1`: the last element, if any. */
  lemma LRangeLast<T>(xs: seq<T>)
    ensures LRange(xs, -1, -1) == if xs == [] then [] else [xs[|xs| - 1]]
  {
  }

  /** `LPUSH x` followed by `LTRIM 0 keep-1`. */
  function PushTrim<T>(xs: seq<T>, x: T, keep: nat): seq<T>
  {
    LRange([x] + xs, 0, keep - 1)
  }

  /** The pushed element is now first, the list is cut to `keep`, and the rest
      is the old list in order. */
  lemma PushTrimFront<T>(xs: seq<T>, x: T, keep: nat)
    requires keep >= 1
    ensures PushTrim(xs, x, keep) == Take([x] + xs, keep)
    ensures PushTrim(xs, x, keep)[0] == x
    ensures |PushTrim(xs, x, keep)| == Min(keep, |xs| + 1)
  {
    LRangeFront([x] + xs, keep);
  }

  /** Only the pushed element and elements already listed survive the trim. */
  lemma PushTrimMembers<T>(xs: seq<T>, x: T, keep: nat)
    requires keep >= 1
    ensures forall y :: y in PushTrim(xs, x, keep) ==> y == x || y in xs
  {
    PushTrimFront(xs, x, keep);
    var l := PushTrim(xs, x, keep);
    forall y | y in l ensures y == x || y in xs {
      var i :| 0 <= i < |l| && l[i] == y;
      assert ([x] + xs)[i] == y;
    }
  }

  /** The list after pushing `ids` one after the other. */
  function PushAll<T>(xs: seq<T>, ids: seq<T>, keep: nat): seq<T>
    decreases |ids|
  {
    if ids == [] then xs else PushAll(PushTrim(xs, ids[0], keep), ids[1..], keep)
  }

  /** After any number of pushes the list holds the newest `keep` elements,
      newest first. */
  lemma {:induction false} PushAllNewestFirst<T>(xs: seq<T>, ids: seq<T>, keep: nat)
    requires keep >= 1 && |xs| <= keep
    ensures PushAll(xs, ids, keep) == Take(Reverse(ids) + xs, keep)
    decreases |ids|
  {
    if ids == [] {
      assert Reverse(ids) + xs == xs;
    } else {
      PushTrimFront(xs, ids[0], keep);
      var ys := PushTrim(xs, ids[0], keep);
      PushAllNewestFirst(ys, ids[1..], keep);
      assert Take(ys, keep) == ys;
      assert Reverse(ids) == Reverse(ids[1..]) + [ids[0]];
      calc {
        PushAll(xs, ids, keep);
        Take(Reverse(ids[1..]) + ys, keep);
        Take(Reverse(ids[1..]) + Take([ids[0]] + xs, keep), keep);
        { TakeAppendTake(Reverse(ids[1..]), [ids[0]] + xs, keep); }
        Take(Reverse(ids[1..]) + ([ids[0]] + xs), keep);
        { assert Reverse(ids[1..]) + ([ids[0]] + xs) == Reverse(ids) + xs; }
        Take(Reverse(ids) + xs, keep);
      }
    }
  }

  /** Starting from an empty list, the last retained element (the baseline)
      is the oldest of the newest `keep` pushes: once more than `keep` ids were
      pushed, it moves forward with every push. */
  lemma BaselineIsOldestRetained<T>(ids: seq<T>, keep: nat)
    requires keep >= 1 && ids != []
    ensures var l := PushAll([], ids, keep);
      LRange(l, -1, -1) == [ids[|ids| - Min(keep, |ids|)]]
  {
    PushAllNewestFirst([], ids, keep);
    assert Reverse(ids) + [] == Reverse(ids);
    LastNewest(ids, keep);
    LRangeLast(Take(Reverse(ids), keep));
  }

  /** The last of the newest `keep` elements, newest first, is the oldest of them. */
  lemma LastNewest<T>(ids: seq<T>, keep: nat)
    requires keep >= 1 && ids != []
    ensures var l, m := Take(Reverse(ids), keep), Min(keep, |ids|);
      |l| == m && l[m - 1] == ids[|ids| - m]
  {
  }

  // ---------------------------------------------------------------------------
  // History ranges (lrange 0 limit-1)

  /** The ids `getSnapshotHistory` and `getRecentMarketPulseReports` read, as
      written: `LRANGE 0 limit-1`. A positive limit gives the first `limit`
      ids; a limit `l <= 0` makes the stop index `l - 1` count from the end,
      so everything but the last `-l` ids is read. */
  function HistoryRangeAsWritten<T>(ids: seq<T>, limit: int): (r: seq<T>)
    ensures r <= ids
    ensures |r| == if limit >= 1 then Min(limit, |ids|) else Max(|ids| + limit, 0)
  {
    LRange(ids, 0, limit - 1)
  }

  /** As written, a limit of 0 reads `LRANGE 0 -1`, which is the whole list,
      where the corrected range reads nothing: every non-empty list shows the
      difference, for instance `["b", "a"]`. */
  lemma HistoryAsWrittenIgnoresZeroLimit<T>(ids: seq<T>)
    ensures HistoryRangeAsWritten(ids, 0) == ids
    ensures ids != [] ==> HistoryRangeAsWritten(ids, 0) != HistoryRange(ids, 0)
    ensures HistoryRangeAsWritten(["b", "a"], 0) == ["b", "a"] && HistoryRange(["b", "a"], 0) == []
  {
  }

  /** The ids of the newest `limit` entries, none for a limit below 1. */
  function HistoryRange<T>(ids: seq<T>, limit: int): (r: seq<T>)
    ensures r <= ids
    ensures |r| == if limit <= 0 then 0 else Min(limit, |ids|)
  {
    if limit <= 0 then [] else
      LRangeFront(ids, limit);
      LRange(ids, 0, limit - 1)
  }

  /** Without a given limit the history reads the first ten ids. */
  lemma DefaultHistoryReadsTen<T>(ids: seq<T>)
    ensures HistoryRangeAsWritten(ids, DefaultHistoryLimit) == Take(ids, 10)
  {
    LRangeFront(ids, DefaultHistoryLimit);
  }

  /** The corrected range agrees with the code for every positive limit. */
  lemma HistoryRangeAgreesForPositiveLimit<T>(ids: seq<T>, limit: int)
    requires limit >= 1
    ensures HistoryRange(ids, limit) == HistoryRangeAsWritten(ids, limit)
  {
  }

  // ---------------------------------------------------------------------------
  // Reads through id lists

  function Lookup<V>(m: map<string, V>, key: string): (r: Option<V>)
    ensures r.Some? <==> key in m
    ensures r.Some? ==> r.value == m[key]
  {
    if key in m then Some(m[key]) else None
  }

  /** `Promise.all(ids.map(get))` followed by dropping the nulls: the stored
      values of the ids that have one, in the order of the ids. */
  function Resolve<V>(m: map<string, V>, ids: seq<string>): (r: seq<V>)
    ensures |r| <= |ids|
    ensures forall id :: id in ids && id in m ==> m[id] in r
    ensures forall v :: v in r ==> exists id :: id in ids && id in m && m[id] == v
    decreases |ids|
  {
    if ids == [] then []
    else
      var rest := Resolve(m, ids[1..]);
      assert forall id :: id in ids[1..] ==> id in ids;
      if ids[0] in m then [m[ids[0]]] + rest else rest
  }

  /** When every id has a stored value, nothing is dropped: value `k` is the
      value of id `k`. */
  lemma {:induction false} ResolveAllStored<V>(m: map<string, V>, ids: seq<string>)
    requires forall id :: id in ids ==> id in m
    ensures |Resolve(m, ids)| == |ids|
    ensures forall k :: 0 <= k < |ids| ==> Resolve(m, ids)[k] == m[ids[k]]
    decreases |ids|
  {
    if ids != [] {
      assert forall id :: id in ids[1..] ==> id in ids;
      ResolveAllStored(m, ids[1..]);
      var rest := Resolve(m, ids[1..]);
      assert Resolve(m, ids) == [m[ids[0]]] + rest;
      forall k | 1 <= k < |ids| ensures Resolve(m, ids)[k] == m[ids[k]] {
        assert ids[1..][k - 1] == ids[k];
      }
    }
  }

  // ---------------------------------------------------------------------------
  // Proof search

  /** The optional filters of `searchProofRecords`. */
  datatype SearchCriteria = SearchCriteria(persona: Option<string>, narrativeTag: Option<string>, stage: Option<string>)

  /** A criterion filters only when it is present and non-empty. */
  predicate Active(c: Option<string>) { c.Some? && c.value != "" }

  /** Whether a proof passes every active criterion. */
  predicate Satisfies(p: ProofRecord, c: SearchCriteria) {
    && (!Active(c.persona) || PersonaName(p.personaTag) == c.persona.value)
    && (!Active(c.narrativeTag) || NarrativeName(p.narrativeTag) == c.narrativeTag.value)
    && (!Active(c.stage) || StageName(p.stage) == c.stage.value)
  }

  /** The filter of `searchProofRecords` over the list of all proofs: an
      order-preserving subsequence whose elements are exactly the proofs that
      pass every active criterion. */
  function MatchingProofs(all: seq<ProofRecord>, c: SearchCriteria): (r: seq<ProofRecord>)
    ensures IsSubsequence(r, all)
    ensures forall p :: p in r <==> p in all && Satisfies(p, c)
  {
    var f := (p: ProofRecord) => Satisfies(p, c);
    FilterIsSubsequence(all, f);
    Filter(all, f)
  }

  /** The criteria `generateActionItems` searches with: all three tags. */
  function TagCriteria(n: NarrativeTag, p: Persona, s: Stage): SearchCriteria {
    SearchCriteria(Some(PersonaName(p)), Some(NarrativeName(n)), Some(StageName(s)))
  }

  /** Whether a proof carries the three given tags. */
  predicate HasTags(x: ProofRecord, n: NarrativeTag, p: Persona, s: Stage) {
    x.narrativeTag == n && x.personaTag == p && x.stage == s
  }

  /** The proofs carrying exactly the three given tags, in order: the
      reference the tag search is measured against. */
  function ExactMatches(all: seq<ProofRecord>, n: NarrativeTag, p: Persona, s: Stage): (r: seq<ProofRecord>)
    ensures forall x {:trigger x in r} :: x in r <==> x in all && HasTags(x, n, p, s)
    ensures |r| <= |all|
    decreases |all|
  {
    if all == [] then []
    else
      var rest := ExactMatches(all[1..], n, p, s);
      assert forall x :: x in all <==> x == all[0] || x in all[1..];
      (if HasTags(all[0], n, p, s) then [all[0]] else []) + rest
  }

  /** The search comes back empty exactly when no proof carries the three tags. */
  lemma {:induction false} NoMatchIffNoTaggedProof(all: seq<ProofRecord>, n: NarrativeTag, p: Persona, s: Stage)
    ensures ExactMatches(all, n, p, s) == [] <==> forall x :: x in all ==> !HasTags(x, n, p, s)
    decreases |all|
  {
    if all != [] {
      NoMatchIffNoTaggedProof(all[1..], n, p, s);
      assert forall x :: x in all <==> x == all[0] || x in all[1..];
    }
  }

  /** Without any active criterion every proof is returned, in order. */
  lemma NoCriteriaMatchesAll(all: seq<ProofRecord>, c: SearchCriteria)
    requires !Active(c.persona) && !Active(c.narrativeTag) && !Active(c.stage)
    ensures MatchingProofs(all, c) == all
  {
    FilterKeepsAll(all, (p: ProofRecord) => Satisfies(p, c));
  }

  /** A proof passes the criteria made of three tags' names exactly when it
      carries those three tags: the names of each enumeration are distinct
      and non-empty. */
  lemma SatisfiesTagCriteria(x: ProofRecord, n: NarrativeTag, p: Persona, s: Stage)
    ensures Satisfies(x, TagCriteria(n, p, s)) == HasTags(x, n, p, s)
  {
    NamesNonEmpty(n, p, s);
    NamesInjective(x.narrativeTag, n, x.personaTag, p, x.stage, s);
  }

  /** Searching with the names of three tags gives exactly the proofs that
      carry those three tags, in the same order. */
  lemma {:induction false} TagSearchIsExactMatch(all: seq<ProofRecord>, n: NarrativeTag, p: Persona, s: Stage)
    ensures MatchingProofs(all, TagCriteria(n, p, s)) == ExactMatches(all, n, p, s)
    decreases |all|
  {
    if all != [] {
      TagSearchIsExactMatch(all[1..], n, p, s);
      SatisfiesTagCriteria(all[0], n, p, s);
    }
  }

  // ---------------------------------------------------------------------------
  // Proof vault keys

  /** `KEYS.proofRecord(proofId)`: a record lives at `proof:<proofId>`. */
  function ProofRecordKey(proofId: string): string {
    "proof:" + proofId
  }

  /** `KEYS.proofRecords()`: the set of every proof id. */
  const ProofIndexKey: string := "proof:all"

  /** Records and the id set share the `proof:` key space: the record key of
      an id is the set's key exactly when the id is `all`. */
  lemma ProofKeyIsIndexOnlyForAll(proofId: string)
    ensures ProofRecordKey(proofId) == ProofIndexKey <==> proofId == "all"
  {
    assert ProofIndexKey == "proof:" + "all";
    if ProofRecordKey(proofId) == ProofIndexKey {
      assert proofId == ProofRecordKey(proofId)[6..];
    }
  }

  /** The id set after `deleteProofRecord(proofId)` when the set lives at
      `indexKey`: `del` of the record key deletes the whole set when the two
      keys coincide, and `srem` then removes the id from what is left. */
  function IdsAfterDelete(ids: set<string>, proofId: string, indexKey: string): (r: set<string>)
    ensures r <= ids && proofId !in r
  {
    var left := if ProofRecordKey(proofId) == indexKey then {} else ids;
    left - {proofId}
  }

  /** With the keys of the source, deleting the id `all` empties the id set,
      and every other id leaves the set alone. */
  lemma DeleteAllClearsIndex(ids: set<string>, proofId: string)
    ensures IdsAfterDelete(ids, proofId, ProofIndexKey) == if proofId == "all" then {} else ids - {proofId}
    ensures proofId == "all" && ids - {"all"} != {} ==> IdsAfterDelete(ids, proofId, ProofIndexKey) != ids - {proofId}
  {
    ProofKeyIsIndexOnlyForAll(proofId);
  }

  /** An id set kept outside the record keys, at `proofs:all` after the
      pattern of `reports:all`. */
  const SeparateProofIndexKey: string := "proofs:all"

  /** No record key is `proofs:all`, so with it every delete removes exactly
      its own id. */
  lemma SeparateIndexKeepsOtherIds(ids: set<string>, proofId: string)
    ensures ProofRecordKey(proofId) != SeparateProofIndexKey
    ensures IdsAfterDelete(ids, proofId, SeparateProofIndexKey) == ids - {proofId}
  {
    assert ProofRecordKey(proofId)[5] == ':' != SeparateProofIndexKey[5];
  }

  // ---------------------------------------------------------------------------
  // Competitor configuration updates

  /** `Partial<CompetitorConfig>`: each present field overwrites. */
  datatype ConfigUpdate = ConfigUpdate(
    url: Option<string>,
    name: Option<string>,
    active: Option<bool>,
    lastScanned: Option<Date>,
    addedAt: Option<Date>)

  function Pick<T>(o: Option<T>, otherwise: T): T {
    if o.Some? then o.value else otherwise
  }

  /** `{ ...existing, ...updates }`. */
  function ApplyUpdate(existing: CompetitorConfig, u: ConfigUpdate): (r: CompetitorConfig)
    ensures u.url.Some? ==> r.url == u.url.value
    ensures u.url.None? ==> r.url == existing.url
    ensures u.name.Some? ==> r.name == u.name.value
    ensures u.name.None? ==> r.name == existing.name
    ensures u.active.Some? ==> r.active == u.active.value
    ensures u.active.None? ==> r.active == existing.active
    ensures u.lastScanned.Some? ==> r.lastScanned == u.lastScanned
    ensures u.lastScanned.None? ==> r.lastScanned == existing.lastScanned
    ensures u.addedAt.Some? ==> r.addedAt == u.addedAt.value
    ensures u.addedAt.None? ==> r.addedAt == existing.addedAt
  {
    CompetitorConfig(
      Pick(u.url, existing.url),
      Pick(u.name, existing.name),
      Pick(u.active, existing.active),
      if u.lastScanned.Some? then u.lastScanned else existing.lastScanned,
      Pick(u.addedAt, existing.addedAt))
  }

  // ---------------------------------------------------------------------------
  // The store

  class Store {
    /** competitor:config:<url> and competitor:configs */
    var configs: map<string, CompetitorConfig>
    var configUrls: set<string>
    /** snapshot:<id> and snapshots:<url> (newest first) */
    var snapshots: map<string, CompetitorSnapshot>
    var snapshotIds: map<string, seq<string>>
    /** drift:<id> and the per-competitor drift:<url> lists (newest first) */
    var drifts: map<string, DriftAnalysis>
    var driftIds: map<string, seq<string>>
    /** proof:<proofId> and proof:all */
    var proofs: map<string, ProofRecord>
    var proofIds: set<string>
    /** report:<id> and reports:all (newest first) */
    var reports: map<string, MarketPulseReport>
    var reportIds: seq<string>

    /** The retention bounds hold for every list, every id in the proof id
        set has its record (deleting the id `all` empties the set and keeps
        the records), and every listed snapshot or report id is stored
        (nothing deletes a snapshot or a report). */
    ghost predicate Valid()
      reads this
    {
      && (forall u :: u in snapshotIds ==> |snapshotIds[u]| <= SnapshotsKept)
      && (forall u :: u in driftIds ==> |driftIds[u]| <= DriftsKept)
      && |reportIds| <= ReportsKept
      && proofIds <= proofs.Keys
      && (forall u, id :: u in snapshotIds && id in snapshotIds[u] ==> id in snapshots)
      && (forall id :: id in reportIds ==> id in reports)
    }

    constructor ()
      ensures Valid()
      ensures configs == map[] && configUrls == {} && snapshots == map[] && snapshotIds == map[]
      ensures drifts == map[] && driftIds == map[] && proofs == map[] && proofIds == {}
      ensures reports == map[] && reportIds == []
    {
      configs, configUrls := map[], {};
      snapshots, snapshotIds := map[], map[];
      drifts, driftIds := map[], map[];
      proofs, proofIds := map[], {};
      reports, reportIds := map[], [];
    }

    /** A list key that was never pushed to reads as the empty list. */
    function SnapshotList(url: string): seq<string>
      reads this
    {
      if url in snapshotIds then snapshotIds[url] else []
    }

    function DriftList(url: string): seq<string>
      reads this
    {
      if url in driftIds then driftIds[url] else []
    }

    // -- Competitor configuration

    method AddCompetitorConfig(config: CompetitorConfig)
      modifies this`configs, this`configUrls
      ensures configs == old(configs)[config.url := config]
      ensures configUrls == old(configUrls) + {config.url}
    {
      configs := configs[config.url := config];
      configUrls := configUrls + {config.url};
    }

    ghost function StoredConfigs(): set<CompetitorConfig>
      reads this
    {
      set u | u in configUrls && u in configs :: configs[u]
    }

    /** `getCompetitorConfigs`: the stored configuration of every registered
        url, in the set's order, urls without one dropped. */
    method GetCompetitorConfigs() returns (r: seq<CompetitorConfig>)
      ensures forall c :: c in r <==> c in StoredConfigs()
      ensures |r| <= |configUrls|
    {
      r := [];
      var todo := configUrls;
      while todo != {}
        invariant todo <= configUrls
        invariant forall c :: c in r <==> exists u :: u in configUrls - todo && u in configs && configs[u] == c
        invariant |r| <= |configUrls - todo|
        decreases |todo|
      {
        var u :| u in todo;
        assert configUrls - (todo - {u}) == (configUrls - todo) + {u};
        if u in configs {
          r := r + [configs[u]];
        }
        todo := todo - {u};
      }
    }

    /** `updateCompetitorConfig`: fails (the source throws "Competitor not
        found") when nothing is stored under `url`; otherwise the stored
        configuration takes every field present in `updates`. */
    method UpdateCompetitorConfig(url: string, updates: ConfigUpdate) returns (found: bool)
      modifies this`configs
      ensures found <==> url in old(configs)
      ensures found ==> configs == old(configs)[url := ApplyUpdate(old(configs)[url], updates)]
      ensures !found ==> configs == old(configs)
    {
      found := url in configs;
      if found {
        configs := configs[url := ApplyUpdate(configs[url], updates)];
      }
    }

    // -- Snapshots

    /** `saveSnapshot`: store the snapshot and push its id to the front of the
        competitor's list, keeping the newest ten. */
    method SaveSnapshot(s: CompetitorSnapshot)
      requires Valid()
      modifies this`snapshots, this`snapshotIds
      ensures Valid()
      ensures snapshots == old(snapshots)[s.id := s]
      ensures snapshotIds == old(snapshotIds)[s.competitorUrl := PushTrim(old(SnapshotList(s.competitorUrl)), s.id, SnapshotsKept)]
      ensures SnapshotList(s.competitorUrl)[0] == s.id
      ensures LatestSnapshot(s.competitorUrl) == Some(s)
    {
      var ids := PushTrim(SnapshotList(s.competitorUrl), s.id, SnapshotsKept);
      PushTrimFront(SnapshotList(s.competitorUrl), s.id, SnapshotsKept);
      PushTrimMembers(SnapshotList(s.competitorUrl), s.id, SnapshotsKept);
      snapshots := snapshots[s.id := s];
      snapshotIds := snapshotIds[s.competitorUrl := ids];
    }

    /** `getLatestSnapshot`: the snapshot of the first id (`LRANGE 0 0`). */
    function LatestSnapshot(url: string): (r: Option<CompetitorSnapshot>)
      reads this
      ensures SnapshotList(url) == [] ==> r == None
      ensures SnapshotList(url) != [] ==> r == Lookup(snapshots, SnapshotList(url)[0])
    {
      var ids := LRange(SnapshotList(url), 0, 0);
      if ids == [] then None else Lookup(snapshots, ids[0])
    }

    /** `getBaselineSnapshot`: the snapshot of the last retained id
        (`LRANGE -1 -1`), the oldest of at most ten. */
    function BaselineSnapshot(url: string): (r: Option<CompetitorSnapshot>)
      reads this
      ensures SnapshotList(url) == [] ==> r == None
      ensures SnapshotList(url) != [] ==> r == Lookup(snapshots, SnapshotList(url)[|SnapshotList(url)| - 1])
    {
      LRangeLast(SnapshotList(url));
      var ids := LRange(SnapshotList(url), -1, -1);
      if ids == [] then None else Lookup(snapshots, ids[0])
    }

    /** `getSnapshotHistory`: the stored snapshots of the ids `LRANGE 0 limit-1`
        reads, newest first, ids without a stored snapshot dropped; a limit of
        0 reads the whole list. */
    function SnapshotHistory(url: string, limit: int): (r: seq<CompetitorSnapshot>)
      reads this
      ensures |r| <= |SnapshotList(url)|
      ensures limit >= 1 ==> |r| <= limit
      ensures forall x :: x in r ==> exists id :: id in SnapshotList(url) && id in snapshots && snapshots[id] == x
      ensures (forall id :: id in SnapshotList(url) ==> id in snapshots) ==>
        |r| == (if limit >= 1 then Min(limit, |SnapshotList(url)|) else Max(|SnapshotList(url)| + limit, 0)) &&
        forall k :: 0 <= k < |r| ==> r[k] == snapshots[SnapshotList(url)[k]]
      ensures (forall id :: id in SnapshotList(url) ==> id in snapshots) && limit == 0 ==> |r| == |SnapshotList(url)|
      ensures Valid() ==>
        |r| == (if limit >= 1 then Min(limit, |SnapshotList(url)|) else Max(|SnapshotList(url)| + limit, 0)) &&
        forall k :: 0 <= k < |r| ==> r[k] == snapshots[SnapshotList(url)[k]]
    {
      var ids := HistoryRangeAsWritten(SnapshotList(url), limit);
      assert forall id :: id in ids ==> id in SnapshotList(url);
      if forall id :: id in SnapshotList(url) ==> id in snapshots then
        ResolveAllStored(snapshots, ids);
        Resolve(snapshots, ids)
      else
        Resolve(snapshots, ids)
    }

    // -- Drift analyses

    /** `saveDriftAnalysis`: store the analysis and push its id to the front of
        the competitor's drift list, keeping the newest fifty. */
    method SaveDriftAnalysis(a: DriftAnalysis)
      requires Valid()
      modifies this`drifts, this`driftIds
      ensures Valid()
      ensures drifts == old(drifts)[a.id := a]
      ensures driftIds == old(driftIds)[a.competitorUrl := PushTrim(old(DriftList(a.competitorUrl)), a.id, DriftsKept)]
      ensures DriftList(a.competitorUrl)[0] == a.id
      ensures LatestDriftAnalysis(a.competitorUrl) == Some(a)
    {
      var ids := PushTrim(DriftList(a.competitorUrl), a.id, DriftsKept);
      PushTrimFront(DriftList(a.competitorUrl), a.id, DriftsKept);
      drifts := drifts[a.id := a];
      driftIds := driftIds[a.competitorUrl := ids];
    }

    /** `getLatestDriftAnalysis`. */
    function LatestDriftAnalysis(url: string): (r: Option<DriftAnalysis>)
      reads this
      ensures DriftList(url) == [] ==> r == None
      ensures DriftList(url) != [] ==> r == Lookup(drifts, DriftList(url)[0])
    {
      var ids := LRange(DriftList(url), 0, 0);
      if ids == [] then None else Lookup(drifts, ids[0])
    }

    /** `getAllDriftAnalyses`: the latest analysis of every configured
        competitor that has one, looked up by the configuration's url. */
    method GetAllDriftAnalyses() returns (r: seq<DriftAnalysis>)
      ensures forall a :: a in r <==> exists c :: c in StoredConfigs() && LatestDriftAnalysis(c.url) == Some(a)
    {
      var cs := GetCompetitorConfigs();
      r := [];
      for i := 0 to |cs|
        invariant forall a :: a in r <==> exists k :: 0 <= k < i && LatestDriftAnalysis(cs[k].url) == Some(a)
      {
        var latest := LatestDriftAnalysis(cs[i].url);
        if latest.Some? {
          r := r + [latest.value];
        }
      }
      forall a ensures a in r <==> exists c :: c in StoredConfigs() && LatestDriftAnalysis(c.url) == Some(a) {
        if a in r {
          var k :| 0 <= k < |cs| && LatestDriftAnalysis(cs[k].url) == Some(a);
          assert cs[k] in cs;
        }
        if exists c :: c in StoredConfigs() && LatestDriftAnalysis(c.url) == Some(a) {
          var c :| c in StoredConfigs() && LatestDriftAnalysis(c.url) == Some(a);
          assert c in cs;
          var k :| 0 <= k < |cs| && cs[k] == c;
        }
      }
    }

    // -- Proof vault

    /** `saveProofRecord`. */
    method SaveProofRecord(p: ProofRecord)
      requires Valid()
      modifies this`proofs, this`proofIds
      ensures Valid()
      ensures proofs == old(proofs)[p.proofId := p]
      ensures proofIds == old(proofIds) + {p.proofId}
      ensures ProofRecordById(p.proofId) == Some(p)
    {
      proofs := proofs[p.proofId := p];
      proofIds := proofIds + {p.proofId};
    }

    /** `getProofRecord`. */
    function ProofRecordById(proofId: string): (r: Option<ProofRecord>)
      reads this
      ensures r.Some? <==> proofId in proofs
      ensures r.Some? ==> r.value == proofs[proofId]
    {
      Lookup(proofs, proofId)
    }

    /** `deleteProofRecord`: `del proof:<proofId>`, then `srem` from
        `proof:all`. The record and its id are gone and every other record
        stays; every other id stays in the set too, except when the id is
        `all`, whose record key is the set's own key, so that the `del`
        deletes the whole set and no proof is listed any more. */
    method DeleteProofRecord(proofId: string)
      requires Valid()
      modifies this`proofs, this`proofIds
      ensures Valid()
      ensures proofs == old(proofs) - {proofId}
      ensures proofIds == IdsAfterDelete(old(proofIds), proofId, ProofIndexKey)
      ensures proofId != "all" ==> proofIds == old(proofIds) - {proofId}
      ensures proofId == "all" ==> proofIds == {} && StoredProofs() == {}
      ensures ProofRecordById(proofId) == None && proofId !in proofIds
    {
      DeleteAllClearsIndex(proofIds, proofId);
      proofs := proofs - {proofId};
      if ProofRecordKey(proofId) == ProofIndexKey {
        proofIds := {};
      }
      proofIds := proofIds - {proofId};
    }

    ghost function StoredProofs(): set<ProofRecord>
      reads this
    {
      set id | id in proofIds && id in proofs :: proofs[id]
    }

    /** `getAllProofRecords`: the record of every id in the set, in the set's
        order, ids without a record dropped. */
    method GetAllProofRecords() returns (r: seq<ProofRecord>)
      ensures forall p :: p in r <==> p in StoredProofs()
      ensures |r| <= |proofIds|
    {
      r := [];
      var todo := proofIds;
      while todo != {}
        invariant todo <= proofIds
        invariant forall p :: p in r <==> exists id :: id in proofIds - todo && id in proofs && proofs[id] == p
        invariant |r| <= |proofIds - todo|
        decreases |todo|
      {
        var id :| id in todo;
        assert proofIds - (todo - {id}) == (proofIds - todo) + {id};
        if id in proofs {
          r := r + [proofs[id]];
        }
        todo := todo - {id};
      }
    }

    /** `searchProofRecords`: the stored proofs that pass every active criterion. */
    method SearchProofRecords(c: SearchCriteria) returns (r: seq<ProofRecord>)
      ensures forall p :: p in r <==> p in StoredProofs() && Satisfies(p, c)
    {
      var all := GetAllProofRecords();
      r := MatchingProofs(all, c);
    }

    // -- Market pulse reports

    /** `saveMarketPulseReport`: store the report and push its id to the front
        of the global list, keeping the newest hundred. */
    method SaveMarketPulseReport(report: MarketPulseReport)
      requires Valid()
      modifies this`reports, this`reportIds
      ensures Valid()
      ensures reports == old(reports)[report.id := report]
      ensures reportIds == PushTrim(old(reportIds), report.id, ReportsKept)
      ensures reportIds[0] == report.id
    {
      PushTrimFront(reportIds, report.id, ReportsKept);
      PushTrimMembers(reportIds, report.id, ReportsKept);
      reports := reports[report.id := report];
      reportIds := PushTrim(reportIds, report.id, ReportsKept);
    }

    /** `getMarketPulseReport`. */
    function MarketPulseReportById(id: string): (r: Option<MarketPulseReport>)
      reads this
      ensures r.Some? <==> id in reports
      ensures r.Some? ==> r.value == reports[id]
    {
      Lookup(reports, id)
    }

    /** `getRecentMarketPulseReports`: the stored reports of the ids
        `LRANGE 0 limit-1` reads, newest first; a limit of 0 reads the whole
        list. */
    function RecentMarketPulseReports(limit: int): (r: seq<MarketPulseReport>)
      reads this
      ensures |r| <= |reportIds|
      ensures limit >= 1 ==> |r| <= limit
      ensures forall x :: x in r ==> exists id :: id in reportIds && id in reports && reports[id] == x
      ensures (forall id :: id in reportIds ==> id in reports) ==>
        |r| == (if limit >= 1 then Min(limit, |reportIds|) else Max(|reportIds| + limit, 0)) &&
        forall k :: 0 <= k < |r| ==> r[k] == reports[reportIds[k]]
      ensures (forall id :: id in reportIds ==> id in reports) && limit == 0 ==> |r| == |reportIds|
      ensures Valid() ==>
        |r| == (if limit >= 1 then Min(limit, |reportIds|) else Max(|reportIds| + limit, 0)) &&
        forall k :: 0 <= k < |r| ==> r[k] == reports[reportIds[k]]
    {
      var ids := HistoryRangeAsWritten(reportIds, limit);
      assert forall id :: id in ids ==> id in reportIds;
      if forall id :: id in reportIds ==> id in reports then
        ResolveAllStored(reports, ids);
        Resolve(reports, ids)
      else
        Resolve(reports, ids)
    }
  }
}
