/** Compaction of memories: grouping similar documents, and merging a group without losing any. */
module Maintainer {
  import opened Wrappers

  /** `mergedFrom` are the ids under the key `merged_from`; `rest` stands for the other metadata. */
  datatype Doc = Doc(id: string, content: string, category: Option<string>, mergedFrom: seq<string>, rest: string)

  function Category(d: Doc): string {
    if d.category.Some? then d.category.value else ""
  }

  /** The similarity score, whatever it is, and the threshold. */
  datatype Measure = Measure(score: (string, string) -> real, threshold: real)

  predicate Similar(m: Measure, a: Doc, b: Doc) {
    m.score(a.content, b.content) >= m.threshold
  }

  // ----- clustering -----

  /** All members of all clusters. */
  function Members(clusters: seq<seq<Doc>>): multiset<Doc> {
    if clusters == [] then multiset{} else Members(clusters[..|clusters| - 1]) + multiset(clusters[|clusters| - 1])
  }

  lemma MembersPlus(clusters: seq<seq<Doc>>, c: seq<Doc>)
    ensures Members(clusters + [c]) == Members(clusters) + multiset(c)
  {
    assert (clusters + [c])[..|clusters|] == clusters;
  }

  /** The first member leads: all others meet the threshold against it. */
  predicate Led(m: Measure, cluster: seq<Doc>) {
    cluster != [] && forall k :: 1 <= k < |cluster| ==> Similar(m, cluster[0], cluster[k])
  }

  /** No member of a later cluster meets the threshold against an earlier leader. */
  predicate Separated(m: Measure, clusters: seq<seq<Doc>>) {
    && (forall c :: 0 <= c < |clusters| ==> clusters[c] != [])
    && forall c, d, k :: 0 <= c < d < |clusters| && 0 <= k < |clusters[d]| ==>
        !Similar(m, clusters[c][0], clusters[d][k])
  }

  /** The documents at the used places below `n`. */
  function Used(docs: seq<Doc>, used: set<nat>, n: nat): multiset<Doc>
    requires n <= |docs|
  {
    if n == 0 then multiset{} else if n - 1 in used then Used(docs, used, n - 1) + multiset{docs[n - 1]}
        else Used(docs, used, n - 1)
  }

  lemma {:induction false} UsedMore(docs: seq<Doc>, used: set<nat>, j: nat, n: nat)
    requires j !in used && j < |docs| && n <= |docs|
    ensures Used(docs, used + {j}, n) == if j < n then Used(docs, used, n) + multiset{docs[j]} else Used(docs, used, n)
  {
    if n > 0 {
      UsedMore(docs, used, j, n - 1);
      if j < n - 1 {
        var b, x, y := Used(docs, used, n - 1), multiset{docs[j]}, multiset{docs[n - 1]};
        assert (b + x) + y == (b + y) + x;
      }
    }
  }

  lemma {:induction false} UsedAll(docs: seq<Doc>, used: set<nat>, n: nat)
    requires n <= |docs| && forall i :: 0 <= i < n ==> i in used
    ensures Used(docs, used, n) == multiset(docs[..n])
  {
    if n > 0 {
      UsedAll(docs, used, n - 1);
      assert docs[..n] == docs[..n - 1] + [docs[n - 1]];
    }
  }

  lemma {:induction false} UsedNone(docs: seq<Doc>, n: nat)
    requires n <= |docs|
    ensures Used(docs, {}, n) == multiset{}
  {
    if n > 0 {
      UsedNone(docs, n - 1);
    }
  }

  /** The unused documents do not meet the threshold against the leader. */
  predicate Apart(m: Measure, leader: Doc, docs: seq<Doc>, used: set<nat>) {
    forall j :: 0 <= j < |docs| && j !in used ==> !Similar(m, leader, docs[j])
  }

  /** The members of a cluster come from unused places, and are all that is newly used. */
  predicate Takes(docs: seq<Doc>, used: set<nat>, cluster: seq<Doc>, taken: seq<nat>, after: set<nat>) {
    && |taken| == |cluster| && used <= after
    && (forall k :: 0 <= k < |taken| ==> taken[k] < |docs| && taken[k] !in used && cluster[k] == docs[taken[k]])
    && Used(docs, after, |docs|) == Used(docs, used, |docs|) + multiset(cluster)
  }

  lemma TakesMore(docs: seq<Doc>, used: set<nat>, cluster: seq<Doc>, taken: seq<nat>, after: set<nat>, j: nat)
    requires Takes(docs, used, cluster, taken, after) && j < |docs| && j !in after
    ensures Takes(docs, used, cluster + [docs[j]], taken + [j], after + {j})
  {
    UsedMore(docs, after, j, |docs|);
  }

  /** The cluster that the first unused document leads. */
  method GrowCluster(m: Measure, docs: seq<Doc>, i: nat, used0: set<nat>)
      returns (cluster: seq<Doc>, used: set<nat>, ghost taken: seq<nat>)
    requires i < |docs| && i !in used0 && forall j :: 0 <= j < i ==> j in used0
    ensures Led(m, cluster) && cluster[0] == docs[i] && i in used
    ensures Takes(docs, used0, cluster, taken, used) && Apart(m, docs[i], docs, used)
  {
    assert [] + [docs[i]] == [docs[i]] && [] + [i] == [i];
    TakesMore(docs, used0, [], [], used0, i);
    cluster, used, taken := [docs[i]], used0 + {i}, [i];
    for j := i + 1 to |docs|
      invariant Led(m, cluster) && cluster[0] == docs[i] && i in used
      invariant forall k :: j <= k < |docs| ==> (k in used <==> k in used0)
      invariant Takes(docs, used0, cluster, taken, used)
      invariant forall k :: 0 <= k < j && k !in used ==> !Similar(m, docs[i], docs[k])
    {
      if j !in used && m.score(docs[i].content, docs[j].content) >= m.threshold {
        TakesMore(docs, used0, cluster, taken, used, j);
        cluster, used, taken := cluster + [docs[j]], used + {j}, taken + [j];
      }
    }
  }

  /** The clusters made so far from the used documents. */
  predicate ClustersOk(m: Measure, docs: seq<Doc>, clusters: seq<seq<Doc>>, used: set<nat>) {
    && Members(clusters) == Used(docs, used, |docs|) && Separated(m, clusters)
    && (forall c :: 0 <= c < |clusters| ==> Led(m, clusters[c]) && Apart(m, clusters[c][0], docs, used))
  }

  lemma ClustersGrow(m: Measure, docs: seq<Doc>, clusters: seq<seq<Doc>>, used: set<nat>, cluster: seq<Doc>,
      taken: seq<nat>, after: set<nat>)
    requires ClustersOk(m, docs, clusters, used) && Takes(docs, used, cluster, taken, after)
    requires Led(m, cluster) && Apart(m, cluster[0], docs, after)
    ensures ClustersOk(m, docs, clusters + [cluster], after)
  {
    MembersPlus(clusters, cluster);
    forall c, k | 0 <= c < |clusters| && 0 <= k < |cluster|
      ensures !Similar(m, clusters[c][0], cluster[k])
    {
      assert Apart(m, clusters[c][0], docs, used) && taken[k] !in used;
    }
    forall c | 0 <= c < |clusters|
      ensures Led(m, clusters[c]) && Apart(m, clusters[c][0], docs, after)
    {
      assert Apart(m, clusters[c][0], docs, used);
    }
  }

  /** `clusterByTextOverlap`: the clusters partition the documents. */
  method ClusterByTextOverlap(m: Measure, docs: seq<Doc>) returns (clusters: seq<seq<Doc>>)
    ensures Members(clusters) == multiset(docs)
    ensures docs != [] ==> Separated(m, clusters) && forall c :: 0 <= c < |clusters| ==> Led(m, clusters[c])
  {
    if |docs| <= 1 {
      MembersPlus([], docs);
      assert [] + [docs] == [docs];
      return [docs];
    }
    clusters := [];
    var used: set<nat> := {};
    UsedNone(docs, |docs|);
    for i := 0 to |docs|
      invariant (forall j :: 0 <= j < i ==> j in used) && ClustersOk(m, docs, clusters, used)
    {
      if i in used {
        continue;
      }
      ghost var before := used;
      var cluster;
      ghost var taken;
      cluster, used, taken := GrowCluster(m, docs, i, used);
      ClustersGrow(m, docs, clusters, before, cluster, taken, used);
      clusters := clusters + [cluster];
    }
    UsedAll(docs, used, |docs|);
    assert docs[..|docs|] == docs;
  }

  // ----- grouping by category -----

  function InCategories(docs: seq<Doc>, cats: set<string>): seq<Doc> {
    if docs == [] then []
    else InCategories(docs[..|docs| - 1], cats) + if Category(docs[|docs| - 1]) in cats then [docs[|docs| - 1]] else []
  }

  lemma {:induction false} OneMoreCategory(docs: seq<Doc>, cats: set<string>, cat: string)
    requires cat !in cats
    ensures multiset(InCategories(docs, cats + {cat}))
        == multiset(InCategories(docs, cats)) + multiset(InCategories(docs, {cat}))
  {
    if docs != [] {
      OneMoreCategory(docs[..|docs| - 1], cats, cat);
    }
  }

  lemma {:induction false} AllCategories(docs: seq<Doc>, cats: set<string>)
    ensures (forall i :: 0 <= i < |docs| ==> Category(docs[i]) in cats) ==> InCategories(docs, cats) == docs
    ensures forall i :: 0 <= i < |InCategories(docs, cats)| ==> Category(InCategories(docs, cats)[i]) in cats
    ensures cats == {} ==> InCategories(docs, cats) == []
  {
    if docs != [] {
      AllCategories(docs[..|docs| - 1], cats);
      assert docs == docs[..|docs| - 1] + [docs[|docs| - 1]];
    }
  }

  /** All members are of the leader's category and meet the threshold against it. */
  predicate GroupOk(m: Measure, g: seq<Doc>) {
    Led(m, g) && forall k :: 0 <= k < |g| ==> Category(g[k]) == Category(g[0])
  }

  /** Among groups of one category, no member of a later one meets the threshold against an earlier leader. */
  predicate GroupsApart(m: Measure, groups: seq<seq<Doc>>) {
    forall c, d, k :: 0 <= c < d < |groups| && 0 <= k < |groups[d]| && groups[c] != []
        && Category(groups[c][0]) == Category(groups[d][k])
      ==> !Similar(m, groups[c][0], groups[d][k])
  }

  method ByCategory(docs: seq<Doc>) returns (byCategory: map<string, seq<Doc>>)
    ensures forall cat :: cat in byCategory ==> byCategory[cat] == InCategories(docs, {cat}) && byCategory[cat] != []
    ensures forall i :: 0 <= i < |docs| ==> Category(docs[i]) in byCategory
  {
    byCategory := map[];
    for i := 0 to |docs|
      invariant forall cat :: cat in byCategory ==>
          byCategory[cat] == InCategories(docs[..i], {cat}) && byCategory[cat] != []
      invariant forall cat :: cat !in byCategory ==> InCategories(docs[..i], {cat}) == []
      invariant forall j :: 0 <= j < i ==> Category(docs[j]) in byCategory
    {
      assert docs[..i + 1][..i] == docs[..i];
      var cat := Category(docs[i]);
      byCategory := byCategory[cat := (if cat in byCategory then byCategory[cat] else []) + [docs[i]]];
    }
    assert docs[..|docs|] == docs;
  }

  method AddCategory(m: Measure, ghost docs: seq<Doc>, ofCat: seq<Doc>, groups: seq<seq<Doc>>, ghost done: set<string>,
      ghost cat: string)
    returns (more: seq<seq<Doc>>)
    requires GroupsOk(m, docs, groups, done) && cat !in done && ofCat == InCategories(docs, {cat}) && ofCat != []
    ensures GroupsOk(m, docs, more, done + {cat})
  {
    var clusters := ClusterByTextOverlap(m, ofCat);
    GroupsGrow(m, docs, groups, done, cat, clusters);
    more := groups + clusters;
  }

  /** `groupBySimilarity`, taking the categories in any order: every document is in exactly one group. */
  method GroupBySimilarity(m: Measure, docs: seq<Doc>) returns (groups: seq<seq<Doc>>)
    ensures Members(groups) == multiset(docs)
    ensures (forall g :: 0 <= g < |groups| ==> GroupOk(m, groups[g])) && GroupsApart(m, groups)
  {
    var byCategory := ByCategory(docs);
    groups := [];
    var todo := byCategory.Keys;
    ghost var done: set<string> := {};
    AllCategories(docs, {});
    while todo != {}
      invariant Split(byCategory.Keys, done, todo) && GroupsOk(m, docs, groups, done)
      decreases |todo|
    {
      var cat :| cat in todo;
      SplitMore(byCategory.Keys, done, todo, cat);
      groups := AddCategory(m, docs, byCategory[cat], groups, done, cat);
      todo, done := todo - {cat}, done + {cat};
    }
    AllDone(m, docs, groups, done);
  }

  predicate Split(keys: set<string>, done: set<string>, todo: set<string>) {
    done + todo == keys && done !! todo
  }

  lemma SplitMore(keys: set<string>, done: set<string>, todo: set<string>, cat: string)
    requires Split(keys, done, todo) && cat in todo
    ensures Split(keys, done + {cat}, todo - {cat}) && cat in keys && cat !in done
  {
  }

  lemma AllDone(m: Measure, docs: seq<Doc>, groups: seq<seq<Doc>>, cats: set<string>)
    requires GroupsOk(m, docs, groups, cats) && forall i :: 0 <= i < |docs| ==> Category(docs[i]) in cats
    ensures Members(groups) == multiset(docs) && (forall g :: 0 <= g < |groups| ==> GroupOk(m, groups[g]))
        && GroupsApart(m, groups)
  {
    AllCategories(docs, cats);
  }

  /** The groups made so far from the documents of some categories. */
  predicate GroupsOk(m: Measure, docs: seq<Doc>, groups: seq<seq<Doc>>, cats: set<string>) {
    && Members(groups) == multiset(InCategories(docs, cats)) && GroupsApart(m, groups)
    && forall g :: 0 <= g < |groups| ==> GroupOk(m, groups[g]) && Category(groups[g][0]) in cats
  }

  lemma GroupsGrow(m: Measure, docs: seq<Doc>, groups: seq<seq<Doc>>, cats: set<string>, cat: string,
      clusters: seq<seq<Doc>>)
    requires GroupsOk(m, docs, groups, cats) && cat !in cats && Members(clusters) == multiset(InCategories(docs, {cat}))
    requires Separated(m, clusters) && forall c :: 0 <= c < |clusters| ==> Led(m, clusters[c])
    ensures GroupsOk(m, docs, groups + clusters, cats + {cat})
  {
    OneMoreCategory(docs, cats, cat);
    MembersConcat(groups, clusters);
    AllCategories(docs, {cat});
    ClustersAreGroups(m, clusters, InCategories(docs, {cat}), cat);
    StillApart(m, groups, clusters, cat);
    StillGroups(m, groups, clusters, cats, cat);
  }

  lemma StillGroups(m: Measure, groups: seq<seq<Doc>>, clusters: seq<seq<Doc>>, cats: set<string>, cat: string)
    requires forall g :: 0 <= g < |groups| ==> GroupOk(m, groups[g]) && Category(groups[g][0]) in cats
    requires forall c :: 0 <= c < |clusters| ==> GroupOk(m, clusters[c]) && Category(clusters[c][0]) == cat
    ensures forall g :: 0 <= g < |groups + clusters| ==>
        GroupOk(m, (groups + clusters)[g]) && Category((groups + clusters)[g][0]) in cats + {cat}
  {
  }

  lemma {:induction false} MembersConcat(a: seq<seq<Doc>>, b: seq<seq<Doc>>)
    ensures Members(a + b) == Members(a) + Members(b)
  {
    if b == [] {
      assert a + b == a;
    } else {
      MembersConcat(a, b[..|b| - 1]);
      assert (a + b)[..|a + b| - 1] == a + b[..|b| - 1];
    }
  }

  lemma {:induction false} MemberIsCounted(clusters: seq<seq<Doc>>, c: nat, k: nat)
    requires c < |clusters| && k < |clusters[c]|
    ensures clusters[c][k] in Members(clusters)
  {
    if c < |clusters| - 1 {
      MemberIsCounted(clusters[..|clusters| - 1], c, k);
    }
  }

  lemma ClustersAreGroups(m: Measure, clusters: seq<seq<Doc>>, docs: seq<Doc>, cat: string)
    requires Members(clusters) == multiset(docs) && forall c :: 0 <= c < |clusters| ==> Led(m, clusters[c])
    requires forall i :: 0 <= i < |docs| ==> Category(docs[i]) == cat
    ensures forall c :: 0 <= c < |clusters| ==> GroupOk(m, clusters[c]) && Category(clusters[c][0]) == cat
  {
    forall c, k | 0 <= c < |clusters| && 0 <= k < |clusters[c]|
      ensures Category(clusters[c][k]) == cat
    {
      MemberIsCounted(clusters, c, k);
      assert clusters[c][k] in multiset(docs);
    }
  }

  lemma StillApart(m: Measure, groups: seq<seq<Doc>>, clusters: seq<seq<Doc>>, cat: string)
    requires GroupsApart(m, groups) && Separated(m, clusters)
    requires forall g :: 0 <= g < |groups| ==> GroupOk(m, groups[g]) && Category(groups[g][0]) != cat
    requires forall c :: 0 <= c < |clusters| ==> GroupOk(m, clusters[c]) && Category(clusters[c][0]) == cat
    ensures GroupsApart(m, groups + clusters)
  {
  }

  // ----- merging -----

  type Docs = map<string, Doc>

  function Ids(group: seq<Doc>): seq<string> {
    seq(|group|, i requires 0 <= i < |group| => group[i].id)
  }

  function JoinContents(group: seq<Doc>): string {
    if group == [] then ""
    else if |group| == 1 then group[0].content
    else JoinContents(group[..|group| - 1]) + "; " + group[|group| - 1].content
  }

  /** The merged document: the metadata of the first, the ids of all, and the model's text if there is one. */
  function Merged(group: seq<Doc>, newId: string, answer: Option<string>): Doc
    requires group != []
  {
    Doc(newId, if answer.Some? then answer.value else JoinContents(group), group[0].category, Ids(group), group[0].rest)
  }

  /** The id is stored, or listed as merged into a stored document. */
  predicate Traceable(docs: Docs, id: string) {
    id in docs || exists m :: m in docs && id in docs[m].mergedFrom
  }

  predicate AllTraceable(ids: set<string>, docs: Docs) {
    forall id :: id in ids ==> Traceable(docs, id)
  }

  /** Every id of the pass is stored or listed in a document made by the pass, none of which is an id of
      the pass itself. */
  predicate Kept(ids: set<string>, made: set<string>, docs: Docs) {
    made <= docs.Keys && made !! ids && forall id :: id in ids ==>
        id in docs || exists m :: m in made && id in docs[m].mergedFrom
  }

  lemma DeleteKeeps(ids: set<string>, made: set<string>, docs: Docs, id: string, m: string)
    requires Kept(ids, made, docs) && id in ids && m in made && id in docs[m].mergedFrom
    ensures Kept(ids, made, docs - {id})
  {
    forall i | i in ids
      ensures i in docs - {id} || exists k :: k in made && i in (docs - {id})[k].mergedFrom
    {
      if i == id {
        assert (docs - {id})[m] == docs[m];
      } else if i !in docs {
        var k :| k in made && i in docs[k].mergedFrom;
        assert (docs - {id})[k] == docs[k];
      }
    }
  }

  /** The ids of the first `n` members. */
  function Gone(group: seq<Doc>, n: nat): set<string>
    requires n <= |group|
  {
    set j | 0 <= j < n :: group[j].id
  }

  lemma OneMoreGone(docs: Docs, group: seq<Doc>, i: nat)
    requires i < |group|
    ensures docs - Gone(group, i) - {group[i].id} == docs - Gone(group, i + 1)
  {
    assert Gone(group, i + 1) == Gone(group, i) + {group[i].id};
  }

  /** The store after a group was merged without a fault. */
  function AfterMerge(docs: Docs, group: seq<Doc>, newId: string, answer: Option<string>): Docs
    requires group != []
  {
    docs[newId := Merged(group, newId, answer)] - Gone(group, |group|)
  }

  function AfterMerges(docs: Docs, groups: seq<seq<Doc>>, newIds: nat -> string, answers: nat -> Option<string>): Docs {
    if groups == [] then docs
    else
      var g, before := |groups| - 1, AfterMerges(docs, groups[..|groups| - 1], newIds, answers);
      if |groups[g]| >= 2 then AfterMerge(before, groups[g], newIds(g), answers(g)) else before
  }

  /** The memory store. `faults` decides which operations fail; `history` are all the states it had, any of
      which could be the last one before a crash. */
  class Memory {
    var docs: Docs
    var ops: nat
    const faults: nat -> bool
    ghost var history: seq<Docs>

    constructor (docs: Docs, faults: nat -> bool)
      ensures this.docs == docs && this.faults == faults && ops == 0 && history == [docs]
    {
      this.docs, this.ops, this.faults, this.history := docs, 0, faults, [docs];
    }

    method Store(d: Doc) returns (ok: bool)
      modifies this
      ensures ok == !faults(old(ops)) && ops == old(ops) + 1
      ensures docs == (if ok then old(docs)[d.id := d] else old(docs)) && history == old(history) + [docs]
    {
      ok := !faults(ops);
      ops := ops + 1;
      if ok {
        docs := docs[d.id := d];
      }
      history := history + [docs];
    }

    method Delete(id: string)
      modifies this
      ensures ops == old(ops) + 1
      ensures docs == (if faults(old(ops)) then old(docs) else old(docs) - {id}) && history == old(history) + [docs]
    {
      if !faults(ops) {
        docs := docs - {id};
      }
      ops := ops + 1;
      history := history + [docs];
    }

    /** No state since the first `n` has lost an id. */
    ghost predicate NeverLost(ids: set<string>, n: nat)
      reads this
    {
      n <= |history| && forall k :: n <= k < |history| ==> AllTraceable(ids, history[k])
    }

    /** `mergeGroup`: stores the merged document first, then deletes the originals. */
    method MergeGroup(group: seq<Doc>, newId: string, answer: Option<string>, ghost ids: set<string>,
        ghost made: set<string>, ghost n: nat)
      returns (ok: bool)
      requires |group| >= 2 && (forall i :: 0 <= i < |group| ==> group[i].id in ids) && newId !in docs && newId !in ids
      requires Kept(ids, made, docs) && NeverLost(ids, n)
      modifies this
      ensures ok == !faults(old(ops)) && old(history) <= history
      ensures Kept(ids, if ok then made + {newId} else made, docs) && NeverLost(ids, n)
      ensures if ok then docs.Keys <= old(docs).Keys + {newId} else docs == old(docs)
      ensures Faultless() ==> docs == AfterMerge(old(docs), group, newId, answer)
    {
      var merged := Merged(group, newId, answer);
      ok := Store(merged);
      ghost var now := if ok then made + {newId} else made;
      if ok {
        DeleteAll(group, newId, ids, now, n);
      }
    }

    /** Deletes the members of a group that is merged into a stored document. */
    method DeleteAll(group: seq<Doc>, ghost newId: string, ghost ids: set<string>, ghost made: set<string>,
        ghost n: nat)
      requires (forall i :: 0 <= i < |group| ==> group[i].id in ids) && newId in made && newId in docs
          && docs[newId].mergedFrom == Ids(group)
      requires Kept(ids, made, docs) && NeverLost(ids, n)
      modifies this
      ensures Kept(ids, made, docs) && NeverLost(ids, n) && docs.Keys <= old(docs).Keys && old(history) <= history
      ensures Faultless() ==> docs == old(docs) - Gone(group, |group|)
    {
      for i := 0 to |group|
        invariant Kept(ids, made, docs) && NeverLost(ids, n) && docs.Keys <= old(docs).Keys && old(history) <= history
        invariant newId in docs && docs[newId].mergedFrom == Ids(group)
        invariant Faultless() ==> docs == old(docs) - Gone(group, i)
      {
        assert Ids(group)[i] == group[i].id;
        DeleteKeeps(ids, made, docs, group[i].id, newId);
        Delete(group[i].id);
        OneMoreGone(old(docs), group, i);
      }
    }

    ghost predicate Faultless() {
      forall k :: !faults(k)
    }

    /** `compact`, over a listing of the store. Ids of merged documents are fresh. Whatever fails and wherever
        the pass stops, every id stored at its start is still stored or listed as merged into a stored
        document; without faults the outcome is that of merging each group of two or more. */
    method Compact(m: Measure, listing: seq<Doc>, fresh_: nat -> string, answers: nat -> Option<string>)
        returns (ok: bool, groups: seq<seq<Doc>>)
      requires forall i :: 0 <= i < |listing| ==> listing[i].id in docs
      requires (forall i :: fresh_(i) !in docs) && forall i, j :: i != j ==> fresh_(i) != fresh_(j)
      modifies this
      ensures AllTraceable(old(docs).Keys, docs) && NeverLost(old(docs).Keys, |old(history)|) && old(history) <= history
      ensures |listing| >= 2 ==> Members(groups) == multiset(listing) && GroupsApart(m, groups) && forall g ::
          0 <= g < |groups| ==> GroupOk(m, groups[g])
      ensures Faultless() ==> ok && docs == AfterMerges(old(docs), groups, fresh_, answers)
    {
      if |listing| < 2 {
        return true, [];
      }
      groups := GroupBySimilarity(m, listing);
      ghost var ids, n, made := docs.Keys, |history|, {};
      for g := 0 to |groups|
        invariant Kept(ids, made, docs) && NeverLost(ids, n) && old(history) <= history
        invariant docs.Keys <= ids + set j | 0 <= j < g :: fresh_(j)
        invariant Faultless() ==> docs == AfterMerges(old(docs), groups[..g], fresh_, answers)
      {
        assert groups[..g + 1][..g] == groups[..g];
        if |groups[g]| >= 2 {
          forall i | 0 <= i < |groups[g]|
            ensures groups[g][i].id in ids
          {
            MemberIsCounted(groups, g, i);
            assert groups[g][i] in multiset(listing);
          }
          ok := MergeGroup(groups[g], fresh_(g), answers(g), ids, made, n);
          if !ok {
            return;
          }
          made := made + {fresh_(g)};
        }
      }
      assert groups[..|groups|] == groups;
      ok := true;
    }
  }

  /** What a merge forgets: afterwards an id is traceable exactly if it is that of a member or of the merged
      document, or was traceable without the members. Ids listed only in the members' own metadata, from
      earlier passes, are gone. */
  lemma MergeForgets(docs: Docs, group: seq<Doc>, newId: string, answer: Option<string>, id: string)
    requires group != [] && newId !in docs && forall i :: 0 <= i < |group| ==> group[i].id in docs
    ensures Traceable(AfterMerge(docs, group, newId, answer), id) <==>
            id == newId || id in Ids(group) || Traceable(docs - Gone(group, |group|), id)
  {
    var gone := Gone(group, |group|);
    var after, left := AfterMerge(docs, group, newId, answer), docs - gone;
    assert newId !in gone && after == left[newId := Merged(group, newId, answer)];
    if id in Ids(group) || id == newId {
      assert id == newId || id in after[newId].mergedFrom;
    } else {
      if Traceable(left, id) && id !in left {
        var m :| m in left && id in left[m].mergedFrom;
        assert after[m] == left[m];
      }
      if Traceable(after, id) && id !in after {
        var m :| m in after && id in after[m].mergedFrom;
        assert m != newId && left[m] == after[m];
      }
    }
  }

  /** So provenance survives one pass but not two. */
  lemma SecondPassForgets(a: Doc, b: Doc, c: Doc)
    requires a.id == "a" && b.id == "b" && c.id == "c" && c.mergedFrom == []
    ensures var once := AfterMerge(map["a" := a, "b" := b, "c" := c], [a, b], "x", None);
            Traceable(once, "a") && !Traceable(AfterMerge(once, [once["x"], c], "y", None), "a")
  {
    var docs := map["a" := a, "b" := b, "c" := c];
    var once := AfterMerge(docs, [a, b], "x", None);
    var x := once["x"];
    MergeForgets(docs, [a, b], "x", None, "a");
    assert Ids([a, b])[0] == "a";
    assert once.Keys == {"x", "c"} && x.id == "x";
    MergeForgets(once, [x, c], "y", None, "a");
    assert Ids([x, c]) == ["x", "c"];
    assert [x, c][0].id in Gone([x, c], 2) && [x, c][1].id in Gone([x, c], 2);
    var left := once - Gone([x, c], 2);
    assert left == map[];
  }
}
