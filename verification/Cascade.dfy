/**
 The delete cascade as functions on the three stores and the derived communities: list the chunk
 ids, drop them from the graph, drop the chunks, drop the row, recompute the communities.  There
 is no transaction, so every prefix is a state the system can be left in.
 */
module Cascade {
  import opened Basics
  import opened Rows

  datatype ChunkKey = ChunkKey(ns: string, id: Id)

  /** An entity or relation of the graph that rests on a chunk. */
  datatype Ref = Ref(ns: string, item: string, chunk: Id)

  datatype Member = Member(scopeKind: string, scopeId: Id, user: Id)

  /**
   Chunks with their source document, graph references, communities, documents with their kb, jobs with
   their document; and what refers to a kb by an id without a foreign key: sessions and evaluation runs
   with their kb, and messages with their session.
   */
  datatype Index = Index(
    chunks: map<ChunkKey, Id>, graph: set<Ref>, communities: map<string, seq<string>>,
    docs: map<Id, Id>, jobs: map<Id, Id>, kbs: set<Id>, members: set<Member>,
    sessions: map<Id, Id>, messages: map<Id, Id>, evalRuns: map<Id, Id>)

  /** The community detector; without one a recompute does nothing. */
  datatype Detector = NoDetector | Detector(detect: set<Ref> -> seq<string>)

  function Snapshot(graph: set<Ref>, ns: string): set<Ref> {
    set r | r in graph && r.ns == ns
  }

  function ChunkIdsOf(chunks: map<ChunkKey, Id>, ns: string, source: Id): set<Id> {
    set k | k in chunks && k.ns == ns && chunks[k] == source :: k.id
  }

  function RemoveGraph(ix: Index, ns: string, ids: set<Id>): Index {
    ix.(graph := set r | r in ix.graph && !(r.ns == ns && r.chunk in ids))
  }

  function RemoveChunks(ix: Index, ns: string, source: Id): Index {
    ix.(chunks := map k | k in ix.chunks && !(k.ns == ns && ix.chunks[k] == source) :: ix.chunks[k])
  }

  function RemoveRow(ix: Index, d: Id): Index {
    ix.(docs := ix.docs - {d}, jobs := map j | j in ix.jobs && ix.jobs[j] != d :: ix.jobs[j])
  }

  function Recompute(det: Detector, ix: Index, ns: string): Index {
    match det
    case NoDetector => ix
    case Detector(detect) => ix.(communities := ix.communities[ns := detect(Snapshot(ix.graph, ns))])
  }

  /** The state after the first n of the steps: list, graph, chunks, row, recompute. */
  function Prefix(det: Detector, ix: Index, ns: string, d: Id, n: nat): Index {
    var graphDone := if n < 2 then ix else RemoveGraph(ix, ns, ChunkIdsOf(ix.chunks, ns, d));
    var chunksDone := if n < 3 then graphDone else RemoveChunks(graphDone, ns, d);
    var rowDone := if n < 4 then chunksDone else RemoveRow(chunksDone, d);
    if n < 5 then rowDone else Recompute(det, rowDone, ns)
  }

  function RemoveDocument(ix: Index, ns: string, d: Id): Index {
    Prefix(NoDetector, ix, ns, d, 4)
  }

  function DeleteDocument(det: Detector, ix: Index, ns: string, d: Id): Index {
    Prefix(det, ix, ns, d, 5)
  }

  // ---- consistency at every crash point ----------------------------------------------

  ghost predicate NoDanglingRefs(ix: Index) {
    forall r :: r in ix.graph ==> ChunkKey(r.ns, r.chunk) in ix.chunks
  }

  /** Every chunk's source has a row, in the kb whose namespace the chunk is in. */
  ghost predicate ChunksHaveDocs(ix: Index) {
    forall k :: k in ix.chunks ==> ix.chunks[k] in ix.docs && k.ns == Namespace(ix.docs[ix.chunks[k]])
  }

  ghost predicate JobsHaveDocs(ix: Index) {
    forall j :: j in ix.jobs ==> ix.jobs[j] in ix.docs
  }

  ghost predicate Consistent(ix: Index) {
    NoDanglingRefs(ix) && ChunksHaveDocs(ix) && JobsHaveDocs(ix)
  }

  /** The namespace passed is that of the document's kb, as the routes arrange; the row may be gone already. */
  ghost predicate Owns(ix: Index, ns: string, d: Id) {
    d in ix.docs ==> ns == Namespace(ix.docs[d])
  }

  lemma ListedIds(chunks: map<ChunkKey, Id>, ns: string, d: Id, id: Id)
    ensures id in ChunkIdsOf(chunks, ns, d) <==> ChunkKey(ns, id) in chunks && chunks[ChunkKey(ns, id)] == d
  {
    assert ChunkKey(ns, id) in chunks && chunks[ChunkKey(ns, id)] == d ==> ChunkKey(ns, id).id in ChunkIdsOf(chunks, ns, d);
  }

  /** No reference in the namespace rests on a chunk of the document. */
  ghost predicate Unreferenced(ix: Index, ns: string, d: Id) {
    forall r :: r in ix.graph && r.ns == ns && ChunkKey(ns, r.chunk) in ix.chunks ==> ix.chunks[ChunkKey(ns, r.chunk)] != d
  }

  ghost predicate Chunkless(ix: Index, d: Id) {
    forall k :: k in ix.chunks ==> ix.chunks[k] != d
  }

  lemma GraphStep(ix: Index, ns: string, d: Id)
    requires Consistent(ix)
    ensures
      var after := RemoveGraph(ix, ns, ChunkIdsOf(ix.chunks, ns, d));
      Consistent(after) && Unreferenced(after, ns, d) && (Owns(ix, ns, d) ==> Owns(after, ns, d))
  {
    hide ChunkIdsOf;
    var after := RemoveGraph(ix, ns, ChunkIdsOf(ix.chunks, ns, d));
    forall r | r in after.graph && r.ns == ns && ChunkKey(ns, r.chunk) in ix.chunks ensures ix.chunks[ChunkKey(ns, r.chunk)] != d {
      ListedIds(ix.chunks, ns, d, r.chunk);
    }
  }

  lemma ChunkStep(ix: Index, ns: string, d: Id)
    requires Consistent(ix) && Owns(ix, ns, d) && Unreferenced(ix, ns, d)
    ensures
      var after := RemoveChunks(ix, ns, d);
      Consistent(after) && Chunkless(after, d)
  {
  }

  lemma RowStep(ix: Index, d: Id)
    requires Consistent(ix) && Chunkless(ix, d)
    ensures Consistent(RemoveRow(ix, d))
  {
  }

  lemma RecomputeStep(det: Detector, ix: Index, ns: string)
    requires Consistent(ix)
    ensures Consistent(Recompute(det, ix, ns))
  {
  }

  /** At every prefix of the cascade each graph reference names an existing chunk and each chunk's source has a row. */
  lemma CascadeIsCrashConsistent(det: Detector, ix: Index, ns: string, d: Id, n: nat)
    requires Consistent(ix) && Owns(ix, ns, d)
    ensures Consistent(Prefix(det, ix, ns, d, n))
  {
    hide RemoveGraph, RemoveChunks, RemoveRow, Recompute, ChunkIdsOf, Consistent, Owns, Unreferenced, Chunkless;
    var graphDone := RemoveGraph(ix, ns, ChunkIdsOf(ix.chunks, ns, d));
    var chunksDone := RemoveChunks(graphDone, ns, d);
    GraphStep(ix, ns, d);
    ChunkStep(graphDone, ns, d);
    RowStep(chunksDone, d);
    RecomputeStep(det, RemoveRow(chunksDone, d), ns);
  }

  // ---- one closed form for any number of documents -----------------------------------

  /** The reference rests on a chunk of one of these sources. */
  predicate RefOf(chunks: map<ChunkKey, Id>, ns: string, D: set<Id>, r: Ref) {
    r.ns == ns && ChunkKey(ns, r.chunk) in chunks && chunks[ChunkKey(ns, r.chunk)] in D
  }

  /** Everything of the sources in D that lies in the namespace is gone. */
  function Purge(ix: Index, ns: string, D: set<Id>): Index {
    ix.(chunks := (map k | k in ix.chunks && !(k.ns == ns && ix.chunks[k] in D) :: ix.chunks[k]),
        graph := (set r | r in ix.graph && !RefOf(ix.chunks, ns, D, r)),
        docs := ix.docs - D,
        jobs := (map j | j in ix.jobs && ix.jobs[j] !in D :: ix.jobs[j]))
  }

  lemma RemoveDocumentIsPurge(ix: Index, ns: string, d: Id)
    ensures RemoveDocument(ix, ns, d) == Purge(ix, ns, {d})
  {
    var ids := ChunkIdsOf(ix.chunks, ns, d);
    forall id ensures id in ids <==> ChunkKey(ns, id) in ix.chunks && ix.chunks[ChunkKey(ns, id)] == d {
      assert ChunkKey(ns, id) in ix.chunks && ix.chunks[ChunkKey(ns, id)] == d ==> ChunkKey(ns, id).id in ids;
    }
    assert RemoveDocument(ix, ns, d).graph == Purge(ix, ns, {d}).graph;
    assert RemoveDocument(ix, ns, d).chunks == Purge(ix, ns, {d}).chunks;
  }

  lemma PurgeTwice(ix: Index, ns: string, D: set<Id>, E: set<Id>)
    ensures Purge(Purge(ix, ns, D), ns, E) == Purge(ix, ns, D + E)
  {
    var once, both := Purge(ix, ns, D), Purge(ix, ns, D + E);
    var twice := Purge(once, ns, E);
    assert twice.chunks == both.chunks;
    assert twice.graph == both.graph;
    assert twice.docs == both.docs;
    assert twice.jobs == both.jobs;
  }

  lemma PurgeNothing(ix: Index, ns: string)
    ensures Purge(ix, ns, {}) == ix
  {
    assert Purge(ix, ns, {}).chunks == ix.chunks;
    assert Purge(ix, ns, {}).graph == ix.graph;
    assert Purge(ix, ns, {}).jobs == ix.jobs;
  }

  /** A purge does not look at communities, so a recompute before it changes nothing but them. */
  lemma PurgeAfterRecompute(det: Detector, ix: Index, ns: string, D: set<Id>)
    ensures Recompute(det, Purge(Recompute(det, ix, ns), ns, D), ns) == Recompute(det, Purge(ix, ns, D), ns)
  {
    if det.Detector? {
      var graph := Purge(ix, ns, D).graph;
      assert Purge(Recompute(det, ix, ns), ns, D).graph == graph;
      assert ix.communities[ns := det.detect(Snapshot(ix.graph, ns))][ns := det.detect(Snapshot(graph, ns))]
          == ix.communities[ns := det.detect(Snapshot(graph, ns))];
    }
  }

  lemma DeleteDocumentIsPurge(det: Detector, ix: Index, ns: string, d: Id)
    ensures DeleteDocument(det, ix, ns, d) == Recompute(det, Purge(ix, ns, {d}), ns)
  {
    RemoveDocumentIsPurge(ix, ns, d);
  }

  /**
   Running the whole cascade again from where any earlier run of it stopped, before or after the
   recompute, ends in the state of one uninterrupted run.
   */
  lemma RerunCompletes(det: Detector, ix: Index, ns: string, d: Id, n: nat)
    ensures DeleteDocument(det, Prefix(det, ix, ns, d, n), ns, d) == DeleteDocument(det, ix, ns, d)
  {
    var part := Prefix(NoDetector, ix, ns, d, n);
    PrefixThenPurge(ix, ns, d, n);
    DeleteDocumentIsPurge(det, ix, ns, d);
    DeleteDocumentIsPurge(det, Prefix(det, ix, ns, d, n), ns, d);
    if n >= 5 {
      PurgeAfterRecompute(det, Prefix(NoDetector, ix, ns, d, 4), ns, {d});
      PrefixThenPurge(ix, ns, d, 4);
    }
  }

  lemma PrefixThenPurge(ix: Index, ns: string, d: Id, n: nat)
    ensures Purge(Prefix(NoDetector, ix, ns, d, n), ns, {d}) == Purge(ix, ns, {d})
  {
    var part, whole := Prefix(NoDetector, ix, ns, d, n), Purge(ix, ns, {d});
    var again := Purge(part, ns, {d});
    RemoveDocumentIsPurge(ix, ns, d);
    if n >= 4 {
      PurgeTwice(ix, ns, {d}, {d});
      assert {d} + {d} == {d};
    } else {
      assert again.chunks == whole.chunks;
      GraphPrefixThenPurge(ix, ns, d, n);
      assert again.jobs == whole.jobs;
    }
  }

  lemma GraphStepIsPurge(ix: Index, ns: string, d: Id)
    ensures RemoveGraph(ix, ns, ChunkIdsOf(ix.chunks, ns, d)).graph == Purge(ix, ns, {d}).graph
  {
    hide ChunkIdsOf;
    forall r: Ref ensures r.chunk in ChunkIdsOf(ix.chunks, ns, d) && r.ns == ns <==> RefOf(ix.chunks, ns, {d}, r) {
      ListedIds(ix.chunks, ns, d, r.chunk);
    }
  }

  lemma PurgeGraphAgain(ix: Index, ns: string, d: Id)
    requires forall r :: r in ix.graph ==> !RefOf(ix.chunks, ns, {d}, r)
    ensures Purge(ix, ns, {d}).graph == ix.graph
  {
    hide RefOf;
  }

  lemma PurgedIsUnreferenced(ix: Index, chunks: map<ChunkKey, Id>, ns: string, d: Id, r: Ref)
    requires r in Purge(ix, ns, {d}).graph && forall k :: k in chunks ==> k in ix.chunks && chunks[k] == ix.chunks[k]
    ensures !RefOf(chunks, ns, {d}, r)
  {
  }

  lemma GraphPrefixThenPurge(ix: Index, ns: string, d: Id, n: nat)
    requires n < 4
    ensures Purge(Prefix(NoDetector, ix, ns, d, n), ns, {d}).graph == Purge(ix, ns, {d}).graph
  {
    hide ChunkIdsOf, RefOf, Purge;
    var part, whole := Prefix(NoDetector, ix, ns, d, n), Purge(ix, ns, {d});
    if n >= 2 {
      GraphStepIsPurge(ix, ns, d);
      assert part.graph == RemoveGraph(ix, ns, ChunkIdsOf(ix.chunks, ns, d)).graph;
      forall r | r in part.graph ensures !RefOf(part.chunks, ns, {d}, r) {
        PurgedIsUnreferenced(ix, part.chunks, ns, d, r);
      }
      PurgeGraphAgain(part, ns, d);
    }
  }

  // ---- the order matters ----------------------------------------------------------------

  /** The same cascade with chunks removed before the graph is reconciled; the ids are listed at its start. */
  function SwappedPrefix(ix: Index, ns: string, d: Id, n: nat): Index {
    var ids := ChunkIdsOf(ix.chunks, ns, d);
    var chunksDone := if n < 2 then ix else RemoveChunks(ix, ns, d);
    var graphDone := if n < 3 then chunksDone else RemoveGraph(chunksDone, ns, ids);
    if n < 4 then graphDone else RemoveRow(graphDone, d)
  }

  /** One more run of the cascade, of any document, in either order, as far as it gets. */
  datatype Rerun = Rerun(ns: string, doc: Id, steps: nat, swapped: bool)

  function RerunAll(det: Detector, ix: Index, reruns: seq<Rerun>): Index {
    if reruns == [] then ix
    else
      var before, last := RerunAll(det, ix, reruns[..|reruns| - 1]), reruns[|reruns| - 1];
      if last.swapped then SwappedPrefix(before, last.ns, last.doc, last.steps)
      else Prefix(det, before, last.ns, last.doc, last.steps)
  }

  ghost predicate Dangling(ix: Index, r: Ref) {
    r in ix.graph && ChunkKey(r.ns, r.chunk) !in ix.chunks
  }

  lemma GraphRemovalKeeps(ix: Index, ns: string, ids: set<Id>, r: Ref)
    requires Dangling(ix, r) && (r.ns == ns ==> r.chunk !in ids)
    ensures Dangling(RemoveGraph(ix, ns, ids), r)
  {
  }

  lemma ChunkRemovalKeeps(ix: Index, ns: string, d: Id, r: Ref)
    requires Dangling(ix, r)
    ensures Dangling(RemoveChunks(ix, ns, d), r)
  {
  }

  lemma DanglingStays(det: Detector, ix: Index, ns: string, d: Id, n: nat, r: Ref)
    requires Dangling(ix, r)
    ensures Dangling(Prefix(det, ix, ns, d, n), r) && Dangling(SwappedPrefix(ix, ns, d, n), r)
  {
    hide ChunkIdsOf, RemoveGraph, RemoveChunks;
    var ids := ChunkIdsOf(ix.chunks, ns, d);
    ListedIds(ix.chunks, ns, d, r.chunk);
    GraphRemovalKeeps(ix, ns, ids, r);
    ChunkRemovalKeeps(RemoveGraph(ix, ns, ids), ns, d, r);
    ChunkRemovalKeeps(ix, ns, d, r);
    GraphRemovalKeeps(RemoveChunks(ix, ns, d), ns, ids, r);
  }

  /**
   Swapped, a crash between the two leaves every reference to the document's chunks dangling, and no
   number of reruns, of either order and of whatever documents, ever removes it: its chunk can no
   longer be listed.
   */
  lemma {:induction false} SwappedOrderDangles(det: Detector, ix: Index, ns: string, d: Id, r: Ref, reruns: seq<Rerun>)
    requires r in ix.graph && r.ns == ns && ChunkKey(ns, r.chunk) in ix.chunks && ix.chunks[ChunkKey(ns, r.chunk)] == d
    ensures Dangling(RerunAll(det, SwappedPrefix(ix, ns, d, 2), reruns), r)
    ensures !NoDanglingRefs(RerunAll(det, SwappedPrefix(ix, ns, d, 2), reruns))
    decreases |reruns|
  {
    if reruns != [] {
      hide Prefix, SwappedPrefix;
      var front, last := reruns[..|reruns| - 1], reruns[|reruns| - 1];
      SwappedOrderDangles(det, ix, ns, d, r, front);
      DanglingStays(det, RerunAll(det, SwappedPrefix(ix, ns, d, 2), front), last.ns, last.doc, last.steps, r);
    }
  }

  /** A crash between the two swapped steps leaves no dangling reference exactly when the graph did not refer to the document. */
  lemma SwappedOrderExactly(ix: Index, ns: string, d: Id)
    requires NoDanglingRefs(ix)
    ensures NoDanglingRefs(SwappedPrefix(ix, ns, d, 2)) <==> Unreferenced(ix, ns, d)
  {
    var crashed := SwappedPrefix(ix, ns, d, 2);
    if NoDanglingRefs(crashed) {
      forall r | r in ix.graph && r.ns == ns && ChunkKey(ns, r.chunk) in ix.chunks ensures ix.chunks[ChunkKey(ns, r.chunk)] != d {
        assert r in crashed.graph;
        assert ChunkKey(r.ns, r.chunk) in crashed.chunks;
      }
    }
  }

  // ---- whole knowledge bases ----------------------------------------------------------------

  /** The cascade over a list of documents, without recomputes. */
  function RemoveAll(ix: Index, ns: string, docs: seq<Id>): Index {
    if docs == [] then ix else RemoveDocument(RemoveAll(ix, ns, docs[..|docs| - 1]), ns, docs[|docs| - 1])
  }

  /** DeleteAllDocumentsForKB: one recompute at the end. */
  function DeleteBatch(det: Detector, ix: Index, ns: string, docs: seq<Id>): Index {
    Recompute(det, RemoveAll(ix, ns, docs), ns)
  }

  /** DeleteDocument for each in turn, recomputing every time. */
  function DeleteEach(det: Detector, ix: Index, ns: string, docs: seq<Id>): Index {
    if docs == [] then ix else DeleteDocument(det, DeleteEach(det, ix, ns, docs[..|docs| - 1]), ns, docs[|docs| - 1])
  }

  function Elements(s: seq<Id>): set<Id> {
    set x | x in s
  }

  lemma ElementsSplit(s: seq<Id>)
    requires s != []
    ensures Elements(s) == Elements(s[..|s| - 1]) + {s[|s| - 1]}
  {
    assert s == s[..|s| - 1] + [s[|s| - 1]];
  }

  lemma {:induction false} RemoveAllIsPurge(ix: Index, ns: string, docs: seq<Id>)
    ensures RemoveAll(ix, ns, docs) == Purge(ix, ns, Elements(docs))
    decreases |docs|
  {
    if docs == [] {
      PurgeNothing(ix, ns);
    } else {
      var front, d := docs[..|docs| - 1], docs[|docs| - 1];
      RemoveAllIsPurge(ix, ns, front);
      RemoveDocumentIsPurge(RemoveAll(ix, ns, front), ns, d);
      PurgeTwice(ix, ns, Elements(front), {d});
      ElementsSplit(docs);
    }
  }

  lemma {:induction false} DeleteEachIsPurge(det: Detector, ix: Index, ns: string, docs: seq<Id>)
    requires docs != []
    ensures DeleteEach(det, ix, ns, docs) == Recompute(det, Purge(ix, ns, Elements(docs)), ns)
    decreases |docs|
  {
    var front, d := docs[..|docs| - 1], docs[|docs| - 1];
    ElementsSplit(docs);
    if front == [] {
      assert Elements(docs) == {d};
      DeleteDocumentIsPurge(det, ix, ns, d);
    } else {
      DeleteEachIsPurge(det, ix, ns, front);
      var before := Purge(ix, ns, Elements(front));
      DeleteDocumentIsPurge(det, Recompute(det, before, ns), ns, d);
      PurgeAfterRecompute(det, before, ns, {d});
      PurgeTwice(ix, ns, Elements(front), {d});
    }
  }

  ghost predicate CommunitiesCurrent(det: Detector, ix: Index, ns: string) {
    Recompute(det, ix, ns) == ix
  }

  /**
   Deleting in a batch with one recompute is deleting one by one, for every list in any order, except
   that over no documents at all the batch still recomputes: there the two agree exactly when the
   communities were already current.
   */
  lemma {:induction false} BatchEqualsEach(det: Detector, ix: Index, ns: string, docs: seq<Id>)
    ensures (DeleteBatch(det, ix, ns, docs) == DeleteEach(det, ix, ns, docs)) <==>
            (docs != [] || CommunitiesCurrent(det, ix, ns))
  {
    RemoveAllIsPurge(ix, ns, docs);
    if docs != [] {
      DeleteEachIsPurge(det, ix, ns, docs);
    }
  }

  /** Two orders of the same documents end alike. */
  lemma OrderIrrelevant(det: Detector, ix: Index, ns: string, a: seq<Id>, b: seq<Id>)
    requires Elements(a) == Elements(b)
    ensures DeleteBatch(det, ix, ns, a) == DeleteBatch(det, ix, ns, b)
  {
    RemoveAllIsPurge(ix, ns, a);
    RemoveAllIsPurge(ix, ns, b);
  }

  function KbDocs(ix: Index, kb: Id): set<Id> {
    set d | d in ix.docs && ix.docs[d] == kb
  }

  /** The rest of the index, as another namespace sees it. */
  ghost predicate OthersUntouched(ix: Index, after: Index, ns: string) {
    && (forall k: ChunkKey :: k.ns != ns ==> Lookup(after.chunks, k) == Lookup(ix.chunks, k))
    && (forall r: Ref :: r.ns != ns ==> (r in after.graph <==> r in ix.graph))
    && (forall m :: m != ns ==> Lookup(after.communities, m) == Lookup(ix.communities, m))
  }

  /** Nothing of the kb is left in its namespace or in the tables. */
  ghost predicate KbEmpty(ix: Index, kb: Id) {
    && (forall k :: k in ix.chunks ==> k.ns != Namespace(kb))
    && (forall r :: r in ix.graph ==> r.ns != Namespace(kb))
    && (forall d :: d in ix.docs ==> ix.docs[d] != kb)
  }

  lemma NamespacesApart(a: Id, b: Id)
    ensures Namespace(a) == Namespace(b) <==> a == b
  {
    assert Namespace(a)[3..] == a && Namespace(b)[3..] == b;
  }

  lemma PurgeEmpties(ix: Index, kb: Id)
    requires Consistent(ix)
    ensures
      var purged := Purge(ix, Namespace(kb), KbDocs(ix, kb));
      KbEmpty(purged, kb) && Consistent(purged)
  {
    var purged := Purge(ix, Namespace(kb), KbDocs(ix, kb));
    forall k | k in ix.chunks && k.ns == Namespace(kb) ensures ix.chunks[k] in KbDocs(ix, kb) {
      NamespacesApart(ix.docs[ix.chunks[k]], kb);
    }
    forall k | k in purged.chunks ensures ix.chunks[k] !in KbDocs(ix, kb) {
      NamespacesApart(ix.docs[ix.chunks[k]], kb);
    }
    assert forall r :: r in purged.graph ==> ChunkKey(r.ns, r.chunk) in ix.chunks;
  }

  lemma PurgeSparesOthers(ix: Index, kb: Id)
    requires Consistent(ix)
    ensures
      var purged := Purge(ix, Namespace(kb), KbDocs(ix, kb));
      && OthersUntouched(ix, purged, Namespace(kb))
      && (forall d :: d in ix.docs && ix.docs[d] != kb ==> Lookup(purged.docs, d) == Lookup(ix.docs, d))
      && (forall j :: j in ix.jobs && j in purged.jobs ==> purged.jobs[j] == ix.jobs[j])
      && (forall j :: j in purged.jobs <==> j in ix.jobs && ix.docs[ix.jobs[j]] != kb)
  {
  }

  /** A recompute changes one namespace's communities and nothing else. */
  lemma RecomputeOnlyCommunities(det: Detector, ix: Index, ns: string)
    ensures
      var after := Recompute(det, ix, ns);
      && after == ix.(communities := after.communities)
      && (forall m :: m != ns ==> Lookup(after.communities, m) == Lookup(ix.communities, m))
  {
  }

  lemma SameStoresSameConsistency(ix: Index, after: Index)
    requires Consistent(ix) && after == ix.(communities := after.communities)
    ensures Consistent(after)
  {
  }

  /**
   Deleting every document of a kb, listed in any order, empties its namespace and rows, takes the
   documents' jobs along, leaves communities equal to what detection finds, and touches nothing of
   any other namespace or kb.
   */
  lemma KbDeleteExact(det: Detector, ix: Index, kb: Id, docs: seq<Id>)
    requires Consistent(ix) && Elements(docs) == KbDocs(ix, kb)
    ensures
      var ns := Namespace(kb);
      var after := DeleteBatch(det, ix, ns, docs);
      && KbEmpty(after, kb) && Consistent(after)
      && OthersUntouched(ix, after, ns)
      && (forall d :: d in ix.docs && ix.docs[d] != kb ==> Lookup(after.docs, d) == Lookup(ix.docs, d))
      && (forall j :: j in ix.jobs && j in after.jobs ==> after.jobs[j] == ix.jobs[j])
      && (forall j :: j in after.jobs <==> j in ix.jobs && ix.docs[ix.jobs[j]] != kb)
      && CommunitiesCurrent(det, after, ns)
  {
    hide Purge, Recompute, RemoveAll, NoDanglingRefs, ChunksHaveDocs;
    var ns := Namespace(kb);
    var purged := Purge(ix, ns, KbDocs(ix, kb));
    RemoveAllIsPurge(ix, ns, docs);
    PurgeEmpties(ix, kb);
    PurgeSparesOthers(ix, kb);
    RecomputeOnlyCommunities(det, purged, ns);
    SameStoresSameConsistency(purged, Recompute(det, purged, ns));
    RecomputeTwice(det, purged, ns);
  }

  lemma RecomputeTwice(det: Detector, ix: Index, ns: string)
    ensures Recompute(det, Recompute(det, ix, ns), ns) == Recompute(det, ix, ns)
  {
    if det.Detector? {
      var found := det.detect(Snapshot(ix.graph, ns));
      assert ix.communities[ns := found][ns := found] == ix.communities[ns := found];
    }
  }
}
