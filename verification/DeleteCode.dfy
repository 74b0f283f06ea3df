/**
 The delete operations as they are written, over stores that are changed in place.  A call can fail
 at any point; what it leaves is then a prefix of the cascade.
 */
module DeleteCode {
  import opened Basics
  import opened Rows
  import opened Cascade

  /** The chunk store with its graph and communities, and the business tables. */
  class Stores {
    var chunks: map<ChunkKey, Id>
    var graph: set<Ref>
    var communities: map<string, seq<string>>
    var docs: map<Id, Id>
    var jobs: map<Id, Id>
    var kbs: set<Id>
    var members: set<Member>
    var sessions: map<Id, Id>
    var messages: map<Id, Id>
    var evalRuns: map<Id, Id>

    ghost function Value(): Index
      reads this
    {
      Index(chunks, graph, communities, docs, jobs, kbs, members, sessions, messages, evalRuns)
    }

    /** The chunk rows of a source, in some order. */
    method List(ns: string, source: Id) returns (rows: seq<ChunkKey>)
      ensures forall k :: k in rows <==> k in chunks && k.ns == ns && chunks[k] == source
    {
      var left := set k | k in chunks && k.ns == ns && chunks[k] == source;
      rows := [];
      while left != {}
        invariant forall k :: (k in rows || k in left) <==> k in chunks && k.ns == ns && chunks[k] == source
        decreases left
      {
        var k :| k in left;
        rows, left := rows + [k], left - {k};
      }
    }
  }

  /**
   How far a call gets before something fails: the number of its steps that take effect, one that reports
   an error all the same included; a fifth stands for the answer to the last.
   */
  type Reach = nat

  /** Whether a recompute gets as far as replacing the communities, and past refreshing their reports. */
  datatype RecomputeCalls = RecomputeCalls(replaced: bool, prewarmed: bool)

  class RagService {
    const stores: Stores
    const detector: Detector

    constructor (stores: Stores, detector: Detector)
      ensures this.stores == stores && this.detector == detector
    {
      this.stores, this.detector := stores, detector;
    }

    method ListChunkIDs(ns: string, source: Id) returns (ids: seq<Id>)
      ensures (set id | id in ids) == ChunkIdsOf(stores.chunks, ns, source)
    {
      var rows := stores.List(ns, source);
      ids := [];
      for i := 0 to |rows|
        invariant |ids| == i && forall k :: 0 <= k < i ==> ids[k] == rows[k].id
      {
        ids := ids + [rows[i].id];
      }
      forall id | id in ChunkIdsOf(stores.chunks, ns, source) ensures id in ids {
        var key :| key in stores.chunks && key.ns == ns && stores.chunks[key] == source && key.id == id;
        assert key in rows;
        var k :| 0 <= k < |rows| && rows[k] == key;
        assert ids[k] == id;
      }
      forall id | id in ids ensures id in ChunkIdsOf(stores.chunks, ns, source) {
        var k :| 0 <= k < |ids| && ids[k] == id;
        assert rows[k] in rows;
      }
    }

    method RemoveGraphBySource(ns: string, ids: seq<Id>)
      modifies stores`graph
      ensures stores.Value() == RemoveGraph(old(stores.Value()), ns, set id | id in ids)
    {
      stores.graph := set r | r in stores.graph && !(r.ns == ns && r.chunk in ids);
    }

    method RemoveSource(ns: string, source: Id)
      modifies stores`chunks
      ensures stores.Value() == RemoveChunks(old(stores.Value()), ns, source)
    {
      stores.chunks := map k | k in stores.chunks && !(k.ns == ns && stores.chunks[k] == source) :: stores.chunks[k];
    }

    /** Snapshot, detect, replace the namespace's communities, refresh reports; nothing without a detector. */
    method RecomputeCommunities(ns: string, calls: RecomputeCalls) returns (ok: bool)
      modifies stores`communities
      ensures ok == (detector.NoDetector? || (calls.replaced && calls.prewarmed))
      ensures stores.Value() == if calls.replaced then Recompute(detector, old(stores.Value()), ns) else old(stores.Value())
      ensures forall other :: other != ns ==> Lookup(stores.communities, other) == Lookup(old(stores.communities), other)
      ensures detector.Detector? && calls.replaced ==>
        Lookup(stores.communities, ns) == Some(detector.detect(set r | r in stores.graph && r.ns == ns))
    {
      match detector
      case NoDetector => return true;
      case Detector(detect) =>
        if !calls.replaced {
          return false;
        }
        var snapshot := Snapshot(stores.graph, ns);
        stores.communities := stores.communities[ns := detect(snapshot)];
        ok := calls.prewarmed;
    }
  }

  class DeleteService {
    const rag: RagService

    constructor (rag: RagService)
      ensures this.rag == rag
    {
      this.rag := rag;
    }

    /** List, graph, chunks, row, in that order; a failure leaves the steps before it done. */
    method DeleteDocumentChunksAndRow(ns: string, d: Id, reach: Reach) returns (ok: bool)
      modifies rag.stores
      ensures ok == (reach >= 5)
      ensures rag.stores.Value() == Prefix(NoDetector, old(rag.stores.Value()), ns, d, reach)
    {
      if reach < 1 {
        return false;
      }
      var ids := rag.ListChunkIDs(ns, d);
      if reach < 2 {
        return false;
      }
      rag.RemoveGraphBySource(ns, ids);
      if reach < 3 {
        return false;
      }
      rag.RemoveSource(ns, d);
      if reach < 4 {
        return false;
      }
      rag.stores.docs := rag.stores.docs - {d};
      rag.stores.jobs := map j | j in rag.stores.jobs && rag.stores.jobs[j] != d :: rag.stores.jobs[j];
      ok := reach >= 5;
    }

    method DeleteDocument(ns: string, d: Id, reach: Reach, calls: RecomputeCalls) returns (ok: bool)
      modifies rag.stores
      ensures ok ==> rag.stores.Value() == Cascade.DeleteDocument(rag.detector, old(rag.stores.Value()), ns, d)
      ensures !ok ==> exists n :: rag.stores.Value() == Prefix(rag.detector, old(rag.stores.Value()), ns, d, n)
      ensures rag.stores.Value() ==
        Prefix(rag.detector, old(rag.stores.Value()), ns, d, if reach < 5 then (if reach < 4 then reach else 4) else if calls.replaced then 5 else 4)
      ensures ok <==> reach >= 5 && (rag.detector.NoDetector? || (calls.replaced && calls.prewarmed))
    {
      ghost var before := rag.stores.Value();
      ok := DeleteDocumentChunksAndRow(ns, d, reach);
      if !ok {
        assert rag.stores.Value() == Prefix(rag.detector, before, ns, d, reach);
        return;
      }
      ok := rag.RecomputeCommunities(ns, calls);
      assert rag.stores.Value() == Prefix(rag.detector, before, ns, d, if calls.replaced then 5 else 4);
    }

    /** The kb's document ids, as the query returns them: each once, in some order. */
    method KbDocuments(kb: Id) returns (ids: seq<Id>)
      ensures Elements(ids) == KbDocs(rag.stores.Value(), kb)
    {
      var left := set d | d in rag.stores.docs && rag.stores.docs[d] == kb;
      ids := [];
      while left != {}
        invariant Elements(ids) + left == KbDocs(rag.stores.Value(), kb)
        decreases left
      {
        var d :| d in left;
        assert Elements(ids + [d]) == Elements(ids) + {d};
        ids, left := ids + [d], left - {d};
      }
    }

    /**
     Every document of the kb, then one recompute.  A failure at some document leaves the ones before it
     removed and that one part way.
     */
    method DeleteAllDocumentsForKB(ns: string, kb: Id, reach: nat -> Reach, calls: RecomputeCalls)
      returns (ok: bool, ids: seq<Id>, done: nat)
      modifies rag.stores
      ensures Elements(ids) == KbDocs(old(rag.stores.Value()), kb)
      ensures ok ==> rag.stores.Value() == DeleteBatch(rag.detector, old(rag.stores.Value()), ns, ids)
      ensures !ok ==> done <= |ids|
      ensures !ok && done < |ids| ==>
        rag.stores.Value() == Prefix(NoDetector, RemoveAll(old(rag.stores.Value()), ns, ids[..done]), ns, ids[done], reach(done))
      ensures !ok && done == |ids| ==>
        rag.stores.Value() ==
          if calls.replaced then DeleteBatch(rag.detector, old(rag.stores.Value()), ns, ids) else RemoveAll(old(rag.stores.Value()), ns, ids)
      ensures ok <==>
        (forall n :: 0 <= n < |ids| ==> reach(n) >= 5) && (rag.detector.NoDetector? || (calls.replaced && calls.prewarmed))
    {
      ids := KbDocuments(kb);
      done := 0;
      while done < |ids|
        invariant done <= |ids|
        invariant rag.stores.Value() == RemoveAll(old(rag.stores.Value()), ns, ids[..done])
        invariant forall n :: 0 <= n < done ==> reach(n) >= 5
      {
        ok := DeleteDocumentChunksAndRow(ns, ids[done], reach(done));
        if !ok {
          return;
        }
        assert ids[..done + 1][..done] == ids[..done];
        done := done + 1;
      }
      assert ids[..|ids|] == ids;
      ok := rag.RecomputeCommunities(ns, calls);
    }

    /**
     DeleteRow: the kb row with whatever rows reference it, and its kb-scope memberships, in one transaction;
     the commit may report an error and have happened.
     */
    method DeleteRow(kb: Id, end: CommitEnd) returns (deleted: bool)
      modifies rag.stores
      ensures deleted == (end.Committed? && kb in old(rag.stores.kbs))
      ensures rag.stores.Value() ==
        if kb in old(rag.stores.kbs) && !end.CommitLost? then WithoutKb(old(rag.stores.Value()), kb) else old(rag.stores.Value())
    {
      if kb !in rag.stores.kbs || end.CommitLost? {
        return false;
      }
      var s := rag.stores;
      var gone := set d | d in s.docs && s.docs[d] == kb;
      s.kbs, s.docs := s.kbs - {kb}, s.docs - gone;
      s.jobs := map j | j in s.jobs && s.jobs[j] !in gone :: s.jobs[j];
      s.members := set m | m in s.members && !(m.scopeKind == "kb" && m.scopeId == kb);
      deleted := end.Committed?;
    }

    /**
     The delete-kb handler: the kb's documents and what hangs on them are gone, its sessions, messages and
     evaluation runs are not.  After a failure nothing dangles, and the kb row is still there unless only the
     answer to its delete was lost.
     */
    method DeleteKB(kb: Id, reach: nat -> Reach, calls: RecomputeCalls, end: CommitEnd) returns (outcome: KbOutcome)
      requires Consistent(rag.stores.Value())
      modifies rag.stores
      ensures outcome.NotFound? <==> kb !in old(rag.stores.kbs)
      ensures outcome.NotFound? ==> rag.stores.Value() == old(rag.stores.Value())
      ensures outcome.Deleted? ==> KbGone(rag.detector, old(rag.stores.Value()), rag.stores.Value(), kb)
      ensures outcome.Stopped? ==> Consistent(rag.stores.Value())
      ensures outcome.Stopped? && kb !in rag.stores.kbs ==>
        end.CommitInDoubt? && KbGone(rag.detector, old(rag.stores.Value()), rag.stores.Value(), kb)
      ensures
        kb in old(rag.stores.kbs) && (forall n :: reach(n) >= 5) && (rag.detector.NoDetector? || (calls.replaced && calls.prewarmed)) ==>
          match end
          case Committed => outcome.Deleted?
          case CommitInDoubt => outcome.Stopped? && KbGone(rag.detector, old(rag.stores.Value()), rag.stores.Value(), kb)
          case CommitLost => outcome.Stopped? && kb in rag.stores.kbs
    {
      if kb !in rag.stores.kbs {
        return NotFound;
      }
      ghost var before := rag.stores.Value();
      var ok, ids, done := DeleteAllDocumentsForKB(Namespace(kb), kb, reach, calls);
      if !ok {
        RemoveAllKeepsKbs(before, Namespace(kb), ids);
        if done < |ids| {
          RemoveAllKeepsKbs(before, Namespace(kb), ids[..done]);
          StoppedConsistent(before, kb, ids, done, reach(done));
        } else {
          AllRemovedConsistent(rag.detector, before, kb, ids);
        }
        return Stopped;
      }
      ghost var emptied := rag.stores.Value();
      BatchKeepsKbs(rag.detector, before, Namespace(kb), ids);
      KbDeleteExact(rag.detector, before, kb, ids);
      RowAfterBatch(rag.detector, before, emptied, kb);
      var deleted := DeleteRow(kb, end);
      outcome := if deleted then Deleted else Stopped;
    }
  }

  datatype KbOutcome = NotFound | Stopped | Deleted

  lemma {:induction false} RemoveAllKeepsKbs(ix: Index, ns: string, docs: seq<Id>)
    ensures RemoveAll(ix, ns, docs).kbs == ix.kbs
    decreases |docs|
  {
    if docs != [] {
      RemoveAllKeepsKbs(ix, ns, docs[..|docs| - 1]);
    }
  }

  lemma {:induction false} RemoveAllConsistent(ix: Index, ns: string, docs: seq<Id>)
    requires Consistent(ix) && forall d :: d in docs ==> Owns(ix, ns, d)
    ensures Consistent(RemoveAll(ix, ns, docs))
    ensures forall e :: Owns(ix, ns, e) ==> Owns(RemoveAll(ix, ns, docs), ns, e)
    decreases |docs|
  {
    if docs != [] {
      var front, d := docs[..|docs| - 1], docs[|docs| - 1];
      RemoveAllConsistent(ix, ns, front);
      assert d in docs;
      CascadeIsCrashConsistent(NoDetector, RemoveAll(ix, ns, front), ns, d, 4);
    }
  }

  lemma StoppedConsistent(ix: Index, kb: Id, ids: seq<Id>, done: nat, reach: Reach)
    requires Consistent(ix) && Elements(ids) == KbDocs(ix, kb) && done < |ids|
    ensures Consistent(Prefix(NoDetector, RemoveAll(ix, Namespace(kb), ids[..done]), Namespace(kb), ids[done], reach))
  {
    forall d | d in ids ensures Owns(ix, Namespace(kb), d) {
      assert d in Elements(ids);
    }
    assert ids[done] in ids;
    RemoveAllConsistent(ix, Namespace(kb), ids[..done]);
    CascadeIsCrashConsistent(NoDetector, RemoveAll(ix, Namespace(kb), ids[..done]), Namespace(kb), ids[done], reach);
  }

  lemma AllRemovedConsistent(det: Detector, ix: Index, kb: Id, ids: seq<Id>)
    requires Consistent(ix) && Elements(ids) == KbDocs(ix, kb)
    ensures Consistent(RemoveAll(ix, Namespace(kb), ids))
    ensures Consistent(DeleteBatch(det, ix, Namespace(kb), ids))
  {
    forall d | d in ids ensures Owns(ix, Namespace(kb), d) {
      assert d in Elements(ids);
    }
    RemoveAllConsistent(ix, Namespace(kb), ids);
    KbDeleteExact(det, ix, kb, ids);
  }

  function WithoutKb(ix: Index, kb: Id): Index {
    var gone := KbDocs(ix, kb);
    ix.(kbs := ix.kbs - {kb},
        docs := ix.docs - gone,
        jobs := (map j | j in ix.jobs && ix.jobs[j] !in gone :: ix.jobs[j]),
        members := (set m | m in ix.members && !(m.scopeKind == "kb" && m.scopeId == kb)))
  }

  /** What is left under a dead namespace: nothing new without a detector, else whatever is detected in nothing. */
  ghost function CommunitiesLeft(det: Detector, before: Index, ns: string): Option<seq<string>> {
    match det
    case NoDetector => Lookup(before.communities, ns)
    case Detector(detect) => Some(detect({}))
  }

  lemma BatchKeepsKbs(det: Detector, ix: Index, ns: string, docs: seq<Id>)
    ensures
      var after := DeleteBatch(det, ix, ns, docs);
      && after.kbs == ix.kbs && after.members == ix.members
      && SameHistory(ix, after)
      && ((forall r :: r in after.graph ==> r.ns != ns) ==> Lookup(after.communities, ns) == CommunitiesLeft(det, ix, ns))
  {
    RemoveAllIsPurge(ix, ns, docs);
    var purged := Purge(ix, ns, Elements(docs));
    if forall r :: r in purged.graph ==> r.ns != ns {
      assert Snapshot(purged.graph, ns) == {};
    }
  }

  /** Sessions, messages and evaluation runs are the same. */
  ghost predicate SameHistory(before: Index, after: Index) {
    after.sessions == before.sessions && after.messages == before.messages && after.evalRuns == before.evalRuns
  }

  /**
   The kb, its documents, jobs, chunks, references and memberships are gone; everything else is as it was,
   the kb's own sessions, messages and evaluation runs included, and its namespace may keep communities.
   */
  ghost predicate KbGone(det: Detector, before: Index, after: Index, kb: Id) {
    && after.kbs == before.kbs - {kb}
    && KbEmpty(after, kb) && Consistent(after)
    && OthersUntouched(before, after, Namespace(kb))
    && (forall m :: m in after.members <==> m in before.members && !(m.scopeKind == "kb" && m.scopeId == kb))
    && (forall d :: d in before.docs && before.docs[d] != kb ==> Lookup(after.docs, d) == Lookup(before.docs, d))
    && (forall j :: j in after.jobs <==>
          j in before.jobs && before.jobs[j] in before.docs && before.docs[before.jobs[j]] != kb)
    && SameHistory(before, after)
    && Lookup(after.communities, Namespace(kb)) == CommunitiesLeft(det, before, Namespace(kb))
  }

  lemma RowAfterBatch(det: Detector, before: Index, emptied: Index, kb: Id)
    requires Consistent(before) && Consistent(emptied) && KbEmpty(emptied, kb)
    requires OthersUntouched(before, emptied, Namespace(kb)) && SameHistory(before, emptied)
    requires emptied.kbs == before.kbs && emptied.members == before.members
    requires forall d :: d in before.docs && before.docs[d] != kb ==> Lookup(emptied.docs, d) == Lookup(before.docs, d)
    requires forall j :: j in emptied.jobs <==> j in before.jobs && before.docs[before.jobs[j]] != kb
    requires Lookup(emptied.communities, Namespace(kb)) == CommunitiesLeft(det, before, Namespace(kb))
    ensures KbGone(det, before, WithoutKb(emptied, kb), kb)
  {
    assert KbDocs(emptied, kb) == {};
  }
}
