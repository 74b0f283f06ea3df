/**
 Whose chunks and whose checksum a document ends up with, in every run, and what becomes of its chunks
 when it is deleted while a worker is still importing it: nothing orders the two.
 */
module QueueChunks {
  import opened Basics
  import opened Keys
  import opened Rows
  import opened Queue
  import opened QueueAlways
  import opened QueueTimely
  import opened QueueAttempts

  // ---- the last write to a source's chunks ------------------------------------------------

  /** What a source's chunks were last subjected to; an import is late after the chunk removal of the document's delete. */
  datatype ChunkWrite = Untouched | Cleared | Filled(texts: seq<string>, late: bool)

  function TextsOf(write: ChunkWrite): seq<string> {
    if write.Filled? then write.texts else []
  }

  predicate Imports(l: Label) {
    l.ImportOk? || l.ImportErr?
  }

  /** The step imports source d under the namespace. */
  ghost predicate Fills(env: Env, s: System, l: Label, ns: string, d: Id)
    requires Enabled(env, s, l)
  {
    Imports(l) && PcOf(s, l.worker).c.docId == d && Namespace(PcOf(s, l.worker).c.kb) == ns
  }

  ghost predicate Clears(env: Env, s: System, l: Label, ns: string, d: Id)
    requires Enabled(env, s, l)
  {
    l.DeleteChunks? && l.doc == d && Namespace(l.kb) == ns
  }

  ghost function WriteAfter(env: Env, s: System, l: Label, ns: string, d: Id, write: ChunkWrite): ChunkWrite
    requires Enabled(env, s, l)
  {
    if Fills(env, s, l, ns, d) then
      Filled(if l.ImportOk? then env.split(PcOf(s, l.worker).text) else l.debris, d in s.log.deleting)
    else if Clears(env, s, l, ns, d) then Cleared
    else write
  }

  /** The last write to the chunks of source d under the namespace, over the steps of a run. */
  ghost function LastWrite(env: Env, run: seq<Label>, ns: string, d: Id): ChunkWrite
    requires Legal(env, run)
    decreases |run|
  {
    if run == [] then Untouched
    else
      var front, l := run[..|run| - 1], run[|run| - 1];
      WriteAfter(env, After(env, front), l, ns, d, LastWrite(env, front, ns, d))
  }

  lemma ChunksWritten(env: Env, s: System, l: Label, ns: string, d: Id, write: ChunkWrite)
    requires Enabled(env, s, l) && ChunksOf(s.chunks, ns, d) == TextsOf(write)
    ensures ChunksOf(ChunksAfter(env, s, l), ns, d) == TextsOf(WriteAfter(env, s, l, ns, d, write))
  {
    hide ChunksOf, ReplaceSource, Without, Extract, KeyTaken, Claimable;
    match l
    case ImportOk(w, _) =>
      var pc := PcOf(s, w);
      ReplaceSourceExact(s.chunks, Namespace(pc.c.kb), pc.c.docId, env.split(pc.text), ns, d);
    case ImportErr(w, debris, _) =>
      var c := PcOf(s, w).c;
      ReplaceSourceExact(s.chunks, Namespace(c.kb), c.docId, debris, ns, d);
    case DeleteChunks(e, kb) => ChunksOfWithout(s.chunks, Namespace(kb), e, ns, d);
    case _ =>
  }

  /** In every run, however late: a source's chunks are those of its last import, none after a removal. */
  lemma {:induction false} ChunksAreLastWritten(env: Env, run: seq<Label>, ns: string, d: Id)
    requires Legal(env, run)
    ensures ChunksOf(After(env, run).chunks, ns, d) == TextsOf(LastWrite(env, run, ns, d))
    decreases |run|
  {
    if run != [] {
      var front, l := run[..|run| - 1], run[|run| - 1];
      ChunksAreLastWritten(env, front, ns, d);
      ChunksWritten(env, After(env, front), l, ns, d, LastWrite(env, front, ns, d));
    }
  }

  // ---- the last write to a document's checksum ---------------------------------------------

  ghost function ChecksumAfter(env: Env, s: System, l: Label, d: Id, checksum: string): string
    requires Enabled(env, s, l)
  {
    if l.Enqueue? && l.docId == d then InputChecksum(env.sha, l.input)
    else if l.CommitOk? && PcOf(s, l.worker).c.docId == d then Checksum(env.sha, PcOf(s, l.worker).text)
    else checksum
  }

  ghost function LastChecksum(env: Env, run: seq<Label>, d: Id): string
    requires Legal(env, run)
    decreases |run|
  {
    if run == [] then ""
    else
      var front, l := run[..|run| - 1], run[|run| - 1];
      ChecksumAfter(env, After(env, front), l, d, LastChecksum(env, front, d))
  }

  lemma ChecksumWritten(env: Env, s: System, l: Label, d: Id, checksum: string)
    requires Enabled(env, s, l) && d in TablesAfter(env, s, l).docs
    requires d in s.tables.docs ==> s.tables.docs[d].checksum == checksum
    ensures TablesAfter(env, s, l).docs[d].checksum == ChecksumAfter(env, s, l, d, checksum)
  {
    hide Checksum, IdempotencyKey, SetJobPhase, FailJobTables, ReviveJob, SameRows, Claimable, KeyTaken, Extract;
  }

  /** In every run: a document's checksum is that of the text its last commit wrote, or of what was enqueued. */
  lemma {:induction false} ChecksumIsLastWritten(env: Env, run: seq<Label>, d: Id)
    requires Legal(env, run)
    ensures d in After(env, run).tables.docs ==> After(env, run).tables.docs[d].checksum == LastChecksum(env, run, d)
    decreases |run|
  {
    if run != [] && d in After(env, run).tables.docs {
      var front, l := run[..|run| - 1], run[|run| - 1];
      ChecksumIsLastWritten(env, front, d);
      hide TablesAfter, ChunksAfter, LogAfter, RetriesAfter, Enabled, ChecksumAfter;
      ChecksumWritten(env, After(env, front), l, d, LastChecksum(env, front, d));
    }
  }

  // ---- chunks and document rows -----------------------------------------------------------

  /** The document has its row, in the kb of the namespace, and its delete has not begun. */
  ghost predicate AtHome(s: System, ns: string, d: Id) {
    d in s.tables.docs && ns == Namespace(s.tables.docs[d].kb) && d !in s.log.deleting
  }

  /** Rows go only by a delete whose chunk removal has run. */
  ghost predicate RowUntilDeleted(s: System, d: Id) {
    d in s.log.jobOf && d !in s.log.deleting ==> d in s.tables.docs
  }

  /** A claim knows the kb of its document. */
  ghost predicate ClaimAtHome(s: System, w: Id) {
    !PcOf(s, w).Idle? && PcOf(s, w).c.docId in s.tables.docs ==> s.tables.docs[PcOf(s, w).c.docId].kb == PcOf(s, w).c.kb
  }

  /** A late import is of a document being deleted, and one that was not late has left its chunks at home. */
  ghost predicate WriteAtHome(s: System, ns: string, d: Id, write: ChunkWrite) {
    write.Filled? ==> if write.late then d in s.log.deleting else AtHome(s, ns, d)
  }

  lemma DeletingGrows(env: Env, s: System, l: Label, d: Id)
    requires Enabled(env, s, l)
    ensures d in LogAfter(env, s, l).deleting <==> d in s.log.deleting || (l.DeleteChunks? && l.doc == d)
  {
    hide HalfAfter;
  }

  /** A document's row and kb stand but for the delete of the row. */
  lemma RowStands(env: Env, s: System, l: Label, d: Id)
    requires Paired(env, s) && Enabled(env, s, l) && d in s.tables.docs && !(l.DeleteRow? && l.doc == d)
    ensures d in TablesAfter(env, s, l).docs && TablesAfter(env, s, l).docs[d].kb == s.tables.docs[d].kb
  {
    if l.Enqueue? {
      PairedOf(env, s, d, "", "", "");
      UsedIds(env, s, d);
    } else if !l.DeleteRow? {
      hide TablesAfter, Enabled;
      StepKeepsRows(env, s, l);
      assert SameSource(s.tables.docs[d], TablesAfter(env, s, l).docs[d]);
    }
  }

  lemma RowUntilDeletedStep(env: Env, s: System, l: Label, d: Id)
    requires Paired(env, s) && RowUntilDeleted(s, d) && Enabled(env, s, l)
    ensures RowUntilDeleted(Apply(env, s, l), d)
  {
    hide Paired, LogAfter, TablesAfter, ChunksAfter, RetriesAfter;
    DeletingGrows(env, s, l, d);
    if l.Enqueue? && l.docId == d {
      EnqueuedHasRow(env, s, l);
    } else {
      JobOfGrows(env, s, l, d);
      if d in s.tables.docs {
        RowStandsUnlessDeleting(env, s, l, d);
      }
    }
  }

  lemma EnqueuedHasRow(env: Env, s: System, l: Label)
    requires Enabled(env, s, l) && l.Enqueue?
    ensures l.docId in TablesAfter(env, s, l).docs
  {
  }

  lemma JobOfGrows(env: Env, s: System, l: Label, d: Id)
    requires Enabled(env, s, l) && !(l.Enqueue? && l.docId == d)
    ensures d in LogAfter(env, s, l).jobOf <==> d in s.log.jobOf
  {
    hide HalfAfter;
  }

  lemma RowStandsUnlessDeleting(env: Env, s: System, l: Label, d: Id)
    requires Paired(env, s) && Enabled(env, s, l) && d in s.tables.docs
    ensures l.DeleteRow? && l.doc == d ==> d in s.log.deleting
    ensures !(l.DeleteRow? && l.doc == d) ==>
      d in TablesAfter(env, s, l).docs && TablesAfter(env, s, l).docs[d].kb == s.tables.docs[d].kb
  {
    hide Paired, TablesAfter;
    if !(l.DeleteRow? && l.doc == d) {
      RowStands(env, s, l, d);
    }
  }

  lemma RowsDoNotComeBack(env: Env, s: System, l: Label, d: Id)
    requires Enabled(env, s, l) && d in s.log.used && d in TablesAfter(env, s, l).docs
    ensures d in s.tables.docs
  {
    hide HalfAfter, Claimable, KeyTaken;
  }

  lemma ClaimAtHomeStep(env: Env, s: System, l: Label, w: Id)
    requires Paired(env, s) && ClaimAtHome(s, w) && Enabled(env, s, l)
    ensures ClaimAtHome(Apply(env, s, l), w)
  {
    hide Paired, LogAfter, TablesAfter, ChunksAfter, RetriesAfter;
    PcMoves(env, s, l, w);
    var pc := PcOf(Apply(env, s, l), w);
    if !pc.Idle? && pc.c.docId in TablesAfter(env, s, l).docs {
      if ActorOf(l) == Some(w) && l.TakeClaim? {
        RowStandsUnlessDeleting(env, s, l, pc.c.docId);
      } else {
        PairedOf(env, s, "", "", w, "");
        UsedIds(env, s, pc.c.docId);
        RowsDoNotComeBack(env, s, l, pc.c.docId);
        RowStandsUnlessDeleting(env, s, l, pc.c.docId);
        DeletedRowGone(env, s, l, pc.c.docId);
      }
    }
  }

  lemma DeletedRowGone(env: Env, s: System, l: Label, d: Id)
    requires Enabled(env, s, l)
    ensures l.DeleteRow? && l.doc == d ==> d !in TablesAfter(env, s, l).docs
  {
  }

  lemma FilledAtHome(env: Env, s: System, l: Label, ns: string, d: Id)
    requires Paired(env, s) && RowUntilDeleted(s, d) && Enabled(env, s, l) && Fills(env, s, l, ns, d)
    requires ClaimAtHome(s, l.worker) && d !in s.log.deleting
    ensures AtHome(s, ns, d)
  {
    hide Paired;
    PairedOf(env, s, "", "", l.worker, "");
  }

  lemma WriteAtHomeStep(env: Env, s: System, l: Label, ns: string, d: Id, write: ChunkWrite)
    requires Paired(env, s) && RowUntilDeleted(s, d) && Enabled(env, s, l)
    requires ActorOf(l).Some? ==> ClaimAtHome(s, l.worker)
    requires WriteAtHome(s, ns, d, write)
    ensures WriteAtHome(Apply(env, s, l), ns, d, WriteAfter(env, s, l, ns, d, write))
  {
    hide Paired, LogAfter, TablesAfter, ChunksAfter, RetriesAfter, Enabled;
    DeletingGrows(env, s, l, d);
    if Fills(env, s, l, ns, d) && d !in s.log.deleting {
      FilledAtHome(env, s, l, ns, d);
    }
    if d in s.tables.docs {
      RowStandsUnlessDeleting(env, s, l, d);
      DeleteKnowsKb(env, s, l, d);
    }
  }

  lemma DeleteKnowsKb(env: Env, s: System, l: Label, d: Id)
    requires Enabled(env, s, l) && d in s.tables.docs
    ensures l.DeleteChunks? && l.doc == d ==> l.kb == s.tables.docs[d].kb
  {
  }

  ghost predicate HomeKept(env: Env, s: System, ns: string, d: Id, write: ChunkWrite) {
    && RowUntilDeleted(s, d) && WriteAtHome(s, ns, d, write)
    && forall w :: ClaimAtHome(s, w)
  }

  lemma {:induction false} AlwaysHomeKept(env: Env, run: seq<Label>, ns: string, d: Id)
    requires Legal(env, run)
    ensures HomeKept(env, After(env, run), ns, d, LastWrite(env, run, ns, d))
    decreases |run|
  {
    if run != [] {
      var front, l := run[..|run| - 1], run[|run| - 1];
      AlwaysHomeKept(env, front, ns, d);
      AlwaysPaired(env, front);
      var s := After(env, front);
      hide Apply, Enabled, Paired, WriteAfter, WriteAtHome, RowUntilDeleted, ClaimAtHome;
      RowUntilDeletedStep(env, s, l, d);
      WriteAtHomeStep(env, s, l, ns, d, LastWrite(env, front, ns, d));
      forall w ensures ClaimAtHome(Apply(env, s, l), w) {
        ClaimAtHomeStep(env, s, l, w);
      }
    }
  }

  /**
   Exactly when a document's chunks outlive its delete, in every run: a source has chunks without being
   at home if and only if the last write to them was an import, of some text, that came after the chunk
   removal of the document's delete.
   */
  lemma StrayExactly(env: Env, run: seq<Label>, ns: string, d: Id)
    requires Legal(env, run)
    ensures
      var s, write := After(env, run), LastWrite(env, run, ns, d);
      (ChunksOf(s.chunks, ns, d) != [] && !AtHome(s, ns, d)) <==> (write.Filled? && write.late && write.texts != [])
  {
    hide After, Legal, LastWrite;
    ChunksAreLastWritten(env, run, ns, d);
    AlwaysHomeKept(env, run, ns, d);
  }

  // ---- timely runs, and runs in which no import is late ---------------------------------------

  ghost predicate NotLate(s: System, l: Label) {
    Imports(l) && !PcOf(s, l.worker).Idle? ==> PcOf(s, l.worker).c.docId !in s.log.deleting
  }

  ghost predicate NoneLate(env: Env, run: seq<Label>)
    requires Legal(env, run)
  {
    forall n :: 0 <= n < |run| ==> NotLate(StateAt(env, run, n), run[n])
  }

  lemma {:induction false} NoneLateWrites(env: Env, run: seq<Label>, ns: string, d: Id)
    requires Legal(env, run) && NoneLate(env, run)
    ensures
      var write := LastWrite(env, run, ns, d);
      write.Filled? ==> !write.late
    decreases |run|
  {
    if run != [] {
      var front := run[..|run| - 1];
      hide Apply, Enabled, After, NotLate;
      forall n | 0 <= n < |front| ensures NotLate(StateAt(env, front, n), front[n]) {
        assert front[..n] == run[..n];
        assert NotLate(StateAt(env, run, n), run[n]);
      }
      NoneLateWrites(env, front, ns, d);
      assert NotLate(StateAt(env, run, |run| - 1), run[|run| - 1]);
      LastNotLate(env, run, ns, d);
    }
  }

  lemma LastNotLate(env: Env, run: seq<Label>, ns: string, d: Id)
    requires Legal(env, run) && run != [] && NotLate(StateAt(env, run, |run| - 1), run[|run| - 1])
    requires
      var write := LastWrite(env, run[..|run| - 1], ns, d);
      write.Filled? ==> !write.late
    ensures
      var write := LastWrite(env, run, ns, d);
      write.Filled? ==> !write.late
  {
    hide Apply;
  }

  /** When no import is late, every source that has chunks has its row, in the kb whose namespace they are in. */
  lemma ChunksAtHome(env: Env, run: seq<Label>, ns: string, d: Id)
    requires Legal(env, run) && NoneLate(env, run) && ChunksOf(After(env, run).chunks, ns, d) != []
    ensures AtHome(After(env, run), ns, d)
  {
    hide After, Legal, LastWrite, NoneLate;
    StrayExactly(env, run, ns, d);
    NoneLateWrites(env, run, ns, d);
  }

  lemma ImportersAreLive(env: Env, s: System, l: Label)
    requires Good(env, s) && Enabled(env, s, l) && TimelyStep(s, l)
    ensures NotLate(s, l)
  {
    hide Good;
    if Imports(l) {
      HolderOf(env, s, l.worker);
    }
  }

  /** So it is in every timely run: a delete waits for the live holder, and a worker past its lease imports nothing. */
  lemma TimelyChunksAtHome(env: Env, run: seq<Label>, ns: string, d: Id)
    requires Legal(env, run) && Timely(env, run) && ChunksOf(After(env, run).chunks, ns, d) != []
    ensures AtHome(After(env, run), ns, d)
  {
    hide Apply, After, Legal, Enabled, Good, NotLate;
    forall n | 0 <= n < |run| ensures NotLate(StateAt(env, run, n), run[n]) {
      GoodAt(env, run, n);
      assert TimelyStep(StateAt(env, run, n), run[n]);
      ImportersAreLive(env, StateAt(env, run, n), run[n]);
    }
    ChunksAtHome(env, run, ns, d);
  }

  /** A delete that names the document again, its row long gone, clears what was left under its kb. */
  lemma DeleteAgainClears(env: Env, run: seq<Label>, d: Id, kb: Id)
    requires Legal(env, run) && d in After(env, run).log.jobOf && d !in After(env, run).tables.docs
    ensures Legal(env, run + [DeleteChunks(d, kb)])
    ensures ChunksOf(After(env, run + [DeleteChunks(d, kb)]).chunks, Namespace(kb), d) == []
  {
    var s := After(env, run);
    hide After, Legal, TablesAfter, LogAfter, ChunksOf, Without;
    LegalExtend(env, run, DeleteChunks(d, kb));
    ChunksOfWithout(s.chunks, Namespace(kb), d, Namespace(kb), d);
  }

  // ---- what is left behind stays ----------------------------------------------------------

  lemma GoneStep(env: Env, s: System, l: Label, d: Id)
    requires Enabled(env, s, l) && d in s.log.used && d !in s.tables.docs
    ensures d in LogAfter(env, s, l).used && d !in TablesAfter(env, s, l).docs
  {
    hide HalfAfter;
    if d in TablesAfter(env, s, l).docs {
      RowsDoNotComeBack(env, s, l, d);
    }
  }

  lemma OthersLeaveChunks(env: Env, s: System, l: Label, ns: string, d: Id)
    requires Enabled(env, s, l) && !Imports(l) && !(l.DeleteChunks? && l.doc == d)
    ensures forall write :: WriteAfter(env, s, l, ns, d, write) == write
  {
  }

  /** Chunks left behind by a delete stay until a delete names their source's id again: its row never comes back for a kb's delete to list. */
  lemma {:induction false} StrayStays(env: Env, run: seq<Label>, more: seq<Label>, ns: string, d: Id)
    requires Legal(env, run) && Legal(env, run + more)
    requires forall n :: 0 <= n < |more| ==> !Imports(more[n]) && !(more[n].DeleteChunks? && more[n].doc == d)
    requires d in After(env, run).log.used && d !in After(env, run).tables.docs
    ensures d in After(env, run + more).log.used && d !in After(env, run + more).tables.docs
    ensures ChunksOf(After(env, run + more).chunks, ns, d) == ChunksOf(After(env, run).chunks, ns, d)
    decreases |more|
  {
    if more == [] {
      assert run + more == run;
    } else {
      var front, l := more[..|more| - 1], more[|more| - 1];
      var whole := run + more;
      assert whole[..|whole| - 1] == run + front && whole[|whole| - 1] == l;
      StrayStays(env, run, front, ns, d);
      hide TablesAfter, ChunksAfter, LogAfter, RetriesAfter, Enabled, WriteAfter;
      var s := After(env, run + front);
      GoneStep(env, s, l, d);
      OthersLeaveChunks(env, s, l, ns, d);
      var write := LastWrite(env, run + front, ns, d);
      ChunksAreLastWritten(env, run + front, ns, d);
      ChunksWritten(env, s, l, ns, d, write);
    }
  }
}
