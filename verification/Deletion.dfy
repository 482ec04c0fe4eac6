/** Hard deletion of documents and knowledge bases, statement by statement. */
module Deletion {
  import opened Wrappers
  import opened Tables

  predicate Terminal(s: JobStatus) {
    s == Succeeded || s == Dead || s == JobFailed || s == Cancelled
  }

  function JobsOf(jobs: map<Id, Job>, ids: set<Id>): set<Id> {
    set j | j in jobs && jobs[j].doc in ids
  }

  function DocsOf(docs: map<Id, Document>, kb: Id): set<Id> {
    set d | d in docs && docs[d].kb == kb
  }

  function Members(list: seq<Id>): set<Id> {
    set x | x in list
  }

  // ---------- what the single statements leave of a table ----------

  function MarkDeleting(docs: map<Id, Document>, ids: set<Id>): map<Id, Document> {
    map d | d in docs :: if d in ids then docs[d].(status := Deleting) else docs[d]
  }

  function MarkCancelRequested(jobs: map<Id, Job>, ids: set<Id>): map<Id, Job> {
    map j | j in jobs ::
      if jobs[j].doc in ids && !Terminal(jobs[j].status) then jobs[j].(status := CancelRequested) else jobs[j]
  }

  function DropDocs(docs: map<Id, Document>, ids: set<Id>): map<Id, Document> {
    map d | d in docs && d !in ids :: docs[d]
  }

  function DropJobs(jobs: map<Id, Job>, ids: set<Id>): map<Id, Job> {
    map j | j in jobs && jobs[j].doc !in ids :: jobs[j]
  }

  function DropReceipts(receipts: map<ReceiptKey, Output>, jobs: set<Id>): map<ReceiptKey, Output> {
    map k | k in receipts && k.job !in jobs :: receipts[k]
  }

  function DropRows<T>(rows: map<RowKey, T>, ids: set<Id>): map<RowKey, T> {
    map k | k in rows && k.doc !in ids :: rows[k]
  }

  function DropParses(parses: map<Id, ParseRow>, ids: set<Id>): map<Id, ParseRow> {
    map d | d in parses && d !in ids :: parses[d]
  }

  function DropCitations(citations: map<Id, Citation>, ids: set<Id>): map<Id, Citation> {
    map c | c in citations && citations[c].doc !in ids :: citations[c]
  }

  function UnlinkSessions(sessions: map<Id, Session>, kb: Id): map<Id, Session> {
    map s | s in sessions :: if sessions[s].kb == Some(kb) then sessions[s].(kb := None) else sessions[s]
  }

  function DropKbCitations(citations: map<Id, Citation>, kb: Id): map<Id, Citation> {
    map c | c in citations && citations[c].kb != kb :: citations[c]
  }

  function DropKbChunks(chunks: map<RowKey, ChunkRow>, kb: Id): map<RowKey, ChunkRow> {
    map k | k in chunks && chunks[k].kb != kb :: chunks[k]
  }

  function DropPermissions(permissions: map<Id, Permission>, kb: Id): map<Id, Permission> {
    map p | p in permissions && permissions[p].kb != kb :: permissions[p]
  }

  // ---------- what a deletion amounts to ----------

  /** The database without the documents `ids` and everything that hangs on them. */
  function Purge(db: Db, ids: set<Id>, withCitations: bool): Db {
    db.(docs := DropDocs(db.docs, ids),
        jobs := DropJobs(db.jobs, ids),
        receipts := DropReceipts(db.receipts, JobsOf(db.jobs, ids)),
        chunks := DropRows(db.chunks, ids),
        pages := DropRows(db.pages, ids),
        assets := DropRows(db.assets, ids),
        parses := DropParses(db.parses, ids),
        citations := if withCitations then DropCitations(db.citations, ids) else db.citations)
  }

  /** The database without a knowledge base: its documents purged, sessions unlinked, its
      citations, chunks and permissions removed. */
  function PurgeKb(db: Db, kb: Id): Db {
    Purge(db, DocsOf(db.docs, kb), false)
    .(sessions := UnlinkSessions(db.sessions, kb),
      citations := DropKbCitations(db.citations, kb),
      chunks := DropKbChunks(DropRows(db.chunks, DocsOf(db.docs, kb)), kb),
      permissions := DropPermissions(db.permissions, kb),
      kbs := db.kbs - {kb})
  }

  // ---------- each statement keeps the foreign keys ----------

  lemma FkMarkDocs(db: Db, ids: set<Id>)
    ensures FkOk(db) ==> FkOk(db.(docs := MarkDeleting(db.docs, ids)))
  {
    hide JobsOk, ReceiptsOk, ChunksOk, RowsOk, ParsesOk, SessionsOk, MessagesOk, CitationsOk, PermissionsOk;
    assert MarkDeleting(db.docs, ids).Keys == db.docs.Keys;
  }

  lemma FkMarkJobs(db: Db, ids: set<Id>)
    ensures FkOk(db) ==> FkOk(db.(jobs := MarkCancelRequested(db.jobs, ids)))
  {
    hide DocsOk, ReceiptsOk, ChunksOk, RowsOk, ParsesOk, SessionsOk, MessagesOk, CitationsOk, PermissionsOk;
    assert MarkCancelRequested(db.jobs, ids).Keys == db.jobs.Keys;
  }

  lemma FkDropCitations(db: Db, ids: set<Id>)
    ensures FkOk(db) ==> FkOk(db.(citations := DropCitations(db.citations, ids)))
  {
    hide DocsOk, JobsOk, ReceiptsOk, ChunksOk, RowsOk, ParsesOk, SessionsOk, MessagesOk, PermissionsOk;
  }

  lemma FkDropReceipts(db: Db, jobs: set<Id>)
    ensures FkOk(db) ==> FkOk(db.(receipts := DropReceipts(db.receipts, jobs)))
  {
    hide DocsOk, JobsOk, ChunksOk, RowsOk, ParsesOk, SessionsOk, MessagesOk, CitationsOk, PermissionsOk;
  }

  lemma RowsDropped<T>(rows: map<RowKey, T>, ids: set<Id>, docs: set<Id>)
    ensures RowsOk(rows, docs) ==> RowsOk(DropRows(rows, ids), docs)
  {}

  lemma FkDropPages(db: Db, ids: set<Id>)
    ensures FkOk(db) ==> FkOk(db.(pages := DropRows(db.pages, ids)))
  {
    RowsDropped(db.pages, ids, db.docs.Keys);
    hide DocsOk, JobsOk, ReceiptsOk, ChunksOk, RowsOk, ParsesOk, SessionsOk, MessagesOk, CitationsOk, PermissionsOk;
  }

  lemma FkDropAssets(db: Db, ids: set<Id>)
    ensures FkOk(db) ==> FkOk(db.(assets := DropRows(db.assets, ids)))
  {
    RowsDropped(db.assets, ids, db.docs.Keys);
    hide DocsOk, JobsOk, ReceiptsOk, ChunksOk, RowsOk, ParsesOk, SessionsOk, MessagesOk, CitationsOk, PermissionsOk;
  }

  lemma FkDropChunks(db: Db, ids: set<Id>)
    ensures FkOk(db) ==> FkOk(db.(chunks := DropRows(db.chunks, ids)))
  {
    RowsDropped(db.chunks, ids, db.docs.Keys);
    hide DocsOk, JobsOk, ReceiptsOk, RowsOk, ParsesOk, SessionsOk, MessagesOk, CitationsOk, PermissionsOk;
  }

  lemma FkDropParses(db: Db, ids: set<Id>)
    ensures FkOk(db) ==> FkOk(db.(parses := DropParses(db.parses, ids)))
  {
    hide DocsOk, JobsOk, ReceiptsOk, ChunksOk, RowsOk, SessionsOk, MessagesOk, CitationsOk, PermissionsOk;
  }

  lemma FkDropJobs(db: Db, ids: set<Id>)
    ensures FkOk(db) ==>
              FkOk(db.(receipts := DropReceipts(db.receipts, JobsOf(db.jobs, ids)), jobs := DropJobs(db.jobs, ids)))
  {
    hide DocsOk, ChunksOk, RowsOk, ParsesOk, SessionsOk, MessagesOk, CitationsOk, PermissionsOk;
  }

  lemma RowsStay<T>(rows: map<RowKey, T>, ids: set<Id>, docs: set<Id>)
    ensures RowsOk(rows, docs) ==> RowsOk(DropRows(rows, ids), docs - ids)
  {}

  lemma DocsStay(db: Db, ids: set<Id>)
    ensures DropDocs(db.docs, ids).Keys == db.docs.Keys - ids
    ensures DocsOk(db.docs, db.kbs.Keys) ==> DocsOk(DropDocs(db.docs, ids), db.kbs.Keys)
    ensures JobsOk(db.jobs, db.docs.Keys) ==> JobsOk(DropJobs(db.jobs, ids), db.docs.Keys - ids)
    ensures ParsesOk(db.parses, db.docs.Keys) ==> ParsesOk(DropParses(db.parses, ids), db.docs.Keys - ids)
  {}

  lemma FkPurge(db: Db, ids: set<Id>, withCitations: bool)
    ensures FkOk(db) ==> FkOk(Purge(db, ids, withCitations))
  {
    FkDropChunks(db, ids);
    FkDropCitations(db, ids);
    FkDropJobs(db, ids);
    hide DocsOk, JobsOk, ReceiptsOk, ChunksOk, RowsOk, ParsesOk, SessionsOk, MessagesOk, CitationsOk, PermissionsOk;
    hide DropDocs, DropJobs, DropReceipts, DropRows, DropParses, DropCitations, JobsOf;
    RowsStay(db.chunks, ids, db.docs.Keys);
    RowsStay(db.pages, ids, db.docs.Keys);
    RowsStay(db.assets, ids, db.docs.Keys);
    DocsStay(db, ids);
  }

  lemma FkUnlinkSessions(db: Db, kb: Id)
    ensures FkOk(db) ==> FkOk(db.(sessions := UnlinkSessions(db.sessions, kb)))
  {
    hide DocsOk, JobsOk, ReceiptsOk, ChunksOk, RowsOk, ParsesOk, MessagesOk, CitationsOk, PermissionsOk;
    assert UnlinkSessions(db.sessions, kb).Keys == db.sessions.Keys;
  }

  lemma FkDropKbCitations(db: Db, kb: Id)
    ensures FkOk(db) ==> FkOk(db.(citations := DropKbCitations(db.citations, kb)))
  {
    hide DocsOk, JobsOk, ReceiptsOk, ChunksOk, RowsOk, ParsesOk, SessionsOk, MessagesOk, PermissionsOk;
  }

  lemma FkDropKbChunks(db: Db, kb: Id)
    ensures FkOk(db) ==> FkOk(db.(chunks := DropKbChunks(db.chunks, kb)))
  {
    assert RowsOk(db.chunks, db.docs.Keys) ==> RowsOk(DropKbChunks(db.chunks, kb), db.docs.Keys);
    hide DocsOk, JobsOk, ReceiptsOk, RowsOk, ParsesOk, SessionsOk, MessagesOk, CitationsOk, PermissionsOk;
  }

  lemma FkDropPermissions(db: Db, kb: Id)
    ensures FkOk(db) ==> FkOk(db.(permissions := DropPermissions(db.permissions, kb)))
  {
    hide DocsOk, JobsOk, ReceiptsOk, ChunksOk, RowsOk, ParsesOk, SessionsOk, MessagesOk, CitationsOk;
  }

  lemma FkPurgeKb(db: Db, kb: Id)
    ensures FkOk(db) ==> FkOk(PurgeKb(db, kb))
  {
    var ids := DocsOf(db.docs, kb);
    FkPurge(db, ids, false);
    assert DocsOk(db.docs, db.kbs.Keys) ==> DocsOk(DropDocs(db.docs, ids), db.kbs.Keys - {kb});
    assert (db.kbs - {kb}).Keys == db.kbs.Keys - {kb};
    assert UnlinkSessions(db.sessions, kb).Keys == db.sessions.Keys;
    assert RowsOk(DropRows(db.chunks, ids), DropDocs(db.docs, ids).Keys) ==>
        RowsOk(DropKbChunks(DropRows(db.chunks, ids), kb), DropDocs(db.docs, ids).Keys);
    hide DocsOk, JobsOk, ReceiptsOk, RowsOk, ParsesOk, MessagesOk;
  }

  /** Marking, row by row. */
  lemma MarkedRows(db: Db, ids: set<Id>)
    ensures var docs, jobs := MarkDeleting(db.docs, ids), MarkCancelRequested(db.jobs, ids);
            && docs.Keys == db.docs.Keys && jobs.Keys == db.jobs.Keys
            && (forall d | d in docs ::
                  docs[d] == if d in ids then db.docs[d].(status := Deleting) else db.docs[d])
            && (forall j | j in jobs ::
                  jobs[j] == if db.jobs[j].doc in ids && db.jobs[j].status in {Queued, Running, CancelRequested}
                             then db.jobs[j].(status := CancelRequested) else db.jobs[j])
  {}

  // ---------- the methods ----------

  /** A database session: each statement replaces a table, and `trail` remembers the
      database after every statement. */
  class DbSession {
    var db: Db
    ghost var trail: seq<Db>

    constructor (db: Db)
      ensures this.db == db && trail == []
    {
      this.db := db;
      trail := [];
    }

    /** All foreign keys hold now, and held after each statement since the `from`-th. */
    ghost predicate Sound(from: nat)
      reads this
    {
      from <= |trail| && FkOk(db) && forall i | from <= i < |trail| :: FkOk(trail[i])
    }

    method Execute(next: Db)
      modifies this
      ensures db == next && trail == old(trail) + [next]
      ensures forall n: nat | old(Sound(n)) && (FkOk(old(db)) ==> FkOk(next)) :: Sound(n)
    {
      db := next;
      trail := trail + [next];
      hide FkOk;
    }

    method RequestDocumentDeletion(ids: set<Id>)
      modifies this
      ensures db == old(db).(docs := MarkDeleting(old(db).docs, ids), jobs := MarkCancelRequested(old(db).jobs, ids))
      ensures forall n: nat | old(Sound(n)) :: Sound(n)
    {
      if ids == {} {
        assert MarkDeleting(db.docs, ids) == db.docs && MarkCancelRequested(db.jobs, ids) == db.jobs;
        return;
      }
      hide *;
      FkMarkDocs(db, ids);
      Execute(db.(docs := MarkDeleting(db.docs, ids)));
      FkMarkJobs(db, ids);
      Execute(db.(jobs := MarkCancelRequested(db.jobs, ids)));
    }

    /** Children before parents; the job ids are read before the jobs go.  The result is the
        number of document rows removed. */
    method HardDeleteDocuments(documentIds: seq<Id>, removeChatCitations: bool := true) returns (count: nat)
      modifies this
      ensures db == Purge(old(db), Members(documentIds), removeChatCitations)
      ensures count == |Members(documentIds) * old(db).docs.Keys|
      ensures count == |set d | d in old(db).docs && d in documentIds|
      ensures forall n: nat | old(Sound(n)) :: Sound(n)
    {
      assert forall n: nat | Sound(n) :: FkOk(db);
      hide DocsOf, JobsOf, MarkDeleting, MarkCancelRequested, DropDocs, DropJobs, DropReceipts, DropRows, DropParses,
          DropCitations, UnlinkSessions, DropKbCitations, DropKbChunks, DropPermissions, Members, FkOk, DbSession.Sound;
      var ids := Members(documentIds);
      MembersFound(documentIds, db.docs);
      if ids == {} {
        PurgeNothing(db, removeChatCitations);
        return 0;
      }
      ghost var start := db;
      RequestDocumentDeletion(ids);
      MarkedLike(start, ids);
      var jobIds := JobsOf(db.jobs, ids);
      DropLeaves(ids, jobIds, removeChatCitations);
      FkDropJobs(db, ids);
      DropReceiptsTwice(start.receipts, jobIds);
      Execute(db.(jobs := DropJobs(db.jobs, ids)));
      count := |ids * db.docs.Keys|;
      FkPurge(start, ids, removeChatCitations);
      Execute(db.(docs := DropDocs(db.docs, ids)));
    }

    /** The rows that refer to a document or its jobs, before the jobs and the documents go. */
    method DropLeaves(ids: set<Id>, jobIds: set<Id>, removeChatCitations: bool)
      modifies this
      ensures db == old(db).(citations := if removeChatCitations then DropCitations(old(db).citations, ids)
                                          else old(db).citations,
                             receipts := DropReceipts(old(db).receipts, jobIds),
                             pages := DropRows(old(db).pages, ids),
                             chunks := DropRows(old(db).chunks, ids),
                             assets := DropRows(old(db).assets, ids),
                             parses := DropParses(old(db).parses, ids))
      ensures forall n: nat | old(Sound(n)) :: Sound(n)
    {
      hide *;
      DropCitationsAndReceipts(ids, jobIds, removeChatCitations);
      FkDropPages(db, ids);
      Execute(db.(pages := DropRows(db.pages, ids)));
      FkDropChunks(db, ids);
      Execute(db.(chunks := DropRows(db.chunks, ids)));
      FkDropAssets(db, ids);
      Execute(db.(assets := DropRows(db.assets, ids)));
      FkDropParses(db, ids);
      Execute(db.(parses := DropParses(db.parses, ids)));
    }

    method DropCitationsAndReceipts(ids: set<Id>, jobIds: set<Id>, removeChatCitations: bool)
      modifies this
      ensures db == old(db).(citations := if removeChatCitations then DropCitations(old(db).citations, ids)
                                          else old(db).citations,
                             receipts := DropReceipts(old(db).receipts, jobIds))
      ensures forall n: nat | old(Sound(n)) :: Sound(n)
    {
      hide *;
      if removeChatCitations {
        FkDropCitations(db, ids);
        Execute(db.(citations := DropCitations(db.citations, ids)));
      }
      if jobIds != {} {
        FkDropReceipts(db, jobIds);
        Execute(db.(receipts := DropReceipts(db.receipts, jobIds)));
      } else {
        DropNoReceipts(db.receipts);
      }
    }

    method HardDeleteKnowledgeBase(kb: Id) returns (documents: nat, permissions: nat, kbs: nat)
      modifies this
      ensures db == PurgeKb(old(db), kb)
      ensures documents == |set d | d in old(db).docs && old(db).docs[d].kb == kb|
      ensures kbs == if kb in old(db).kbs then 1 else 0
      ensures permissions == |set p | p in old(db).permissions && old(db).permissions[p].kb == kb|
      ensures forall n: nat | old(Sound(n)) :: Sound(n)
    {
      assert forall n: nat | Sound(n) :: FkOk(db);
      hide DocsOf, JobsOf, MarkDeleting, MarkCancelRequested, DropDocs, DropJobs, DropReceipts, DropRows, DropParses,
          DropCitations, UnlinkSessions, DropKbCitations, DropKbChunks, DropPermissions, Members, FkOk, DbSession.Sound;
      ghost var start := db;
      var ids := DocsOf(db.docs, kb);
      var documentIds := Listed(ids);
      documents := |ids|;
      DropKbLinks(kb);
      var _ := HardDeleteDocuments(documentIds, false);
      permissions := DropKbLeaves(kb);
      kbs := if kb in db.kbs then 1 else 0;
      FkPurgeKb(start, kb);
      Execute(db.(kbs := db.kbs - {kb}));
    }

    method DropKbLinks(kb: Id)
      modifies this
      ensures db == old(db).(sessions := UnlinkSessions(old(db).sessions, kb),
                             citations := DropKbCitations(old(db).citations, kb))
      ensures forall n: nat | old(Sound(n)) :: Sound(n)
    {
      hide *;
      FkUnlinkSessions(db, kb);
      Execute(db.(sessions := UnlinkSessions(db.sessions, kb)));
      FkDropKbCitations(db, kb);
      Execute(db.(citations := DropKbCitations(db.citations, kb)));
    }

    method DropKbLeaves(kb: Id) returns (permissions: nat)
      modifies this
      ensures db == old(db).(chunks := DropKbChunks(old(db).chunks, kb),
                             permissions := DropPermissions(old(db).permissions, kb))
      ensures permissions == |set p | p in old(db).permissions && old(db).permissions[p].kb == kb|
      ensures forall n: nat | old(Sound(n)) :: Sound(n)
    {
      hide *;
      FkDropKbChunks(db, kb);
      Execute(db.(chunks := DropKbChunks(db.chunks, kb)));
      permissions := |set p | p in db.permissions && db.permissions[p].kb == kb|;
      FkDropPermissions(db, kb);
      Execute(db.(permissions := DropPermissions(db.permissions, kb)));
    }
  }

  lemma MembersFound(list: seq<Id>, docs: map<Id, Document>)
    ensures (set d | d in docs && d in list) == Members(list) * docs.Keys
  {}

  /** The rows a query returns, in some order. */
  method Listed(ids: set<Id>) returns (list: seq<Id>)
    ensures Members(list) == ids
  {
    list := [];
    var rest := ids;
    while rest != {}
      invariant rest <= ids && Members(list) == ids - rest
      decreases rest
    {
      var x :| x in rest;
      assert Members(list + [x]) == Members(list) + {x};
      list := list + [x];
      rest := rest - {x};
    }
  }

  // ---------- the statements in sequence ----------

  lemma PurgeNothing(db: Db, withCitations: bool)
    ensures Purge(db, {}, withCitations) == db
  {
    var p := Purge(db, {}, withCitations);
    assert p.receipts == db.receipts;
  }

  lemma DropNoReceipts(receipts: map<ReceiptKey, Output>)
    ensures DropReceipts(receipts, {}) == receipts
  {}

  lemma DropReceiptsTwice(receipts: map<ReceiptKey, Output>, jobs: set<Id>)
    ensures DropReceipts(DropReceipts(receipts, jobs), jobs) == DropReceipts(receipts, jobs)
  {}

  /** Marking the rows first does not change which rows go. */
  lemma MarkedLike(db: Db, ids: set<Id>)
    ensures var jobs, docs := MarkCancelRequested(db.jobs, ids), MarkDeleting(db.docs, ids);
            && JobsOf(jobs, ids) == JobsOf(db.jobs, ids) && DropJobs(jobs, ids) == DropJobs(db.jobs, ids)
            && DropDocs(docs, ids) == DropDocs(db.docs, ids) && docs.Keys == db.docs.Keys
  {}

  // ---------- what deletion guarantees ----------

  lemma DropRowsTwice<T>(rows: map<RowKey, T>, a: set<Id>, b: set<Id>)
    ensures DropRows(DropRows(rows, a), b) == DropRows(rows, a + b)
  {}

  lemma DropOthersTwice(db: Db, a: set<Id>, b: set<Id>)
    ensures DropDocs(DropDocs(db.docs, a), b) == DropDocs(db.docs, a + b)
    ensures DropJobs(DropJobs(db.jobs, a), b) == DropJobs(db.jobs, a + b)
    ensures DropParses(DropParses(db.parses, a), b) == DropParses(db.parses, a + b)
    ensures DropCitations(DropCitations(db.citations, a), b) == DropCitations(db.citations, a + b)
  {}

  lemma DropJobReceiptsTwice(db: Db, a: set<Id>, b: set<Id>)
    ensures DropReceipts(DropReceipts(db.receipts, JobsOf(db.jobs, a)), JobsOf(DropJobs(db.jobs, a), b))
            == DropReceipts(db.receipts, JobsOf(db.jobs, a + b))
  {
    assert JobsOf(DropJobs(db.jobs, a), b) == JobsOf(db.jobs, b) - JobsOf(db.jobs, a);
    assert JobsOf(db.jobs, a + b) == JobsOf(db.jobs, a) + JobsOf(db.jobs, b);
    hide DropJobs, JobsOf;
  }

  /** Purging two sets in turn is purging their union. */
  lemma PurgeTwice(db: Db, a: set<Id>, b: set<Id>, withCitations: bool)
    ensures Purge(Purge(db, a, withCitations), b, withCitations) == Purge(db, a + b, withCitations)
  {
    hide DocsOf, JobsOf, MarkDeleting, MarkCancelRequested, DropDocs, DropJobs, DropReceipts, DropRows, DropParses,
        DropCitations, UnlinkSessions, DropKbCitations, DropKbChunks, DropPermissions;
    DropJobReceiptsTwice(db, a, b);
    DropOthersTwice(db, a, b);
    DropRowsTwice(db.chunks, a, b);
    DropRowsTwice(db.pages, a, b);
    DropRowsTwice(db.assets, a, b);
  }

  function PurgeEach(db: Db, list: seq<Id>, withCitations: bool): Db {
    if list == [] then db
    else Purge(PurgeEach(db, list[..|list| - 1], withCitations), {list[|list| - 1]}, withCitations)
  }

  /** Deleting a list at once, duplicates or not, is deleting its members one by one. */
  lemma {:induction false} PurgeOneByOne(db: Db, list: seq<Id>, withCitations: bool)
    ensures PurgeEach(db, list, withCitations) == Purge(db, Members(list), withCitations)
  {
    hide Purge;
    if list == [] {
      PurgeNothing(db, withCitations);
      assert Members(list) == {};
    } else {
      var init, last := list[..|list| - 1], list[|list| - 1];
      PurgeOneByOne(db, init, withCitations);
      PurgeTwice(db, Members(init), {last}, withCitations);
      assert init + [last] == list;
      assert Members(init) + {last} == Members(list);
    }
  }

  /** ... in any order. */
  lemma PurgeAnyOrder(db: Db, a: seq<Id>, b: seq<Id>, withCitations: bool)
    requires Members(a) == Members(b)
    ensures PurgeEach(db, a, withCitations) == PurgeEach(db, b, withCitations)
  {
    PurgeOneByOne(db, a, withCitations);
    PurgeOneByOne(db, b, withCitations);
  }

  /** Some row still refers to one of the documents. */
  ghost predicate Refers(db: Db, docs: set<Id>) {
    || (exists d :: d in db.docs && d in docs)
    || (exists j :: j in db.jobs && db.jobs[j].doc in docs)
    || (exists k :: k in db.chunks && k.doc in docs)
    || (exists k :: k in db.pages && k.doc in docs)
    || (exists k :: k in db.assets && k.doc in docs)
    || (exists d :: d in db.parses && d in docs)
    || (exists c :: c in db.citations && db.citations[c].doc in docs)
  }

  /** Deleting documents leaves no row that refers to them, no receipt of their jobs, and every
      row of every other document, job and citation as it was. */
  lemma DocumentDeletionIsExact(db: Db, ids: set<Id>)
    ensures !Refers(Purge(db, ids, true), ids)
    ensures forall k | k in Purge(db, ids, true).receipts :: k.job !in JobsOf(db.jobs, ids)
    ensures forall d | d in db.docs && d !in ids :: d in Purge(db, ids, true).docs && Purge(db, ids, true).docs[d] == db.docs[d]
    ensures forall c | c in db.citations && db.citations[c].doc !in ids ::
              c in Purge(db, ids, true).citations && Purge(db, ids, true).citations[c] == db.citations[c]
    ensures forall others: set<Id> | others !! ids ::
              && RowsFor(Purge(db, ids, true).chunks, others) == RowsFor(db.chunks, others)
              && RowsFor(Purge(db, ids, true).pages, others) == RowsFor(db.pages, others)
              && RowsFor(Purge(db, ids, true).assets, others) == RowsFor(db.assets, others)
    ensures forall j | j in db.jobs && j !in JobsOf(db.jobs, ids) ::
              j in Purge(db, ids, true).jobs && Purge(db, ids, true).jobs[j] == db.jobs[j]
    ensures forall k | k in db.receipts && k.job !in JobsOf(db.jobs, ids) ::
              k in Purge(db, ids, true).receipts && Purge(db, ids, true).receipts[k] == db.receipts[k]
  {
    NothingRefers(db, ids);
    hide Refers, DropRows;
    forall others: set<Id> | others !! ids
      ensures RowsFor(DropRows(db.chunks, ids), others) == RowsFor(db.chunks, others)
      ensures RowsFor(DropRows(db.pages, ids), others) == RowsFor(db.pages, others)
      ensures RowsFor(DropRows(db.assets, ids), others) == RowsFor(db.assets, others)
    {
      OtherRowsUntouched(db.chunks, ids, others);
      OtherRowsUntouched(db.pages, ids, others);
      OtherRowsUntouched(db.assets, ids, others);
    }
    hide RowsFor;
  }

  lemma NothingRefers(db: Db, ids: set<Id>)
    ensures !Refers(Purge(db, ids, true), ids)
  {}

  // ---------- the deletions, table by table ----------

  /** Rows at most go, and those that stay are unchanged. */
  ghost predicate Fewer<K(!new), V(!new)>(was: map<K, V>, now: map<K, V>) {
    forall k | k in now :: k in was && now[k] == was[k]
  }

  /** Purging documents, row by row: what goes is what hangs on them, receipts through their jobs,
      citations only if asked for. */
  lemma PurgeRows(db: Db, ids: set<Id>, withCitations: bool)
    ensures var now := Purge(db, ids, withCitations);
            && Fewer(db.docs, now.docs) && (forall d | d in db.docs :: d in now.docs <==> d !in ids)
            && Fewer(db.jobs, now.jobs) && (forall j | j in db.jobs :: j in now.jobs <==> db.jobs[j].doc !in ids)
            && Fewer(db.chunks, now.chunks) && (forall k | k in db.chunks :: k in now.chunks <==> k.doc !in ids)
            && Fewer(db.pages, now.pages) && (forall k | k in db.pages :: k in now.pages <==> k.doc !in ids)
            && Fewer(db.assets, now.assets) && (forall k | k in db.assets :: k in now.assets <==> k.doc !in ids)
            && Fewer(db.parses, now.parses) && (forall d | d in db.parses :: d in now.parses <==> d !in ids)
    ensures var now := Purge(db, ids, withCitations);
            && Fewer(db.receipts, now.receipts)
            && (forall k | k in db.receipts ::
                  k in now.receipts <==> !(k.job in db.jobs && db.jobs[k.job].doc in ids))
            && Fewer(db.citations, now.citations)
            && (forall c | c in db.citations :: c in now.citations <==> !withCitations || db.citations[c].doc !in ids)
            && now.kbs == db.kbs && now.audits == db.audits && now.sessions == db.sessions
            && now.messages == db.messages && now.permissions == db.permissions
  {}

  /** Purging a knowledge base, row by row. */
  lemma PurgeKbRows(db: Db, kb: Id)
    ensures var now := PurgeKb(db, kb);
            var ids := set d | d in db.docs && db.docs[d].kb == kb;
            var purged := Purge(db, ids, false);
            && now.docs == purged.docs && now.jobs == purged.jobs && now.receipts == purged.receipts
            && now.pages == purged.pages && now.assets == purged.assets && now.parses == purged.parses
            && now.messages == db.messages && now.audits == db.audits
            && Fewer(db.chunks, now.chunks)
            && (forall k | k in db.chunks :: k in now.chunks <==> k.doc !in ids && db.chunks[k].kb != kb)
    ensures var now := PurgeKb(db, kb);
            && Fewer(db.kbs, now.kbs) && (forall k | k in db.kbs :: k in now.kbs <==> k != kb)
            && Fewer(db.citations, now.citations)
            && (forall c | c in db.citations :: c in now.citations <==> db.citations[c].kb != kb)
            && Fewer(db.permissions, now.permissions)
            && (forall p | p in db.permissions :: p in now.permissions <==> db.permissions[p].kb != kb)
            && now.sessions.Keys == db.sessions.Keys
            && (forall s | s in db.sessions ::
                  now.sessions[s] == if db.sessions[s].kb == Some(kb) then db.sessions[s].(kb := None) else db.sessions[s])
  {
    var ids := set d | d in db.docs && db.docs[d].kb == kb;
    assert ids == DocsOf(db.docs, kb);
    hide DocsOf, DropDocs, DropJobs, DropReceipts, DropParses, JobsOf;
  }

  /** The redundant knowledge-base columns agree with the documents they repeat. */
  ghost predicate KbConsistent(db: Db) {
    && (forall k | k in db.chunks && k.doc in db.docs :: db.chunks[k].kb == db.docs[k.doc].kb)
    && (forall c | c in db.citations && db.citations[c].doc in db.docs ::
          db.citations[c].kb == db.docs[db.citations[c].doc].kb)
  }

  /** Some row of some table still mentions the knowledge base or one of the documents. */
  ghost predicate Mentions(db: Db, kb: Id, docs: set<Id>) {
    || kb in db.kbs
    || (exists d :: d in db.docs && (d in docs || db.docs[d].kb == kb))
    || (exists j :: j in db.jobs && db.jobs[j].doc in docs)
    || (exists k :: k in db.chunks && (k.doc in docs || db.chunks[k].kb == kb))
    || (exists k :: k in db.pages && k.doc in docs)
    || (exists k :: k in db.assets && k.doc in docs)
    || (exists d :: d in db.parses && d in docs)
    || (exists s :: s in db.sessions && db.sessions[s].kb == Some(kb))
    || (exists c :: c in db.citations && (db.citations[c].kb == kb || db.citations[c].doc in docs))
    || (exists p :: p in db.permissions && db.permissions[p].kb == kb)
  }

  /** The rows of one knowledge base. */
  ghost function View(db: Db, kb: Id): Db {
    var docs := DocsOf(db.docs, kb);
    Db(map k | k in db.kbs && k == kb :: db.kbs[k],
       map d | d in db.docs && d in docs :: db.docs[d],
       map j | j in db.jobs && db.jobs[j].doc in docs :: db.jobs[j],
       map k | k in db.receipts && k.job in JobsOf(db.jobs, docs) :: db.receipts[k],
       RowsFor(db.chunks, docs), RowsFor(db.pages, docs), RowsFor(db.assets, docs),
       map d | d in db.parses && d in docs :: db.parses[d],
       db.audits,
       map s | s in db.sessions && db.sessions[s].kb == Some(kb) :: db.sessions[s],
       db.messages,
       map c | c in db.citations && db.citations[c].kb == kb :: db.citations[c],
       map p | p in db.permissions && db.permissions[p].kb == kb :: db.permissions[p])
  }

  ghost function RowsFor<T>(rows: map<RowKey, T>, docs: set<Id>): map<RowKey, T> {
    map k | k in rows && k.doc in docs :: rows[k]
  }

  /** Deleting a knowledge base leaves no row that mentions it or its documents, no receipt
      of their jobs, and touches nothing of any other knowledge base; messages all stay, and
      sessions change only by losing the link. */
  lemma KbDeletionIsExact(db: Db, kb: Id)
    requires KbConsistent(db)
    ensures !Mentions(PurgeKb(db, kb), kb, DocsOf(db.docs, kb))
    ensures forall k | k in PurgeKb(db, kb).receipts :: k.job !in JobsOf(db.jobs, DocsOf(db.docs, kb))
    ensures forall other | other != kb :: View(PurgeKb(db, kb), other) == View(db, other)
    ensures PurgeKb(db, kb).messages == db.messages && PurgeKb(db, kb).audits == db.audits
    ensures PurgeKb(db, kb).sessions.Keys == db.sessions.Keys
    ensures forall s | s in db.sessions ::
              PurgeKb(db, kb).sessions[s] ==
              db.sessions[s].(kb := if db.sessions[s].kb == Some(kb) then None else db.sessions[s].kb)
  {
    NothingMentions(db, kb);
    forall other | other != kb
      ensures View(PurgeKb(db, kb), other) == View(db, other)
    {
      OtherKbUntouched(db, kb, other);
    }
    hide Mentions, View, KbConsistent, DropRows, DropDocs, DropJobs, DropParses;
  }

  lemma NothingMentions(db: Db, kb: Id)
    requires KbConsistent(db)
    ensures !Mentions(PurgeKb(db, kb), kb, DocsOf(db.docs, kb))
  {}

  lemma OtherRowsUntouched<T>(rows: map<RowKey, T>, ids: set<Id>, others: set<Id>)
    requires ids !! others
    ensures RowsFor(DropRows(rows, ids), others) == RowsFor(rows, others)
  {}

  lemma OtherChunksUntouched(db: Db, kb: Id, docs: set<Id>)
    requires KbConsistent(db) && docs <= db.docs.Keys && docs !! DocsOf(db.docs, kb)
    ensures RowsFor(DropKbChunks(DropRows(db.chunks, DocsOf(db.docs, kb)), kb), docs) == RowsFor(db.chunks, docs)
  {}

  lemma OtherJobsUntouched(db: Db, ids: set<Id>, others: set<Id>)
    requires ids !! others
    ensures var jobs := DropJobs(db.jobs, ids); var receipts := DropReceipts(db.receipts, JobsOf(db.jobs, ids));
            && (map j | j in jobs && jobs[j].doc in others :: jobs[j])
               == (map j | j in db.jobs && db.jobs[j].doc in others :: db.jobs[j])
            && (map k | k in receipts && k.job in JobsOf(jobs, others) :: receipts[k])
               == (map k | k in db.receipts && k.job in JobsOf(db.jobs, others) :: db.receipts[k])
  {
    assert JobsOf(DropJobs(db.jobs, ids), others) == JobsOf(db.jobs, others);
    assert JobsOf(db.jobs, others) !! JobsOf(db.jobs, ids);
  }

  lemma OtherLinksUntouched(db: Db, kb: Id, other: Id)
    requires other != kb
    ensures var sessions := UnlinkSessions(db.sessions, kb);
            var citations := DropKbCitations(db.citations, kb);
            var permissions := DropPermissions(db.permissions, kb);
            && (map k | k in db.kbs - {kb} && k == other :: (db.kbs - {kb})[k])
               == (map k | k in db.kbs && k == other :: db.kbs[k])
            && (map s | s in sessions && sessions[s].kb == Some(other) :: sessions[s])
               == (map s | s in db.sessions && db.sessions[s].kb == Some(other) :: db.sessions[s])
            && (map c | c in citations && citations[c].kb == other :: citations[c])
               == (map c | c in db.citations && db.citations[c].kb == other :: db.citations[c])
            && (map p | p in permissions && permissions[p].kb == other :: permissions[p])
               == (map p | p in db.permissions && db.permissions[p].kb == other :: db.permissions[p])
  {}

  lemma OtherDocsUntouched(db: Db, ids: set<Id>, others: set<Id>)
    requires ids !! others
    ensures var docs, parses := DropDocs(db.docs, ids), DropParses(db.parses, ids);
            && (map d | d in docs && d in others :: docs[d]) == (map d | d in db.docs && d in others :: db.docs[d])
            && (map d | d in parses && d in others :: parses[d]) == (map d | d in db.parses && d in others :: db.parses[d])
  {}

  lemma OtherKbUntouched(db: Db, kb: Id, other: Id)
    requires KbConsistent(db) && other != kb
    ensures View(PurgeKb(db, kb), other) == View(db, other)
  {
    var docs, gone := DocsOf(db.docs, other), DocsOf(db.docs, kb);
    assert DocsOf(DropDocs(db.docs, gone), other) == docs;
    assert docs <= db.docs.Keys && docs !! gone;
    hide DocsOf, JobsOf, MarkDeleting, MarkCancelRequested, DropDocs, DropJobs, DropReceipts, DropRows, DropParses,
        DropCitations, UnlinkSessions, DropKbCitations, DropKbChunks, DropPermissions, RowsFor, KbConsistent;
    OtherDocsUntouched(db, gone, docs);
    OtherChunksUntouched(db, kb, docs);
    OtherRowsUntouched(db.pages, gone, docs);
    OtherRowsUntouched(db.assets, gone, docs);
    OtherJobsUntouched(db, gone, docs);
    OtherLinksUntouched(db, kb, other);
  }
}
