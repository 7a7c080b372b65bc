/** Offline pruning of blob payloads against a journal of tombstones.

    A directory operation is not durable until its directory is synced, and a ledger
    statement is not durable until its transaction commits. Every operation that reaches
    the disk leaves a snapshot in `trace`, so a guarantee about the trace is a guarantee
    about a crash between any two operations.
 */
module BlobPrune {

  /** A blob URI, by its rank in the order of the ledger's primary key. */
  type Uri = nat
  type Session = string

  datatype Fingerprint = Fingerprint(dev: int, ino: int, size: int, mtime: int, ctime: int)
  datatype File = File(fp: Fingerprint, regular: bool)
  datatype Row = Row(fp: Fingerprint, pending: bool)
  datatype Candidate = Candidate(uri: Uri, fp: Fingerprint)

  /** What the disk holds: the entries visible now, the removals a crash may still undo,
      and the committed ledger. */
  datatype Disk = Disk(files: map<Uri, File>, unsynced: map<Uri, File>, rows: map<Uri, Row>)

  const BATCH_SIZE := 512

  // ---------------------------------------------------------------- disk histories

  /** Every removal a crash may undo is backed by a pending tombstone for that payload. */
  predicate Safe(d: Disk) {
    forall u :: u in d.unsynced ==>
      u in d.rows && d.rows[u].pending && d.rows[u].fp == d.unsynced[u].fp && u !in d.files
  }

  /** A tombstone is never dropped, never rewritten, and never made pending again. */
  predicate KeepsRows(d: Disk, e: Disk) {
    forall u :: u in d.rows ==>
      u in e.rows && e.rows[u].fp == d.rows[u].fp && (e.rows[u].pending ==> d.rows[u].pending)
  }

  /** A row is settled only when the payload is gone and the removal is durable. */
  predicate SettlesOnlyAbsent(d: Disk, e: Disk) {
    forall u :: u in e.rows && !e.rows[u].pending && (u in d.rows ==> d.rows[u].pending) ==>
      u !in e.files && u !in e.unsynced
  }

  /** A payload is removed only under a committed pending tombstone that carries its exact
      fingerprint, and only when it was last modified before the cutoff. */
  predicate RemovesOnlyJournaled(d: Disk, e: Disk, cutoff: int) {
    && OnlyRemoved(d.files, e.files)
    && (forall u :: u in d.files && u !in e.files ==>
          && u in d.rows && d.rows[u].pending && d.rows[u].fp == d.files[u].fp
          && d.files[u].fp.mtime < cutoff)
  }

  /** Only removals of this step, or older ones, can still be undone. */
  predicate UndoesOnlyRemovals(d: Disk, e: Disk) {
    forall u :: u in e.unsynced ==>
      if u in d.unsynced then e.unsynced[u] == d.unsynced[u]
      else u in d.files && u !in e.files && e.unsynced[u] == d.files[u]
  }

  predicate PruneStep(d: Disk, e: Disk, cutoff: int) {
    KeepsRows(d, e) && SettlesOnlyAbsent(d, e) && RemovesOnlyJournaled(d, e, cutoff) && UndoesOnlyRemovals(d, e)
  }

  /** A crash keeps the committed ledger and may bring back any unsynced removal. */
  predicate Crash(d: Disk, e: Disk) {
    && e.rows == d.rows && e.unsynced == map[]
    && (forall u :: u in d.files ==> u in e.files && e.files[u] == d.files[u])
    && (forall u :: u in e.files && u !in d.files ==> u in d.unsynced && e.files[u] == d.unsynced[u])
  }

  /** Anything outside a prune may create, replace or remove payloads, not touch tombstones. */
  predicate Outside(d: Disk, e: Disk) {
    && e.rows == d.rows
    && (forall u :: u in e.unsynced ==> u in d.unsynced && e.unsynced[u] == d.unsynced[u] && u !in e.files)
  }

  predicate OnlyRemoved(before: map<Uri, File>, after: map<Uri, File>) {
    forall u :: u in after ==> u in before && after[u] == before[u]
  }

  /** What a prune removed carried the fingerprint its row records. */
  predicate RemovedMatching(before: map<Uri, File>, rows: map<Uri, Row>, after: map<Uri, File>) {
    && OnlyRemoved(before, after)
    && forall u :: u in before && u !in after ==>
         u in rows && rows[u].fp == before[u].fp && before[u].regular
  }

  predicate SameTombstones(before: map<Uri, Row>, after: map<Uri, Row>) {
    before.Keys == after.Keys && forall u :: u in before ==> before[u].fp == after[u].fp
  }

  datatype Cause = Pruning(cutoff: int) | Crashing | Elsewhere

  predicate Moves(d: Disk, e: Disk, why: Cause) {
    match why
    case Pruning(cutoff) => PruneStep(d, e, cutoff)
    case Crashing => Crash(d, e)
    case Elsewhere => Outside(d, e)
  }

  predicate History(h: seq<Disk>, why: seq<Cause>) {
    && |h| == |why| + 1 && Safe(h[0])
    && forall i :: 0 <= i < |why| ==> Moves(h[i], h[i + 1], why[i])
  }

  lemma MoveKeepsSafe(d: Disk, e: Disk, why: Cause)
    requires Safe(d) && Moves(d, e, why)
    ensures Safe(e) && KeepsRows(d, e)
  {
  }

  lemma {:induction false} HistoryIsSafe(h: seq<Disk>, why: seq<Cause>, i: nat, j: nat)
    requires History(h, why) && i <= j < |h|
    ensures Safe(h[i]) && Safe(h[j]) && KeepsRows(h[i], h[j])
    decreases i + j
  {
    if j == 0 {
    } else {
      if i < j {
        HistoryIsSafe(h, why, i, j - 1);
        MoveKeepsSafe(h[j - 1], h[j], why[j - 1]);
      } else {
        HistoryIsSafe(h, why, i - 1, j - 1);
        MoveKeepsSafe(h[j - 1], h[j], why[j - 1]);
      }
    }
  }

  /** Through any interleaving of prunes, crashes and other writers: a payload that a prune
      removed was older than that prune's cutoff, and from then on, in every later state,
      the ledger holds a tombstone with that payload's exact fingerprint. */
  lemma RemovedPayloadKeepsItsTombstone(h: seq<Disk>, why: seq<Cause>, i: nat, j: nat, u: Uri)
    requires History(h, why) && i < |why| && i < j < |h|
    requires why[i].Pruning? && u in h[i].files && u !in h[i + 1].files
    ensures u in h[j].rows && h[j].rows[u].fp == h[i].files[u].fp
    ensures h[i].files[u].fp.mtime < why[i].cutoff
  {
    HistoryIsSafe(h, why, i + 1, j);
    MoveKeepsSafe(h[i], h[i + 1], why[i]) by { HistoryIsSafe(h, why, i, i); }
  }

  /** Once a tombstone is settled with the payload gone, no crash and no later prune can
      bring the payload back: only another writer can. */
  lemma {:induction false} SettledStaysGone(h: seq<Disk>, why: seq<Cause>, i: nat, j: nat, u: Uri)
    requires History(h, why) && i <= j < |h|
    requires u in h[i].rows && !h[i].rows[u].pending && u !in h[i].files
    requires forall k :: i <= k < j && why[k].Elsewhere? ==> u !in h[k + 1].files
    ensures u in h[j].rows && !h[j].rows[u].pending && u !in h[j].files
    decreases j - i
  {
    if i >= j {
    } else {
      SettledStaysGone(h, why, i, j - 1, u);
      HistoryIsSafe(h, why, j - 1, j);
      assert Moves(h[j - 1], h[j], why[j - 1]);
    }
  }

  predicate PruneTrace(t: seq<Disk>, cutoff: int) {
    |t| > 0 && Safe(t[0]) && forall i :: 0 <= i < |t| - 1 ==> PruneStep(t[i], t[i + 1], cutoff)
  }

  /** A payload that is gone some way into a prune went under an exact tombstone. */
  lemma {:induction false} GoneUnderTombstone(t: seq<Disk>, cutoff: int, i: nat, u: Uri)
    requires PruneTrace(t, cutoff) && i < |t| && u in t[0].files
    ensures u in t[i].files ==> t[i].files[u] == t[0].files[u]
    ensures u !in t[i].files ==>
              u in t[i].rows && t[i].rows[u].fp == t[0].files[u].fp && t[0].files[u].fp.mtime < cutoff
  {
    if i == 0 {
    } else {
      GoneUnderTombstone(t, cutoff, i - 1, u);
      assert PruneStep(t[i - 1], t[i], cutoff);
    }
  }

  /** Crash a prune after any of its disk operations: the next start finds a safe disk, and
      every payload that is missing has a committed tombstone with its exact fingerprint. */
  lemma CrashAnywhere(t: seq<Disk>, cutoff: int, i: nat, after: Disk, u: Uri)
    requires PruneTrace(t, cutoff) && i < |t| && Crash(t[i], after)
    requires u in t[0].files && u !in after.files
    ensures Safe(after)
    ensures u in after.rows && after.rows[u].fp == t[0].files[u].fp && t[0].files[u].fp.mtime < cutoff
  {
    GoneUnderTombstone(t, cutoff, i, u);
  }

  // ---------------------------------------------------------------- the ledger's pages

  predicate IsSmallest(s: set<Uri>, m: Uri) {
    m in s && forall u :: u in s ==> m <= u
  }

  lemma {:induction false} SmallestExists(s: set<Uri>)
    requires s != {}
    ensures exists m :: IsSmallest(s, m)
    decreases |s|
  {
    var x :| x in s;
    var rest := s - {x};
    if rest == {} {
      assert s == {x};
      assert IsSmallest(s, x);
    } else {
      SmallestExists(rest);
      var m :| IsSmallest(rest, m);
      var least := if m < x then m else x;
      forall u | u in s ensures least <= u {
        assert u == x || u in rest;
      }
      assert IsSmallest(s, least);
    }
  }

  function Smallest(s: set<Uri>): (m: Uri)
    requires s != {}
    ensures IsSmallest(s, m)
  {
    SmallestExists(s);
    var m :| IsSmallest(s, m);
    m
  }

  /** The first `limit` members in key order. */
  function Page(s: set<Uri>, limit: nat): (page: seq<Uri>)
    ensures forall u :: u in page ==> u in s
    ensures page == [] <==> s == {} || limit == 0
    decreases limit
  {
    if s == {} || limit == 0 then []
    else
      var m := Smallest(s);
      [m] + Page(s - {m}, limit - 1)
  }

  /** A page is in order, and skips nothing at or before its last row. */
  lemma {:induction false} PageSkipsNothing(s: set<Uri>, limit: nat, u: Uri)
    requires u in s && limit > 0
    ensures var page := Page(s, limit); u in page || page[|page| - 1] < u
    decreases limit
  {
    var m := Smallest(s);
    if u != m && limit > 1 {
      PageSkipsNothing(s - {m}, limit - 1, u);
    }
  }

  /** What a query for one page returns: some of the set, and nothing before its end skipped. */
  predicate PageOf(s: set<Uri>, page: seq<Uri>) {
    && page != [] && (forall u :: u in page ==> u in s)
    && forall u :: u in s ==> u in page || page[|page| - 1] < u
  }

  function FirstPage(s: set<Uri>): (page: seq<Uri>)
    requires s != {}
    ensures PageOf(s, page) && page[|page| - 1] in s
  {
    var page := Page(s, BATCH_SIZE);
    assert page[|page| - 1] in page;
    assert forall u :: u in s ==> u in page || page[|page| - 1] < u by {
      forall u | u in s ensures u in page || page[|page| - 1] < u { PageSkipsNothing(s, BATCH_SIZE, u); }
    }
    page
  }

  /** The pending rows after `after` that the cutoff covers. */
  function Eligible(rows: map<Uri, Row>, cutoff: int, after: int): set<Uri> {
    set u | u in rows && rows[u].pending && rows[u].fp.mtime < cutoff && u > after
  }

  function KeysAfter(rows: map<Uri, Row>, after: int): set<Uri> {
    set u | u in rows && u > after
  }

  lemma KeysShrink(rows: map<Uri, Row>, after: int, last: Uri)
    requires last in rows && after < last
    ensures KeysAfter(rows, last) < KeysAfter(rows, after)
  {
    assert last in KeysAfter(rows, after) && last !in KeysAfter(rows, last);
  }

  /** The payload cannot be settled now: its directory is missing, or another file is there. */
  predicate StuckAt(home: Uri -> Session, dirs: set<Session>, files: map<Uri, File>, rows: map<Uri, Row>, u: Uri)
    requires u in rows
  {
    home(u) !in dirs || (u in files && (files[u].fp != rows[u].fp || !files[u].regular))
  }

  /** Every row up to `after` that the cutoff covers is settled or stuck. */
  predicate RecoveredUpTo(home: Uri -> Session, dirs: set<Session>, files: map<Uri, File>, rows: map<Uri, Row>,
                          cutoff: int, after: int) {
    forall u :: u in rows && rows[u].pending && rows[u].fp.mtime < cutoff && u <= after ==>
      StuckAt(home, dirs, files, rows, u)
  }

  lemma PageRecovered(home: Uri -> Session, dirs: set<Session>, files: map<Uri, File>, rows: map<Uri, Row>,
                      files': map<Uri, File>, rows': map<Uri, Row>, cutoff: int, after: int, page: seq<Uri>)
    requires PageOf(Eligible(rows, cutoff, after), page) && RecoveredUpTo(home, dirs, files, rows, cutoff, after)
    requires RemovedMatching(files, rows, files') && SameTombstones(rows, rows')
    requires forall u :: u in rows && rows'[u].pending ==> rows[u].pending
    requires forall u :: u in page && u in rows' && rows'[u].pending ==> StuckAt(home, dirs, files', rows', u)
    ensures RecoveredUpTo(home, dirs, files', rows', cutoff, page[|page| - 1])
  {
    forall u | u in rows' && rows'[u].pending && rows'[u].fp.mtime < cutoff && u <= page[|page| - 1]
      ensures StuckAt(home, dirs, files', rows', u)
    {
      if u > after {
        assert u in Eligible(rows, cutoff, after);
      } else {
        assert StuckAt(home, dirs, files, rows, u);
      }
    }
  }

  lemma RecoveredAll(home: Uri -> Session, dirs: set<Session>, files: map<Uri, File>, rows: map<Uri, Row>,
                     cutoff: int, after: int)
    requires Eligible(rows, cutoff, after) == {}
    ensures RecoveredUpTo(home, dirs, files, rows, cutoff, after) ==>
              forall u :: u in rows && rows[u].pending && rows[u].fp.mtime < cutoff ==>
                StuckAt(home, dirs, files, rows, u)
  {
    assert forall u :: u in rows && rows[u].pending && rows[u].fp.mtime < cutoff && u > after ==>
        u in Eligible(rows, cutoff, after);
  }

  /** A journaled item has been taken as far as it can go. */
  predicate DealtAt(home: Uri -> Session, dirs: set<Session>, files: map<Uri, File>, rows: map<Uri, Row>,
                    item: Candidate) {
    item.uri in rows && rows[item.uri] == Row(item.fp, true) ==> StuckAt(home, dirs, files, rows, item.uri)
  }

  /** What one unlink may do to the payloads and to the transaction's rows: nothing, or
      remove this payload, if it is there unchanged, and settle its row or leave it pending. */
  predicate Unlinked(item: Candidate, files: map<Uri, File>, rows: map<Uri, Row>,
                     files': map<Uri, File>, rows': map<Uri, Row>) {
    || (files' == files && rows' == rows)
    || (&& item.uri in rows && rows[item.uri] == Row(item.fp, true)
        && (item.uri in files ==> files[item.uri] == File(item.fp, true))
        && files' == files - {item.uri} && (rows' == rows || rows' == rows[item.uri := Row(item.fp, false)]))
  }

  lemma UnlinkedKeepsDealt(home: Uri -> Session, dirs: set<Session>, item: Candidate, files: map<Uri, File>,
                           rows: map<Uri, Row>, files': map<Uri, File>, rows': map<Uri, Row>, done: seq<Candidate>)
    requires Unlinked(item, files, rows, files', rows')
    requires forall k :: 0 <= k < |done| ==> DealtAt(home, dirs, files, rows, done[k])
    ensures forall k :: 0 <= k < |done| ==> DealtAt(home, dirs, files', rows', done[k])
  {
  }

  lemma UnlinkedChains(item: Candidate, files: map<Uri, File>, rows: map<Uri, Row>, files1: map<Uri, File>,
                       rows1: map<Uri, Row>, files2: map<Uri, File>, rows2: map<Uri, Row>)
    requires RemovedMatching(files, rows, files1) && SameTombstones(rows, rows1)
    requires Unlinked(item, files1, rows1, files2, rows2)
    ensures RemovedMatching(files, rows, files2) && SameTombstones(rows, rows2)
  {
  }

  /** Nothing of the item is left that may be removed now. */
  predicate PrunedAt(home: Uri -> Session, dirs: set<Session>, files: map<Uri, File>, before: map<Uri, Row>,
                     item: Candidate) {
    item.uri in files && home(item.uri) in dirs ==> item.uri in before || files[item.uri] != File(item.fp, true)
  }

  /** If the payload is still there, it is too new, not a plain file, out of reach, or it was
      restored under a tombstone from before. */
  predicate ClearedAt(home: Uri -> Session, dirs: set<Session>, files: map<Uri, File>, cutoff: int,
                      before: map<Uri, Row>, u: Uri) {
    u in files && home(u) in dirs && files[u].regular ==> files[u].fp.mtime >= cutoff || u in before
  }

  /** The items still describe the files that are there. */
  predicate Scanned(files: map<Uri, File>, cutoff: int, batch: seq<Candidate>) {
    forall i :: 0 <= i < |batch| ==>
      batch[i].fp.mtime < cutoff && (batch[i].uri in files ==> files[batch[i].uri].fp == batch[i].fp)
  }

  predicate NewRowsCleared(home: Uri -> Session, dirs: set<Session>, files: map<Uri, File>, cutoff: int,
                           before: map<Uri, Row>, rows: map<Uri, Row>) {
    forall u :: u in rows && u !in before ==> ClearedAt(home, dirs, files, cutoff, before, u)
  }

  lemma FlushClears(home: Uri -> Session, dirs: set<Session>, files: map<Uri, File>, files': map<Uri, File>,
                    cutoff: int, before: map<Uri, Row>, rows: map<Uri, Row>, rows': map<Uri, Row>,
                    batch: seq<Candidate>)
    requires Scanned(files, cutoff, batch) && OnlyRemoved(files, files')
    requires NewRowsCleared(home, dirs, files, cutoff, before, rows)
    requires forall i :: 0 <= i < |batch| ==> PrunedAt(home, dirs, files', rows, batch[i])
    requires forall u :: u in rows' && u !in rows ==> Candidate(u, rows'[u].fp) in batch
    ensures forall i :: 0 <= i < |batch| ==> ClearedAt(home, dirs, files', cutoff, before, batch[i].uri)
    ensures NewRowsCleared(home, dirs, files', cutoff, before, rows')
  {
    forall i | 0 <= i < |batch| ensures ClearedAt(home, dirs, files', cutoff, before, batch[i].uri) {
      assert PrunedAt(home, dirs, files', rows, batch[i]);
      if batch[i].uri in rows && batch[i].uri !in before {
        assert ClearedAt(home, dirs, files, cutoff, before, batch[i].uri);
      }
    }
    forall u | u in rows' && u !in before ensures ClearedAt(home, dirs, files', cutoff, before, u) {
      if u in rows {
        assert ClearedAt(home, dirs, files, cutoff, before, u);
      } else {
        var i :| 0 <= i < |batch| && batch[i] == Candidate(u, rows'[u].fp);
      }
    }
  }

  // ---------------------------------------------------------------- the open transaction

  /** The transaction keeps every committed row, only ever turning pending into settled. */
  predicate DraftKeeps(d: Disk, draft: map<Uri, Row>) {
    forall u :: u in d.rows ==>
      u in draft && draft[u].fp == d.rows[u].fp && (draft[u].pending ==> d.rows[u].pending)
  }

  predicate NewlySettled(d: Disk, draft: map<Uri, Row>, u: Uri) {
    u in draft && !draft[u].pending && (u in d.rows ==> d.rows[u].pending)
  }

  /** A row the transaction settles has no payload, and the removal is durable or lies in a
      directory still to be synced. */
  ghost predicate DraftSettles(home: Uri -> Session, d: Disk, draft: map<Uri, Row>, dirty: set<Session>) {
    forall u :: NewlySettled(d, draft, u) ==>
      u in d.rows && u !in d.files && (u in d.unsynced ==> home(u) in dirty)
  }

  ghost predicate DraftOk(home: Uri -> Session, d: Disk, draft: map<Uri, Row>, dirty: set<Session>) {
    DraftKeeps(d, draft) && DraftSettles(home, d, draft, dirty)
  }

  function Removed(d: Disk, u: Uri): Disk
    requires u in d.files
  {
    d.(files := d.files - {u}, unsynced := d.unsynced[u := d.files[u]])
  }

  function Synced(home: Uri -> Session, d: Disk, s: Session): Disk {
    d.(unsynced := map u | u in d.unsynced && home(u) != s :: d.unsynced[u])
  }

  lemma RemovalIsStep(home: Uri -> Session, d: Disk, draft: map<Uri, Row>, dirty: set<Session>, u: Uri, cutoff: int)
    requires Safe(d) && DraftOk(home, d, draft, dirty)
    requires u in d.files && u in d.rows && u in draft && draft[u].pending
    requires draft[u].fp == d.files[u].fp && d.files[u].fp.mtime < cutoff
    ensures Safe(Removed(d, u)) && PruneStep(d, Removed(d, u), cutoff)
    ensures DraftOk(home, Removed(d, u), draft, dirty + {home(u)})
  {
    var e := Removed(d, u);
    assert !NewlySettled(d, draft, u);
    forall v | NewlySettled(e, draft, v)
      ensures v in e.rows && v !in e.files && (v in e.unsynced ==> home(v) in dirty + {home(u)})
    {
      assert NewlySettled(d, draft, v);
    }
  }

  lemma SettlingKeepsDraft(home: Uri -> Session, d: Disk, draft: map<Uri, Row>, dirty: set<Session>, u: Uri)
    requires DraftOk(home, d, draft, dirty) && u in d.rows && u in draft && u !in d.files && home(u) in dirty
    ensures DraftOk(home, d, draft[u := draft[u].(pending := false)], dirty)
  {
    var after := draft[u := draft[u].(pending := false)];
    forall v | NewlySettled(d, after, v)
      ensures v in d.rows && v !in d.files && (v in d.unsynced ==> home(v) in dirty)
    {
      if v != u {
        assert NewlySettled(d, draft, v);
      }
    }
  }

  lemma SyncIsStep(home: Uri -> Session, d: Disk, draft: map<Uri, Row>, dirty: set<Session>, s: Session, cutoff: int)
    requires Safe(d) && DraftOk(home, d, draft, dirty)
    ensures Safe(Synced(home, d, s)) && PruneStep(d, Synced(home, d, s), cutoff)
    ensures DraftOk(home, Synced(home, d, s), draft, dirty - {s})
  {
    var e := Synced(home, d, s);
    forall v | NewlySettled(e, draft, v)
      ensures v in e.rows && v !in e.files && (v in e.unsynced ==> home(v) in dirty - {s})
    {
      assert NewlySettled(d, draft, v);
    }
  }

  lemma CommitIsStep(home: Uri -> Session, d: Disk, draft: map<Uri, Row>, cutoff: int)
    requires Safe(d) && DraftOk(home, d, draft, {})
    ensures Safe(d.(rows := draft)) && PruneStep(d, d.(rows := draft), cutoff)
    ensures DraftOk(home, d.(rows := draft), draft, {})
  {
    var e := d.(rows := draft);
    forall u | u in e.unsynced
      ensures u in e.rows && e.rows[u].pending && e.rows[u].fp == e.unsynced[u].fp && u !in e.files
    {
      assert !NewlySettled(d, draft, u);
    }
    forall u | u in e.rows && !e.rows[u].pending && (u in d.rows ==> d.rows[u].pending)
      ensures u !in e.files && u !in e.unsynced
    {
      assert NewlySettled(d, draft, u);
    }
  }

  // ---------------------------------------------------------------- the prune

  class Prune {
    const home: Uri -> Session
    const dirs: set<Session>
    const cutoff: int

    var files: map<Uri, File>
    var unsynced: map<Uri, File>
    var rows: map<Uri, Row>
    /** The rows as the open transaction sees them. */
    var draft: map<Uri, Row>
    var deleted: nat
    var changed: nat
    var skipped: nat
    var retained: nat
    var errors: nat
    ghost var trace: seq<Disk>

    constructor (home: Uri -> Session, dirs: set<Session>, cutoff: int, disk: Disk)
      requires Safe(disk)
      ensures Valid({}) && Now() == disk && trace == [disk]
      ensures this.home == home && this.dirs == dirs && this.cutoff == cutoff
      ensures errors == 0
    {
      this.home, this.dirs, this.cutoff := home, dirs, cutoff;
      files, unsynced, rows, draft := disk.files, disk.unsynced, disk.rows, disk.rows;
      deleted, changed, skipped, retained, errors := 0, 0, 0, 0, 0;
      trace := [disk];
    }

    ghost function Now(): Disk
      reads this
    {
      Disk(files, unsynced, rows)
    }

    ghost predicate Chained()
      reads this
    {
      |trace| > 0 && forall i :: 0 <= i < |trace| - 1 ==> PruneStep(trace[i], trace[i + 1], cutoff)
    }

    ghost predicate Traced()
      reads this
    {
      Chained() && trace[|trace| - 1] == Now()
    }

    /** Between statements every row the transaction sees is committed, if not as it sees it. */
    ghost predicate Valid(dirty: set<Session>)
      reads this
    {
      Safe(Now()) && DraftOk(home, Now(), draft, dirty) && Traced() && draft.Keys == rows.Keys
    }

    /** Add the present state to the trace. */
    ghost method Record()
      requires Chained() && PruneStep(trace[|trace| - 1], Now(), cutoff)
      modifies this`trace
      ensures trace == old(trace) + [Now()] && Traced()
    {
      trace := trace + [Now()];
    }

    predicate Stuck(u: Uri)
      requires u in draft
      reads this
    {
      StuckAt(home, dirs, files, draft, u)
    }

    predicate AllDealt(items: seq<Candidate>)
      reads this
    {
      forall i :: 0 <= i < |items| ==> DealtAt(home, dirs, files, draft, items[i])
    }

    /** Take one directory entry away. */
    method RemoveEntry(u: Uri, dirty: set<Session>)
      requires Valid(dirty) && u in files && u in draft && draft[u].pending
      requires draft[u].fp == files[u].fp && files[u].fp.mtime < cutoff
      modifies this`files, this`unsynced, this`trace
      ensures Valid(dirty + {home(u)}) && trace == old(trace) + [Now()]
      ensures files == old(files) - {u}
    {
      RemovalIsStep(home, Now(), draft, dirty, u, cutoff);
      files, unsynced := files - {u}, unsynced[u := files[u]];
      Record();
    }

    /** Mark one row settled in the open transaction. */
    method Settle(u: Uri, dirty: set<Session>)
      requires Valid(dirty) && u in draft && u !in files && home(u) in dirty
      modifies this`draft
      ensures Valid(dirty) && draft == old(draft)[u := Row(old(draft)[u].fp, false)]
    {
      SettlingKeepsDraft(home, Now(), draft, dirty, u);
      draft := draft[u := draft[u].(pending := false)];
    }

    /** The checks on entering or leaving a payload directory, or any call to the file
        system: an error is counted and the batch goes on, a replaced root, ledger or
        directory ends the run. */
    method Check() returns (passed: bool, ok: bool)
      modifies this`errors
      ensures errors >= old(errors) && (ok && errors == old(errors) ==> passed) && (passed ==> ok)
    {
      if * {
        return true, true;
      }
      if * {
        return false, false;
      }
      errors := errors + 1;
      return false, true;
    }

    /** The directory is open and the payload, if it is there, is the one on record: pin the
        directory, remove the payload, and settle its row. The checks on leaving may still
        fail: then the payload is gone and its row stays pending. */
    method RemoveAndSettle(item: Candidate, dirty: set<Session>) returns (ok: bool, pinned: set<Session>)
      requires Valid(dirty) && item.fp.mtime < cutoff
      requires item.uri in draft && draft[item.uri] == Row(item.fp, true)
      requires item.uri in files ==> files[item.uri] == File(item.fp, true)
      modifies this`files, this`unsynced, this`draft, this`trace, this`deleted, this`errors
      ensures Valid(pinned) && dirty <= pinned
      ensures old(trace) <= trace && errors >= old(errors)
      ensures files == old(files) || files == old(files) - {item.uri}
      ensures draft == old(draft) || (item.uri !in files && draft == old(draft)[item.uri := Row(item.fp, false)])
      ensures ok && errors == old(errors) ==> draft != old(draft)
    {
      pinned := dirty + {home(item.uri)};
      var passed;
      if item.uri in files {
        passed, ok := Check();
        if !passed {
          return;
        }
        RemoveEntry(item.uri, dirty);
        deleted := deleted + 1;
      }
      passed, ok := Check();
      if !passed {
        return;
      }
      Settle(item.uri, pinned);
    }

    /** Remove one payload, or note that it is already gone, and settle its row in the open
        transaction. Nothing else is touched, and no committed row changes. */
    method Unlink(item: Candidate, dirty: set<Session>) returns (ok: bool, pinned: set<Session>)
      requires Valid(dirty) && item.fp.mtime < cutoff
      modifies this`files, this`unsynced, this`draft, this`trace, this`deleted, this`changed, this`errors
      ensures Valid(pinned) && dirty <= pinned
      ensures old(trace) <= trace && errors >= old(errors)
      ensures Unlinked(item, old(files), old(draft), files, draft)
      ensures ok && errors == old(errors) ==> DealtAt(home, dirs, files, draft, item)
    {
      ok, pinned := true, dirty;
      var u := item.uri;
      if u !in draft || draft[u] != Row(item.fp, true) {
        changed := changed + 1;
        return;
      }
      if home(u) !in dirs {
        return;
      }
      var passed;
      passed, ok := Check();
      if !passed {
        return;
      }
      if u in files && (files[u].fp != item.fp || !files[u].regular) {
        changed := changed + 1;
        passed, ok := Check();
        return;
      }
      ok, pinned := RemoveAndSettle(item, dirty);
    }

    /** Sync every pinned directory, going on after a failure. Success means that no removal
        in those directories can be undone any more. */
    method SyncDirs(dirty: set<Session>) returns (ok: bool)
      requires Valid(dirty)
      modifies this`unsynced, this`trace
      ensures Valid(dirty) && old(trace) <= trace
      ensures ok ==> Valid({})
    {
      ok := true;
      var left := dirty;
      while left != {}
        invariant left <= dirty
        invariant Valid(dirty) && old(trace) <= trace
        invariant ok ==> Valid(left)
        decreases |left|
      {
        var s :| s in left;
        if * {
          ok := false;
        } else {
          SyncIsStep(home, Now(), draft, dirty, s, cutoff);
          SyncIsStep(home, Now(), draft, if ok then left else dirty, s, cutoff);
          unsynced := Synced(home, Disk(files, unsynced, rows), s).unsynced;
          Record();
        }
        left := left - {s};
      }
    }

    /** Commit the transaction. On failure the connection closes; the transaction may or may
        not have reached the disk, and what had not is rolled back. */
    method Commit() returns (ok: bool)
      requires Safe(Now()) && DraftOk(home, Now(), draft, {}) && Traced()
      modifies this`rows, this`draft, this`trace
      ensures Valid({}) && draft == rows && old(trace) <= trace
      ensures rows == old(draft) || (!ok && rows == old(rows))
    {
      if * {
        draft := rows;
        return false;
      }
      CommitIsStep(home, Now(), draft, cutoff);
      rows := draft;
      Record();
      if * {
        return false;
      }
      return true;
    }

    /** Insert a pending row for every item that has none, and commit before returning. */
    method Journal(items: seq<Candidate>) returns (ok: bool)
      requires Valid({})
      modifies this`rows, this`draft, this`trace
      ensures Valid({}) && draft == rows && old(trace) <= trace
      ensures KeepsRows(old(Now()), Now())
      ensures ok ==> forall i :: 0 <= i < |items| ==> items[i].uri in rows
      ensures forall u :: u in rows && u !in old(rows) ==> rows[u].pending
      ensures forall u :: u in rows && u !in old(rows) ==> Candidate(u, rows[u].fp) in items
    {
      for i := 0 to |items|
        invariant rows == old(rows) && trace == old(trace)
        invariant forall u :: u in old(draft) ==> u in draft && draft[u] == old(draft)[u]
        invariant forall k :: 0 <= k < i ==> items[k].uri in draft
        invariant forall u :: u in draft && u !in old(draft) ==> draft[u].pending && Candidate(u, draft[u].fp) in items
      {
        if items[i].uri !in draft {
          assert Candidate(items[i].uri, items[i].fp) == items[i];
          draft := draft[items[i].uri := Row(items[i].fp, true)];
        }
      }
      ok := Commit();
    }

    /** Unlink the items one by one, collecting the directories to sync. */
    method UnlinkAll(items: seq<Candidate>) returns (ok: bool, pinned: set<Session>)
      requires Valid({}) && forall i :: 0 <= i < |items| ==> items[i].fp.mtime < cutoff
      modifies this`files, this`unsynced, this`draft, this`trace, this`deleted, this`changed, this`errors
      ensures Valid(pinned) && old(trace) <= trace && errors >= old(errors)
      ensures RemovedMatching(old(files), old(draft), files)
      ensures ok && errors == old(errors) ==> AllDealt(items)
    {
      ok, pinned := true, {};
      for i := 0 to |items|
        invariant Valid(pinned) && old(trace) <= trace && errors >= old(errors)
        invariant RemovedMatching(old(files), old(draft), files) && SameTombstones(old(draft), draft)
        invariant errors == old(errors) ==> AllDealt(items[..i])
      {
        ghost var f, d := files, draft;
        ok, pinned := Unlink(items[i], pinned);
        UnlinkedChains(items[i], old(files), old(draft), f, d, files, draft);
        if !ok {
          return;
        }
        UnlinkedKeepsDealt(home, dirs, items[i], f, d, files, draft, if errors == old(errors) then items[..i] else []);
        assert items[..i + 1] == items[..i] + [items[i]];
      }
      assert items[..|items|] == items;
    }

    /** Unlink a batch of journaled items, sync their directories, and only then commit. The
        directories are synced even when the run has to end, which commits nothing. */
    method FinishBatch(items: seq<Candidate>) returns (ok: bool)
      requires Valid({}) && forall i :: 0 <= i < |items| ==> items[i].fp.mtime < cutoff
      modifies this`files, this`unsynced, this`rows, this`draft, this`trace, this`deleted, this`changed, this`errors
      ensures Valid({}) && draft == rows && old(trace) <= trace && errors >= old(errors)
      ensures RemovedMatching(old(files), old(draft), files) && KeepsRows(old(Now()), Now())
      ensures rows.Keys == old(rows).Keys
      ensures ok && errors == old(errors) ==> AllDealt(items)
      ensures SettlesOnlyAbsent(old(Now()), Now())
    {
      var done, pinned := UnlinkAll(items);
      ok := SyncDirs(pinned);
      if !done || !ok {
        ok := false;
        draft := rows;
        return;
      }
      assert forall u :: NewlySettled(Now(), draft, u) ==> u !in files && u !in unsynced;
      ok := Commit();
    }

    /** One page of recovery. */
    method RecoverPage(ghost after: int, page: seq<Uri>) returns (ok: bool)
      requires Valid({}) && draft == rows
      requires PageOf(Eligible(draft, cutoff, after), page)
      modifies this`files, this`unsynced, this`rows, this`draft, this`trace, this`deleted, this`changed, this`errors
      ensures Valid({}) && draft == rows && old(trace) <= trace && errors >= old(errors)
      ensures OnlyRemoved(old(files), files) && SameTombstones(old(rows), rows)
      ensures ok && errors == old(errors) && old(RecoveredUpTo(home, dirs, files, rows, cutoff, after)) ==>
                RecoveredUpTo(home, dirs, files, rows, cutoff, page[|page| - 1])
    {
      var found := draft;
      assert forall i :: 0 <= i < |page| ==> page[i] in page;
      var items := seq(|page|, i requires 0 <= i < |page| => Candidate(page[i], found[page[i]].fp));
      ok := FinishBatch(items);
      if ok && errors == old(errors) && old(RecoveredUpTo(home, dirs, files, rows, cutoff, after)) {
        forall u | u in page ensures u in rows && rows[u].pending ==> StuckAt(home, dirs, files, rows, u) {
          var i :| 0 <= i < |page| && page[i] == u;
          assert DealtAt(home, dirs, files, draft, items[i]);
        }
        PageRecovered(home, dirs, old(files), old(rows), files, rows, cutoff, after, page);
      }
    }

    /** Take up what an earlier run left pending, page by page in key order. */
    method Recover() returns (ok: bool)
      requires Valid({}) && draft == rows
      modifies this`files, this`unsynced, this`rows, this`draft, this`trace, this`deleted, this`changed, this`errors
      ensures Valid({}) && draft == rows && old(trace) <= trace && errors >= old(errors)
      ensures OnlyRemoved(old(files), files) && SameTombstones(old(rows), rows)
      ensures ok && errors == old(errors) ==>
                forall u :: u in rows && rows[u].pending && rows[u].fp.mtime < cutoff ==> Stuck(u)
    {
      var after: int := -1;
      ok := true;
      while Eligible(draft, cutoff, after) != {}
        invariant Valid({}) && draft == rows && old(trace) <= trace && errors >= old(errors)
        invariant OnlyRemoved(old(files), files) && SameTombstones(old(rows), rows)
        invariant ok && (errors == old(errors) ==> RecoveredUpTo(home, dirs, files, rows, cutoff, after))
        decreases KeysAfter(rows, after)
      {
        var page := FirstPage(Eligible(draft, cutoff, after));
        KeysShrink(rows, after, page[|page| - 1]);
        ok := RecoverPage(after, page);
        if !ok {
          return;
        }
        after := page[|page| - 1];
      }
      RecoveredAll(home, dirs, files, rows, cutoff, after);
    }

    /** Journal and remove what still matches the scan; leave every URI that already has a
        tombstone alone. */
    method Flush(batch: seq<Candidate>) returns (ok: bool)
      requires Valid({}) && draft == rows
      requires forall i :: 0 <= i < |batch| ==> batch[i].fp.mtime < cutoff
      modifies this
      ensures Valid({}) && draft == rows && old(trace) <= trace && errors >= old(errors)
      ensures OnlyRemoved(old(files), files)
      ensures forall u :: u in rows && u !in old(rows) ==> Candidate(u, rows[u].fp) in batch
      ensures ok && errors == old(errors) ==> forall i :: 0 <= i < |batch| ==> PrunedAt(home, dirs, files, old(rows), batch[i])
    {
      var ready: seq<Candidate> := [];
      for i := 0 to |batch|
        invariant files == old(files) && unsynced == old(unsynced) && rows == old(rows) && draft == rows
        invariant trace == old(trace) && errors == old(errors)
        invariant forall k :: 0 <= k < |ready| ==>
                    && ready[k] in batch && ready[k].uri !in rows
                    && ready[k].uri in files && files[ready[k].uri] == File(ready[k].fp, true)
        invariant forall k :: 0 <= k < i ==> batch[k] in ready || PrunedAt(home, dirs, files, rows, batch[k])
      {
        if batch[i].uri in draft {
          skipped := skipped + 1;
        } else {
          if * {
            return false;
          }
          if home(batch[i].uri) in dirs && batch[i].uri in files && files[batch[i].uri] == File(batch[i].fp, true) {
            ready := ready + [batch[i]];
          } else {
            changed := changed + 1;
          }
        }
      }
      ok := Journal(ready);
      if !ok {
        return;
      }
      ok := FinishBatch(ready);
    }

    /** Without errors the entries scanned so far are cleared or wait in the batch. */
    ghost predicate Swept(before: map<Uri, Row>, seen: seq<Uri>, batch: seq<Candidate>)
      reads this
    {
      && NewRowsCleared(home, dirs, files, cutoff, before, rows)
      && forall k :: 0 <= k < |seen| ==>
           ClearedAt(home, dirs, files, cutoff, before, seen[k]) ||
           exists i :: 0 <= i < |batch| && batch[i].uri == seen[k]
    }

    /** Look at one directory entry. */
    method Scan(ghost before: map<Uri, Row>, ghost seen: seq<Uri>, u: Uri, batch: seq<Candidate>)
      returns (grown: seq<Candidate>)
      requires Scanned(files, cutoff, batch)
      modifies this`skipped, this`retained, this`errors
      ensures Scanned(files, cutoff, grown) && errors >= old(errors) && |grown| <= |batch| + 1
      ensures errors == old(errors) && old(Swept(before, seen, batch)) ==> Swept(before, seen + [u], grown)
    {
      grown := batch;
      if * {
        errors := errors + 1;
      } else if u !in files || home(u) !in dirs || !files[u].regular {
        skipped := skipped + 1;
      } else if files[u].fp.mtime >= cutoff {
        retained := retained + 1;
      } else {
        grown := batch + [Candidate(u, files[u].fp)];
        assert grown[|batch|].uri == u;
        assert forall i :: 0 <= i < |batch| ==> grown[i] == batch[i];
      }
    }

    /** Flush the batch; without errors everything seen so far is cleared. */
    method Sweep(ghost before: map<Uri, Row>, ghost seen: seq<Uri>, batch: seq<Candidate>) returns (ok: bool)
      requires Valid({}) && draft == rows && Scanned(files, cutoff, batch)
      modifies this
      ensures Valid({}) && draft == rows && old(trace) <= trace && OnlyRemoved(old(files), files)
      ensures errors >= old(errors)
      ensures ok && errors == old(errors) && old(Swept(before, seen, batch)) ==> Swept(before, seen, [])
    {
      ok := Flush(batch);
      if ok && errors == old(errors) && old(Swept(before, seen, batch)) {
        FlushClears(home, dirs, old(files), files, cutoff, before, old(rows), rows, batch);
      }
    }

    /** One confirmed offline prune over a directory listing: finish earlier work, then scan,
        and journal and remove in batches. Without errors, every listed regular payload older
        than the cutoff is gone, unless an earlier tombstone protects a restored payload. */
    method Apply(listing: seq<Uri>) returns (ok: bool)
      requires Valid({}) && draft == rows
      modifies this
      ensures Valid({}) && draft == rows && old(trace) <= trace && OnlyRemoved(old(files), files)
      ensures ok && errors == old(errors) ==>
                forall i :: 0 <= i < |listing| ==> ClearedAt(home, dirs, files, cutoff, old(rows), listing[i])
    {
      ok := Recover();
      if !ok {
        return;
      }
      var batch: seq<Candidate> := [];
      for i := 0 to |listing|
        invariant Valid({}) && draft == rows && old(trace) <= trace && OnlyRemoved(old(files), files)
        invariant ok && errors >= old(errors) && Scanned(files, cutoff, batch)
        invariant errors == old(errors) ==> Swept(old(rows), listing[..i], batch)
      {
        batch := Scan(old(rows), listing[..i], listing[i], batch);
        assert listing[..i + 1] == listing[..i] + [listing[i]];
        if |batch| == BATCH_SIZE {
          ok := Sweep(old(rows), listing[..i + 1], batch);
          if !ok {
            return;
          }
          batch := [];
        }
      }
      assert listing[..|listing|] == listing;
      if batch != [] {
        ok := Sweep(old(rows), listing, batch);
      }
    }

    /** One online batch. A batch that is too long, or holds a candidate at or past the
        cutoff, is refused before anything is journaled or removed. */
    method ApplyBatch(items: seq<Candidate>, recovery: bool) returns (ok: bool)
      requires Valid({}) && draft == rows
      modifies this
      ensures Valid({}) && draft == rows && old(trace) <= trace && OnlyRemoved(old(files), files)
      ensures |items| > 64 || (exists i :: 0 <= i < |items| && items[i].fp.mtime >= cutoff) ==>
                !ok && Now() == old(Now()) && trace == old(trace)
      ensures recovery ==> rows.Keys == old(rows).Keys
      ensures recovery && ok && errors == old(errors) ==> AllDealt(items)
      ensures !recovery && ok && errors == old(errors) ==>
                forall i :: 0 <= i < |items| ==> PrunedAt(home, dirs, files, old(rows), items[i])
    {
      if |items| > 64 || exists i :: 0 <= i < |items| && items[i].fp.mtime >= cutoff {
        return false;
      }
      if recovery {
        ok := FinishBatch(items);
      } else {
        ok := Flush(items);
      }
    }
  }
}
