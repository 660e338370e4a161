/** A document's history: the fields of its versions 1, 2, ... up to the current one, and what
    the version operations do to it. */
module VersionHistory {
  import opened Options
  import opened Records
  import opened Store
  import opened StoreIntegrity

  /** The fields that version `k` was given. */
  ghost function FieldsAt(db: Db, d: Id, k: int): Fields
    requires d in db.documents && VersionsOf(db, d) && 1 <= k <= db.documents[d].currentVersion
  {
    if k == db.documents[d].currentVersion then db.documents[d].fields
    else
      assert HasSnapshot(db.versions, d, k);
      var v :| IsSnapshot(db.versions, v, d, k);
      db.versions[v].fields
  }

  ghost function History(db: Db, d: Id): seq<Fields>
    requires d in db.documents && VersionsOf(db, d)
  {
    seq(db.documents[d].currentVersion, i requires 0 <= i < db.documents[d].currentVersion => FieldsAt(db, d, i + 1))
  }

  lemma SnapshotFields(db: Db, d: Id, v: Id)
    requires d in db.documents && VersionsOf(db, d)
    requires v in db.versions && db.versions[v].documentId == d
    ensures FieldsAt(db, d, db.versions[v].versionNumber) == db.versions[v].fields
  {
  }

  lemma UpsertIs(db: Db, d: Id, doc: ParsedDocument, uploadedBy: Option<string>)
    requires UpsertVersion(db, d, doc, uploadedBy).Some?
    ensures d in db.documents && PathFree(db.documents, d, doc.sourcePath)
    ensures UpsertVersion(db, d, doc, uploadedBy).value
            == WithSnapshot(db, d, Document(NewFields(doc, uploadedBy), doc.labels, db.documents[d].currentVersion + 1,
                                            db.documents[d].workspaceId))
  {
  }

  lemma OldFieldsStay(db: Db, after: Db, d: Id, k: int)
    requires d in db.documents && VersionsOf(db, d) && d in after.documents && VersionsOf(after, d)
    requires 1 <= k < db.documents[d].currentVersion && k <= after.documents[d].currentVersion
    requires forall v | IsSnapshot(db.versions, v, d, k) ::
               if k < after.documents[d].currentVersion then v in after.versions && after.versions[v] == db.versions[v]
               else after.documents[d].fields == db.versions[v].fields
    ensures FieldsAt(after, d, k) == FieldsAt(db, d, k)
  {
    assert HasSnapshot(db.versions, d, k);
    var v :| IsSnapshot(db.versions, v, d, k);
    SnapshotFields(db, d, v);
    if k < after.documents[d].currentVersion { SnapshotFields(after, d, v); }
  }

  lemma HistoryAppends(db: Db, after: Db, d: Id, v: Id)
    requires d in db.documents && VersionsOf(db, d) && d in after.documents && VersionsOf(after, d)
    requires after.documents[d].currentVersion == db.documents[d].currentVersion + 1
    requires v !in db.versions
    requires after.versions == db.versions[v := VersionRow(d, db.documents[d].currentVersion, db.documents[d].fields)]
    ensures History(after, d) == History(db, d) + [after.documents[d].fields]
  {
    hide VersionsOf, HasSnapshot;
    var n := db.documents[d].currentVersion;
    CurrentAtLeastOne(db, d);
    SnapshotFields(after, d, v);
    forall i | 0 <= i < n ensures History(after, d)[i] == History(db, d)[i] {
      if i + 1 < n { OldFieldsStay(db, after, d, i + 1); }
    }
  }

  /** A version upload appends to its document's history what was uploaded, not acknowledged yet,
      and brings new labels; the document stays in its workspace. */
  lemma UpsertAppends(db: Db, d: Id, doc: ParsedDocument, uploadedBy: Option<string>)
    requires Integrity(db) && UpsertVersion(db, d, doc, uploadedBy).Some?
    ensures var after := UpsertVersion(db, d, doc, uploadedBy).value;
            && d in after.documents && VersionsOf(after, d)
            && History(after, d)
               == History(db, d) + [Fields(doc.title, doc.contentHash, doc.fileExtension, doc.mimeType, doc.sourcePath,
                                           uploadedBy, None, None)]
            && after.documents[d].labels == doc.labels && after.documents[d].workspaceId == db.documents[d].workspaceId
  {
    UpsertVersionKeeps(db, d, doc, uploadedBy);
    UpsertIs(db, d, doc, uploadedBy);
    var after := UpsertVersion(db, d, doc, uploadedBy).value;
    assert db.nextId !in db.versions;
    assert d in after.documents;
    assert VersionsOf(db, d) && VersionsOf(after, d);
    hide Integrity, UpsertVersion, VersionsOf;
    HistoryAppends(db, after, d, db.nextId);
  }

  lemma HistoryDropsLast(db: Db, after: Db, d: Id, v: Id)
    requires d in db.documents && VersionsOf(db, d) && d in after.documents && VersionsOf(after, d)
    requires after.documents[d].currentVersion == db.documents[d].currentVersion - 1
    requires IsSnapshot(db.versions, v, d, db.documents[d].currentVersion - 1)
    requires after.versions == db.versions - {v} && after.documents[d].fields == db.versions[v].fields
    ensures History(after, d) == History(db, d)[..db.documents[d].currentVersion - 1]
  {
    var n := db.documents[d].currentVersion;
    CurrentAtLeastOne(after, d);
    var m := n - 1;
    forall w | IsSnapshot(db.versions, w, d, m) ensures w == v {
      NewestSnapshot(db, d, v, w);
    }
    hide VersionsOf, HasSnapshot;
    forall i | 0 <= i < n - 1 ensures History(after, d)[i] == History(db, d)[i] {
      OldFieldsStay(db, after, d, i + 1);
    }
  }

  /** A rollback drops the last entry of its document's history. */
  lemma RollbackDropsLast(db: Db, d: Id)
    requires Integrity(db) && d in db.documents && db.documents[d].currentVersion > 1
    requires RollbackVersion(db, d).Some?
    ensures var after := RollbackVersion(db, d).value;
            && d in after.documents && VersionsOf(after, d)
            && History(after, d) == History(db, d)[..db.documents[d].currentVersion - 1]
  {
    RollbackKeeps(db, d);
    var after := RollbackVersion(db, d).value;
    var v := RollbackIs(db, d);
    assert d in after.documents;
    assert VersionsOf(db, d) && VersionsOf(after, d);
    hide Integrity, RollbackVersion, VersionsOf;
    HistoryDropsLast(db, after, d, v);
  }

  /** The database with the labels of one document replaced and further ids used up. */
  ghost function Relabelled(db: Db, d: Id, labels: Labels, nextId: Id): Db
    requires d in db.documents
  {
    db.(documents := db.documents[d := db.documents[d].(labels := labels)], nextId := nextId)
  }

  /** Rolling back right after an upload leaves one trace: the labels of the upload. They may
      even have changed since. */
  lemma RollbackUndoesUpsert(db: Db, u: Db, d: Id, doc: ParsedDocument, uploadedBy: Option<string>, labels: Labels,
                             nextId: Id)
    requires Integrity(db) && UpsertVersion(db, d, doc, uploadedBy) == Some(u) && nextId >= u.nextId
    ensures d in db.documents && d in u.documents
    ensures RollbackVersion(Relabelled(u, d, labels, nextId), d) == Some(Relabelled(db, d, labels, nextId))
  {
    UpsertVersionKeeps(db, d, doc, uploadedBy);
    UpsertIs(db, d, doc, uploadedBy);
    OwnPathFree(db, d);
    assert VersionsOf(db, d) && db.nextId !in db.versions;
    hide Integrity, UpsertVersion, VersionsOf, RollbackVersion, PathFree;
    RelabelKeeps(u, d, labels, nextId);
    RelabelSnapshot(db, d, u.documents[d], labels, nextId);
    UndoSnapshot(db, d, u.documents[d].(labels := labels), nextId);
  }

  lemma RelabelSnapshot(db: Db, d: Id, row: Document, labels: Labels, nextId: Id)
    requires d in db.documents
    ensures Relabelled(WithSnapshot(db, d, row), d, labels, nextId)
            == WithSnapshot(db, d, row.(labels := labels)).(nextId := nextId)
  {
    assert db.documents[d := row][d := row.(labels := labels)] == db.documents[d := row.(labels := labels)];
  }

  lemma UndoSnapshot(db: Db, d: Id, row: Document, nextId: Id)
    requires d in db.documents && VersionsOf(db, d) && db.nextId !in db.versions
    requires PathFree(db.documents, d, db.documents[d].fields.sourcePath)
    requires row.currentVersion == db.documents[d].currentVersion + 1
    requires row.workspaceId == db.documents[d].workspaceId
    requires Integrity(WithSnapshot(db, d, row).(nextId := nextId))
    ensures RollbackVersion(WithSnapshot(db, d, row).(nextId := nextId), d)
            == Some(Relabelled(db, d, row.labels, nextId))
  {
    var w := WithSnapshot(db, d, row).(nextId := nextId);
    CurrentAtLeastOne(db, d);
    var v := RollbackIs(w, d);
    assert VersionsOf(w, d);
    hide RollbackVersion, Integrity, VersionsOf, Relabelled;
    NewestSnapshot(w, d, v, db.nextId);
    PutBack(db, d, row, nextId, w);
  }

  lemma PutBack(db: Db, d: Id, row: Document, nextId: Id, w: Db)
    requires d in db.documents && db.nextId !in db.versions
    requires PathFree(db.documents, d, db.documents[d].fields.sourcePath)
    requires row.workspaceId == db.documents[d].workspaceId
    requires w == WithSnapshot(db, d, row).(nextId := nextId)
    ensures PathFree(w.documents, d, db.documents[d].fields.sourcePath)
    ensures w.(documents := w.documents[d := w.documents[d].(fields := db.documents[d].fields,
                                                             currentVersion := db.documents[d].currentVersion)],
               versions := w.versions - {db.nextId})
            == Relabelled(db, d, row.labels, nextId)
  {
    assert w.versions - {db.nextId} == db.versions;
    var back := db.documents[d].(labels := row.labels);
    assert w.documents[d := back] == db.documents[d := back];
  }

  lemma CurrentAtLeastOne(db: Db, d: Id)
    requires d in db.documents && VersionsOf(db, d)
    ensures db.documents[d].currentVersion >= 1
  {
  }

  lemma NewestSnapshot(db: Db, d: Id, v: Id, w: Id)
    requires d in db.documents && VersionsOf(db, d)
    requires v in db.versions && w in db.versions && db.versions[v].documentId == db.versions[w].documentId == d
    requires db.versions[v].versionNumber == db.versions[w].versionNumber
    ensures v == w
  {
  }

  lemma NumbersDiffer(db: Db, d: Id, v: Id, w: Id)
    requires d in db.documents && VersionsOf(db, d) && v != w
    requires v in db.versions && w in db.versions && db.versions[v].documentId == db.versions[w].documentId == d
    ensures db.versions[v].versionNumber != db.versions[w].versionNumber
  {
  }

  lemma OwnPathFree(db: Db, d: Id)
    requires Integrity(db) && d in db.documents
    ensures PathFree(db.documents, d, db.documents[d].fields.sourcePath)
  {
  }

  lemma RelabelKeeps(db: Db, d: Id, labels: Labels, nextId: Id)
    requires Integrity(db) && d in db.documents && db.nextId <= nextId
    ensures Integrity(Relabelled(db, d, labels, nextId))
  {
    hide VersionsOf, UniquePaths;
    OtherTablesKeep(db, Relabelled(db, d, labels, nextId));
  }

  // ---------------------------------------------------------------- any number of times

  datatype Upload = Upload(doc: ParsedDocument, uploadedBy: Option<string>)

  ghost function UpsertMany(db: Db, d: Id, uploads: seq<Upload>): Option<Db>
    decreases |uploads|
  {
    if uploads == [] then Some(db)
    else
      var u := UpsertVersion(db, d, uploads[0].doc, uploads[0].uploadedBy);
      if u == None then None else UpsertMany(u.value, d, uploads[1..])
  }

  ghost function RollbackMany(db: Db, d: Id, n: nat): Option<Db> {
    if n == 0 then Some(db)
    else
      var r := RollbackMany(db, d, n - 1);
      if r == None then None else RollbackVersion(r.value, d)
  }

  /** Any number of version uploads followed by as many rollbacks restores every snapshotted
      field and the version list; only the labels of the last upload stay, and ids are used
      up. */
  lemma {:induction false} RollbacksUndoUpserts(db: Db, d: Id, uploads: seq<Upload>)
    requires Integrity(db) && d in db.documents
    requires UpsertMany(db, d, uploads).Some?
    ensures var u := UpsertMany(db, d, uploads).value;
            var labels := if uploads == [] then db.documents[d].labels else uploads[|uploads| - 1].doc.labels;
            && u.nextId == db.nextId + |uploads|
            && d in u.documents && u.documents[d].labels == labels
            && RollbackMany(u, d, |uploads|) == Some(Relabelled(db, d, labels, u.nextId))
    decreases |uploads|
  {
    if uploads == [] {
      assert db.documents[d := db.documents[d]] == db.documents;
    } else {
      var first := UpsertVersion(db, d, uploads[0].doc, uploads[0].uploadedBy).value;
      UpsertVersionKeeps(db, d, uploads[0].doc, uploads[0].uploadedBy);
      hide Integrity;
      RollbacksUndoUpserts(first, d, uploads[1..]);
      var u := UpsertMany(db, d, uploads).value;
      assert uploads[1..] != [] ==> uploads[1..][|uploads| - 2] == uploads[|uploads| - 1];
      RollbackUndoesUpsert(db, first, d, uploads[0].doc, uploads[0].uploadedBy, u.documents[d].labels, u.nextId);
    }
  }

  // ---------------------------------------------------------------- the version list

  datatype VersionRecord = VersionRecord(versionNumber: int, fields: Fields, workspaceId: Option<Id>, isCurrent: bool)

  /** What `list_document_versions` returns: the current version, then the snapshots. */
  ghost function VersionList(db: Db, d: Id): seq<VersionRecord>
    requires d in db.documents && VersionsOf(db, d)
  {
    var n := db.documents[d].currentVersion;
    seq(n, i requires 0 <= i < n =>
      VersionRecord(n - i, FieldsAt(db, d, n - i), db.documents[d].workspaceId, i == 0))
  }

  /** The version numbers run strictly down from the current one to 1, exactly one entry is
      current, and read backwards the entries are the document's history. */
  lemma VersionListShape(db: Db, d: Id)
    requires d in db.documents && VersionsOf(db, d)
    ensures var l, n := VersionList(db, d), db.documents[d].currentVersion;
            && |l| == n >= 1 && l[0].versionNumber == n && l[n - 1].versionNumber == 1
            && (forall i, j | 0 <= i < j < n :: l[i].versionNumber > l[j].versionNumber)
            && (forall i | 0 <= i < n :: l[i].isCurrent <==> i == 0)
            && (forall i | 0 <= i < n :: l[i].fields == History(db, d)[n - 1 - i])
  {
  }

  /** Rows selected newest first are versions n - 1, n - 2, ... 1. */
  lemma SnapshotsInOrder(db: Db, d: Id, rows: seq<Id>)
    requires d in db.documents && VersionsOf(db, d)
    requires forall i | 0 <= i < |rows| :: rows[i] in db.versions && db.versions[rows[i]].documentId == d
    requires forall v | v in db.versions && db.versions[v].documentId == d :: v in rows
    requires forall i, j | 0 <= i < j < |rows| ::
               rows[i] != rows[j] && db.versions[rows[i]].versionNumber >= db.versions[rows[j]].versionNumber
    ensures |rows| == db.documents[d].currentVersion - 1
    ensures forall i | 0 <= i < |rows| :: db.versions[rows[i]].versionNumber == db.documents[d].currentVersion - 1 - i
  {
    var numbers := seq(|rows|, i requires 0 <= i < |rows| => db.versions[rows[i]].versionNumber);
    forall k | 1 <= k < db.documents[d].currentVersion ensures k in numbers {
      assert HasSnapshot(db.versions, d, k);
      var v :| IsSnapshot(db.versions, v, d, k);
      assert v in rows;
      var i :| 0 <= i < |rows| && rows[i] == v;
      assert numbers[i] == k;
    }
    forall i, j | 0 <= i < j < |rows| ensures numbers[i] > numbers[j] {
      NumbersDiffer(db, d, rows[i], rows[j]);
    }
    Countdown(numbers, db.documents[d].currentVersion - 1);
    assert forall i | 0 <= i < |rows| :: db.versions[rows[i]].versionNumber == numbers[i];
  }

  /** A strictly falling sequence of numbers from 1 to n that misses none is n, n - 1, ... 1. */
  lemma {:induction false} Countdown(s: seq<int>, n: nat)
    requires forall i | 0 <= i < |s| :: 1 <= s[i] <= n
    requires forall i, j | 0 <= i < j < |s| :: s[i] > s[j]
    requires forall k | 1 <= k <= n :: k in s
    ensures |s| == n && forall i | 0 <= i < n :: s[i] == n - i
  {
    if s == [] {
      assert n > 0 ==> n in s;
    } else {
      assert 1 <= s[0] <= n;
      assert n in s;
      assert s[0] == n;
      var t := s[1..];
      assert forall i | 0 <= i < |t| :: t[i] == s[i + 1] && t[i] < s[0];
      forall k | 1 <= k <= n - 1 ensures k in t {
        assert k in s && s == [s[0]] + t;
      }
      Countdown(t, n - 1);
    }
  }
}
