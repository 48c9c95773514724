/** Writing the audit log: the table ordered by time and id, the sink that chains each
    record to the latest one, and when such a history verifies
    (sidecar/orca_core/audit/sink.py, sidecar/orca_core/persistence/repo/audit_logs.py). */
module AuditLogs {
  import opened Wrappers
  import opened AuditChains

  // ---- ORDER BY at, id ----

  predicate Before(r: Record, s: Record) {
    r.at < s.at || (r.at == s.at && r.id < s.id)
  }

  function Insert(c: seq<Record>, r: Record): (d: seq<Record>)
    ensures d != [] && d[|d| - 1] == if c != [] && Before(r, c[|c| - 1]) then c[|c| - 1] else r
  {
    var n := |c| - 1;
    if c == [] || !Before(r, c[n]) then c + [r] else Insert(c[..n], r) + [c[n]]
  }

  function Ordered(rows: seq<Record>): seq<Record> {
    if rows == [] then [] else Insert(Ordered(rows[..|rows| - 1]), rows[|rows| - 1])
  }

  ghost predicate Sorted(c: seq<Record>) {
    forall i, j :: 0 <= i < j < |c| ==> !Before(c[j], c[i])
  }

  lemma {:induction false} InsertSorts(c: seq<Record>, r: Record)
    requires Sorted(c)
    ensures Sorted(Insert(c, r))
  {
    var n := |c| - 1;
    if c != [] && Before(r, c[n]) {
      InsertSorts(c[..n], r);
      InsertKeeps(c[..n], r);
      var d := Insert(c[..n], r);
      forall i | 0 <= i < |d| ensures !Before(c[n], d[i]) {
        assert d[i] in d;
      }
    } else if c != [] {
      forall i | 0 <= i < |c| ensures !Before(r, c[i]) {
        NotAfterLast(c, r, i);
      }
    }
  }

  lemma NotAfterLast(c: seq<Record>, r: Record, i: nat)
    requires Sorted(c) && i < |c| && !Before(r, c[|c| - 1])
    ensures !Before(r, c[i])
  {
  }

  lemma {:induction false} InsertKeeps(c: seq<Record>, r: Record)
    ensures multiset(Insert(c, r)) == multiset(c) + multiset{r}
    ensures forall x :: x in Insert(c, r) <==> x == r || x in c
  {
    var n := |c| - 1;
    if c != [] && Before(r, c[n]) {
      InsertKeeps(c[..n], r);
      assert c == c[..n] + [c[n]];
    }
  }

  /** The listing is sorted by time, then id, and has the same rows. */
  lemma {:induction false} OrderedSorts(rows: seq<Record>)
    ensures Sorted(Ordered(rows)) && multiset(Ordered(rows)) == multiset(rows)
    ensures forall x :: x in Ordered(rows) <==> x in rows
  {
    hide Insert, Sorted;
    if rows != [] {
      var n := |rows| - 1;
      OrderedSorts(rows[..n]);
      InsertSorts(Ordered(rows[..n]), rows[n]);
      InsertKeeps(Ordered(rows[..n]), rows[n]);
      assert rows == rows[..n] + [rows[n]];
    } else {
      assert Sorted([]) by { NothingSorted(); }
    }
  }

  lemma NothingSorted()
    ensures Sorted([])
  {
  }

  function ForRun(c: seq<Record>, run: string): seq<Record> {
    Pick(c, KeepsRun(c, run))
  }

  function KeepsRun(c: seq<Record>, run: string): seq<bool> {
    seq(|c|, i requires 0 <= i < |c| => c[i].run == run)
  }

  lemma ForRunLast(c: seq<Record>, run: string)
    requires c != []
    ensures var n := |c| - 1;
      ForRun(c, run) == ForRun(c[..n], run) + if c[n].run == run then [c[n]] else []
  {
    assert KeepsRun(c, run)[..|c| - 1] == KeepsRun(c[..|c| - 1], run);
  }

  lemma ForRunAppend(c: seq<Record>, r: Record, run: string)
    ensures ForRun(c + [r], run) == ForRun(c, run) + if r.run == run then [r] else []
  {
    ForRunLast(c + [r], run);
    assert (c + [r])[..|c|] == c;
  }

  lemma {:induction false} ForRunMember(c: seq<Record>, run: string)
    ensures forall x :: x in ForRun(c, run) ==> x in c
  {
    if c != [] {
      ForRunMember(c[..|c| - 1], run);
      ForRunLast(c, run);
    }
  }

  /** Filtering a sorted listing and inserting commute. */
  lemma {:induction false} ForRunInsert(c: seq<Record>, r: Record, run: string)
    requires Sorted(c)
    ensures ForRun(Insert(c, r), run) == if r.run == run then Insert(ForRun(c, run), r) else ForRun(c, run)
  {
    hide ForRun;
    var n := |c| - 1;
    if c == [] || !Before(r, c[n]) {
      ForRunAppend(c, r, run);
      ForRunMember(c, run);
      var f := ForRun(c, run);
      if f != [] {
        assert f[|f| - 1] in c;
        assert !Before(r, f[|f| - 1]);
      }
    } else {
      ForRunInsert(c[..n], r, run);
      ForRunAppend(Insert(c[..n], r), c[n], run);
      ForRunLast(c, run);
      var f := ForRun(c[..n], run);
      InsertBeforeLast(f, c[n], r);
      assert f + [] == f && Insert(f, r) + [] == Insert(f, r);
    }
  }

  lemma {:induction false} InsertBeforeLast(f: seq<Record>, x: Record, r: Record)
    requires Before(r, x)
    ensures Insert(f + [x], r) == Insert(f, r) + [x]
  {
    assert (f + [x])[..|f|] == f;
  }

  // ---- Table and sink ----

  datatype Entry = Entry(at: nat, id: nat, actor: string, action: string, target: string, status: string, decision: string, run: string)

  /** `build_audit_log` */
  function Build(e: Entry, prev: Option<string>, k: Scheme): Record {
    var r := Record(e.id, e.at, e.actor, e.action, e.target, e.status, e.decision, e.run, prev, None);
    r.(hashSelf := Some(k.digest(Hashed(r, k))))
  }

  datatype AuditError = Corrupted(id: nat) | WriteError

  /** Hash of the latest row. */
  function LatestHash(rows: seq<Record>): Result<Option<string>, AuditError> {
    var c := Ordered(rows);
    if c == [] then Ok(None)
    else
      var last := c[|c| - 1];
      if last.hashSelf.None? || last.hashSelf.value == "" then Err(Corrupted(last.id)) else Ok(last.hashSelf)
  }

  class AuditLogsRepository {
    /** Rows in the order they were inserted; there is no way to change or remove one. */
    var rows: seq<Record>

    constructor ()
      ensures rows == []
    {
      rows := [];
    }

    method InsertRow(r: Record, fails: bool) returns (ok: bool)
      modifies this
      ensures ok == !fails && rows == if ok then old(rows) + [r] else old(rows)
    {
      ok := !fails;
      if ok { rows := rows + [r]; }
    }

    /** `latest_hash` */
    method Latest() returns (h: Result<Option<string>, AuditError>)
      ensures h == LatestHash(rows)
    {
      if rows == [] { return Ok(None); }
      var best := rows[0];
      assert rows[..1] == [rows[0]];
      for i := 1 to |rows|
        invariant best == Ordered(rows[..i])[|Ordered(rows[..i])| - 1]
      {
        assert rows[..i + 1][..i] == rows[..i];
        if !Before(rows[i], best) { best := rows[i]; }
      }
      assert rows[..|rows|] == rows;
      if best.hashSelf.None? || best.hashSelf.value == "" { return Err(Corrupted(best.id)); }
      return Ok(best.hashSelf);
    }

    /** `list_for_run`: the run's rows, ordered, are the run's part of the whole listing. */
    method ListForRun(run: string) returns (c: seq<Record>)
      ensures c == ForRun(Ordered(rows), run)
    {
      hide ForRun, Insert;
      c := [];
      assert ForRun([], run) == [] by { NoRows(run); }
      for i := 0 to |rows|
        invariant c == ForRun(Ordered(rows[..i]), run)
      {
        assert rows[..i + 1][..i] == rows[..i];
        OrderedSorts(rows[..i]);
        ForRunInsert(Ordered(rows[..i]), rows[i], run);
        if rows[i].run == run { c := Insert(c, rows[i]); }
      }
      assert rows[..|rows|] == rows;
    }
  }

  lemma NoRows(run: string)
    ensures ForRun([], run) == []
  {
  }

  class AuditSink {
    const repo: AuditLogsRepository
    const k: Scheme
    /** Lines of the file mirror. */
    var mirror: seq<Record>
    var parentReady: bool

    constructor (repo: AuditLogsRepository, k: Scheme)
      ensures this.repo == repo && this.k == k && mirror == [] && !parentReady
    {
      this.repo, this.k := repo, k;
      mirror, parentReady := [], false;
    }

    /** `record` with the latest hash as provider.  A failed mirror leaves the row in
        the table for the surrounding transaction to roll back. */
    method Record(e: Entry, dbFails: bool, mkdirFails: bool, fileFails: bool) returns (r: Result<Record, AuditError>)
      modifies this, repo
      ensures LatestHash(old(repo.rows)).Err? ==>
        r == Err(LatestHash(old(repo.rows)).error) && repo.rows == old(repo.rows) && mirror == old(mirror)
      ensures LatestHash(old(repo.rows)).Ok? ==>
        var rec := Build(e, LatestHash(old(repo.rows)).value, k);
        var mirrored := !dbFails && !fileFails && (old(parentReady) || !mkdirFails);
        && repo.rows == (if dbFails then old(repo.rows) else old(repo.rows) + [rec])
        && mirror == (if mirrored then old(mirror) + [rec] else old(mirror))
        && r == (if mirrored then Ok(rec) else Err(WriteError))
        && parentReady == (old(parentReady) || (!dbFails && !mkdirFails))
    {
      var prev := repo.Latest();
      if prev.Err? { return Err(prev.error); }
      var rec := Build(e, prev.value, k);
      var ok := repo.InsertRow(rec, dbFails);
      if !ok { return Err(WriteError); }
      if !parentReady {
        if mkdirFails { return Err(WriteError); }
        parentReady := true;
      }
      if fileFails { return Err(WriteError); }
      mirror := mirror + [rec];
      return Ok(rec);
    }
  }

  // ---- Histories ----

  /** The table after recording the entries one by one with the latest hash. */
  function History(es: seq<Entry>, k: Scheme): seq<Record> {
    if es == [] then []
    else
      var rows := History(es[..|es| - 1], k);
      rows + [Build(es[|es| - 1], SelfOfLast(Ordered(rows)), k)]
  }

  ghost predicate IdsAscend(es: seq<Entry>) {
    forall i, j :: 0 <= i < j < |es| ==> es[i].id < es[j].id
  }

  ghost predicate ClockNeverBack(es: seq<Entry>) {
    forall i, j :: 0 <= i < j < |es| ==> es[i].at <= es[j].at
  }

  /** A row carries the time and id of its entry. */
  ghost predicate Carries(r: Record, e: Entry) {
    r.at == e.at && r.id == e.id && r.hashSelf.Some?
  }

  lemma BuildCarries(e: Entry, prev: Option<string>, k: Scheme)
    ensures Carries(Build(e, prev, k), e)
  {
  }

  lemma {:induction false} HistoryShape(es: seq<Entry>, k: Scheme)
    ensures |History(es, k)| == |es|
    ensures forall i :: 0 <= i < |es| ==> Carries(History(es, k)[i], es[i])
  {
    hide Build, Carries, Ordered;
    if es != [] {
      var n := |es| - 1;
      HistoryShape(es[..n], k);
      BuildCarries(es[n], SelfOfLast(Ordered(History(es[..n], k))), k);
    }
  }

  /** Later records do not change earlier ones. */
  lemma {:induction false} HistoryPrefix(es: seq<Entry>, k: Scheme, n: nat)
    requires n <= |es|
    ensures |History(es, k)| == |es| && History(es, k)[..n] == History(es[..n], k)
  {
    hide Build, Ordered;
    HistoryShape(es, k);
    var m := |es| - 1;
    if n <= m {
      HistoryPrefix(es[..m], k, n);
      assert es[..m][..n] == es[..n];
    } else {
      assert es[..n] == es;
    }
  }

  /** Each record is chained to the latest of the rows before it. */
  lemma {:induction false} RecordAt(es: seq<Entry>, k: Scheme, j: nat)
    requires j < |es|
    ensures |History(es, k)| == |es| && |History(es[..j], k)| == j
    ensures History(es, k)[j].hashPrev == SelfOfLast(Ordered(History(es[..j], k)))
    ensures forall i :: 0 <= i < j ==> History(es[..j], k)[i] == History(es, k)[i]
  {
    HistoryPrefix(es, k, j);
    HistoryPrefix(es, k, j + 1);
    hide Ordered, Hashed, History;
    var all := History(es, k);
    LastRecord(es[..j + 1], k);
    assert es[..j + 1][..j] == es[..j];
    assert all[..j + 1][j] == all[j];
    forall i | 0 <= i < j ensures History(es[..j], k)[i] == all[i] { assert all[..j][i] == all[i]; }
  }

  lemma {:induction false} LastRecord(es: seq<Entry>, k: Scheme)
    requires es != []
    ensures History(es, k) != []
      && History(es, k)[|History(es, k)| - 1].hashPrev == SelfOfLast(Ordered(History(es[..|es| - 1], k)))
  {
    hide Ordered, Hashed;
  }

  /** The sink does what `History` says: the provider finds the last hash. */
  lemma {:induction false} LatestHashIsLast(es: seq<Entry>, k: Scheme)
    requires CollisionFree(k.digest)
    ensures LatestHash(History(es, k)) == Ok(SelfOfLast(Ordered(History(es, k))))
  {
    hide CollisionFree, Ordered, History;
    var rows := History(es, k);
    OrderedSorts(rows);
    var c := Ordered(rows);
    if c != [] {
      assert c[|c| - 1] in rows;
      HashIsDigest(es, k, c[|c| - 1]);
    }
  }

  lemma {:induction false} HashIsDigest(es: seq<Entry>, k: Scheme, r: Record)
    requires CollisionFree(k.digest) && r in History(es, k)
    ensures r.hashSelf.Some? && r.hashSelf.value != ""
  {
    if r in History(es[..|es| - 1], k) { HashIsDigest(es[..|es| - 1], k, r); }
  }

  lemma LinkedLast(c: seq<Record>, e: Entry, k: Scheme)
    requires Verified(c, k)
    ensures Verified(c + [Build(e, SelfOfLast(c), k)], k)
  {
    hide Hashed;
    var r := Build(e, SelfOfLast(c), k);
    var d := c + [r];
    SameHashText(r, k);
    forall i | 0 <= i < |d| ensures FaultOf(SelfOfLast(d[..i]), d[i], k).None? {
      if i < |c| { assert d[..i] == c[..i]; } else { assert d[..i] == c; }
    }
  }

  lemma SameHashText(r: Record, k: Scheme)
    ensures Hashed(r.(hashSelf := None), k) == Hashed(r, k)
  {
  }

  /** Insertion order is listing order while keys ascend. */
  lemma {:induction false} AscendingStays(rows: seq<Record>)
    requires forall i, j :: 0 <= i < j < |rows| ==> Before(rows[i], rows[j])
    ensures Ordered(rows) == rows
  {
    if rows != [] {
      var n := |rows| - 1;
      AscendingStays(rows[..n]);
      if n > 0 { assert Before(rows[n - 1], rows[n]); }
    }
  }

  lemma {:induction false} HistoryAscends(es: seq<Entry>, k: Scheme)
    requires IdsAscend(es) && ClockNeverBack(es)
    ensures var rows := History(es, k);
      forall i, j :: 0 <= i < j < |rows| ==> Before(rows[i], rows[j])
  {
    hide History;
    HistoryShape(es, k);
    var rows := History(es, k);
    forall i, j | 0 <= i < j < |rows| ensures Before(rows[i], rows[j]) {
      assert Carries(rows[i], es[i]) && Carries(rows[j], es[j]);
    }
  }

  lemma {:induction false} InOrderVerifies(es: seq<Entry>, k: Scheme)
    requires IdsAscend(es) && ClockNeverBack(es)
    ensures Ordered(History(es, k)) == History(es, k) && Verified(History(es, k), k)
  {
    hide Ordered, Verified, Build, Carries, Before;
    HistoryShape(es, k);
    HistoryAscends(es, k);
    AscendingStays(History(es, k));
    if es == [] {
      EmptyVerifies(k);
    } else {
      InOrderVerifies(es[..|es| - 1], k);
      LinkedLast(History(es[..|es| - 1], k), es[|es| - 1], k);
    }
  }

  lemma EmptyVerifies(k: Scheme)
    ensures Verified([], k)
  {
  }

  /** A record chained to one that comes after it in the listing breaks the chain. */
  lemma ChainedToLater(c: seq<Record>, r: Record, m: Record, k: Scheme)
    requires CollisionFree(k.digest) && Sorted(c) && r in c && m in c
    requires Before(r, m) && r.hashPrev == m.hashSelf && m.hashSelf.Some?
    ensures !Verified(c, k)
  {
    hide CollisionFree, Verified, FaultOf, Hashed, Before;
    var i :| 0 <= i < |c| && c[i] == r;
    var j :| 0 <= j < |c| && c[j] == m;
    ComesFirst(c, i, j);
    if Verified(c, k) {
      LinkAt(c, i, k);
      if i > 0 { HashFixesHistory(c, i - 1, c, j, k); }
    }
  }

  lemma ComesFirst(c: seq<Record>, i: nat, j: nat)
    requires Sorted(c) && i < |c| && j < |c| && Before(c[i], c[j])
    ensures i < j
  {
  }

  /** The record made when the clock is behind an earlier record's time. */
  lemma {:induction false} BackwardBreaks(es: seq<Entry>, i: nat, j: nat, k: Scheme)
    requires CollisionFree(k.digest) && i < j < |es| && es[j].at < es[i].at
    ensures !Verified(Ordered(History(es, k)), k)
  {
    hide CollisionFree, Verified, Ordered, History, Hashed, Sorted;
    var all, rows := History(es, k), History(es[..j], k);
    HistoryShape(es, k);
    assert Carries(all[i], es[i]) && Carries(all[j], es[j]);
    RecordAt(es, k, j);
    OrderedSorts(all);
    OrderedSorts(rows);
    var c := Ordered(rows);
    assert rows[i] in c;
    LastIsLatest(c, rows[i]);
    var m := c[|c| - 1];
    assert m in rows;
    var n :| 0 <= n < j && rows[n] == m;
    assert m == all[n] && Carries(all[n], es[n]);
    ChainedToLater(Ordered(all), all[j], m, k);
  }

  lemma LastIsLatest(c: seq<Record>, x: Record)
    requires Sorted(c) && x in c
    ensures x.at <= c[|c| - 1].at
  {
  }

  /** A recorded history verifies exactly when the clock never went back. */
  lemma {:induction false} HistoryVerifiesIffClockAscends(es: seq<Entry>, k: Scheme)
    requires CollisionFree(k.digest) && IdsAscend(es)
    ensures Verified(Ordered(History(es, k)), k) <==> ClockNeverBack(es)
  {
    if ClockNeverBack(es) {
      InOrderVerifies(es, k);
    } else {
      var i, j :| 0 <= i < j < |es| && es[j].at < es[i].at;
      BackwardBreaks(es, i, j, k);
    }
  }

  /** The rows of one run verify on their own exactly when no other run has a row
      before one of them. */
  lemma {:induction false} RunVerifiesIffFirst(rows: seq<Record>, run: string, k: Scheme)
    requires CollisionFree(k.digest) && Verified(Ordered(rows), k)
    ensures Verified(ForRun(Ordered(rows), run), k) <==>
      forall i, j :: 0 <= i < j < |Ordered(rows)| && Ordered(rows)[j].run == run ==> Ordered(rows)[i].run == run
  {
    hide Ordered, CollisionFree, Verified, Pick;
    DroppingBreaksTheChain(Ordered(rows), KeepsRun(Ordered(rows), run), k);
    KeepsFirst(Ordered(rows), run);
  }

  lemma KeepsFirst(c: seq<Record>, run: string)
    ensures NothingBeforeKept(KeepsRun(c, run)) <==>
      forall i, j :: 0 <= i < j < |c| && c[j].run == run ==> c[i].run == run
  {
    var keep := KeepsRun(c, run);
    assert forall i :: 0 <= i < |c| ==> keep[i] == (c[i].run == run);
  }
}
