/** The audit hash chain: what `verify_chain` accepts, and what a chain that verifies
    tells (sidecar/orca_core/audit/record.py, sidecar/orca_core/audit/verify.py). */
module AuditChains {
  import opened Fields
  import opened Wrappers

  /** `at` and `id` order the table; their texts go into the hash. */
  datatype Record = Record(
    id: nat, at: nat,
    actor: string, action: string, target: string, status: string,
    decision: string, run: string,
    hashPrev: Option<string>, hashSelf: Option<string>)

  /** Texts of ids and times, and the digest. */
  datatype Scheme = Scheme(idText: nat -> string, isoText: nat -> string, digest: string -> string)

  predicate NoBar(s: string) {
    Without('|', s)
  }

  /** A collision-free digest whose texts are not empty and have no separator. */
  ghost predicate CollisionFree(digest: string -> string) {
    && (forall s, t :: digest(s) == digest(t) ==> s == t)
    && (forall s :: digest(s) != "" && NoBar(digest(s)))
  }

  function PrevText(p: Option<string>): string {
    if p.Some? then p.value else ""
  }

  /** The text that is hashed: seven fields joined by bars. */
  function Hashed(r: Record, k: Scheme): string {
    k.idText(r.id) + "|" + k.isoText(r.at) + "|" + r.actor + "|" + r.action + "|" + r.target + "|" + r.status + "|" + PrevText(r.hashPrev)
  }

  // ---- Verification ----

  datatype Fault = MissingHash | PrevMismatch | DigestMismatch

  datatype VerifyResult = Valid | Broken(at: nat, fault: Fault)

  function SelfOfLast(c: seq<Record>): Option<string> {
    if c == [] then None else c[|c| - 1].hashSelf
  }

  /** What is wrong with a record that follows `prev`. */
  function FaultOf(prev: Option<string>, r: Record, k: Scheme): Option<Fault> {
    if r.hashSelf.None? then Some(MissingHash)
    else if r.hashPrev != prev then Some(PrevMismatch)
    else if Some(k.digest(Hashed(r, k))) != r.hashSelf then Some(DigestMismatch)
    else None
  }

  ghost predicate Verified(c: seq<Record>, k: Scheme) {
    forall i :: 0 <= i < |c| ==> FaultOf(SelfOfLast(c[..i]), c[i], k).None?
  }

  /** `r` reports record `i`, the first with a fault. */
  ghost predicate FirstFault(records: seq<Record>, i: nat, r: VerifyResult, k: Scheme)
    requires i < |records|
  {
    && Verified(records[..i], k)
    && r.Broken? && r.at == records[i].id && FaultOf(SelfOfLast(records[..i]), records[i], k) == Some(r.fault)
  }

  /** `verify_chain` */
  method VerifyChain(records: seq<Record>, k: Scheme) returns (r: VerifyResult)
    ensures r.Valid? <==> Verified(records, k)
    ensures r.Broken? ==> exists i :: 0 <= i < |records| && FirstFault(records, i, r, k)
  {
    var previous: Option<Record> := None;
    for i := 0 to |records|
      invariant Verified(records[..i], k)
      invariant previous == if i == 0 then None else Some(records[i - 1])
    {
      var rec := records[i];
      VerifiedUpTo(records, i, k);
      if rec.hashSelf.None? {
        assert FirstFault(records, i, Broken(rec.id, MissingHash), k);
        return Broken(rec.id, MissingHash);
      }
      var expected := if previous.Some? then previous.value.hashSelf else None;
      if rec.hashPrev != expected {
        assert FirstFault(records, i, Broken(rec.id, PrevMismatch), k);
        return Broken(rec.id, PrevMismatch);
      }
      if k.digest(Hashed(rec, k)) != rec.hashSelf.value {
        assert FirstFault(records, i, Broken(rec.id, DigestMismatch), k);
        return Broken(rec.id, DigestMismatch);
      }
      previous := Some(rec);
    }
    assert records[..|records|] == records;
    r := Valid;
  }

  lemma VerifiedUpTo(c: seq<Record>, i: nat, k: Scheme)
    requires i < |c| && Verified(c[..i], k)
    ensures FaultOf(SelfOfLast(c[..i]), c[i], k).None? <==> Verified(c[..i + 1], k)
    ensures Verified(c, k) ==> FaultOf(SelfOfLast(c[..i]), c[i], k).None?
    ensures SelfOfLast(c[..i]) == if i == 0 then None else c[i - 1].hashSelf
  {
    hide FaultOf;
    var d := c[..i + 1];
    assert d[..i] == c[..i] && d[i] == c[i];
    forall j | 0 <= j < i ensures d[..j] == c[..i][..j] && d[j] == c[..i][j] {}
  }

  lemma PrefixVerified(c: seq<Record>, n: nat, k: Scheme)
    requires Verified(c, k) && n <= |c|
    ensures Verified(c[..n], k)
  {
    hide FaultOf;
    forall i | 0 <= i < n ensures FaultOf(SelfOfLast(c[..n][..i]), c[..n][i], k).None? {
      assert c[..n][..i] == c[..i];
    }
  }

  /** The link of one record of a verified chain. */
  lemma LinkAt(c: seq<Record>, i: nat, k: Scheme)
    requires Verified(c, k) && i < |c|
    ensures c[i].hashSelf == Some(k.digest(Hashed(c[i], k)))
    ensures c[i].hashPrev == if i == 0 then None else c[i - 1].hashSelf
  {
    assert FaultOf(SelfOfLast(c[..i]), c[i], k).None?;
  }

  // ---- Texts with bars ----

  /** Everything but the target, and the texts of id and time, is free of bars. */
  ghost predicate OnlyTargetHasBars(r: Record, k: Scheme) {
    && NoBar(k.idText(r.id)) && NoBar(k.isoText(r.at)) && NoBar(r.actor) && NoBar(r.action)
    && NoBar(r.status) && NoBar(PrevText(r.hashPrev))
  }

  /** Then the hashed text determines every field in it, whatever the target is. */
  lemma HashedDeterminesFields(r: Record, s: Record, k: Scheme)
    requires Hashed(r, k) == Hashed(s, k) && OnlyTargetHasBars(r, k) && OnlyTargetHasBars(s, k)
    ensures k.idText(r.id) == k.idText(s.id) && k.isoText(r.at) == k.isoText(s.at)
    ensures r.actor == s.actor && r.action == s.action && r.target == s.target
      && r.status == s.status
    ensures PrevText(r.hashPrev) == PrevText(s.hashPrev)
  {
    hide Without;
    var p, q := PrevText(r.hashPrev), PrevText(s.hashPrev);
    var ri, si, ra, sa := k.idText(r.id), k.idText(s.id), k.isoText(r.at), k.isoText(s.at);
    LastField('|', ri + "|" + ra + "|" + r.actor + "|" + r.action + "|" + r.target + "|" + r.status, p,
              si + "|" + sa + "|" + s.actor + "|" + s.action + "|" + s.target + "|" + s.status, q);
    LastField('|', ri + "|" + ra + "|" + r.actor + "|" + r.action + "|" + r.target, r.status,
              si + "|" + sa + "|" + s.actor + "|" + s.action + "|" + s.target, s.status);
    FromTheLeft(ri, ra, r.actor, r.action, r.target);
    FromTheLeft(si, sa, s.actor, s.action, s.target);
    FirstField('|', ri, ra + "|" + (r.actor + "|" + (r.action + "|" + r.target)), si, sa + "|" + (s.actor + "|" + (s.action + "|" + s.target)));
    FirstField('|', ra, r.actor + "|" + (r.action + "|" + r.target), sa, s.actor + "|" + (s.action + "|" + s.target));
    FirstField('|', r.actor, r.action + "|" + r.target, s.actor, s.action + "|" + s.target);
    FirstField('|', r.action, r.target, s.action, s.target);
  }

  lemma FromTheLeft(a: string, b: string, c: string, d: string, e: string)
    ensures a + "|" + b + "|" + c + "|" + d + "|" + e == a + "|" + (b + "|" + (c + "|" + (d + "|" + e)))
  {
  }

  /** The texts of ids and times have no separator. */
  ghost predicate PlainTexts(k: Scheme) {
    forall n :: NoBar(k.idText(n)) && NoBar(k.isoText(n))
  }

  predicate NoFieldHasBars(r: Record) {
    NoBar(r.actor) && NoBar(r.action) && NoBar(r.target) && NoBar(r.status)
  }

  predicate SameFields(r: Record, s: Record) {
    r.actor == s.actor && r.action == s.action && r.target == s.target && r.status == s.status
  }

  /** Among all records the hashed text of `r` belongs to its actor, action, target and
      status alone. */
  ghost predicate TextTells(r: Record, k: Scheme) {
    forall s: Record :: NoBar(PrevText(s.hashPrev)) && Hashed(s, k) == Hashed(r, k) ==> SameFields(r, s)
  }

  /** That is so exactly if none of these fields holds a bar. */
  lemma TextTellsIff(r: Record, k: Scheme)
    requires PlainTexts(k) && NoBar(PrevText(r.hashPrev))
    ensures TextTells(r, k) <==> NoFieldHasBars(r)
  {
    hide Hashed, NoBar, SameFields, NoFieldHasBars;
    if NoFieldHasBars(r) {
      forall s: Record | NoBar(PrevText(s.hashPrev)) && Hashed(s, k) == Hashed(r, k) ensures SameFields(r, s) {
        SameBars(r, s, k);
        PlainDeterminesFields(r, s, k);
      }
    } else {
      var s := BarsAreAmbiguous(r, k);
      assert !SameFields(r, s);
    }
  }

  lemma PlainDeterminesFields(r: Record, s: Record, k: Scheme)
    requires PlainTexts(k) && NoBar(PrevText(r.hashPrev)) && NoBar(PrevText(s.hashPrev))
    requires Hashed(r, k) == Hashed(s, k) && NoFieldHasBars(r) && NoFieldHasBars(s)
    ensures SameFields(r, s)
  {
    hide Hashed, NoBar;
    HashedDeterminesFields(r, s, k);
  }

  /** The number of bars in a text. */
  function Bars(s: string): nat {
    if s == "" then 0 else Bars(s[..|s| - 1]) + if s[|s| - 1] == '|' then 1 else 0
  }

  lemma {:induction false} BarsAdd(s: string, t: string)
    ensures Bars(s + t) == Bars(s) + Bars(t)
  {
    if t == "" {
      assert s + t == s;
    } else {
      BarsAdd(s, t[..|t| - 1]);
      assert (s + t)[..|s + t| - 1] == s + t[..|t| - 1];
    }
  }

  lemma {:induction false} NoBarIff(s: string)
    ensures NoBar(s) <==> Bars(s) == 0
  {
    if s != "" {
      NoBarIff(s[..|s| - 1]);
      assert s == s[..|s| - 1] + [s[|s| - 1]];
    }
  }

  lemma {:induction false} FieldBar(s: string, t: string)
    ensures Bars(s + "|" + t) == Bars(s) + 1 + Bars(t)
  {
    BarsAdd(s + "|", t);
    BarsAdd(s, "|");
    assert "|"[..0] == "";
  }

  lemma HashedBars(r: Record, k: Scheme)
    ensures Bars(Hashed(r, k)) == Bars(k.idText(r.id)) + Bars(k.isoText(r.at)) + Bars(r.actor) + Bars(r.action)
      + Bars(r.target) + Bars(r.status) + Bars(PrevText(r.hashPrev)) + 6
  {
    hide Bars;
    var a := k.idText(r.id);
    var b := a + "|" + k.isoText(r.at);
    var c := b + "|" + r.actor;
    var d := c + "|" + r.action;
    var e := d + "|" + r.target;
    FieldBar(a, k.isoText(r.at));
    FieldBar(b, r.actor);
    FieldBar(c, r.action);
    FieldBar(d, r.target);
    FieldBar(e, r.status);
    FieldBar(e + "|" + r.status, PrevText(r.hashPrev));
  }

  /** Records with the same text have as many bars in their fields. */
  lemma SameBars(r: Record, s: Record, k: Scheme)
    requires PlainTexts(k) && NoBar(PrevText(r.hashPrev)) && NoBar(PrevText(s.hashPrev))
    requires Hashed(s, k) == Hashed(r, k) && NoFieldHasBars(r)
    ensures NoFieldHasBars(s)
  {
    hide Hashed, Bars, NoBar;
    HashedBars(r, k);
    HashedBars(s, k);
    forall x | x in [k.idText(r.id), k.isoText(r.at), k.idText(s.id), k.isoText(s.at), PrevText(r.hashPrev), PrevText(s.hashPrev)]
      || x in [r.actor, r.action, r.target, r.status, s.actor, s.action, s.target, s.status]
      ensures NoBar(x) <==> Bars(x) == 0
    {
      NoBarIff(x);
    }
  }

  /** With a bar in one of the four fields another record, which differs from `r` in two
      of them, has the same hashed text, so the digest does not tell them apart. */
  lemma BarsAreAmbiguous(r: Record, k: Scheme) returns (s: Record)
    requires !NoFieldHasBars(r)
    ensures s == r.(actor := s.actor, action := s.action, target := s.target, status := s.status)
    ensures !SameFields(r, s) && Hashed(s, k) == Hashed(r, k)
  {
    if !NoBar(r.actor) {
      var x, y := Halves(r.actor);
      s := r.(actor := x, action := y + "|" + r.action);
      assert x + "|" + (y + "|" + r.action) == r.actor + "|" + r.action;
      Regroup2(r, s, k);
    } else if !NoBar(r.action) {
      var x, y := Halves(r.action);
      s := r.(actor := r.actor + "|" + x, action := y);
      assert r.actor + "|" + x + "|" + y == r.actor + "|" + r.action;
      Regroup2(r, s, k);
    } else if !NoBar(r.target) {
      var x, y := Halves(r.target);
      s := r.(action := r.action + "|" + x, target := y);
      assert r.action + "|" + x + "|" + y == r.action + "|" + r.target;
      Regroup3(r, s, k);
    } else {
      var x, y := Halves(r.status);
      s := r.(target := r.target + "|" + x, status := y);
      assert r.target + "|" + x + "|" + y == r.target + "|" + r.status;
      Regroup4(r, s, k);
    }
  }

  lemma Halves(s: string) returns (x: string, y: string)
    requires !NoBar(s)
    ensures s == x + "|" + y && |x| < |s| && |y| < |s|
  {
    var i :| 0 <= i < |s| && s[i] == '|';
    x, y := s[..i], s[i + 1..];
    assert s == x + [s[i]] + y;
  }

  lemma Regroup2(r: Record, s: Record, k: Scheme)
    requires s == r.(actor := s.actor, action := s.action)
      && s.actor + "|" + s.action == r.actor + "|" + r.action
    ensures Hashed(s, k) == Hashed(r, k)
  {
    Grouped(k.idText(r.id) + "|" + k.isoText(r.at), r.actor, r.action);
    Grouped(k.idText(r.id) + "|" + k.isoText(r.at), s.actor, s.action);
  }

  lemma Regroup3(r: Record, s: Record, k: Scheme)
    requires s == r.(action := s.action, target := s.target)
      && s.action + "|" + s.target == r.action + "|" + r.target
    ensures Hashed(s, k) == Hashed(r, k)
  {
    Grouped(k.idText(r.id) + "|" + k.isoText(r.at) + "|" + r.actor, r.action, r.target);
    Grouped(k.idText(r.id) + "|" + k.isoText(r.at) + "|" + r.actor, s.action, s.target);
  }

  lemma Regroup4(r: Record, s: Record, k: Scheme)
    requires s == r.(target := s.target, status := s.status)
      && s.target + "|" + s.status == r.target + "|" + r.status
    ensures Hashed(s, k) == Hashed(r, k)
  {
    Grouped(k.idText(r.id) + "|" + k.isoText(r.at) + "|" + r.actor + "|" + r.action, r.target, r.status);
    Grouped(k.idText(r.id) + "|" + k.isoText(r.at) + "|" + r.actor + "|" + r.action, s.target, s.status);
  }

  lemma Grouped(a: string, b: string, c: string)
    ensures a + "|" + b + "|" + c == a + "|" + (b + "|" + c)
  {
  }

  // ---- What the last hash fixes ----

  lemma SameText(c: seq<Record>, i: nat, d: seq<Record>, j: nat, k: Scheme)
    requires CollisionFree(k.digest) && Verified(c, k) && Verified(d, k) && i < |c| && j < |d|
    requires c[i].hashSelf == d[j].hashSelf
    ensures Hashed(c[i], k) == Hashed(d[j], k)
      && PrevText(c[i].hashPrev) == PrevText(d[j].hashPrev)
  {
    LinkAt(c, i, k);
    LinkAt(d, j, k);
    PrevHasNoBar(c, i, k);
    PrevHasNoBar(d, j, k);
    hide Verified, NoBar, Without;
    SamePrev(c[i], d[j], k);
  }

  lemma SamePrev(r: Record, s: Record, k: Scheme)
    requires Hashed(r, k) == Hashed(s, k) && NoBar(PrevText(r.hashPrev))
      && NoBar(PrevText(s.hashPrev))
    ensures PrevText(r.hashPrev) == PrevText(s.hashPrev)
  {
    hide Without;
    LastField('|', k.idText(r.id) + "|" + k.isoText(r.at) + "|" + r.actor + "|" + r.action + "|" + r.target + "|" + r.status, PrevText(r.hashPrev),
              k.idText(s.id) + "|" + k.isoText(s.at) + "|" + s.actor + "|" + s.action + "|" + s.target + "|" + s.status, PrevText(s.hashPrev));
  }

  lemma PrevHasNoBar(c: seq<Record>, i: nat, k: Scheme)
    requires CollisionFree(k.digest) && Verified(c, k) && i < |c|
    ensures NoBar(PrevText(c[i].hashPrev))
    ensures i > 0 ==>
      PrevText(c[i].hashPrev) != "" && c[i].hashPrev == c[i - 1].hashSelf && c[i].hashPrev.Some?
    ensures i == 0 ==> PrevText(c[i].hashPrev) == ""
  {
    LinkAt(c, i, k);
    if i > 0 { LinkAt(c, i - 1, k); }
  }

  /** Records with the same hash follow records with the same hash. */
  lemma StepBack(c: seq<Record>, i: nat, d: seq<Record>, j: nat, k: Scheme)
    requires CollisionFree(k.digest) && Verified(c, k) && Verified(d, k) && i < |c| && j < |d|
    requires c[i].hashSelf == d[j].hashSelf
    ensures Hashed(c[i], k) == Hashed(d[j], k) && c[i].hashPrev == d[j].hashPrev
    ensures if i > 0 then j > 0 && c[i - 1].hashSelf == d[j - 1].hashSelf else j == 0
  {
    SameText(c, i, d, j, k);
    PrevHasNoBar(c, i, k);
    PrevHasNoBar(d, j, k);
  }

  /** Two verified chains that agree on one hash have equally many records up to there,
      with the same hashed texts. */
  lemma {:induction false} HashFixesHistory(c: seq<Record>, i: nat, d: seq<Record>, j: nat, k: Scheme)
    requires CollisionFree(k.digest) && Verified(c, k) && Verified(d, k) && i < |c| && j < |d|
    requires c[i].hashSelf == d[j].hashSelf
    ensures i == j
    ensures forall n :: 0 <= n <= i ==> SameHash(c[n], d[n], k)
    decreases i
  {
    hide Hashed, CollisionFree, Verified;
    StepBack(c, i, d, j, k);
    if i > 0 { HashFixesHistory(c, i - 1, d, j - 1, k); }
  }

  /** Same hashed text, same hash, same link. */
  ghost predicate SameHash(r: Record, s: Record, k: Scheme) {
    Hashed(r, k) == Hashed(s, k) && r.hashSelf == s.hashSelf && r.hashPrev == s.hashPrev
  }

  /** Chains that verify and end in the same hash tell the same history. */
  lemma SameLastHashSameHistory(c: seq<Record>, d: seq<Record>, k: Scheme)
    requires CollisionFree(k.digest) && Verified(c, k) && Verified(d, k) && c != [] && d != []
    requires SelfOfLast(c) == SelfOfLast(d)
    ensures |c| == |d| && forall n :: 0 <= n < |c| ==> SameHash(c[n], d[n], k)
  {
    hide Hashed, CollisionFree, Verified;
    HashFixesHistory(c, |c| - 1, d, |d| - 1, k);
  }

  /** Fields outside the hash can be changed without breaking the chain. */
  lemma UnhashedFieldsAreFree(c: seq<Record>, i: nat, decision: string, run: string, k: Scheme)
    requires Verified(c, k) && i < |c|
    ensures Verified(c[i := c[i].(decision := decision, run := run)], k)
  {
    hide Hashed;
    var d := c[i := c[i].(decision := decision, run := run)];
    forall j | 0 <= j < |d| ensures FaultOf(SelfOfLast(d[..j]), d[j], k).None? {
      LinkAt(c, j, k);
      SameHashed(c[i], decision, run, k);
      if j > 0 { assert d[..j][j - 1] == d[j - 1]; }
    }
  }

  lemma SameHashed(r: Record, decision: string, run: string, k: Scheme)
    ensures Hashed(r.(decision := decision, run := run), k) == Hashed(r, k)
  {
  }

  // ---- Dropping records ----

  function Pick(c: seq<Record>, keep: seq<bool>): seq<Record>
    requires |keep| == |c|
  {
    if c == [] then []
    else
      var n := |c| - 1;
      Pick(c[..n], keep[..n]) + if keep[n] then [c[n]] else []
  }

  predicate NothingBeforeKept(keep: seq<bool>) {
    forall i, j :: 0 <= i < j < |keep| && keep[j] ==> keep[i]
  }

  lemma {:induction false} PickAll(c: seq<Record>, keep: seq<bool>)
    requires |keep| == |c| && forall i :: 0 <= i < |keep| ==> keep[i]
    ensures Pick(c, keep) == c
  {
    if c != [] { PickAll(c[..|c| - 1], keep[..|c| - 1]); }
  }

  /** When nothing is dropped before a kept record, a prefix remains. */
  lemma {:induction false} PickPrefix(c: seq<Record>, keep: seq<bool>) returns (m: nat)
    requires |keep| == |c| && NothingBeforeKept(keep)
    ensures m <= |c| && Pick(c, keep) == c[..m]
      && forall i :: 0 <= i < |c| ==> (keep[i] <==> i < m)
  {
    m := 0;
    if c != [] {
      var n := |c| - 1;
      m := PickPrefix(c[..n], keep[..n]);
      assert c[..n][..m] == c[..m];
      if keep[n] {
        PickAll(c, keep);
        assert c[..n + 1] == c;
        m := n + 1;
      }
    }
  }

  /** Dropping records from a verified chain leaves one that verifies exactly when
      nothing is missing before a record that is kept: a tail may go, a leading or
      middle part may not. */
  lemma {:induction false} DroppingBreaksTheChain(c: seq<Record>, keep: seq<bool>, k: Scheme)
    requires CollisionFree(k.digest) && Verified(c, k) && |keep| == |c|
    ensures Verified(Pick(c, keep), k) <==> NothingBeforeKept(keep)
  {
    hide CollisionFree, Verified;
    if NothingBeforeKept(keep) {
      var m := PickPrefix(c, keep);
      PrefixVerified(c, m, k);
    } else {
      var n := |c| - 1;
      PrefixVerified(c, n, k);
      DroppingBreaksTheChain(c[..n], keep[..n], k);
      if !keep[n] {
        assert Pick(c, keep) == Pick(c[..n], keep[..n]);
      } else if !NothingBeforeKept(keep[..n]) {
        BrokenStaysBroken(Pick(c[..n], keep[..n]), c[n], k);
      } else {
        var m := PickPrefix(c[..n], keep[..n]);
        assert m < n;
        SkippedLink(c, m, n, k);
        assert c[..n][..m] == c[..m];
      }
    }
  }

  lemma BrokenStaysBroken(c: seq<Record>, r: Record, k: Scheme)
    requires !Verified(c, k)
    ensures !Verified(c + [r], k)
  {
    var d := c + [r];
    var i :| 0 <= i < |c| && FaultOf(SelfOfLast(c[..i]), c[i], k).Some?;
    assert d[..i] == c[..i] && d[i] == c[i];
  }

  /** A record does not follow an earlier one that is not its predecessor. */
  lemma SkippedLink(c: seq<Record>, m: nat, n: nat, k: Scheme)
    requires CollisionFree(k.digest) && Verified(c, k) && m < n < |c|
    ensures !Verified(c[..m] + [c[n]], k)
  {
    hide CollisionFree, Verified, FaultOf, Hashed, NoBar;
    PrevHasNoBar(c, n, k);
    if Verified(c[..m] + [c[n]], k) {
      AppendedLink(c, m, c[n], k);
      if m > 0 { HashFixesHistory(c, m - 1, c, n - 1, k); }
    }
  }

  lemma AppendedLink(c: seq<Record>, m: nat, r: Record, k: Scheme)
    requires m <= |c| && Verified(c[..m] + [r], k)
    ensures r.hashPrev == if m == 0 then None else c[m - 1].hashSelf
  {
    LinkAt(c[..m] + [r], m, k);
  }
}
