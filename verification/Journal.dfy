/** Before and after snapshots with spill files, and planning a restore from them
    (sidecar/orca_core/journal/store.py, sidecar/orca_core/journal/restore.py). */
module Journals {
  import opened Wrappers
  import opened Fields

  const SPILL_THRESHOLD := 256 * 1024

  /** A payload is the value of a JSON object. */
  type Payload = string

  /** What a spill file holds; a write that broke off leaves it unreadable. */
  datatype Content = Readable(payload: Payload) | Torn

  type Files = map<string, Content>

  datatype Entry = Entry(
    id: string, before: Option<Payload>, after: Option<Payload>,
    beforeRef: Option<string>, afterRef: Option<string>, reversible: bool)

  datatype JournalError = WriteError | SpillError | InvalidEntry

  datatype SpillFault = NoFault | NotOpened | BrokenOff

  // ---- Paths ----

  function SpillPath(base: string, run: string, id: string, suffix: string): string {
    base + "/" + run + "/" + id + "." + suffix + ".bin"
  }

  /** Ids are UUID texts, so they have neither slashes nor dots. */
  predicate PlainId(id: string) {
    Without('/', id) && Without('.', id)
  }

  predicate IsSuffix(suffix: string) {
    suffix == "before" || suffix == "after"
  }

  /** A spill path determines its entry and its phase, whatever the runs are. */
  lemma PathsAreOwn(base: string, run: string, id: string, suffix: string, run2: string, id2: string, suffix2: string)
    requires PlainId(id) && PlainId(id2) && IsSuffix(suffix) && IsSuffix(suffix2)
    requires SpillPath(base, run, id, suffix) == SpillPath(base, run2, id2, suffix2)
    ensures id == id2 && suffix == suffix2
  {
    var name, name2 := id + ['.'] + (suffix + ".bin"), id2 + ['.'] + (suffix2 + ".bin");
    PathEnds(base, run, id, suffix);
    PathEnds(base, run2, id2, suffix2);
    hide PlainId, IsSuffix, SpillPath;
    LastField('/', base + "/" + run, name, base + "/" + run2, name2);
    FirstField('.', id, suffix + ".bin", id2, suffix2 + ".bin");
    assert suffix == (suffix + ".bin")[..|suffix + ".bin"| - 4] && suffix2 == (suffix2 + ".bin")[..|suffix2 + ".bin"| - 4];
  }

  lemma PathEnds(base: string, run: string, id: string, suffix: string)
    requires PlainId(id) && IsSuffix(suffix)
    ensures var name := id + ['.'] + (suffix + ".bin");
      SpillPath(base, run, id, suffix) == base + "/" + run + ['/'] + name && Without('/', name)
    ensures Without('.', id)
  {
    var name := id + ['.'] + (suffix + ".bin");
    assert Without('/', "before") && Without('/', "after") && Without('/', ".bin");
    assert base + "/" + run + "/" + id + "." + suffix + ".bin" == base + "/" + run + ['/'] + name;
  }

  ghost predicate OwnPath(base: string, path: string, id: string, suffix: string) {
    exists run :: path == SpillPath(base, run, id, suffix)
  }

  // ---- What is stored for a payload ----

  /** The inline value or the file stands for exactly this payload. */
  ghost predicate Keeps(base: string, files: Files, inline: Option<Payload>, ref: Option<string>, payload: Option<Payload>, id: string, suffix: string) {
    if payload.None? then inline.None? && ref.None?
    else if ref.None? then inline == payload
    else inline.None? && OwnPath(base, ref.value, id, suffix) && ref.value in files && files[ref.value] == Readable(payload.value)
  }

  /** Writing a spill file leaves what other entries and the other phase have stored. */
  lemma WriteKeepsOthers(base: string, files: Files, run: string, id: string, suffix: string, c: Content,
                         inline: Option<Payload>, ref: Option<string>, payload: Option<Payload>, id2: string, suffix2: string)
    requires PlainId(id) && PlainId(id2) && IsSuffix(suffix) && IsSuffix(suffix2)
      && (id != id2 || suffix != suffix2)
    requires Keeps(base, files, inline, ref, payload, id2, suffix2)
    ensures Keeps(base, files[SpillPath(base, run, id, suffix) := c], inline, ref, payload, id2, suffix2)
  {
    hide SpillPath, PlainId, IsSuffix;
    if payload.Some? && ref.Some? && ref.value == SpillPath(base, run, id, suffix) {
      var run2 :| ref.value == SpillPath(base, run2, id2, suffix2);
      PathsAreOwn(base, run, id, suffix, run2, id2, suffix2);
    }
  }

  // ---- Planning a restore ----

  datatype Plan = NotReversible | NoBefore | Conflict | Ready(target: Payload) | LoadFails

  /** `load_payload`; `None` when the file is missing or unreadable. */
  function Load(files: Files, ref: string): Option<Payload> {
    if ref in files && files[ref].Readable? then Some(files[ref].payload) else None
  }

  function PlanRestore(files: Files, e: Entry, current: Option<Payload>, checksum: Payload -> string): Plan {
    if !e.reversible then NotReversible
    else if e.before.None? && e.beforeRef.None? then NoBefore
    else
      var before := if e.before.Some? then e.before else Load(files, e.beforeRef.value);
      if before.None? then LoadFails
      else if e.after.None? && e.afterRef.Some? && Load(files, e.afterRef.value).None? then LoadFails
      else
        var after := if e.after.Some? then e.after else if e.afterRef.Some? then Load(files, e.afterRef.value) else None;
        if current.Some? && after.Some? && checksum(after.value) != checksum(current.value) then Conflict
        else Ready(before.value)
  }

  /** Which plan an entry gets, whatever happened to its files: irreversible entries and
      those without a before are never restored; a before or after that cannot be loaded
      fails; a current state that differs from the after in its checksum is a conflict; and
      only then the before is the target.  Inline payloads win over files. */
  lemma PlanExactly(files: Files, e: Entry, current: Option<Payload>, checksum: Payload -> string)
    ensures var before := if e.before.Some? then e.before else if e.beforeRef.Some? then Load(files, e.beforeRef.value) else None;
      var after := if e.after.Some? then e.after else if e.afterRef.Some? then Load(files, e.afterRef.value) else None;
      var plan := PlanRestore(files, e, current, checksum);
      var hasBefore, hasAfter := e.before.Some? || e.beforeRef.Some?, e.after.Some? || e.afterRef.Some?;
      && (plan == NotReversible <==> !e.reversible)
      && (plan == NoBefore <==> e.reversible && !hasBefore)
      && (plan == LoadFails <==> e.reversible && hasBefore && (before.None? || (hasAfter && after.None?)))
      && (plan == Conflict <==>
          (&& e.reversible && before.Some? && after.Some? && current.Some?
           && checksum(after.value) != checksum(current.value)))
      && (plan.Ready? ==> before == Some(plan.target))
  {
  }

  ghost predicate Injective(checksum: Payload -> string) {
    forall p, q :: checksum(p) == checksum(q) ==> p == q
  }

  /** The plan for an entry whose before and after are stored as recorded. */
  lemma PlanForKept(base: string, files: Files, e: Entry, before: Payload, after: Option<Payload>, current: Option<Payload>, checksum: Payload -> string)
    requires e.reversible && Injective(checksum)
    requires Keeps(base, files, e.before, e.beforeRef, Some(before), e.id, "before")
    requires Keeps(base, files, e.after, e.afterRef, after, e.id, "after")
    ensures PlanRestore(files, e, current, checksum) == if current.Some? && after.Some? && current != after then Conflict else Ready(before)
  {
    hide OwnPath;
    if current.Some? && after.Some? && checksum(after.value) == checksum(current.value) { assert after == current; }
  }

  /** When the after was spilled, the plan follows the file: a row whose file was
      overwritten is ready for its recorded after exactly if the file still has it. */
  lemma PlanFollowsTheFile(base: string, files: Files, e: Entry, before: Payload, recorded: Payload, checksum: Payload -> string)
    requires e.reversible && Injective(checksum) && e.after.None? && e.afterRef.Some?
      && e.afterRef.value in files
    requires Keeps(base, files, e.before, e.beforeRef, Some(before), e.id, "before")
    ensures PlanRestore(files, e, Some(recorded), checksum) == Ready(before) <==>
      files[e.afterRef.value] == Readable(recorded)
  {
    hide OwnPath;
    var c := files[e.afterRef.value];
    if c.Readable? && checksum(c.payload) == checksum(recorded) { assert c.payload == recorded; }
  }

  // ---- The store ----

  ghost predicate AllOk(base: string, files: Files, rows: map<string, Entry>,
                        befores: map<string, Option<Payload>>, afters: map<string, Option<Payload>>, spoiled: set<string>) {
    && rows.Keys == befores.Keys == afters.Keys && spoiled <= rows.Keys
    && forall id :: id in rows ==> RowOk(base, files, id, rows[id], befores[id], afters[id], id in spoiled)
  }

  /** Rows stay as they are when a spill file was written that no unspoiled row refers to. */
  lemma AllKeep(base: string, files: Files, rows: map<string, Entry>,
                befores: map<string, Option<Payload>>, afters: map<string, Option<Payload>>, spoiled: set<string>,
                run: string, id: string, suffix: string, c: Content, more: set<string>)
    requires AllOk(base, files, rows, befores, afters, spoiled) && PlainId(id)
      && IsSuffix(suffix)
    requires spoiled <= more <= spoiled + {id} && more <= rows.Keys
    requires id in rows ==>
      suffix == "after" && (id in more || rows[id].afterRef != Some(SpillPath(base, run, id, suffix)))
    ensures AllOk(base, files[SpillPath(base, run, id, suffix) := c], rows, befores, afters, more)
  {
    hide RowOk, SpillPath, PlainId, IsSuffix;
    forall x | x in rows ensures RowOk(base, files[SpillPath(base, run, id, suffix) := c], x, rows[x], befores[x], afters[x], x in more) {
      if x in more { Spoil(base, files, x, rows[x], befores[x], afters[x], x in spoiled); }
      RowKeeps(base, files, run, id, suffix, c, x, rows[x], befores[x], afters[x], x in more);
    }
  }

  /** A written after spoils the row that refers to its file, and no other. */
  lemma AfterWritten(base: string, files: Files, rows: map<string, Entry>,
                     befores: map<string, Option<Payload>>, afters: map<string, Option<Payload>>, spoiled: set<string>,
                     run: string, id: string, c: Content)
    requires AllOk(base, files, rows, befores, afters, spoiled) && PlainId(id)
    ensures var path := SpillPath(base, run, id, "after");
      AllOk(base, files[path := c], rows, befores, afters,
            if id in rows && rows[id].afterRef == Some(path) then spoiled + {id} else spoiled)
  {
    hide RowOk, SpillPath, PlainId;
    var path := SpillPath(base, run, id, "after");
    AllKeep(base, files, rows, befores, afters, spoiled, run, id, "after", c,
            if id in rows && rows[id].afterRef == Some(path) then spoiled + {id} else spoiled);
  }

  /** A row with a newly recorded after is not spoiled any more. */
  lemma RecordedAfter(base: string, files: Files, rows: map<string, Entry>,
                      befores: map<string, Option<Payload>>, afters: map<string, Option<Payload>>, spoiled: set<string>,
                      id: string, inline: Option<Payload>, ref: Option<string>, after: Option<Payload>)
    requires AllOk(base, files, rows, befores, afters, spoiled) && id in rows
    requires Keeps(base, files, inline, ref, after, id, "after")
    ensures AllOk(base, files, rows[id := rows[id].(after := inline, afterRef := ref)], befores, afters[id := after], spoiled - {id})
  {
    hide RowOk, Keeps;
    Spoil(base, files, id, rows[id], befores[id], afters[id], id in spoiled);
    NewAfterOk(base, files, id, rows[id], befores[id], afters[id], inline, ref, after);
    OneMoreRow(base, files, rows, befores, afters, spoiled, id, rows[id].(after := inline, afterRef := ref), befores[id], after);
    assert befores[id := befores[id]] == befores;
  }

  /** A new or a newly recorded row. */
  lemma OneMoreRow(base: string, files: Files, rows: map<string, Entry>,
                   befores: map<string, Option<Payload>>, afters: map<string, Option<Payload>>, spoiled: set<string>,
                   id: string, e: Entry, before: Option<Payload>, after: Option<Payload>)
    requires rows.Keys == befores.Keys == afters.Keys && spoiled <= rows.Keys
    requires forall x :: x in rows && x != id ==> RowOk(base, files, x, rows[x], befores[x], afters[x], x in spoiled)
    requires RowOk(base, files, id, e, before, after, false)
    ensures AllOk(base, files, rows[id := e], befores[id := before], afters[id := after], spoiled - {id})
  {
    hide RowOk;
  }

  /** A row stands for what was recorded for it; a spoiled one only for its before. */
  ghost predicate RowOk(base: string, files: Files, id: string, e: Entry, before: Option<Payload>, after: Option<Payload>, spoiled: bool) {
    && e.id == id && PlainId(id) && (e.reversible ==> before.Some?)
    && Keeps(base, files, e.before, e.beforeRef, before, id, "before")
    && (!spoiled ==> Keeps(base, files, e.after, e.afterRef, after, id, "after"))
  }

  /** Writing a spill file that an unspoiled row does not refer to. */
  lemma RowKeeps(base: string, files: Files, run: string, id: string, suffix: string, c: Content,
                 x: string, e: Entry, before: Option<Payload>, after: Option<Payload>, spoiled: bool)
    requires RowOk(base, files, x, e, before, after, spoiled) && PlainId(id) && IsSuffix(suffix)
    requires x != id || (suffix == "after" && (spoiled || e.afterRef != Some(SpillPath(base, run, id, suffix))))
    ensures RowOk(base, files[SpillPath(base, run, id, suffix) := c], x, e, before, after, spoiled)
  {
    hide SpillPath, PlainId, OwnPath;
    assert IsSuffix("before") && IsSuffix("after");
    WriteKeepsOthers(base, files, run, id, suffix, c, e.before, e.beforeRef, before, x, "before");
    if !spoiled && x != id { WriteKeepsOthers(base, files, run, id, suffix, c, e.after, e.afterRef, after, x, "after"); }
  }

  lemma Spoil(base: string, files: Files, x: string, e: Entry, before: Option<Payload>, after: Option<Payload>, spoiled: bool)
    requires RowOk(base, files, x, e, before, after, spoiled)
    ensures RowOk(base, files, x, e, before, after, true)
  {
  }

  class JournalStore {
    const base: string
    const size: Payload -> nat
    var files: Files
    /** Rows of the journal table. */
    var rows: map<string, Entry>
    /** What the last successful recording told for each row. */
    ghost var befores: map<string, Option<Payload>>
    ghost var afters: map<string, Option<Payload>>
    /** Rows whose spilled after was overwritten by a recording that then failed or was
        rolled back. */
    ghost var spoiled: set<string>
    /** The table as last committed, and what was told for its rows; a rollback returns
        to it, but spill files stay as they are. */
    var committed: map<string, Entry>
    ghost var committedBefores: map<string, Option<Payload>>
    ghost var committedAfters: map<string, Option<Payload>>
    ghost var committedSpoiled: set<string>

    /** Every row stands for what was recorded for it. */
    ghost predicate Valid()
      reads this
    {
      && AllOk(base, files, rows, befores, afters, spoiled)
      && AllOk(base, files, committed, committedBefores, committedAfters, committedSpoiled)
      && committed.Keys <= rows.Keys
    }

    ghost predicate SameCommitted(table: map<string, Entry>, before: map<string, Option<Payload>>, after: map<string, Option<Payload>>)
      reads this
    {
      committed == table && committedBefores == before && committedAfters == after
    }

    constructor (base: string, size: Payload -> nat)
      ensures Valid() && rows == map[] && this.base == base && this.size == size
    {
      this.base, this.size := base, size;
      files, rows, befores, afters, spoiled := map[], map[], map[], map[], {};
      committed, committedBefores, committedAfters, committedSpoiled := map[], map[], map[], {};
    }

    /** The surrounding transaction ends well. */
    method Commit()
      requires Valid()
      modifies this`committed, this`committedBefores, this`committedAfters, this`committedSpoiled
      ensures Valid() && SameCommitted(rows, befores, afters) && committedSpoiled == spoiled
    {
      committed, committedBefores, committedAfters, committedSpoiled := rows, befores, afters, spoiled;
    }

    /** The surrounding transaction fails: the table goes back, the files do not. */
    method Rollback()
      requires Valid()
      modifies this`rows, this`befores, this`afters, this`spoiled
      ensures Valid() && SameCommitted(rows, befores, afters) && spoiled == committedSpoiled
    {
      rows, befores, afters, spoiled := committed, committedBefores, committedAfters, committedSpoiled;
    }

    predicate Spills(payload: Option<Payload>) {
      payload.Some? && size(payload.value) > SPILL_THRESHOLD
    }

    /** `_maybe_spill`: inline, or a file and its path. */
    method MaybeSpill(run: string, id: string, suffix: string, payload: Option<Payload>, fault: SpillFault)
      returns (ok: bool, inline: Option<Payload>, ref: Option<string>)
      modifies this`files
      ensures ok == !(Spills(payload) && fault != NoFault)
      ensures files == if !Spills(payload) || fault.NotOpened? then old(files)
        else old(files)[SpillPath(base, run, id, suffix) := if ok then Readable(payload.value) else Torn]
      ensures ok ==> Keeps(base, files, inline, ref, payload, id, suffix)
      ensures ok && payload.Some? ==>
        (inline.Some? <==> size(payload.value) <= 262144) && (ref.Some? <==> size(payload.value) > 262144)
      ensures ok ==>
        inline == (if Spills(payload) then None else payload) && ref == if Spills(payload) then Some(SpillPath(base, run, id, suffix)) else None
    {
      hide SpillPath;
      if payload.None? { return true, None, None; }
      if size(payload.value) <= SPILL_THRESHOLD { return true, payload, None; }
      var path := SpillPath(base, run, id, suffix);
      match fault {
        case NotOpened => return false, None, None;
        case BrokenOff => files := files[path := Torn]; return false, None, None;
        case NoFault => files := files[path := Readable(payload.value)];
      }
      assert OwnPath(base, path, id, suffix);
      return true, None, Some(path);
    }

    /** `record_before` for a new id. */
    method RecordBefore(run: string, id: string, before: Option<Payload>, reversible: bool, fault: SpillFault, insertFails: bool)
      returns (r: Result<Entry, JournalError>)
      requires Valid() && PlainId(id) && id !in rows
      modifies this
      ensures Valid() && spoiled == old(spoiled)
      ensures SameCommitted(old(committed), old(committedBefores), old(committedAfters))
        && committedSpoiled == old(committedSpoiled)
      ensures r.Ok? <==>
        run != "" && !(Spills(before) && fault != NoFault) && (reversible ==> before.Some?) && !insertFails
      ensures r.Ok? ==>
        rows == old(rows)[id := r.value] && befores == old(befores)[id := before] && afters == old(afters)[id := None]
      ensures r.Ok? ==> r.value.reversible == reversible && r.value.id == id
      ensures r.Err? ==> rows == old(rows) && befores == old(befores) && afters == old(afters)
      ensures r.Err? ==> r.error == if run == "" then WriteError
        else if Spills(before) && fault != NoFault then SpillError else if reversible && before.None? then InvalidEntry else WriteError
      ensures forall p :: p in old(files) && p != SpillPath(base, run, id, "before") ==> p in files && files[p] == old(files)[p]
    {
      hide RowOk, SpillPath, PlainId, Keeps;
      if run == "" { return Err(WriteError); }
      var ok, inline, ref := MaybeSpill(run, id, "before", before, fault);
      ghost var c := if ok && before.Some? then Readable(before.value) else Torn;
      AllKeep(base, old(files), rows, befores, afters, spoiled, run, id, "before", c, spoiled);
      AllKeep(base, old(files), committed, committedBefores, committedAfters, committedSpoiled, run, id, "before", c, committedSpoiled);
      if !ok { return Err(SpillError); }
      if reversible && before.None? { return Err(InvalidEntry); }
      var e := Entry(id, inline, None, ref, None, reversible);
      if insertFails { return Err(WriteError); }
      NewRowOk(base, files, id, e, before);
      OneMoreRow(base, files, rows, befores, afters, spoiled, id, e, before, None);
      rows, befores, afters := rows[id := e], befores[id := before], afters[id := None];
      return Ok(e);
    }

    /** `record_after`.  When the update of the table fails after a spill, the file has
        already been overwritten; if the row still refers to it, the row is spoiled. */
    method RecordAfter(entry: Entry, run: string, after: Option<Payload>, fault: SpillFault, updateFails: bool)
      returns (r: Result<Entry, JournalError>)
      requires Valid() && PlainId(entry.id)
      modifies this
      ensures Valid() && befores == old(befores)
      ensures SameCommitted(old(committed), old(committedBefores), old(committedAfters))
      ensures committedSpoiled ==
        if Overwrites(run, committed, entry.id, after, fault) then old(committedSpoiled) + {entry.id} else old(committedSpoiled)
      ensures r.Ok? <==>
        run != "" && !(Spills(after) && fault != NoFault) && !updateFails && entry.id in old(rows)
      ensures r.Ok? ==>
        && r.value == entry.(after := r.value.after, afterRef := r.value.afterRef)
        && rows == old(rows)[entry.id := old(rows)[entry.id].(after := r.value.after, afterRef := r.value.afterRef)]
        && afters == old(afters)[entry.id := after] && spoiled == old(spoiled) - {entry.id}
      ensures r.Err? ==> rows == old(rows) && afters == old(afters)
      ensures r.Err? ==>
        r.error == if run != "" && Spills(after) && fault != NoFault then SpillError else WriteError
      ensures r.Err? ==>
        spoiled == if Overwrites(run, old(rows), entry.id, after, fault) then old(spoiled) + {entry.id} else old(spoiled)
      ensures r.Err? && Overwrites(run, old(rows), entry.id, after, fault) ==>
        var path := SpillPath(base, run, entry.id, "after");
        path in files && files[path] == if fault.NoFault? then Readable(after.value) else Torn
      ensures forall p :: p in old(files) && p != SpillPath(base, run, entry.id, "after") ==> p in files && files[p] == old(files)[p]
    {
      hide RowOk, SpillPath, PlainId, Keeps, AllOk;
      if run == "" { return Err(WriteError); }
      var id := entry.id;
      var ok, inline, ref := SpillAfter(run, id, after, fault);
      if !ok || updateFails || id !in rows { return Err(if ok then WriteError else SpillError); }
      RecordedAfter(base, files, rows, befores, afters, spoiled, id, inline, ref, after);
      rows, afters := rows[id := rows[id].(after := inline, afterRef := ref)], afters[id := after];
      spoiled := spoiled - {id};
      return Ok(entry.(after := inline, afterRef := ref));
    }

    /** Spilling an after snapshot may overwrite the file of an earlier one: the row is
        spoiled until it is recorded anew, and so is its committed version. */
    method SpillAfter(run: string, id: string, after: Option<Payload>, fault: SpillFault)
      returns (ok: bool, inline: Option<Payload>, ref: Option<string>)
      requires Valid() && PlainId(id) && run != ""
      modifies this`files, this`spoiled, this`committedSpoiled
      ensures Valid()
      ensures ok == !(Spills(after) && fault != NoFault)
      ensures ok ==> Keeps(base, files, inline, ref, after, id, "after")
      ensures spoiled == if Overwrites(run, rows, id, after, fault) then old(spoiled) + {id} else old(spoiled)
      ensures committedSpoiled ==
        if Overwrites(run, committed, id, after, fault) then old(committedSpoiled) + {id} else old(committedSpoiled)
      ensures files == if !Spills(after) || fault.NotOpened? then old(files)
        else old(files)[SpillPath(base, run, id, "after") := if ok then Readable(after.value) else Torn]
    {
      hide AllOk, SpillPath, PlainId, Keeps;
      ok, inline, ref := MaybeSpill(run, id, "after", after, fault);
      if Spills(after) && !fault.NotOpened? {
        ghost var c := if ok then Readable(after.value) else Torn;
        AfterWritten(base, old(files), rows, befores, afters, spoiled, run, id, c);
        AfterWritten(base, old(files), committed, committedBefores, committedAfters, committedSpoiled, run, id, c);
        if Overwrites(run, rows, id, after, fault) { spoiled := spoiled + {id}; }
        if Overwrites(run, committed, id, after, fault) { committedSpoiled := committedSpoiled + {id}; }
      }
    }

    /** After any sequence of recordings: against the recorded after state the plan is
        ready with the entry's own before payload, against any other it is a conflict. */
    lemma RestoreReturnsBefore(id: string, current: Option<Payload>, checksum: Payload -> string)
      requires Valid() && Injective(checksum)
      requires id in rows && rows[id].reversible && id !in spoiled
      ensures id in befores && id in afters && befores[id].Some?
      ensures PlanRestore(files, rows[id], current, checksum) ==
        if current.Some? && afters[id].Some? && current != afters[id] then Conflict else Ready(befores[id].value)
    {
      hide Keeps, PlanRestore, PlainId;
      PlanForKept(base, files, rows[id], befores[id].value, afters[id], current, checksum);
    }

    /** A recording touches the file the row refers to. */
    predicate Overwrites(run: string, table: map<string, Entry>, id: string, after: Option<Payload>, fault: SpillFault) {
      run != "" && Spills(after) && !fault.NotOpened? && id in table && table[id].afterRef == Some(SpillPath(base, run, id, "after"))
    }
  }

  lemma NewAfterOk(base: string, files: Files, id: string, e: Entry, before: Option<Payload>, was: Option<Payload>,
                   inline: Option<Payload>, ref: Option<string>, after: Option<Payload>)
    requires RowOk(base, files, id, e, before, was, true)
      && Keeps(base, files, inline, ref, after, id, "after")
    ensures RowOk(base, files, id, e.(after := inline, afterRef := ref), before, after, false)
  {
    hide Keeps, PlainId;
  }

  lemma NewRowOk(base: string, files: Files, id: string, e: Entry, before: Option<Payload>)
    requires PlainId(id) && e.id == id && (e.reversible ==> before.Some?)
      && e.after.None? && e.afterRef.None?
    requires Keeps(base, files, e.before, e.beforeRef, before, id, "before")
    ensures RowOk(base, files, id, e, before, None, false)
  {
    hide OwnPath, PlainId;
  }
}
