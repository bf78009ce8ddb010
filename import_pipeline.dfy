/**
 * `POST /api/admin/<kind>/import`: the four bulk-import routes. They differ
 * only in the per-record decision (the per-kind modules); the request checks,
 * the query for existing ids, the loop that inserts and audits record by
 * record and the result object are the same code in all four files.
 *
 * `Fold` is the loop as a function of its inputs; `RunImport` is the loop
 * itself, proved to compute `Fold`; the lemmas state what the loop promises.
 */
module ImportPipeline {
  import opened Wrappers
  import opened Json
  import opened Lists
  import opened Store
  import opened ImportCommon
  import ProjectsImport
  import ExperienceImport
  import SkillsImport
  import CertificationsImport

  datatype Kind = Projects | Experience | Skills | Certifications

  /** The body key, the table name and the `table_name` of the audit rows. */
  function Plural(kind: Kind): string {
    match kind
    case Projects => "projects"
    case Experience => "experience"
    case Skills => "skills"
    case Certifications => "certifications"
  }

  /** The entity name in the duplicate message. */
  function Entity(kind: Kind): string {
    match kind
    case Projects => "Project"
    case Experience => "Experience"
    case Skills => "Skill"
    case Certifications => "Certification"
  }

  function Decide(kind: Kind, raw: Value, existing: set<Value>, skip: bool): Decision {
    match kind
    case Projects => ProjectsImport.Decide(raw, existing, skip)
    case Experience => ExperienceImport.Decide(raw, existing, skip)
    case Skills => SkillsImport.Decide(raw, existing, skip)
    case Certifications => CertificationsImport.Decide(raw, existing, skip)
  }

  /** One entry of `result.errors`. */
  datatype ErrorEntry = ErrorEntry(index: nat, error: RecordError, data: Value)

  /** The `ImportResult` object the route returns. */
  datatype ImportResult = ImportResult(
    success: bool,
    imported: nat,
    failed: nat,
    errors: seq<ErrorEntry>,
    duplicates: seq<Value>)

  const Initial: ImportResult := ImportResult(true, 0, 0, [], [])

  /** `result.success = result.failed === 0`. */
  function Finish(r: ImportResult): ImportResult {
    r.(success := r.failed == 0)
  }

  /** The per-record checks of a route, given the ids found before the loop
      and `body.skipDuplicates !== false`. */
  function Decider(kind: Kind, existing: set<Value>, skip: bool): Value -> Decision {
    raw => Decide(kind, raw, existing, skip)
  }

  /** What stays fixed during one import: the route, the signed-in
      administrator, the table's behaviour and the per-record checks. */
  datatype Run = Run(kind: Kind, user: AdminUser, rules: TableRules, decide: Value -> Decision)

  /** The state the loop changes: the result, the table's rows and the audit log. */
  datatype Progress = Progress(result: ImportResult, rows: seq<Record>, audit: seq<AuditEntry>)

  /** The audit row written after a successful insert of `stored`. */
  function CreateEntry(run: Run, stored: Record): AuditEntry {
    AuditEntry(run.user.id, Plural(run.kind), Column(stored, "id"), Create, None, Some(stored))
  }

  function Fail(p: Progress, i: nat, e: RecordError, raw: Value): Progress {
    p.(result := p.result.(failed := p.result.failed + 1, errors := p.result.errors + [ErrorEntry(i, e, raw)]))
  }

  /** The loop body for record `i`. */
  function Step(run: Run, p: Progress, i: nat, raw: Value): Progress {
    var d := run.decide(raw);
    var q := p.(result := p.result.(duplicates := p.result.duplicates + (if d.duplicate.Some? then [d.duplicate.value] else [])));
    match d.verdict
    case Reject(e) => Fail(q, i, e, raw)
    case Insert(row) =>
      match InsertOutcome(run.rules, q.rows, row)
      case Err(message) => Fail(q, i, StoreFailure(message), raw)
      case Ok(stored) =>
        Progress(q.result.(imported := q.result.imported + 1), q.rows + [stored], q.audit + [CreateEntry(run, stored)])
  }

  /** Whether record `raw` fails at a step that starts with the rows `rows`. */
  predicate StepFails(run: Run, rows: seq<Record>, raw: Value) {
    var d := run.decide(raw);
    d.verdict.Reject? || InsertOutcome(run.rules, rows, d.verdict.row).Err?
  }

  function DuplicateOf(d: Decision): seq<Value> {
    if d.duplicate.Some? then [d.duplicate.value] else []
  }

  /** One step either fails, adding one error entry for index `i` and leaving
      rows and log alone, or inserts, adding one row and its CREATE entry. */
  lemma StepShape(run: Run, p: Progress, i: nat, raw: Value)
    ensures var q := Step(run, p, i, raw);
      && q.result.success == p.result.success
      && q.result.duplicates == p.result.duplicates + DuplicateOf(run.decide(raw))
      && (StepFails(run, p.rows, raw) ==>
            && q.rows == p.rows && q.audit == p.audit
            && q.result.imported == p.result.imported && q.result.failed == p.result.failed + 1
            && |q.result.errors| == |p.result.errors| + 1
            && q.result.errors[..|p.result.errors|] == p.result.errors
            && q.result.errors[|p.result.errors|].index == i
            && q.result.errors[|p.result.errors|].data == raw
            && q.result.errors[|p.result.errors|].error ==
                 (var d := run.decide(raw);
                  if d.verdict.Reject? then d.verdict.error
                  else StoreFailure(InsertOutcome(run.rules, p.rows, d.verdict.row).error)))
      && (!StepFails(run, p.rows, raw) ==>
            && |q.rows| == |p.rows| + 1 && q.rows[..|p.rows|] == p.rows
            && q.rows[|p.rows|] == InsertOutcome(run.rules, p.rows, run.decide(raw).verdict.row).value
            && q.audit == p.audit + [CreateEntry(run, q.rows[|p.rows|])]
            && q.result.imported == p.result.imported + 1 && q.result.failed == p.result.failed
            && q.result.errors == p.result.errors)
  {
    var q := Step(run, p, i, raw);
    if StepFails(run, p.rows, raw) {
      assert q.result.errors[..|p.result.errors|] == p.result.errors;
    } else {
      assert q.rows[..|p.rows|] == p.rows;
    }
  }

  /** The loop over `records`, from the table's rows `rows0` and the log `audit0`. */
  function Fold(run: Run, records: seq<Value>, rows0: seq<Record>, audit0: seq<AuditEntry>): Progress
    decreases |records|
  {
    if records == [] then Progress(Initial, rows0, audit0)
    else Step(run, Fold(run, records[..|records| - 1], rows0, audit0), |records| - 1, records[|records| - 1])
  }

  /** Every record counts exactly once as imported or failed, every failure
      has one error entry, and every import one new row and one audit row. */
  lemma {:induction false} FoldCounts(run: Run, records: seq<Value>, rows0: seq<Record>, audit0: seq<AuditEntry>)
    ensures var p := Fold(run, records, rows0, audit0);
      && p.result.imported + p.result.failed == |records|
      && |p.result.errors| == p.result.failed
      && |p.rows| == |rows0| + p.result.imported
      && |p.audit| == |audit0| + p.result.imported
      && |p.result.duplicates| <= |records|
      && p.result.success
    decreases |records|
  {
    if records != [] {
      var n := |records| - 1;
      FoldCounts(run, records[..n], rows0, audit0);
      StepShape(run, Fold(run, records[..n], rows0, audit0), n, records[n]);
    }
  }

  /** Each error entry names a record of the batch and carries it, and the
      entries come in input order. */
  predicate ErrorsInOrder(errors: seq<ErrorEntry>, records: seq<Value>) {
    && (forall k :: 0 <= k < |errors| ==> errors[k].index < |records| && errors[k].data == records[errors[k].index])
    && (forall k, l :: 0 <= k < l < |errors| ==> errors[k].index < errors[l].index)
  }

  lemma {:induction false} FoldErrorIndices(run: Run, records: seq<Value>, rows0: seq<Record>, audit0: seq<AuditEntry>)
    ensures ErrorsInOrder(Fold(run, records, rows0, audit0).result.errors, records)
    decreases |records|
  {
    if records != [] {
      var n := |records| - 1;
      var init := records[..n];
      FoldErrorIndices(run, init, rows0, audit0);
      var p0 := Fold(run, init, rows0, audit0);
      var e0 := p0.result.errors;
      assert Fold(run, records, rows0, audit0) == Step(run, p0, n, records[n]);
      StepShape(run, p0, n, records[n]);
      var e := Fold(run, records, rows0, audit0).result.errors;
      forall k | 0 <= k < |e| ensures e[k].index < |records| && e[k].data == records[e[k].index] {
        if k < |e0| {
          assert e[k] == e0[k];
          assert init[e0[k].index] == records[e0[k].index];
        }
      }
      forall k, l | 0 <= k < l < |e| ensures e[k].index < e[l].index {
        assert e[k] == e0[k];
        if l < |e0| {
          assert e[l] == e0[l];
        }
      }
    }
  }

  /** One CREATE entry per row, in the same order. */
  function CreateEntries(run: Run, rows: seq<Record>): (r: seq<AuditEntry>)
    ensures |r| == |rows|
    ensures forall k :: 0 <= k < |rows| ==> r[k] == CreateEntry(run, rows[k])
  {
    if rows == [] then [] else CreateEntries(run, rows[..|rows| - 1]) + [CreateEntry(run, rows[|rows| - 1])]
  }

  /** The rows and audit entries from before the import are kept, and the log
      gained one CREATE entry per new row, in the same order. */
  predicate AuditFollowsRows(run: Run, p: Progress, rows0: seq<Record>, audit0: seq<AuditEntry>) {
    && |rows0| <= |p.rows| && p.rows[..|rows0|] == rows0
    && p.audit == audit0 + CreateEntries(run, p.rows[|rows0|..])
  }

  lemma {:induction false} FoldAudit(run: Run, records: seq<Value>, rows0: seq<Record>, audit0: seq<AuditEntry>)
    ensures AuditFollowsRows(run, Fold(run, records, rows0, audit0), rows0, audit0)
    decreases |records|
  {
    if records != [] {
      var n := |records| - 1;
      var p0 := Fold(run, records[..n], rows0, audit0);
      FoldAudit(run, records[..n], rows0, audit0);
      assert Fold(run, records, rows0, audit0) == Step(run, p0, n, records[n]);
      StepShape(run, p0, n, records[n]);
      var p := Fold(run, records, rows0, audit0);
      if |p.rows| > |p0.rows| {
        assert p.rows[..|rows0|] == p0.rows[..|rows0|];
        var added := p.rows[|rows0|..];
        assert added[..|added| - 1] == p0.rows[|rows0|..];
      }
    }
  }

  predicate ErrorAt(r: ImportResult, i: nat) {
    exists k :: 0 <= k < |r.errors| && r.errors[k].index == i
  }

  /** Record `i` has an error entry exactly when its checks reject it or the
      table refuses its row, given the rows inserted by the records before it. */
  predicate FailsExactly(run: Run, records: seq<Value>, rows0: seq<Record>, audit0: seq<AuditEntry>, r: ImportResult) {
    forall i :: 0 <= i < |records| ==>
      (ErrorAt(r, i) <==> StepFails(run, Fold(run, records[..i], rows0, audit0).rows, records[i]))
  }

  /** After one step the earlier records keep their error entries, and record
      `n` has one exactly when the step failed. */
  lemma ErrorAtAfterStep(r0: ImportResult, r: ImportResult, n: nat, failed: bool)
    requires forall k :: 0 <= k < |r0.errors| ==> r0.errors[k].index < n
    requires failed ==> |r.errors| == |r0.errors| + 1 && r.errors[..|r0.errors|] == r0.errors && r.errors[|r0.errors|].index == n
    requires !failed ==> r.errors == r0.errors
    ensures forall i :: 0 <= i < n ==> (ErrorAt(r, i) <==> ErrorAt(r0, i))
    ensures ErrorAt(r, n) <==> failed
  {
    forall i | 0 <= i < n ensures ErrorAt(r, i) <==> ErrorAt(r0, i) {
      if ErrorAt(r, i) {
        var k :| 0 <= k < |r.errors| && r.errors[k].index == i;
        assert r.errors[k] == r0.errors[k];
      }
      if ErrorAt(r0, i) {
        var k :| 0 <= k < |r0.errors| && r0.errors[k].index == i;
        assert r.errors[k] == r0.errors[k];
      }
    }
    if failed {
      assert r.errors[|r0.errors|].index == n;
    }
  }

  lemma {:induction false} FoldFailures(run: Run, records: seq<Value>, rows0: seq<Record>, audit0: seq<AuditEntry>)
    ensures FailsExactly(run, records, rows0, audit0, Fold(run, records, rows0, audit0).result)
    decreases |records|
  {
    if records != [] {
      var n := |records| - 1;
      var init := records[..n];
      FoldFailures(run, init, rows0, audit0);
      FoldErrorIndices(run, init, rows0, audit0);
      var p0 := Fold(run, init, rows0, audit0);
      assert Fold(run, records, rows0, audit0) == Step(run, p0, n, records[n]);
      StepShape(run, p0, n, records[n]);
      var r := Fold(run, records, rows0, audit0).result;
      ErrorAtAfterStep(p0.result, r, n, StepFails(run, p0.rows, records[n]));
      forall i | 0 <= i < |records|
        ensures ErrorAt(r, i) <==> StepFails(run, Fold(run, records[..i], rows0, audit0).rows, records[i])
      {
        if i < n {
          assert init[i] == records[i] && init[..i] == records[..i];
          assert ErrorAt(p0.result, i) <==> StepFails(run, Fold(run, init[..i], rows0, audit0).rows, init[i]);
        } else {
          assert records[..i] == init;
        }
      }
    }
  }

  /** A rejected record fails with the error of its check; a record that passed
      its checks can only fail with the table's message. */
  predicate ErrorsExplained(run: Run, records: seq<Value>, errors: seq<ErrorEntry>) {
    forall k :: 0 <= k < |errors| && errors[k].index < |records| ==>
      var d := run.decide(records[errors[k].index]);
      (d.verdict.Reject? ==> errors[k].error == d.verdict.error) &&
      (d.verdict.Insert? ==> errors[k].error.StoreFailure?)
  }

  lemma {:induction false} FoldErrorKinds(run: Run, records: seq<Value>, rows0: seq<Record>, audit0: seq<AuditEntry>)
    ensures ErrorsExplained(run, records, Fold(run, records, rows0, audit0).result.errors)
    decreases |records|
  {
    if records != [] {
      var n := |records| - 1;
      var init := records[..n];
      FoldErrorKinds(run, init, rows0, audit0);
      FoldErrorIndices(run, init, rows0, audit0);
      var p0 := Fold(run, init, rows0, audit0);
      assert Fold(run, records, rows0, audit0) == Step(run, p0, n, records[n]);
      StepShape(run, p0, n, records[n]);
      var r0 := p0.result;
      var r := Fold(run, records, rows0, audit0).result;
      forall k | 0 <= k < |r.errors| && r.errors[k].index < |records|
        ensures var d := run.decide(records[r.errors[k].index]);
          (d.verdict.Reject? ==> r.errors[k].error == d.verdict.error) &&
          (d.verdict.Insert? ==> r.errors[k].error.StoreFailure?)
      {
        if k < |r0.errors| {
          assert r.errors[k] == r0.errors[k];
          assert init[r0.errors[k].index] == records[r0.errors[k].index];
        }
      }
    }
  }

  /** `duplicates` holds exactly the ids the per-record checks flagged. */
  ghost predicate DuplicatesFlagged(run: Run, records: seq<Value>, dups: seq<Value>) {
    forall v :: v in dups <==> exists i :: 0 <= i < |records| && run.decide(records[i]).duplicate == Some(v)
  }

  lemma {:induction false} FoldDuplicates(run: Run, records: seq<Value>, rows0: seq<Record>, audit0: seq<AuditEntry>)
    ensures DuplicatesFlagged(run, records, Fold(run, records, rows0, audit0).result.duplicates)
    decreases |records|
  {
    if records != [] {
      var n := |records| - 1;
      var init := records[..n];
      FoldDuplicates(run, init, rows0, audit0);
      var p0 := Fold(run, init, rows0, audit0);
      assert Fold(run, records, rows0, audit0) == Step(run, p0, n, records[n]);
      assert records == init + [records[n]];
      DuplicatesStep(run, init, records[n], p0.result.duplicates, Step(run, p0, n, records[n]).result.duplicates);
    }
  }

  /** One more record adds its flagged id, if any, to the duplicates. */
  lemma DuplicatesStep(run: Run, init: seq<Value>, raw: Value, dups0: seq<Value>, dups: seq<Value>)
    requires DuplicatesFlagged(run, init, dups0)
    requires dups == dups0 + DuplicateOf(run.decide(raw))
    ensures DuplicatesFlagged(run, init + [raw], dups)
  {
    var records := init + [raw];
    forall v | exists i :: 0 <= i < |records| && run.decide(records[i]).duplicate == Some(v)
      ensures v in dups
    {
      var i :| 0 <= i < |records| && run.decide(records[i]).duplicate == Some(v);
      if i < |init| {
        assert records[i] == init[i];
      }
    }
    forall v | v in dups
      ensures exists i :: 0 <= i < |records| && run.decide(records[i]).duplicate == Some(v)
    {
      if v in dups0 {
        var i :| 0 <= i < |init| && run.decide(init[i]).duplicate == Some(v);
        assert records[i] == init[i];
      } else {
        assert records[|init|] == raw;
      }
    }
  }

  /** A record inserted at step `i` is still among the rows at any later step. */
  lemma {:induction false} RowsGrow(run: Run, records: seq<Value>, rows0: seq<Record>, audit0: seq<AuditEntry>, i: nat, j: nat)
    requires i < j <= |records|
    ensures var before := Fold(run, records[..i], rows0, audit0).rows;
      !StepFails(run, before, records[i]) ==>
        InsertOutcome(run.rules, before, run.decide(records[i]).verdict.row).value in Fold(run, records[..j], rows0, audit0).rows
    decreases j
  {
    assert records[..j][..j - 1] == records[..j - 1];
    assert records[..j][j - 1] == records[j - 1];
    var p0 := Fold(run, records[..j - 1], rows0, audit0);
    assert Fold(run, records[..j], rows0, audit0) == Step(run, p0, j - 1, records[j - 1]);
    StepShape(run, p0, j - 1, records[j - 1]);
    if j > i + 1 {
      RowsGrow(run, records, rows0, audit0, i, j - 1);
    }
  }

  /** A batch that holds one id twice inserts it at most once: the existing
      set is computed before the loop and not updated, but the second insert
      meets the primary key. */
  lemma {:induction false} RepeatedIdFails(run: Run, records: seq<Value>, rows0: seq<Record>, audit0: seq<AuditEntry>, i: nat, j: nat)
    requires i < j < |records|
    requires run.decide(records[i]).verdict.Insert? && run.decide(records[j]).verdict.Insert?
    requires var ri := run.decide(records[i]).verdict.row;
             var rj := run.decide(records[j]).verdict.row;
             "id" in ri && "id" in rj && ri["id"] == rj["id"]
    ensures !ErrorAt(Fold(run, records, rows0, audit0).result, i) ==> ErrorAt(Fold(run, records, rows0, audit0).result, j)
  {
    FoldFailures(run, records, rows0, audit0);
    var ri := run.decide(records[i]).verdict.row;
    var rj := run.decide(records[j]).verdict.row;
    var before := Fold(run, records[..i], rows0, audit0).rows;
    if !StepFails(run, before, records[i]) {
      var stored := InsertOutcome(run.rules, before, ri).value;
      assert Column(stored, "id") == ri["id"];
      RowsGrow(run, records, rows0, audit0, i, j);
      var atJ := Fold(run, records[..j], rows0, audit0).rows;
      var k :| 0 <= k < |atJ| && atJ[k] == stored;
      assert HasId(atJ, Column(Stored(run.rules, atJ, rj), "id"));
    }
  }

  /** `body.<plural>.map((p) => p.id).filter(Boolean)`, queried with
      `.select('id').in('id', ids)`; a failed query leaves the set empty
      (`existing?.map(...) || []`). */
  function ExistingIds(rules: TableRules, rows: seq<Record>, records: seq<Value>): (s: set<Value>)
    ensures forall v :: v in s ==> Truthy(v) && HasId(rows, v) && exists i :: 0 <= i < |records| && Get(records[i], "id") == v
    ensures rules.rejectSelect(rows).None? ==>
      forall i :: 0 <= i < |records| && Truthy(Get(records[i], "id")) && HasId(rows, Get(records[i], "id")) ==>
        Get(records[i], "id") in s
  {
    var all := seq(|records|, i requires 0 <= i < |records| => Get(records[i], "id"));
    var ids := Keep(all, Truthy);
    assert forall i :: 0 <= i < |records| && Truthy(Get(records[i], "id")) ==> Get(records[i], "id") in ids by {
      forall i | 0 <= i < |records| && Truthy(Get(records[i], "id")) ensures Get(records[i], "id") in ids {
        assert all[i] in all;
      }
    }
    match IdsIn(rules, rows, ids)
    case None => {}
    case Some(found) => found
  }

  /** The body of the loop for record `i`, on the table and the audit log. */
  method ImportRecord(run: Run, i: nat, raw: Value, result: ImportResult, table: Table, log: AuditLog)
    returns (next: ImportResult)
    requires run.rules == table.rules
    modifies table, log
    ensures Step(run, Progress(result, old(table.rows), old(log.entries)), i, raw) == Progress(next, table.rows, log.entries)
  {
    ghost var p := Progress(result, table.rows, log.entries);
    next := result;
    var d := run.decide(raw);
    if d.duplicate.Some? {
      next := next.(duplicates := next.duplicates + [d.duplicate.value]);
    }
    ghost var q := p.(result := next);
    assert q == p.(result := p.result.(duplicates := p.result.duplicates + DuplicateOf(d)));
    match d.verdict {
      case Reject(e) =>
        next := next.(failed := next.failed + 1, errors := next.errors + [ErrorEntry(i, e, raw)]);
        assert Step(run, p, i, raw) == Fail(q, i, e, raw);
      case Insert(row) =>
        var outcome := table.Insert(row);
        match outcome {
          case Err(message) =>
            next := next.(failed := next.failed + 1, errors := next.errors + [ErrorEntry(i, StoreFailure(message), raw)]);
            assert Step(run, p, i, raw) == Fail(q, i, StoreFailure(message), raw);
          case Ok(stored) =>
            log.Append(CreateEntry(run, stored));
            next := next.(imported := next.imported + 1);
            assert Step(run, p, i, raw) == Progress(q.result.(imported := q.result.imported + 1), q.rows + [stored], q.audit + [CreateEntry(run, stored)]);
        }
    }
  }

  /** The loop of the route, on the table and the audit log. */
  method RunImport(run: Run, records: seq<Value>, table: Table, log: AuditLog) returns (result: ImportResult)
    requires run.rules == table.rules
    modifies table, log
    ensures var p := Fold(run, records, old(table.rows), old(log.entries));
      result == Finish(p.result) && table.rows == p.rows && log.entries == p.audit
  {
    ghost var rows0 := table.rows;
    ghost var audit0 := log.entries;
    result := Initial;
    var i := 0;
    while i < |records|
      invariant 0 <= i <= |records|
      invariant Fold(run, records[..i], rows0, audit0) == Progress(result, table.rows, log.entries)
    {
      assert records[..i + 1][..i] == records[..i];
      result := ImportRecord(run, i, records[i], result, table, log);
      i := i + 1;
    }
    assert records[..i] == records;
    result := Finish(result);
  }

  /** The response of the route. */
  datatype ImportResponse =
    | Unauthorized
    | InvalidFormat(message: string)
    | ParseFailure
    | Imported(result: ImportResult)

  function Status(r: ImportResponse): nat {
    match r
    case Unauthorized => 401
    case InvalidFormat(_) => 400
    case ParseFailure => 400
    case Imported(result) => if result.success then 201 else 207
  }

  /** An import answers 201 exactly when no record failed, and 207 otherwise. */
  lemma ImportedStatus(result: ImportResult)
    ensures Status(Imported(Finish(result))) == 201 <==> result.failed == 0
    ensures Status(Imported(Finish(result))) == 207 <==> result.failed != 0
  {
  }

  /** One entry of `result.errors` as JSON, with the error as its message. */
  function ErrorJson(kind: Kind, e: ErrorEntry, numText: real -> string): Value {
    Obj(map["index" := Num(e.index as real), "error" := Str(ErrorText(e.error, Entity(kind), numText)), "data" := e.data])
  }

  /** The body of a 201 or 207 response: the result object as JSON. */
  function ResultJson(kind: Kind, r: ImportResult, numText: real -> string): Value {
    Obj(map[
      "success" := Bool(r.success),
      "imported" := Num(r.imported as real),
      "failed" := Num(r.failed as real),
      "errors" := Arr(seq(|r.errors|, k requires 0 <= k < |r.errors| => ErrorJson(kind, r.errors[k], numText))),
      "duplicates" := Arr(r.duplicates)])
  }

  /** The JSON body of each response; `details` is the message of whatever
      the `try` block threw. */
  function ResponseJson(kind: Kind, resp: ImportResponse, details: string, numText: real -> string): (v: Value)
    ensures v.Obj?
    ensures resp.Imported? ==> Get(v, "error") == Undefined && v == ResultJson(kind, resp.result, numText)
    ensures !resp.Imported? ==> Get(v, "error").Str?
  {
    match resp
    case Unauthorized => Obj(map["error" := Str("Unauthorized")])
    case InvalidFormat(message) => Obj(map["error" := Str(message)])
    case ParseFailure => Obj(map["error" := Str("Failed to parse import data"), "details" := Str(details)])
    case Imported(result) => ResultJson(kind, result, numText)
  }

  /** `!body.<plural> || !Array.isArray(body.<plural>)` is false: arrays are truthy. */
  predicate HasRecordArray(body: Value, kind: Kind) {
    Get(body, Plural(kind)).Arr?
  }

  /** `body.skipDuplicates !== false`. */
  function SkipDuplicates(body: Value): bool {
    Get(body, "skipDuplicates") != Bool(false)
  }

  /** The route handler. `session` is `None` without a signed-in user; `body`
      is `None` when the request body is not JSON. A `null` body or a `null`
      record makes a property read throw before any insert, which the outer
      `catch` answers with 400. */
  method Post(kind: Kind, session: Option<AdminUser>, body: Option<Value>, table: Table, log: AuditLog)
    returns (resp: ImportResponse)
    requires table.rules.name == Plural(kind)
    modifies table, log
    ensures session.None? ==> resp == Unauthorized
    ensures session.Some? && (body.None? || Nullish(body.value)) ==> resp == ParseFailure
    ensures session.Some? && body.Some? && !Nullish(body.value) && !HasRecordArray(body.value, kind) ==>
      resp == InvalidFormat("Invalid format: expected { " + Plural(kind) + ": [...] }")
    ensures session.Some? && body.Some? && HasRecordArray(body.value, kind) &&
            (exists i :: 0 <= i < |Get(body.value, Plural(kind)).items| && Nullish(Get(body.value, Plural(kind)).items[i]))
            ==> resp == ParseFailure
    ensures session.Some? && body.Some? && HasRecordArray(body.value, kind) &&
            (forall i :: 0 <= i < |Get(body.value, Plural(kind)).items| ==> !Nullish(Get(body.value, Plural(kind)).items[i]))
            ==> resp.Imported?
    ensures !resp.Imported? ==> table.rows == old(table.rows) && log.entries == old(log.entries)
    ensures resp.Imported? ==>
      && session.Some? && body.Some? && HasRecordArray(body.value, kind)
      && var records := Get(body.value, Plural(kind)).items;
         var existing := ExistingIds(table.rules, old(table.rows), records);
         var run := Run(kind, session.value, table.rules, Decider(kind, existing, SkipDuplicates(body.value)));
         var p := Fold(run, records, old(table.rows), old(log.entries));
         && (forall i :: 0 <= i < |records| ==> !Nullish(records[i]))
         && resp.result == Finish(p.result) && table.rows == p.rows && log.entries == p.audit
  {
    if session.None? {
      return Unauthorized;
    }
    if body.None? || Nullish(body.value) {
      return ParseFailure;
    }
    var b := body.value;
    if !HasRecordArray(b, kind) {
      return InvalidFormat("Invalid format: expected { " + Plural(kind) + ": [...] }");
    }
    var records := Get(b, Plural(kind)).items;
    var i := 0;
    while i < |records|
      invariant 0 <= i <= |records|
      invariant forall k :: 0 <= k < i ==> !Nullish(records[k])
    {
      if Nullish(records[i]) {
        return ParseFailure;
      }
      i := i + 1;
    }
    var existing := ExistingIds(table.rules, table.rows, records);
    var run := Run(kind, session.value, table.rules, Decider(kind, existing, SkipDuplicates(b)));
    var result := RunImport(run, records, table, log);
    return Imported(result);
  }
}
