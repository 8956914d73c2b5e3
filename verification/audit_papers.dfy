/** The paper-audit ledger: process-wide sets of "retrieved" and "final"
    corpus ids, and the reconciliation report rewritten on every final
    recording. Each call is one atomic transition of a `Ledger` value. */
module AuditPapers {
  import opened Wrappers
  import StringOrder

  /** An id as handed to the ledger: a `str`, or `None` when a document
      had no corpus id. */
  type RawId = Option<string>

  /** Python truthiness of an id: `None` and `""` are dropped. */
  predicate Truthy(id: RawId)
  {
    id.Some? && id.value != ""
  }

  /** The ids of `ids` that survive the `if cid:` filter. */
  function TruthyIds(ids: seq<RawId>): set<string>
  {
    set i | 0 <= i < |ids| && Truthy(ids[i]) :: ids[i].value
  }

  datatype Ledger = Ledger(enabled: bool, retrieved: set<string>, final: set<string>)

  const REPORT_FILE_NAME := "audit_papers_report.json"

  /** The feature flag: `bool(os.environ.get("AUDIT_PAPERS"))`. */
  predicate EnabledBy(auditPapersVar: Option<string>)
  {
    auditPapersVar.Some? && auditPapersVar.value != ""
  }

  /** The ledger at import time: both sets empty, the flag read once. */
  function Init(auditPapersVar: Option<string>): (l: Ledger)
    ensures l.retrieved == {} && l.final == {}
    ensures l.enabled == EnabledBy(auditPapersVar)
  {
    Ledger(EnabledBy(auditPapersVar), {}, {})
  }

  /** The `for cid in corpus_ids: if cid: s.add(cid)` loop. */
  function AddAll(s: set<string>, ids: seq<RawId>): (r: set<string>)
    ensures r == s + TruthyIds(ids)
    decreases |ids|
  {
    if ids == [] then s
    else
      var s' := if Truthy(ids[0]) then s + {ids[0].value} else s;
      assert TruthyIds(ids) == (if Truthy(ids[0]) then {ids[0].value} else {}) + TruthyIds(ids[1..]) by {
        forall x
          ensures x in TruthyIds(ids) <==> x in (if Truthy(ids[0]) then {ids[0].value} else {}) + TruthyIds(ids[1..])
        {
          if x in TruthyIds(ids) {
            var i :| 0 <= i < |ids| && Truthy(ids[i]) && ids[i].value == x;
            if i > 0 { assert ids[1..][i - 1] == ids[i]; }
          }
          if x in TruthyIds(ids[1..]) {
            var i :| 0 <= i < |ids[1..]| && Truthy(ids[1..][i]) && ids[1..][i].value == x;
            assert ids[i + 1] == ids[1..][i];
          }
        }
      }
      AddAll(s', ids[1..])
  }

  /** `record_retrieved`. */
  function RecordRetrieved(l: Ledger, ids: seq<RawId>): (r: Ledger)
    ensures !l.enabled ==> r == l
    ensures l.enabled ==> r == l.(retrieved := l.retrieved + TruthyIds(ids))
  {
    if !l.enabled then l
    else l.(retrieved := AddAll(l.retrieved, ids))
  }

  datatype Counts = Counts(retrieved: nat, final: nat, sideloaded: nat)

  /** The JSON payload of the report file. */
  datatype Report = Report(
    sideloaded: seq<string>,
    retrievedOnly: seq<string>,
    finalIncluded: seq<string>,
    counts: Counts)

  /** The reconciliation of a ledger state. */
  function MakeReport(l: Ledger): (rep: Report)
    ensures StringOrder.StrictlySorted(rep.sideloaded)
    ensures StringOrder.StrictlySorted(rep.retrievedOnly)
    ensures StringOrder.StrictlySorted(rep.finalIncluded)
    ensures forall x :: x in rep.sideloaded <==> x in l.final && x !in l.retrieved
    ensures forall x :: x in rep.retrievedOnly <==> x in l.retrieved && x !in l.final
    ensures forall x :: x in rep.finalIncluded <==> x in l.final && x in l.retrieved
    ensures rep.counts.retrieved == |l.retrieved| && rep.counts.final == |l.final|
    ensures rep.counts.sideloaded == |rep.sideloaded|
  {
    var sideloaded := StringOrder.Sorted(l.final - l.retrieved);
    var retrievedOnly := StringOrder.Sorted(l.retrieved - l.final);
    var both := StringOrder.Sorted(l.final * l.retrieved);
    Report(sideloaded, retrievedOnly, both, Counts(|l.retrieved|, |l.final|, |sideloaded|))
  }

  /** Where the report goes: the override path, or a fixed file name under
      the project root. */
  datatype ReportTarget = OverridePath(path: string) | UnderProjectRoot(root: string, fileName: string)

  /** What `_report_path` reads: `AUDIT_PAPERS_REPORT` and `project_root()`. */
  datatype AuditEnv = AuditEnv(reportOverride: Option<string>, projectRoot: string)

  /** `_report_path`. */
  function ReportPath(env: AuditEnv): (t: ReportTarget)
    ensures t.OverridePath? <==> env.reportOverride.Some? && env.reportOverride.value != ""
    ensures t.OverridePath? ==> t.path == env.reportOverride.value
    ensures t.UnderProjectRoot? ==> t.root == env.projectRoot && t.fileName == REPORT_FILE_NAME
  {
    match env.reportOverride
    case Some(out) => if out != "" then OverridePath(out) else UnderProjectRoot(env.projectRoot, REPORT_FILE_NAME)
    case None => UnderProjectRoot(env.projectRoot, REPORT_FILE_NAME)
  }

  datatype Written = Written(target: ReportTarget, report: Report)

  /** The outcome of one `record_final` call: the new ledger, the report it
      computed (none when disabled), and the file it wrote (none when
      disabled or when the write failed). */
  datatype FinalStep = FinalStep(ledger: Ledger, report: Option<Report>, written: Option<Written>)

  /** `record_final`. `writeSucceeds` stands for the outcome of the
      best-effort `mkdir` / `open` / `json.dump`, whose failure is swallowed. */
  function RecordFinal(l: Ledger, ids: seq<RawId>, env: AuditEnv, writeSucceeds: bool): (r: FinalStep)
    ensures !l.enabled ==> r == FinalStep(l, None, None)
    ensures l.enabled ==> r.ledger == l.(final := l.final + TruthyIds(ids))
    ensures l.enabled ==> r.report == Some(MakeReport(r.ledger))
    ensures r.written.Some? <==> l.enabled && writeSucceeds
    ensures r.written.Some? ==> r.written.value == Written(ReportPath(env), r.report.value)
  {
    if !l.enabled then FinalStep(l, None, None)
    else
      var l' := l.(final := AddAll(l.final, ids));
      var rep := MakeReport(l');
      FinalStep(l', Some(rep), if writeSucceeds then Some(Written(ReportPath(env), rep)) else None)
  }

  // ---------------------------------------------------------------------
  // Properties of the ledger

  lemma TruthyIdsMembership(ids: seq<RawId>, x: string)
    ensures x in TruthyIds(ids) <==> x != "" && Some(x) in ids
  {
    if Some(x) in ids && x != "" {
      var i :| 0 <= i < |ids| && ids[i] == Some(x);
      assert Truthy(ids[i]);
    }
  }

  /** Neither call can shrink a set, nor touch the other set's contents
      beyond its own. */
  lemma RecordsOnlyGrow(l: Ledger, ids: seq<RawId>, env: AuditEnv, writeSucceeds: bool)
    ensures l.retrieved <= RecordRetrieved(l, ids).retrieved
    ensures RecordRetrieved(l, ids).final == l.final
    ensures l.final <= RecordFinal(l, ids, env, writeSucceeds).ledger.final
    ensures RecordFinal(l, ids, env, writeSucceeds).ledger.retrieved == l.retrieved
    ensures RecordRetrieved(l, ids).enabled == l.enabled == RecordFinal(l, ids, env, writeSucceeds).ledger.enabled
  {
  }

  /** Recording the same ids twice is the same as recording them once. */
  lemma RecordIdempotent(l: Ledger, ids: seq<RawId>, env: AuditEnv, w1: bool, w2: bool)
    ensures RecordRetrieved(RecordRetrieved(l, ids), ids) == RecordRetrieved(l, ids)
    ensures RecordFinal(RecordFinal(l, ids, env, w1).ledger, ids, env, w2).ledger
         == RecordFinal(l, ids, env, w1).ledger
    ensures RecordFinal(RecordFinal(l, ids, env, w1).ledger, ids, env, w2).report
         == RecordFinal(l, ids, env, w1).report
  {
  }

  /** A failed report write changes nothing but the absence of the file. */
  lemma WriteFailureIsInvisible(l: Ledger, ids: seq<RawId>, env: AuditEnv)
    ensures RecordFinal(l, ids, env, false).ledger == RecordFinal(l, ids, env, true).ledger
    ensures RecordFinal(l, ids, env, false).report == RecordFinal(l, ids, env, true).report
    ensures RecordFinal(l, ids, env, false).written == None
  {
  }

  /** The three lists partition the union of the two sets: sideloaded and
      final_included make up `final`, retrieved_only and final_included
      make up `retrieved`, and no id is in two lists. */
  lemma ReportPartition(l: Ledger)
    ensures forall x :: x in l.final <==> x in MakeReport(l).sideloaded || x in MakeReport(l).finalIncluded
    ensures forall x :: x in l.retrieved <==> x in MakeReport(l).retrievedOnly || x in MakeReport(l).finalIncluded
    ensures forall x :: !(x in MakeReport(l).sideloaded && x in MakeReport(l).finalIncluded)
    ensures forall x :: !(x in MakeReport(l).retrievedOnly && x in MakeReport(l).finalIncluded)
    ensures forall x :: !(x in MakeReport(l).sideloaded && x in MakeReport(l).retrievedOnly)
  {
  }

  /** A strictly sorted listing of a set is as long as the set is large. */
  lemma {:induction false} SortedLength(r: seq<string>, s: set<string>)
    requires StringOrder.StrictlySorted(r)
    requires forall x :: x in r <==> x in s
    ensures |r| == |s|
  {
    StringOrder.SortedUnique(r, s);
  }

  lemma SplitCard(a: set<string>, b: set<string>)
    ensures |a| == |a - b| + |a * b|
  {
    assert a == (a - b) + (a * b);
    assert (a - b) !! (a * b);
  }

  /** The counts agree with the lists: `final` is sideloaded plus
      final_included, and `retrieved` is retrieved_only plus final_included. */
  lemma ReportCounts(l: Ledger)
    ensures MakeReport(l).counts.final == MakeReport(l).counts.sideloaded + |MakeReport(l).finalIncluded|
    ensures MakeReport(l).counts.retrieved == |MakeReport(l).retrievedOnly| + |MakeReport(l).finalIncluded|
    ensures MakeReport(l).counts.sideloaded == |l.final - l.retrieved|
  {
    var rep := MakeReport(l);
    SortedLength(rep.sideloaded, l.final - l.retrieved);
    SortedLength(rep.retrievedOnly, l.retrieved - l.final);
    SortedLength(rep.finalIncluded, l.final * l.retrieved);
    SplitCard(l.final, l.retrieved);
    SplitCard(l.retrieved, l.final);
    assert l.retrieved * l.final == l.final * l.retrieved;
  }

  /** A sequence of ledger calls, as the rest of the process makes them. */
  datatype Call = RetrievedCall(ids: seq<RawId>) | FinalCall(ids: seq<RawId>, writeSucceeds: bool)

  /** Apply `calls` in order; returns the final ledger and every report
      file written along the way. */
  function Run(l: Ledger, calls: seq<Call>, env: AuditEnv): (Ledger, seq<Written>)
    decreases |calls|
  {
    if calls == [] then (l, [])
    else
      match calls[0]
      case RetrievedCall(ids) => Run(RecordRetrieved(l, ids), calls[1..], env)
      case FinalCall(ids, w) =>
        var step := RecordFinal(l, ids, env, w);
        var (l', ws) := Run(step.ledger, calls[1..], env);
        (l', (if step.written.Some? then [step.written.value] else []) + ws)
  }

  /** With the feature off, no call changes the ledger or writes a file. */
  lemma {:induction false} DisabledRunIsNoOp(l: Ledger, calls: seq<Call>, env: AuditEnv)
    requires !l.enabled
    ensures Run(l, calls, env) == (l, [])
    decreases |calls|
  {
    if calls != [] {
      DisabledRunIsNoOp(l, calls[1..], env);
      match calls[0]
      case RetrievedCall(ids) =>
        assert RecordRetrieved(l, ids) == l;
      case FinalCall(ids, w) =>
        assert RecordFinal(l, ids, env, w) == FinalStep(l, None, None);
        var rest := Run(l, calls[1..], env);
        assert rest == (l, []);
        assert Run(l, calls, env) == (rest.0, [] + rest.1);
        assert [] + rest.1 == rest.1;
    }
  }

  /** Over any run the sets only grow, and the flag never changes. */
  lemma {:induction false} RunOnlyGrows(l: Ledger, calls: seq<Call>, env: AuditEnv)
    ensures l.retrieved <= Run(l, calls, env).0.retrieved
    ensures l.final <= Run(l, calls, env).0.final
    ensures Run(l, calls, env).0.enabled == l.enabled
    decreases |calls|
  {
    if calls != [] {
      match calls[0]
      case RetrievedCall(ids) => RunOnlyGrows(RecordRetrieved(l, ids), calls[1..], env);
      case FinalCall(ids, w) => RunOnlyGrows(RecordFinal(l, ids, env, w).ledger, calls[1..], env);
    }
  }

  /** The id sets of the worked example. */
  lemma ExampleIds()
    ensures TruthyIds([Some("A"), Some("B"), Some("C")]) == {"A", "B", "C"}
    ensures TruthyIds([Some("B"), Some("C"), Some("D")]) == {"B", "C", "D"}
  {
    var abc: seq<RawId> := [Some("A"), Some("B"), Some("C")];
    var bcd: seq<RawId> := [Some("B"), Some("C"), Some("D")];
    forall x
      ensures x in TruthyIds(abc) <==> x in {"A", "B", "C"}
      ensures x in TruthyIds(bcd) <==> x in {"B", "C", "D"}
    {
      TruthyIdsMembership(abc, x);
      TruthyIdsMembership(bcd, x);
    }
  }

  /** The report of a ledger holding retrieved A, B, C and final B, C, D. */
  lemma ExampleReport()
    ensures MakeReport(Ledger(true, {"A", "B", "C"}, {"B", "C", "D"}))
         == Report(["D"], ["A"], ["B", "C"], Counts(3, 3, 1))
  {
    var l := Ledger(true, {"A", "B", "C"}, {"B", "C", "D"});
    assert l.final - l.retrieved == {"D"};
    assert l.retrieved - l.final == {"A"};
    assert l.final * l.retrieved == {"B", "C"};
    StringOrder.SortedUnique(["D"], {"D"});
    StringOrder.SortedUnique(["A"], {"A"});
    assert StringOrder.Lt("B", "C");
    StringOrder.SortedUnique(["B", "C"], {"B", "C"});
  }

  lemma ExampleRetrieved()
    ensures RecordRetrieved(Init(Some("1")), [Some("A"), Some("B"), Some("C")])
         == Ledger(true, {"A", "B", "C"}, {})
  {
    ExampleIds();
  }

  lemma ExampleFinal(env: AuditEnv)
    ensures RecordFinal(Ledger(true, {"A", "B", "C"}, {}), [Some("B"), Some("C"), Some("D")], env, true)
         == FinalStep(
              Ledger(true, {"A", "B", "C"}, {"B", "C", "D"}),
              Some(Report(["D"], ["A"], ["B", "C"], Counts(3, 3, 1))),
              Some(Written(ReportPath(env), Report(["D"], ["A"], ["B", "C"], Counts(3, 3, 1)))))
  {
    var step := RecordFinal(Ledger(true, {"A", "B", "C"}, {}), [Some("B"), Some("C"), Some("D")], env, true);
    ExampleIds();
    var l' := Ledger(true, {"A", "B", "C"}, {"B", "C", "D"});
    assert step.ledger == l';
    ExampleReport();
    var rep := Report(["D"], ["A"], ["B", "C"], Counts(3, 3, 1));
    assert step.report == Some(rep);
    assert step.written == Some(Written(ReportPath(env), rep));
  }

  /** Retrieved A, B, C then final B, C, D, from a fresh enabled ledger:
      sideloaded [D], retrieved_only [A], final_included [B, C], counts
      3 / 3 / 1, written to the configured destination. */
  lemma ReconciliationExample(env: AuditEnv)
    ensures
      var l := RecordRetrieved(Init(Some("1")), [Some("A"), Some("B"), Some("C")]);
      var step := RecordFinal(l, [Some("B"), Some("C"), Some("D")], env, true);
      && step.ledger == Ledger(true, {"A", "B", "C"}, {"B", "C", "D"})
      && step.report == Some(Report(["D"], ["A"], ["B", "C"], Counts(3, 3, 1)))
      && step.written == Some(Written(ReportPath(env), Report(["D"], ["A"], ["B", "C"], Counts(3, 3, 1))))
  {
    ExampleRetrieved();
    ExampleFinal(env);
  }
}
