/**
 * The workflow ledger: an in-memory list of learned workflow records keyed
 * by name. Saving a workflow replaces the first record with the same name,
 * in place, or appends a new one; an execution bumps the first record with
 * the name; a query filters by a confidence floor, keeping list order.
 * Reading and writing the JSON file that backs the list is not modelled:
 * the loaded list is a constructor argument.
 */
module Workflows {
  import opened Text

  /** The dictionary handed to `save_workflow`; all keys but the name may be missing. */
  datatype WorkflowData = WorkflowData(
    workflowName: string,
    description: Option<string>,
    confidence: Option<real>,
    triggerConditions: Option<seq<string>>,
    recommendedActions: Option<seq<string>>)

  /**
   * One learned workflow. The execution count is optional because records
   * read back from storage may lack it; it is then read as 0.
   */
  datatype Workflow = Workflow(
    id: string,
    name: string,
    description: string,
    confidence: real,
    triggerConditions: seq<string>,
    recommendedActions: seq<string>,
    detectedAt: string,
    executionCount: Option<int>,
    lastExecuted: Option<string>)

  /** The confidence floor `get_high_confidence_workflows` uses when given none. */
  const DefaultMinConfidence: real := 0.8

  /**
   * The record `save_workflow` builds. `stamp` is the creation time in the
   * compact `%Y%m%d_%H%M%S` form; `now` is a second reading of the clock, in
   * ISO form.
   */
  function NewRecord(data: WorkflowData, stamp: string, now: string): (w: Workflow)
    ensures w.name == data.workflowName && w.id == data.workflowName + "_" + stamp
    ensures w.detectedAt == now
    ensures w.executionCount == Some(0) && w.lastExecuted == None
    ensures w.description == (if data.description.Some? then data.description.value else "")
    ensures w.confidence == (if data.confidence.Some? then data.confidence.value else 0.0)
    ensures w.triggerConditions == (if data.triggerConditions.Some? then data.triggerConditions.value else [])
    ensures w.recommendedActions == (if data.recommendedActions.Some? then data.recommendedActions.value else [])
  {
    Workflow(
      data.workflowName + "_" + stamp,
      data.workflowName,
      data.description.GetOr(""),
      data.confidence.GetOr(0.0),
      data.triggerConditions.GetOr([]),
      data.recommendedActions.GetOr([]),
      now,
      Some(0),
      None)
  }

  /** No two records share a name. */
  predicate UniqueNames(ws: seq<Workflow>) {
    forall i, j :: 0 <= i < j < |ws| ==> ws[i].name != ws[j].name
  }

  predicate HasName(ws: seq<Workflow>, name: string) {
    exists i :: 0 <= i < |ws| && ws[i].name == name
  }

  /** The index of the first record named `name`, or -1 when there is none. */
  function IndexOfName(ws: seq<Workflow>, name: string): (k: int)
    ensures -1 <= k < |ws|
    ensures k >= 0 ==> ws[k].name == name
    ensures forall j :: 0 <= j < |ws| && (k < 0 || j < k) ==> ws[j].name != name
  {
    if ws == [] then -1
    else if ws[0].name == name then 0
    else
      var k := IndexOfName(ws[1..], name);
      if k < 0 then -1 else k + 1
  }

  /** The list after `save_workflow(w)`: replace the first same-named record, else append. */
  function Upsert(ws: seq<Workflow>, w: Workflow): (r: seq<Workflow>)
    ensures |r| == if HasName(ws, w.name) then |ws| else |ws| + 1
    ensures !HasName(ws, w.name) ==> r == ws + [w]
    ensures forall k :: 0 <= k < |ws| && ws[k].name == w.name && (forall j :: 0 <= j < k ==> ws[j].name != w.name)
              ==> r == ws[k := w]
    ensures forall j :: 0 <= j < |ws| && ws[j].name != w.name ==> r[j] == ws[j]
    ensures w in r
  {
    var k := IndexOfName(ws, w.name);
    if k >= 0 then
      assert ws[k := w][k] == w;
      ws[k := w]
    else
      ws + [w]
  }

  /** The first record's counter bumped (a missing count read as 0) and its last execution stamped. */
  function Bump(w: Workflow, now: string): Workflow
  {
    w.(executionCount := Some(w.executionCount.GetOr(0) + 1), lastExecuted := Some(now))
  }

  /** The list after `increment_execution_count(name)`. */
  function Incremented(ws: seq<Workflow>, name: string, now: string): (r: seq<Workflow>)
    ensures |r| == |ws|
    ensures forall j :: 0 <= j < |ws| ==> r[j].name == ws[j].name
    ensures !HasName(ws, name) ==> r == ws
    ensures forall k :: 0 <= k < |ws| && ws[k].name == name && (forall j :: 0 <= j < k ==> ws[j].name != name) ==>
              && r[k].executionCount == Some(ws[k].executionCount.GetOr(0) + 1)
              && r[k].lastExecuted == Some(now)
              && r[k].(executionCount := ws[k].executionCount, lastExecuted := ws[k].lastExecuted) == ws[k]
              && (forall j :: 0 <= j < |ws| && j != k ==> r[j] == ws[j])
  {
    var k := IndexOfName(ws, name);
    if k < 0 then ws else ws[k := Bump(ws[k], now)]
  }

  /** The records whose confidence is at least `m`, in list order. */
  function HighConfidence(ws: seq<Workflow>, m: real): (r: seq<Workflow>)
    ensures |r| <= |ws|
    ensures forall w :: w in r <==> w in ws && w.confidence >= m
  {
    if ws == [] then []
    else (if ws[0].confidence >= m then [ws[0]] else []) + HighConfidence(ws[1..], m)
  }

  // ---------------------------------------------------------------------
  // The ledger object
  // ---------------------------------------------------------------------

  class WorkflowManager {
    var learnedWorkflows: seq<Workflow>

    /** `loaded` is what was read from storage (empty when there was nothing to read). */
    constructor (loaded: seq<Workflow>)
      ensures learnedWorkflows == loaded
    {
      learnedWorkflows := loaded;
    }

    method SaveWorkflow(data: WorkflowData, stamp: string, now: string)
      modifies this
      ensures learnedWorkflows == Upsert(old(learnedWorkflows), NewRecord(data, stamp, now))
      ensures UniqueNames(old(learnedWorkflows)) ==> UniqueNames(learnedWorkflows)
    {
      var workflow := NewRecord(data, stamp, now);
      var existingIdx := -1;
      var i := 0;
      while i < |learnedWorkflows|
        invariant 0 <= i <= |learnedWorkflows|
        invariant existingIdx == -1
        invariant forall j :: 0 <= j < i ==> learnedWorkflows[j].name != workflow.name
      {
        if learnedWorkflows[i].name == workflow.name {
          existingIdx := i;
          break;
        }
        i := i + 1;
      }
      assert existingIdx == IndexOfName(learnedWorkflows, workflow.name);
      ghost var before := learnedWorkflows;
      if existingIdx >= 0 {
        learnedWorkflows := learnedWorkflows[existingIdx := workflow];
      } else {
        learnedWorkflows := learnedWorkflows + [workflow];
      }
      UpsertKeepsNamesUnique(before, workflow);
    }

    /** The whole ledger, in order. */
    method GetWorkflows() returns (r: seq<Workflow>)
      ensures r == learnedWorkflows
    {
      r := learnedWorkflows;
    }

    method GetHighConfidenceWorkflows(minConfidence: real) returns (r: seq<Workflow>)
      ensures r == HighConfidence(learnedWorkflows, minConfidence)
    {
      r := [];
      var i := 0;
      while i < |learnedWorkflows|
        invariant 0 <= i <= |learnedWorkflows|
        invariant r == HighConfidence(learnedWorkflows[..i], minConfidence)
      {
        var wf := learnedWorkflows[i];
        assert learnedWorkflows[..i + 1] == learnedWorkflows[..i] + [wf];
        HighConfidenceSnoc(learnedWorkflows[..i], wf, minConfidence);
        if wf.confidence >= minConfidence {
          r := r + [wf];
        }
        i := i + 1;
      }
      assert learnedWorkflows[..i] == learnedWorkflows;
    }

    method IncrementExecutionCount(name: string, now: string)
      modifies this
      ensures learnedWorkflows == Incremented(old(learnedWorkflows), name, now)
      ensures UniqueNames(old(learnedWorkflows)) ==> UniqueNames(learnedWorkflows)
    {
      var i := 0;
      while i < |learnedWorkflows|
        invariant 0 <= i <= |learnedWorkflows|
        invariant learnedWorkflows == old(learnedWorkflows)
        invariant forall j :: 0 <= j < i ==> learnedWorkflows[j].name != name
      {
        if learnedWorkflows[i].name == name {
          assert i == IndexOfName(learnedWorkflows, name);
          learnedWorkflows := learnedWorkflows[i := Bump(learnedWorkflows[i], now)];
          break;
        }
        i := i + 1;
      }
    }
  }

  // ---------------------------------------------------------------------
  // Properties of the ledger operations
  // ---------------------------------------------------------------------

  /** Saving keeps names unique, and afterwards exactly one record carries the saved name: the saved one. */
  lemma UpsertKeepsNamesUnique(ws: seq<Workflow>, w: Workflow)
    ensures UniqueNames(ws) ==> UniqueNames(Upsert(ws, w))
    ensures UniqueNames(ws) ==> forall i :: 0 <= i < |Upsert(ws, w)| && Upsert(ws, w)[i].name == w.name ==> Upsert(ws, w)[i] == w
  {
    var r := Upsert(ws, w);
    var k := IndexOfName(ws, w.name);
    if UniqueNames(ws) {
      if k >= 0 {
        assert r == ws[k := w];
        forall i | 0 <= i < |r| && r[i].name == w.name
          ensures i == k
        {
        }
      } else {
        assert r == ws + [w];
      }
    }
  }

  /** An increment never changes a name, so it keeps names unique. */
  lemma IncrementKeepsNamesUnique(ws: seq<Workflow>, name: string, now: string)
    requires UniqueNames(ws)
    ensures UniqueNames(Incremented(ws, name, now))
  {
  }

  /** The filter distributes over concatenation: records keep their relative order. */
  lemma {:induction false} HighConfidenceAppend(a: seq<Workflow>, b: seq<Workflow>, m: real)
    ensures HighConfidence(a + b, m) == HighConfidence(a, m) + HighConfidence(b, m)
  {
    if a == [] {
      assert a + b == b;
    } else {
      assert (a + b)[1..] == a[1..] + b;
      HighConfidenceAppend(a[1..], b, m);
    }
  }

  /** Filtering a ledger extended by one record extends the filtered ledger by that record, if it clears the floor. */
  lemma HighConfidenceSnoc(ws: seq<Workflow>, w: Workflow, m: real)
    ensures HighConfidence(ws + [w], m) == HighConfidence(ws, m) + (if w.confidence >= m then [w] else [])
  {
    HighConfidenceAppend(ws, [w], m);
    assert [w][1..] == [];
  }

  /**
   * With the default floor, a record with confidence 0.8 or more is returned
   * and one below it is not.
   */
  lemma DefaultFloor(ws: seq<Workflow>, w: Workflow)
    requires w in ws
    ensures w in HighConfidence(ws, DefaultMinConfidence) <==> w.confidence >= 0.8
  {
  }

  /** When every record clears the floor, the query returns the whole ledger unchanged. */
  lemma {:induction false} HighConfidenceKeepsAll(ws: seq<Workflow>, m: real)
    requires forall i :: 0 <= i < |ws| ==> ws[i].confidence >= m
    ensures HighConfidence(ws, m) == ws
  {
    if ws != [] {
      HighConfidenceKeepsAll(ws[1..], m);
    }
  }

  /**
   * Saving an already-known workflow starts its counters afresh: one
   * execution afterwards leaves the count at 1, however often it ran before.
   */
  lemma SaveThenIncrement(ws: seq<Workflow>, data: WorkflowData, stamp: string, now: string, later: string)
    requires UniqueNames(ws)
    ensures var r := Incremented(Upsert(ws, NewRecord(data, stamp, now)), data.workflowName, later);
            forall i :: 0 <= i < |r| && r[i].name == data.workflowName ==>
              r[i].executionCount == Some(1) && r[i].lastExecuted == Some(later) && r[i].detectedAt == now
  {
    var w := NewRecord(data, stamp, now);
    var u := Upsert(ws, w);
    UpsertKeepsNamesUnique(ws, w);
    var k := IndexOfName(u, w.name);
    assert u[k] == w;
  }
}
