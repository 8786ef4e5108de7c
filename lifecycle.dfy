/**
 * The assignment table as a value that requests act on one after another,
 * and what stays true of every row across any sequence of requests: state only
 * moves forward, the owner never changes, a grade once set stays set, and the
 * teacher and content of a submitted row are frozen. Also how the requests
 * change what the three list queries return.
 */
module Lifecycle {
  import opened Wrappers
  import opened Assignments
  import opened PyStr

  /** The assignments table together with the next value of its id sequence. */
  datatype Table = Table(records: map<int, Assignment>, nextId: int)

  /** One call into the record layer. */
  datatype Request =
    | UpsertRequest(draft: AssignmentDraft)
    | SubmitRequest(id: int, teacherId: int, caller: AuthPrincipal)
    | GradeRequest(id: int, grade: Option<Grade>, caller: AuthPrincipal)

  function Outcome(t: Table, req: Request): Result<Assignment, Error>
  {
    match req
    case UpsertRequest(draft) => UpsertOutcome(t.records, t.nextId, draft)
    case SubmitRequest(id, teacherId, caller) => SubmitOutcome(t.records, id, teacherId, caller)
    case GradeRequest(id, grade, caller) => MarkGradeOutcome(t.records, id, grade, caller)
  }

  /**
   * The edges of the state machine one request may move a row along: staying
   * put (an edit, or a principal's re-grade), Draft to Submitted, Submitted to
   * Graded.
   */
  predicate Edge(from: AssignmentState, to: AssignmentState)
  {
    from == to || (from == Draft && to == Submitted) || (from == Submitted && to == Graded)
  }

  /** What any run of requests may do to a row that already exists. */
  predicate Evolves(before: Assignment, after: Assignment)
  {
    && after.id == before.id
    && after.studentId == before.studentId
    && Rank(before.state) <= Rank(after.state)
    && (before.grade.Some? ==> after.grade.Some?)
    && (before.state != Draft ==> after.teacherId == before.teacherId && after.content == before.content)
  }

  /**
   * The table after one request: a failed request changes nothing, a
   * successful one writes its row, and only a creation advances the id
   * sequence.
   */
  function Apply(t: Table, req: Request): (t': Table)
    ensures Outcome(t, req).Failure? ==> t' == t
    ensures t.records.Keys <= t'.records.Keys && t.nextId <= t'.nextId
  {
    var r := Outcome(t, req);
    Table(Commit(t.records, r),
          if r.Success? && req.UpsertRequest? && req.draft.id.None? then t.nextId + 1 else t.nextId)
  }

  /**
   * Every row of `before` is still in `after`, having moved along an edge of
   * the state machine without breaking what `Evolves` promises.
   */
  ghost predicate RowsMove(before: map<int, Assignment>, after: map<int, Assignment>)
  {
    forall id :: id in before ==>
      && id in after
      && Edge(before[id].state, after[id].state)
      && Evolves(before[id], after[id])
  }

  /**
   * Writing a row under its own id keeps the table keyed by id and moves every
   * row along an edge, provided the row that is overwritten, if any, moves
   * along an edge to the new one.
   */
  lemma WriteMovesRows(records: map<int, Assignment>, nextId: int, row: Assignment, nextId': int)
    requires WellKeyed(records, nextId) && nextId <= nextId' && row.id < nextId'
    requires row.id in records ==> Edge(records[row.id].state, row.state) && Evolves(records[row.id], row)
    ensures WellKeyed(records[row.id := row], nextId')
    ensures RowsMove(records, records[row.id := row])
    ensures records[row.id := row].Keys == records.Keys + {row.id}
  {
  }

  /**
   * `upsert` keeps the table keyed by id and moves every row along an edge;
   * an edit adds no row and leaves the edited row a Draft, and a creation adds
   * exactly the next sequence value.
   */
  lemma UpsertMovesRows(records: map<int, Assignment>, nextId: int, draft: AssignmentDraft)
    requires WellKeyed(records, nextId)
    ensures var r := UpsertOutcome(records, nextId, draft);
            && WellKeyed(Commit(records, r), if r.Success? && draft.id.None? then nextId + 1 else nextId)
            && RowsMove(records, Commit(records, r))
            && (draft.id.Some? ==> Commit(records, r).Keys == records.Keys)
            && (r.Success? && draft.id.Some? ==> Commit(records, r)[draft.id.value].state == Draft)
            && (r.Success? && draft.id.None? ==> Commit(records, r).Keys == records.Keys + {nextId})
  {
    var r := UpsertOutcome(records, nextId, draft);
    if r.Success? {
      if draft.id.Some? {
        assert r.value.id == draft.id.value && records[r.value.id].state == Draft;
        WriteMovesRows(records, nextId, r.value, nextId);
      } else {
        assert r.value.id == nextId && nextId !in records;
        WriteMovesRows(records, nextId, r.value, nextId + 1);
      }
    }
  }

  /**
   * `submit` keeps the table keyed by id, adds no row and moves every row
   * along an edge; the submitted row goes from Draft to Submitted and keeps
   * its content and grade.
   */
  lemma SubmitMovesRows(records: map<int, Assignment>, nextId: int, id: int, teacherId: int, caller: AuthPrincipal)
    requires WellKeyed(records, nextId)
    ensures var r := SubmitOutcome(records, id, teacherId, caller);
            && WellKeyed(Commit(records, r), nextId)
            && RowsMove(records, Commit(records, r))
            && Commit(records, r).Keys == records.Keys
            && (r.Success? ==>
                  && records[id].state == Draft && Commit(records, r)[id].state == Submitted
                  && Commit(records, r)[id].content == records[id].content
                  && Commit(records, r)[id].grade == records[id].grade)
  {
    var r := SubmitOutcome(records, id, teacherId, caller);
    if r.Success? {
      assert r.value.id == id && records[id].state == Draft;
      WriteMovesRows(records, nextId, r.value, nextId);
    }
  }

  /**
   * `mark_grade` keeps the table keyed by id, adds no row and moves every row
   * along an edge; the graded row was not a Draft, ends Graded and holds a
   * grade.
   */
  lemma GradeMovesRows(records: map<int, Assignment>, nextId: int, id: int, grade: Option<Grade>, caller: AuthPrincipal)
    requires WellKeyed(records, nextId)
    ensures var r := MarkGradeOutcome(records, id, grade, caller);
            && WellKeyed(Commit(records, r), nextId)
            && RowsMove(records, Commit(records, r))
            && Commit(records, r).Keys == records.Keys
            && (r.Success? ==>
                  && records[id].state != Draft && Commit(records, r)[id].state == Graded
                  && Commit(records, r)[id].grade.Some?)
  {
    var r := MarkGradeOutcome(records, id, grade, caller);
    if r.Success? {
      assert r.value.id == id && records[id].state != Draft && r.value.grade.Some?;
      WriteMovesRows(records, nextId, r.value, nextId);
    }
  }

  /**
   * One request keeps the table keyed by id, adds a row only when it creates
   * one, and moves every existing row along an edge of the state machine.
   */
  lemma StepEvolves(t: Table, req: Request)
    requires WellKeyed(t.records, t.nextId)
    ensures WellKeyed(Apply(t, req).records, Apply(t, req).nextId)
    ensures !(req.UpsertRequest? && req.draft.id.None?) ==> Apply(t, req).records.Keys == t.records.Keys
    ensures RowsMove(t.records, Apply(t, req).records)
  {
    match req
    case UpsertRequest(draft) =>
      UpsertMovesRows(t.records, t.nextId, draft);
    case SubmitRequest(id, teacherId, caller) =>
      SubmitMovesRows(t.records, t.nextId, id, teacherId, caller);
    case GradeRequest(id, grade, caller) =>
      GradeMovesRows(t.records, t.nextId, id, grade, caller);
  }

  /** The table after the requests in order. */
  function Run(t: Table, reqs: seq<Request>): Table
    decreases |reqs|
  {
    if reqs == [] then t else Run(Apply(t, reqs[0]), reqs[1..])
  }

  /**
   * Over any sequence of requests no row is ever removed, and each row only
   * evolves: same owner, state never regresses, a grade never disappears, a
   * submitted row keeps its teacher and content.
   */
  lemma {:induction false} RunEvolves(t: Table, reqs: seq<Request>)
    requires WellKeyed(t.records, t.nextId)
    ensures WellKeyed(Run(t, reqs).records, Run(t, reqs).nextId)
    ensures t.nextId <= Run(t, reqs).nextId
    ensures forall id :: id in t.records ==>
              id in Run(t, reqs).records && Evolves(t.records[id], Run(t, reqs).records[id])
    decreases |reqs|
  {
    if reqs != [] {
      StepEvolves(t, reqs[0]);
      RunEvolves(Apply(t, reqs[0]), reqs[1..]);
    }
  }

  /**
   * What a caller sees never shrinks: a row stays in its student's list, and
   * a row the principal or a teacher can see stays visible to them.
   */
  lemma VisibilityIsPermanent(t: Table, reqs: seq<Request>, id: int, teacherId: int)
    requires WellKeyed(t.records, t.nextId) && id in t.records
    ensures id in AssignmentsByStudent(Run(t, reqs).records, t.records[id].studentId)
    ensures id in AssignmentsForPrincipal(t.records) ==> id in AssignmentsForPrincipal(Run(t, reqs).records)
    ensures id in AssignmentsByTeacher(t.records, teacherId) ==> id in AssignmentsByTeacher(Run(t, reqs).records, teacherId)
  {
    RunEvolves(t, reqs);
  }

  /** A teacher only ever sees rows the principal sees too. */
  lemma TeacherListWithinPrincipalList(records: map<int, Assignment>, teacherId: int)
    ensures AssignmentsByTeacher(records, teacherId).Keys <= AssignmentsForPrincipal(records).Keys
  {
  }

  /** Writing one row changes a teacher's list at that row's id only. */
  lemma TeacherListAfterWrite(records: map<int, Assignment>, k: int, row: Assignment, teacherId: int)
    ensures AssignmentsByTeacher(records[k := row], teacherId)
              == if row.teacherId == Some(teacherId) && row.state != Draft
                 then AssignmentsByTeacher(records, teacherId)[k := row]
                 else AssignmentsByTeacher(records, teacherId) - {k}
  {
  }

  /** Writing one row changes the principal's list at that row's id only. */
  lemma PrincipalListAfterWrite(records: map<int, Assignment>, k: int, row: Assignment)
    ensures AssignmentsForPrincipal(records[k := row])
              == if row.state != Draft
                 then AssignmentsForPrincipal(records)[k := row]
                 else AssignmentsForPrincipal(records) - {k}
  {
  }

  /** Writing a Draft row over a Draft row, or under a new id, changes neither staff list. */
  lemma DraftWriteInvisible(records: map<int, Assignment>, row: Assignment, teacherId: int)
    requires row.state == Draft && (row.id in records ==> records[row.id].state == Draft)
    ensures AssignmentsByTeacher(records[row.id := row], teacherId) == AssignmentsByTeacher(records, teacherId)
    ensures AssignmentsForPrincipal(records[row.id := row]) == AssignmentsForPrincipal(records)
  {
    TeacherListAfterWrite(records, row.id, row, teacherId);
    PrincipalListAfterWrite(records, row.id, row);
    assert AssignmentsByTeacher(records, teacherId) - {row.id} == AssignmentsByTeacher(records, teacherId);
    assert AssignmentsForPrincipal(records) - {row.id} == AssignmentsForPrincipal(records);
  }

  /**
   * Writing a Draft row (any edit, or a creation that leaves the state at its
   * default) changes neither a teacher's list nor the principal's.
   */
  lemma DraftUpsertInvisibleToStaff(records: map<int, Assignment>, nextId: int, draft: AssignmentDraft, teacherId: int)
    requires WellKeyed(records, nextId)
    requires draft.id.Some? || draft.state.GetOr(Draft) == Draft
    ensures var after := Commit(records, UpsertOutcome(records, nextId, draft));
            && AssignmentsByTeacher(after, teacherId) == AssignmentsByTeacher(records, teacherId)
            && AssignmentsForPrincipal(after) == AssignmentsForPrincipal(records)
  {
    var r := UpsertOutcome(records, nextId, draft);
    if r.Success? {
      assert r.value.state == Draft;
      if draft.id.Some? {
        assert records[r.value.id].state == Draft;
      } else {
        assert r.value.id !in records;
      }
      DraftWriteInvisible(records, r.value, teacherId);
    }
  }

  /**
   * A successful submit adds exactly the submitted row, which was not there
   * before, to the chosen teacher's list and to the principal's list.
   */
  lemma SubmitPublishes(records: map<int, Assignment>, nextId: int, id: int, teacherId: int, caller: AuthPrincipal)
    requires WellKeyed(records, nextId)
    requires SubmitOutcome(records, id, teacherId, caller).Success?
    ensures var row := SubmitOutcome(records, id, teacherId, caller).value;
            var after := Commit(records, SubmitOutcome(records, id, teacherId, caller));
            && id !in AssignmentsByTeacher(records, teacherId)
            && id !in AssignmentsForPrincipal(records)
            && AssignmentsByTeacher(after, teacherId) == AssignmentsByTeacher(records, teacherId)[id := row]
            && AssignmentsForPrincipal(after) == AssignmentsForPrincipal(records)[id := row]
  {
    var row := SubmitOutcome(records, id, teacherId, caller).value;
    assert row.id == id && records[id].state == Draft;
    assert row.teacherId == Some(teacherId) && row.state == Submitted;
    TeacherListAfterWrite(records, id, row, teacherId);
    PrincipalListAfterWrite(records, id, row);
  }

  /**
   * A successful grade replaces the row by its graded version in the
   * principal's list, where the row already was.
   */
  lemma GradeReplacesInPrincipalList(records: map<int, Assignment>, nextId: int, id: int, grade: Option<Grade>, caller: AuthPrincipal)
    requires WellKeyed(records, nextId)
    requires MarkGradeOutcome(records, id, grade, caller).Success?
    ensures var row := MarkGradeOutcome(records, id, grade, caller).value;
            var after := Commit(records, MarkGradeOutcome(records, id, grade, caller));
            && id in AssignmentsForPrincipal(records)
            && AssignmentsForPrincipal(after) == AssignmentsForPrincipal(records)[id := row]
  {
    var row := MarkGradeOutcome(records, id, grade, caller).value;
    assert row.id == id && records[id].state != Draft && row.state == Graded;
    PrincipalListAfterWrite(records, id, row);
  }

  /** Whitespace-only content is refused on creation and leaves the table as it was. */
  method BlankDraftScenario()
  {
    var store := new AssignmentStore();
    var blank := " \t";
    assert !NonBlank(Some(blank)) by {
      assert IsSpace(blank[0]) && IsSpace(blank[1]);
      assert AllSpace(blank);
    }
    var r := store.Upsert(AssignmentDraft(None, 1, None, Some(blank), None, None));
    assert r == Failure(Invalid(EmptyContent));
    assert store.records == map[] && store.nextId == 1;
  }

  /** A draft written on an empty table is stored under id 1. */
  method DraftingScenario() returns (store: AssignmentStore)
    ensures fresh(store) && store.Valid() && store.nextId == 2
    ensures store.records == map[1 := Assignment(1, 1, None, Some("Essay 1"), None, Draft)]
  {
    store := new AssignmentStore();
    var essay := "Essay 1";
    assert NonBlank(Some(essay)) by {
      assert essay[0] == 'E';
    }
    var r := store.Upsert(AssignmentDraft(None, 1, None, Some(essay), None, None));
    assert r == Success(Assignment(1, 1, None, Some(essay), None, Draft));
    assert store.records == map[1 := r.value];
  }

  /** That draft cannot be graded yet, not even by the principal. */
  method EarlyGradeScenario()
  {
    var store := DraftingScenario();
    var principal := AuthPrincipal(None, None, Some(1));
    var r := store.MarkGrade(1, Some(A), principal);
    assert r == Failure(Invalid(DraftNotGradable));
  }

  /**
   * Submitting that draft: another student cannot submit it, and its owner
   * submits it to teacher 2.
   */
  method SubmittingScenario() returns (store: AssignmentStore)
    ensures fresh(store) && store.Valid()
    ensures store.records == map[1 := Assignment(1, 1, Some(2), Some("Essay 1"), None, Submitted)]
  {
    store := DraftingScenario();
    var owner := AuthPrincipal(Some(1), None, None);
    var intruder := AuthPrincipal(Some(4), None, None);
    ghost var draft := store.records[1];
    assert NonBlank(draft.content) by {
      assert draft.content.value[0] == 'E';
    }

    var r := store.Submit(1, 2, intruder);
    assert r == Failure(Invalid(OtherStudent));
    assert store.records == map[1 := draft];
    r := store.Submit(1, 2, owner);
    assert r == Success(draft.(teacherId := Some(2), state := Submitted));
  }

  /**
   * Grading the row submitted to teacher 2: it can no longer be edited,
   * teacher 3 is turned away, teacher 2 grades it, cannot grade it again, and
   * the principal overwrites the grade.
   */
  method GradingScenario()
  {
    var store := SubmittingScenario();
    var teacher2 := AuthPrincipal(None, Some(2), None);
    var teacher3 := AuthPrincipal(None, Some(3), None);
    var principal := AuthPrincipal(None, None, Some(1));

    assert "Essay 2"[0] == 'E';
    var r := store.Upsert(AssignmentDraft(Some(1), 1, None, Some("Essay 2"), None, None));
    assert r == Failure(Invalid(OnlyDraftEditable));
    r := store.MarkGrade(1, Some(B), teacher3);
    assert r == Failure(Invalid(OtherTeacher));
    r := store.MarkGrade(1, Some(A), teacher2);
    assert r.Success? && r.value.state == Graded && r.value.grade == Some(A);
    assert store.records[1] == r.value;
    r := store.MarkGrade(1, Some(A), teacher2);
    assert r == Failure(Invalid(OnlySubmittedGradable));
    r := store.MarkGrade(1, Some(C), principal);
    assert r.Success? && r.value.state == Graded && r.value.grade == Some(C);
  }
}
