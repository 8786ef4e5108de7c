/**
 * The assignment record and its lifecycle rules: creating and editing drafts,
 * submitting a draft to a teacher, grading, and the three list queries.
 *
 * Each operation is given twice. A pure outcome function (`UpsertOutcome`,
 * `SubmitOutcome`, `MarkGradeOutcome`) says which error is raised, in the order
 * the guards are checked, or which record is written; the methods of
 * `AssignmentStore` perform the same steps on a mutable table and are proved
 * to agree with those functions.
 */
module Assignments {
  import opened Wrappers
  import opened PyStr

  datatype Grade = A | B | C | D

  datatype AssignmentState = Draft | Submitted | Graded

  /** Position of a state on the forward path Draft -> Submitted -> Graded. */
  function Rank(s: AssignmentState): nat
  {
    match s
    case Draft => 0
    case Submitted => 1
    case Graded => 2
  }

  /** A stored assignment row. `teacherId`, `content` and `grade` are nullable columns. */
  datatype Assignment = Assignment(
    id: int,
    studentId: int,
    teacherId: Option<int>,
    content: Option<string>,
    grade: Option<Grade>,
    state: AssignmentState)

  /**
   * The not-yet-stored record handed to `upsert`: without an id it is a new
   * draft, with an id it carries new content for an existing row. A state left
   * unset takes the column default, Draft.
   */
  datatype AssignmentDraft = AssignmentDraft(
    id: Option<int>,
    studentId: int,
    teacherId: Option<int>,
    content: Option<string>,
    grade: Option<Grade>,
    state: Option<AssignmentState>)

  /** The authenticated caller: any of the three role ids may be set. */
  datatype AuthPrincipal = AuthPrincipal(
    studentId: Option<int>,
    teacherId: Option<int>,
    principalId: Option<int>)

  /** Python truthiness of an optional id: `None` and `0` both count as absent. */
  predicate Truthy(id: Option<int>)
  {
    id.Some? && id.value != 0
  }

  /**
   * The two failures the operations raise: a missing row (HTTP 404) and a
   * failed validity assertion (HTTP 400), each with its message.
   */
  datatype Error = NotFound(message: string) | Invalid(message: string)

  const NoSuchAssignment := "No assignment with this id was found"
  const OnlyDraftEditable := "only assignment in draft state can be edited"
  const EmptyContent := "content cannot be empty"
  const OtherStudent := "This assignment belongs to another student"
  const OnlyDraftSubmittable := "only a draft assignment can be submitted"
  const EmptySubmission := "assignment with empty content cannot be submitted"
  const DraftNotGradable := "draft assignments cannot be graded"
  const EmptyGrade := "assignment with empty grade cannot be graded"
  const PrincipalGradesSubmitted := "principal can only grade submitted or already graded assignments"
  const OtherTeacher := "This assignment is assigned to another teacher"
  const OnlySubmittedGradable := "only submitted assignments can be graded"

  /**
   * Content counts as present when it is not null and `strip()` leaves
   * something, that is, when it holds a non-whitespace character.
   */
  predicate NonBlank(content: Option<string>)
    ensures NonBlank(content) <==> content.Some? && exists i :: 0 <= i < |content.value| && !IsSpace(content.value[i])
  {
    content.Some? && Strip(content.value) != []
  }

  /** Every row is stored under its own id, and every id is below the next value of the id sequence. */
  ghost predicate WellKeyed(records: map<int, Assignment>, nextId: int)
  {
    forall id :: id in records ==> records[id].id == id && id < nextId
  }

  /** The table after an operation: a successful one writes its record under the record's id. */
  function Commit(records: map<int, Assignment>, r: Result<Assignment, Error>): map<int, Assignment>
  {
    if r.Success? then records[r.value.id := r.value] else records
  }

  /**
   * `upsert`: with an id, the row must exist (NotFound), be a Draft and the new
   * content must be non-blank, and then only the content changes; without an
   * id, non-blank content is required and the given record becomes a new row
   * with the next sequence id.
   */
  function UpsertOutcome(records: map<int, Assignment>, nextId: int, draft: AssignmentDraft): (r: Result<Assignment, Error>)
    // editing an existing row
    ensures draft.id.Some? ==> (r == Failure(NotFound(NoSuchAssignment)) <==> draft.id.value !in records)
    ensures draft.id.Some? && draft.id.value in records && records[draft.id.value].state != Draft ==>
              r == Failure(Invalid(OnlyDraftEditable))
    ensures draft.id.Some? && draft.id.value in records && records[draft.id.value].state == Draft ==>
              (r.Success? <==> NonBlank(draft.content))
    ensures draft.id.Some? && draft.id.value in records && records[draft.id.value].state == Draft
              && !NonBlank(draft.content) ==>
              r == Failure(Invalid(EmptyContent))
    ensures r.Success? && draft.id.Some? ==>
              var old_ := records[draft.id.value];
              && r.value.id == old_.id && r.value.studentId == old_.studentId
              && r.value.teacherId == old_.teacherId && r.value.grade == old_.grade
              && r.value.state == old_.state == Draft && r.value.content == draft.content
    // creating a new row
    ensures draft.id.None? ==> (r.Success? <==> NonBlank(draft.content))
    ensures draft.id.None? && r.Failure? ==> r.error == Invalid(EmptyContent)
    ensures r.Success? && draft.id.None? ==>
              && r.value.id == nextId && r.value.studentId == draft.studentId
              && r.value.teacherId == draft.teacherId && r.value.content == draft.content
              && r.value.grade == draft.grade
              && r.value.state == (if draft.state.Some? then draft.state.value else Draft)
    ensures r.Success? ==> NonBlank(r.value.content)
  {
    match draft.id
    case Some(id) =>
      if id !in records then Failure(NotFound(NoSuchAssignment))
      else if records[id].state != Draft then Failure(Invalid(OnlyDraftEditable))
      else if !NonBlank(draft.content) then Failure(Invalid(EmptyContent))
      else Success(records[id].(content := draft.content))
    case None =>
      if !NonBlank(draft.content) then Failure(Invalid(EmptyContent))
      else Success(Assignment(nextId, draft.studentId, draft.teacherId, draft.content, draft.grade, draft.state.GetOr(Draft)))
  }

  /**
   * `submit`: succeeds exactly for an existing row owned by the caller's
   * student id that is a Draft with non-blank content; the guards fail in
   * that order. Success records the teacher and moves the row to Submitted.
   */
  function SubmitOutcome(records: map<int, Assignment>, id: int, teacherId: int, caller: AuthPrincipal): (r: Result<Assignment, Error>)
    ensures r == Failure(NotFound(NoSuchAssignment)) <==> id !in records
    ensures r.Success? <==>
              && id in records
              && Some(records[id].studentId) == caller.studentId
              && records[id].state == Draft
              && NonBlank(records[id].content)
    ensures id in records && Some(records[id].studentId) != caller.studentId ==>
              r == Failure(Invalid(OtherStudent))
    ensures id in records && Some(records[id].studentId) == caller.studentId && records[id].state != Draft ==>
              r == Failure(Invalid(OnlyDraftSubmittable))
    ensures id in records && Some(records[id].studentId) == caller.studentId && records[id].state == Draft
              && !NonBlank(records[id].content) ==>
              r == Failure(Invalid(EmptySubmission))
    ensures r.Success? ==>
              && r.value.id == records[id].id && r.value.studentId == records[id].studentId
              && r.value.content == records[id].content && r.value.grade == records[id].grade
              && r.value.teacherId == Some(teacherId) && r.value.state == Submitted
  {
    if id !in records then Failure(NotFound(NoSuchAssignment))
    else
      var assignment := records[id];
      if Some(assignment.studentId) != caller.studentId then Failure(Invalid(OtherStudent))
      else if assignment.state != Draft then Failure(Invalid(OnlyDraftSubmittable))
      else if !NonBlank(assignment.content) then Failure(Invalid(EmptySubmission))
      else Success(assignment.(teacherId := Some(teacherId), state := Submitted))
  }

  /**
   * `mark_grade`: a missing row, a Draft row and a missing grade are refused
   * first, for every caller. A truthy principal id then needs a Submitted or
   * Graded row; a truthy teacher id needs the row's teacher to be the caller
   * and the row to be exactly Submitted. A caller with neither role passes
   * straight through. Success sets the grade and moves the row to Graded.
   */
  function MarkGradeOutcome(records: map<int, Assignment>, id: int, grade: Option<Grade>, caller: AuthPrincipal): (r: Result<Assignment, Error>)
    ensures r == Failure(NotFound(NoSuchAssignment)) <==> id !in records
    // checks made before any role is looked at
    ensures id in records && records[id].state == Draft ==> r == Failure(Invalid(DraftNotGradable))
    ensures id in records && records[id].state != Draft && grade.None? ==> r == Failure(Invalid(EmptyGrade))
    // a teacher grades only their own, exactly Submitted rows, so never re-grades
    ensures Truthy(caller.teacherId) ==>
              (r.Success? <==> id in records && grade.Some? && records[id].teacherId == caller.teacherId
                               && records[id].state == Submitted)
    ensures Truthy(caller.teacherId) && id in records && records[id].state != Draft && grade.Some?
              && records[id].teacherId != caller.teacherId ==>
              r == Failure(Invalid(OtherTeacher))
    ensures Truthy(caller.teacherId) && id in records && records[id].state == Graded && grade.Some?
              && records[id].teacherId == caller.teacherId ==>
              r == Failure(Invalid(OnlySubmittedGradable))
    // a principal grades Submitted rows and re-grades Graded ones
    ensures Truthy(caller.principalId) && !Truthy(caller.teacherId) ==>
              (r.Success? <==> id in records && grade.Some?
                               && (records[id].state == Submitted || records[id].state == Graded))
    // a caller with no truthy staff id is not refused for its role
    ensures !Truthy(caller.principalId) && !Truthy(caller.teacherId) ==>
              (r.Success? <==> id in records && grade.Some? && records[id].state != Draft)
    // the principal's own state check can never be the one that fails
    ensures r != Failure(Invalid(PrincipalGradesSubmitted))
    ensures r.Success? ==>
              && r.value.id == records[id].id && r.value.studentId == records[id].studentId
              && r.value.teacherId == records[id].teacherId && r.value.content == records[id].content
              && r.value.grade == grade && grade.Some? && r.value.state == Graded
  {
    if id !in records then Failure(NotFound(NoSuchAssignment))
    else
      var assignment := records[id];
      if assignment.state == Draft then Failure(Invalid(DraftNotGradable))
      else if grade.None? then Failure(Invalid(EmptyGrade))
      else
        assert assignment.state == Submitted || assignment.state == Graded;
        if Truthy(caller.principalId) && !(assignment.state == Submitted || assignment.state == Graded) then
        Failure(Invalid(PrincipalGradesSubmitted))
      else if Truthy(caller.teacherId) && assignment.teacherId != caller.teacherId then
        Failure(Invalid(OtherTeacher))
      else if Truthy(caller.teacherId) && assignment.state != Submitted then
        Failure(Invalid(OnlySubmittedGradable))
      else Success(assignment.(grade := grade, state := Graded))
  }

  /*
   * The list queries. A query's answer is modelled as the sub-table of the
   * matching rows, keyed by id: rows are unique by id and the order of the
   * returned list carries no meaning.
   */

  /** `get_assignments_by_student`: every row of that student, whatever its state. */
  function AssignmentsByStudent(records: map<int, Assignment>, studentId: int): (r: map<int, Assignment>)
    ensures forall id :: id in r <==> id in records && records[id].studentId == studentId
    ensures forall id :: id in r ==> r[id] == records[id]
  {
    map id | id in records && records[id].studentId == studentId :: records[id]
  }

  /** `get_assignments_by_teacher`: the rows sent to that teacher, never a Draft. */
  function AssignmentsByTeacher(records: map<int, Assignment>, teacherId: int): (r: map<int, Assignment>)
    ensures forall id :: id in r <==> id in records && records[id].teacherId == Some(teacherId) && records[id].state != Draft
    ensures forall id :: id in r ==> r[id] == records[id]
  {
    map id | id in records && records[id].teacherId == Some(teacherId) && records[id].state != Draft :: records[id]
  }

  /** `get_assignments_by_principal`: every row that is not a Draft. */
  function AssignmentsForPrincipal(records: map<int, Assignment>): (r: map<int, Assignment>)
    ensures forall id :: id in r <==> id in records && records[id].state != Draft
    ensures forall id :: id in r ==> r[id] == records[id]
  {
    map id | id in records && records[id].state != Draft :: records[id]
  }

  /**
   * The assignments table. Operations look a row up, run their guards, and on
   * success write the changed row back; a new row takes the next value of the
   * id sequence.
   */
  class AssignmentStore {
    var records: map<int, Assignment>
    var nextId: int

    ghost predicate Valid()
      reads this
    {
      WellKeyed(records, nextId)
    }

    constructor ()
      ensures Valid() && records == map[] && nextId == 1
    {
      records := map[];
      nextId := 1;
    }

    /** `get_by_id`: the row stored under `id`, if any. */
    function GetById(id: int): (r: Option<Assignment>)
      reads this
      requires Valid()
      ensures r.Some? <==> id in records
      ensures r.Some? ==> r.value == records[id] && r.value.id == id
    {
      if id in records then Some(records[id]) else None
    }

    /** `upsert`: edits the row named by the draft's id, or creates a new one. */
    method Upsert(draft: AssignmentDraft) returns (r: Result<Assignment, Error>)
      requires Valid()
      modifies this
      ensures Valid()
      ensures r == UpsertOutcome(old(records), old(nextId), draft)
      ensures records == Commit(old(records), r)
      ensures nextId == if r.Success? && draft.id.None? then old(nextId) + 1 else old(nextId)
    {
      if draft.id.Some? {
        r := Edit(draft);
      } else {
        r := Create(draft);
      }
    }

    /** The editing branch of `upsert`: only a Draft row's content may change. */
    method Edit(draft: AssignmentDraft) returns (r: Result<Assignment, Error>)
      requires Valid() && draft.id.Some?
      modifies this
      ensures Valid()
      ensures r == UpsertOutcome(old(records), old(nextId), draft)
      ensures records == Commit(old(records), r) && nextId == old(nextId)
    {
      var found := GetById(draft.id.value);
      if found.None? {
        return Failure(NotFound(NoSuchAssignment));
      }
      var assignment := found.value;
      if assignment.state != Draft {
        return Failure(Invalid(OnlyDraftEditable));
      }
      if !NonBlank(draft.content) {
        return Failure(Invalid(EmptyContent));
      }
      assert assignment == records[draft.id.value];
      assignment := assignment.(content := draft.content);
      records := records[assignment.id := assignment];
      r := Success(assignment);
    }

    /** The creating branch of `upsert`: the given record becomes a row under the next sequence id. */
    method Create(draft: AssignmentDraft) returns (r: Result<Assignment, Error>)
      requires Valid() && draft.id.None?
      modifies this
      ensures Valid()
      ensures r == UpsertOutcome(old(records), old(nextId), draft)
      ensures records == Commit(old(records), r)
      ensures nextId == if r.Success? then old(nextId) + 1 else old(nextId)
    {
      if !NonBlank(draft.content) {
        return Failure(Invalid(EmptyContent));
      }
      var assignment := Assignment(nextId, draft.studentId, draft.teacherId, draft.content,
                                   draft.grade, draft.state.GetOr(Draft));
      assert nextId !in records;
      records := records[nextId := assignment];
      nextId := nextId + 1;
      r := Success(assignment);
    }

    method Submit(id: int, teacherId: int, caller: AuthPrincipal) returns (r: Result<Assignment, Error>)
      requires Valid()
      modifies this
      ensures Valid()
      ensures r == SubmitOutcome(old(records), id, teacherId, caller)
      ensures records == Commit(old(records), r) && nextId == old(nextId)
    {
      var found := GetById(id);
      if found.None? {
        return Failure(NotFound(NoSuchAssignment));
      }
      var assignment := found.value;
      if Some(assignment.studentId) != caller.studentId {
        return Failure(Invalid(OtherStudent));
      }
      if assignment.state != Draft {
        return Failure(Invalid(OnlyDraftSubmittable));
      }
      if !NonBlank(assignment.content) {
        return Failure(Invalid(EmptySubmission));
      }
      assignment := assignment.(teacherId := Some(teacherId));
      assignment := assignment.(state := Submitted);
      records := records[id := assignment];
      r := Success(assignment);
    }

    method MarkGrade(id: int, grade: Option<Grade>, caller: AuthPrincipal) returns (r: Result<Assignment, Error>)
      requires Valid()
      modifies this
      ensures Valid()
      ensures r == MarkGradeOutcome(old(records), id, grade, caller)
      ensures records == Commit(old(records), r) && nextId == old(nextId)
    {
      var found := GetById(id);
      if found.None? {
        return Failure(NotFound(NoSuchAssignment));
      }
      var assignment := found.value;
      if assignment.state == Draft {
        return Failure(Invalid(DraftNotGradable));
      }
      if grade.None? {
        return Failure(Invalid(EmptyGrade));
      }
      if Truthy(caller.principalId) {
        if !(assignment.state == Submitted || assignment.state == Graded) {
          return Failure(Invalid(PrincipalGradesSubmitted));
        }
      }
      if Truthy(caller.teacherId) {
        if assignment.teacherId != caller.teacherId {
          return Failure(Invalid(OtherTeacher));
        }
        if assignment.state != Submitted {
          return Failure(Invalid(OnlySubmittedGradable));
        }
      }
      assignment := assignment.(grade := grade);
      assignment := assignment.(state := Graded);
      records := records[id := assignment];
      r := Success(assignment);
    }
  }
}
