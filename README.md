# Assignment lifecycle — a Dafny model

This project models the record layer of an academic assignment service: the
`Assignment` row and the rules that move it through the states
DRAFT → SUBMITTED → GRADED. The rules cover three kinds of caller (student,
teacher, principal) and the three list queries.

- `wrappers.dfy` (`Wrappers`): `Option` and `Result`.
- `pystr.dfy` (`PyStr`): Python's `str.isspace()` and `str.strip()`. They decide
  whether content is blank.
- `assignments.dfy` (`Assignments`): the grade and state enums, the row, the
  caller (`AuthPrincipal`) and the two error kinds. It also holds one pure
  outcome function per operation, the three queries, and the class
  `AssignmentStore`. That class holds the table as a map from id to row, plus
  the next value of the id sequence. Its methods `Upsert`, `Submit` and
  `MarkGrade` do the source's steps in order (`Upsert` hands its two branches
  to `Edit` and `Create`): look the row up, check the guards
  (returning early on the first failure), then write the changed row back. Each
  method is proved to return what its outcome function says, and to leave the
  table exactly as that result dictates.
- `lifecycle.dfy` (`Lifecycle`): the table as a value that any sequence of
  requests acts on. It proves what holds for every row across such a run, and
  how each operation changes the list queries. It ends with a few example
  walks through the store: creating a draft and refusing blank content,
  submitting it, and grading it as a teacher and as the principal.

Error kinds. The code raises two kinds of error. `assert_found` becomes
`NotFound` (HTTP 404). `assert_valid` becomes `Invalid` (HTTP 400, reported as
`FyleError`). Each error carries the source's message, so the order in which
guards are checked is visible in the results. The code has no separate
"forbidden" or "invalid state" kinds; only the messages differ.

Some rules one might expect of such a service are not in the code. The model
follows the code:

- One might expect a student to be refused in grading, but `mark_grade` has no
  branch that rejects a student. A caller whose principal
  id and teacher id are both unset (or 0) grades any non-draft row, as long as
  a grade is given.
- Roles are tested by Python truthiness, so an id of `0` counts as absent. A
  caller with both a principal id and a teacher id must pass both sets of checks.
- The principal's own state check (`state in [SUBMITTED, GRADED]`) can never
  fail, because drafts are already refused earlier. `MarkGradeOutcome` proves
  this.
- Creating a draft stores the given record as it is. Its `student_id`,
  `teacher_id` and `grade` are whatever the caller set. Its state defaults to
  DRAFT only when it was left unset. So "teacher id is null while DRAFT" and
  "grade is null until GRADED" are not invariants of this code. The invariants
  that do hold over every run are proved in `Lifecycle.RunEvolves`.

## Model

| member | source | states |
|---|---|---|
| `PyStr.Strip` | core/models/assignments.py:60 | `strip()` returns a slice `s[i..j]` of the text whose cut-off ends `s[..i]` and `s[j..]` are all whitespace, and which neither starts nor ends with whitespace. The result is empty exactly when the text is all whitespace. |
| `PyStr.TrimStart` | core/models/assignments.py:60 | The left half of `strip()`. It keeps a suffix of the text and removes only whitespace. What is kept does not start with whitespace. The result is empty exactly when the text is all whitespace. |
| `PyStr.TrimEnd` | core/models/assignments.py:60 | The right half of `strip()`. It keeps a prefix of the text and removes only whitespace. What is kept does not end with whitespace. The result is empty exactly when the text is all whitespace. |
| `Assignments.NonBlank` | core/models/assignments.py:59-62 | `content is not None and content.strip()` holds exactly when the content is present and has a character that is not whitespace. |
| `Assignments.UpsertOutcome` | core/models/assignments.py:48-74 | Editing: an unknown id gives NotFound. A non-draft row gives "only assignment in draft state can be edited". Blank new content gives "content cannot be empty". These are checked in that order. On success only `content` changes; id, owner, teacher, grade and the DRAFT state stay. Creating: blank content is refused. Otherwise the given record gets the next sequence id, and its state defaults to DRAFT. |
| `Assignments.SubmitOutcome` | core/models/assignments.py:78-113 | Submitting succeeds exactly when all four guards pass: the row exists, the caller's student id owns it, it is a DRAFT, and its content is not blank. The guards are checked in that order, and each failure has its own message. On success the row gets the given teacher and becomes SUBMITTED. Content, grade and owner are unchanged. |
| `Assignments.MarkGradeOutcome` | core/models/assignments.py:117-154 | A missing row gives NotFound. A draft is refused whoever calls, and so is a missing grade. A truthy teacher id succeeds exactly on its own SUBMITTED rows. A teacher re-grading their own GRADED row gets "only submitted assignments can be graded". A principal alone succeeds on SUBMITTED and GRADED rows, so re-grading is allowed. A caller with neither id is not refused. The principal's state message is never produced. Success sets the grade and the GRADED state and leaves everything else unchanged. |
| `Assignments.AssignmentsByStudent` | core/models/assignments.py:157-158 | Returns exactly the rows of that student, in any state. |
| `Assignments.AssignmentsByTeacher` | core/models/assignments.py:161-166 | Returns exactly the rows whose teacher is that teacher and whose state is not DRAFT. |
| `Assignments.AssignmentsForPrincipal` | core/models/assignments.py:169-171 | Returns exactly the rows that are not DRAFT. |
| `Assignments.AssignmentStore.GetById` | core/models/assignments.py:42-44 | Finds a row exactly when one is stored under the id, and the row found carries that id. |
| `Assignments.AssignmentStore.Upsert` | core/models/assignments.py:48-74 | Returns `UpsertOutcome` of the old table. The new table is the old one with the resulting row written, or unchanged on failure. The id sequence advances only when a row is created. The table stays keyed by id. |
| `Assignments.AssignmentStore.Edit` | core/models/assignments.py:49-64 | The editing branch: returns `UpsertOutcome` of the old table for a draft with an id. The new table is the old one with the edited row written, or unchanged on failure. The id sequence does not move. |
| `Assignments.AssignmentStore.Create` | core/models/assignments.py:65-71 | The creating branch: returns `UpsertOutcome` of the old table for a draft without an id. The new row is written under the next sequence id, which then advances. On failure nothing changes. |
| `Assignments.AssignmentStore.Submit` | core/models/assignments.py:78-113 | Returns `SubmitOutcome` of the old table. The new table is the old one with the submitted row written, or unchanged on failure. |
| `Assignments.AssignmentStore.MarkGrade` | core/models/assignments.py:117-154 | Returns `MarkGradeOutcome` of the old table. The new table is the old one with the graded row written, or unchanged on failure. |
| `Lifecycle.Apply` | core/models/assignments.py:48-154 | A failed operation leaves the table and the id sequence unchanged, because every guard comes before the writes. No operation removes a row, and the id sequence never goes back. |
| `Lifecycle.UpsertMovesRows` | core/models/assignments.py:48-74 | `upsert` keeps every row stored under its own id and moves every existing row along an edge without breaking what `Evolves` promises. An edit adds no row, and the edited row is still a DRAFT. A creation adds exactly the key `nextId`. |
| `Lifecycle.SubmitMovesRows` | core/models/assignments.py:78-113 | `submit` adds no row and keeps the table keyed by id. The submitted row was a DRAFT, becomes SUBMITTED, and keeps its content and grade; every row keeps its owner. |
| `Lifecycle.GradeMovesRows` | core/models/assignments.py:117-154 | `mark_grade` adds no row and keeps the table keyed by id. The graded row was not a DRAFT, ends GRADED and holds a grade. Because it was not a DRAFT, `Evolves` keeps its owner, teacher and content. |
| `Lifecycle.StepEvolves` | core/models/assignments.py:48-154 | Any single operation keeps the table keyed by id. Only a creation adds a row. Every existing row moves along an edge of the state machine: it stays put, goes DRAFT→SUBMITTED, or goes SUBMITTED→GRADED. |
| `Lifecycle.RunEvolves` | core/models/assignments.py:48-154 | Over any sequence of operations every row survives and keeps its owner. Its state never moves backwards, and a grade once set stays set. Once a row is submitted, its teacher and content never change. |
| `Lifecycle.VisibilityIsPermanent` | core/models/assignments.py:157-171 | Over any sequence of operations a row stays in its student's list. A row the principal or a teacher can see stays visible to them. |
| `Lifecycle.TeacherListWithinPrincipalList` | core/models/assignments.py:161-171 | A teacher's list is contained in the principal's list. |
| `Lifecycle.TeacherListAfterWrite` | core/models/assignments.py:161-166 | Writing one row changes a teacher's list only at that row's id. The row is added if it is that teacher's and not a DRAFT, and dropped otherwise. |
| `Lifecycle.PrincipalListAfterWrite` | core/models/assignments.py:169-171 | Writing one row changes the principal's list only at that row's id. The row is added if it is not a DRAFT, and dropped otherwise. |
| `Lifecycle.DraftWriteInvisible` | core/models/assignments.py:160-171 | Writing a DRAFT row over a DRAFT row, or under a new id, leaves a teacher's list and the principal's list equal to what they were. |
| `Lifecycle.DraftUpsertInvisibleToStaff` | core/models/assignments.py:160-171 | Editing a draft, or creating one in the default state, changes neither a teacher's list nor the principal's. |
| `Lifecycle.SubmitPublishes` | core/models/assignments.py:109-113 | A successful submit adds the submitted row to the chosen teacher's list and to the principal's list. Neither list held it before. Nothing else in those lists changes. |
| `Lifecycle.GradeReplacesInPrincipalList` | core/models/assignments.py:151-154 | A successful grade replaces the row with its graded version in the principal's list, where the row already was. |

## Left out

- The database session (`add`, `flush`, query filters) is not modelled. The table is a map from id to row. The primary-key sequence is a counter that advances when a row is created.
- The `created_at`/`updated_at` timestamps are not modelled. They come from the clock and no rule depends on them.
- HTTP routing, parsing auth headers into `AuthPrincipal`, and the mapping from errors to status codes are not modelled. The caller's `user_id` is not modelled either, because no rule reads it.
- Checking grade strings such as `"AB"` is not modelled. The API schema does that before `mark_grade` runs, so the grade is typed as an optional `Grade`.
- The two commented-out blocks in `submit` (a state reset and a check that the teacher exists) are not modelled, because they are inactive.
- Database-level failures are not modelled, such as a NULL `student_id` rejected at flush or a foreign key to a missing student or teacher. The owner is typed as a plain integer. The teacher given to `submit` is typed as a plain integer, because the route requires it.
- Row identity is not modelled. The source mutates the row object it fetched and returns that same object. The model writes a new row value into the table and returns a copy, so a caller's later view of that object is not modelled.
- Atomicity and concurrency are not modelled. Operations are applied one at a time; serialising them is the database's job.
- The teacher schema module is not modelled. It only declares serialisation fields.
