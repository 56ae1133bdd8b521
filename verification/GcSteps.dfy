/** Deletion, statement by statement, and what lets the sweep work through its lists one row at a time. */
module GcSteps {
  import opened Common
  import opened Gc

  /* ---------- One statement ---------- */

  /** The named rows and those that a cascading key deletes with them. */
  function Cascaded(db: Db, rows: set<Ref>): set<Ref> {
    set r | r in db && (r in rows || exists t <- db[r].refs :: t in rows && Cascades(r.table, t.table))
  }

  /** A delete fails when a surviving row still names a deleted one: RESTRICT. */
  predicate Blocked(db: Db, rows: set<Ref>) {
    exists r <- db :: r !in Cascaded(db, rows) && exists t <- db[r].refs :: t in Cascaded(db, rows)
  }

  lemma NotBlocked(db: Db, rows: set<Ref>)
    requires Unreferred(db, Cascaded(db, rows))
    ensures !Blocked(db, rows)
  {
  }

  /** The rows of a table that name `target`. */
  function Children(db: Db, table: Table, target: Ref): set<Ref> {
    set r | r in db && r.table == table && target in db[r].refs
  }

  /* ---------- A task's aggregate ---------- */

  /** The self-references of a task's messages and submissions, set to null. */
  function Unthreaded(db: Db, task: Ref): Db {
    map r | r in db ::
      if InThread(r.table) && task in db[r].refs
      then db[r].(refs := set t | t in db[r].refs && t.table != r.table)
      else db[r]
  }

  /** The task's rows once the rows `gone` have been deleted. */
  function Stage(db: Db, task: Ref, gone: set<Ref>): Db { Without(Unthreaded(db, task), gone) }

  function Files(db: Db, task: Ref): set<Ref> { set r | r in db && IsTaskFile(db, r, {task}) }

  function Answers(db: Db, task: Ref): set<Ref> {
    set r | r in db && r.table.Answer? && NamesVia(db, r, Submission, {task})
  }

  function Questions(db: Db, task: Ref): set<Ref> {
    set r | r in db && r.table.Question? && NamesVia(db, r, Template, {task})
  }

  lemma NamesOne(db: Db, r: Ref, target: Ref)
    ensures Names(db, r, {target}) <==> r in db && target in db[r].refs
  {
  }

  /** What a stage says of foreign keys: fewer rows, and no self-references inside the task. */
  lemma StageRefers(db: Db, task: Ref, gone: set<Ref>, r: Ref, t: Ref)
    ensures Refers(Stage(db, task, gone), r, t) <==>
            r !in gone && Refers(db, r, t) && !(InThread(r.table) && Refers(db, r, task) && t.table == r.table)
  {
  }

  /** The statements of `deleteTaskAggregate`, in order: what has gone before each. */
  function GoneBefore(db: Db, task: Ref, k: nat): set<Ref> {
    if k == 0 then {}
    else GoneBefore(db, task, k - 1) + Goes(db, task, k - 1)
  }

  /** The rows that the k-th statement deletes, cascades included. */
  function Goes(db: Db, task: Ref, k: nat): set<Ref> {
    if k == 0 then Files(db, task)
    else if k == 1 then Children(db, Message, task)
    else if k == 2 then Children(db, Submission, task) + Answers(db, task)
    else if k == 3 then Children(db, Claim, task)
    else if k == 4 then Children(db, Template, task) + Questions(db, task)
    else if k == 5 then {task} * db.Keys
    else {}
  }

  predicate GoesAt(db: Db, task: Ref, k: nat, r: Ref) { r in Goes(db, task, k) }

  lemma GoneIs(db: Db, task: Ref, k: nat, r: Ref)
    ensures r in GoneBefore(db, task, k) <==> exists j: nat :: j < k && GoesAt(db, task, j, r)
  {
    if k > 0 {
      GoneIs(db, task, k - 1, r);
      if exists j: nat :: j < k && GoesAt(db, task, j, r) {
        var j: nat :| j < k && GoesAt(db, task, j, r);
        assert j < k - 1 || j == k - 1;
      }
      if r in Goes(db, task, k - 1) {
        assert GoesAt(db, task, k - 1, r);
      }
    }
  }

  /** Whatever names a row that the k-th statement deletes has gone, goes with it, or is a cut self-reference. */
  lemma ReferrersGo(db: Db, task: Ref, k: nat, r: Ref, t: Ref)
    requires Intact(db) && Coherent(db) && task.table.Task? && k < 6
    requires Refers(db, r, t) && t in Goes(db, task, k)
    ensures (exists j: nat :: j <= k && GoesAt(db, task, j, r))
         || (InThread(r.table) && Refers(db, r, task) && t.table == r.table)
  {
    assert t.table in Targets(r.table);
    NamesOne(db, t, task);
    NamesOne(db, r, task);
    if k == 1 || (k == 2 && t in Children(db, Submission, task)) {
      ThreadReferrersGo(db, task, k, r, t);
    } else if k == 2 {
      assert NamesViaTwo(db, r, Answer, Submission, {task});
      assert GoesAt(db, task, 0, r);
    } else if k == 4 && t in Children(db, Template, task) {
      assert NamesVia(db, r, Template, {task});
      assert GoesAt(db, task, 4, r);
    } else if k == 4 {
      QuestionAnsweredGoes(db, task, r, t);
    } else if k == 5 {
      assert task in db[r].refs;
      assert r.table.Message? ==> GoesAt(db, task, 1, r);
      assert r.table.Submission? ==> GoesAt(db, task, 2, r);
      assert r.table.Claim? ==> GoesAt(db, task, 3, r);
      assert r.table.Template? ==> GoesAt(db, task, 4, r);
    }
  }

  lemma ThreadReferrersGo(db: Db, task: Ref, k: nat, r: Ref, t: Ref)
    requires Coherent(db) && task.table.Task? && 1 <= k <= 2
    requires Refers(db, r, t) && t.table in Targets(r.table)
             && t in Children(db, if k == 1 then Message else Submission, task)
    ensures (exists j: nat :: j <= k && GoesAt(db, task, j, r))
         || (InThread(r.table) && Refers(db, r, task) && t.table == r.table)
  {
    NamesOne(db, t, task);
    if InThread(r.table) {
      assert SameTasks(db, r, t);
      assert Refers(db, t, task);
      assert Refers(db, r, task);
      hide ThreadsStay, Owned, AnswersFit, OneOwner, LockStep, SameTasks;
      if t.table != r.table {
        assert GoesAt(db, task, 1, r);
      }
    } else if r.table.Attachment? {
      assert NamesVia(db, r, Message, {task});
      assert GoesAt(db, task, 0, r);
    } else {
      assert NamesVia(db, r, Submission, {task});
      assert GoesAt(db, task, 2, r);
    }
  }

  lemma QuestionAnsweredGoes(db: Db, task: Ref, a: Ref, q: Ref)
    requires Intact(db) && Coherent(db) && q in Questions(db, task) && Refers(db, a, q) && q.table in Targets(a.table)
    ensures exists j: nat :: j <= 4 && GoesAt(db, task, j, a)
  {
    hide Coherent;
    var p :| p in db[q].refs && p.table.Template? && Names(db, p, {task});
    NamesOne(db, p, task);
    assert Refers(db, q, p) && Refers(db, p, task);
    var s := AnswerHome(db, a, q, p, task);
    NamesOne(db, s, task);
    assert NamesVia(db, a, Submission, {task});
    assert GoesAt(db, task, 2, a);
  }

  /** Before its turn, no surviving row names what the k-th statement deletes. */
  lemma StageUnreferred(db: Db, task: Ref, k: nat)
    requires Intact(db) && Coherent(db) && task.table.Task? && k < 6
    ensures Unreferred(Stage(db, task, GoneBefore(db, task, k)), Goes(db, task, k))
  {
    hide Intact, Coherent, Stage, Goes, GoneBefore;
    var gone := GoneBefore(db, task, k);
    forall r, t | Refers(Stage(db, task, gone), r, t) && t in Goes(db, task, k) ensures r in Goes(db, task, k) {
      StageRefers(db, task, gone, r, t);
      ReferrersGo(db, task, k, r, t);
      GoneIs(db, task, k, r);
      var j: nat :| j <= k && GoesAt(db, task, j, r);
      assert j == k;
    }
  }

  /** The rows that a statement selects when it is issued. */
  function Selected(cur: Db, task: Ref, k: nat): set<Ref> {
    if k == 1 then Children(cur, Message, task)
    else if k == 2 then Children(cur, Submission, task)
    else if k == 3 then Children(cur, Claim, task)
    else if k == 4 then Children(cur, Template, task)
    else {task}
  }

  predicate GoneTable(k: nat, t: Table) {
    || (k > 0 && t.Attachment?) || (k > 1 && t.Message?) || (k > 2 && (t.Submission? || t.Answer?))
    || (k > 3 && t.Claim?) || (k > 4 && (t.Template? || t.Question?)) || (k > 5 && t.Task?)
  }

  lemma GoneTables(db: Db, task: Ref, k: nat, r: Ref)
    requires task.table.Task? && k <= 6 && r in GoneBefore(db, task, k)
    ensures GoneTable(k, r.table)
  {
  }

  /** A statement's cascade reaches the same rows, whether told now or from the start. */
  lemma ChildrenCascade(db: Db, task: Ref, gone: set<Ref>, parent: Table, r: Ref)
    requires task.table.Task? && r in Stage(db, task, gone) && !InThread(r.table) && Cascades(r.table, parent)
    requires forall s <- gone :: s.table != parent
    ensures r in Cascaded(Stage(db, task, gone), Children(Stage(db, task, gone), parent, task)) <==>
            NamesVia(db, r, parent, {task})
  {
  }

  lemma StageKeepsTask(db: Db, task: Ref, gone: set<Ref>, s: Ref)
    ensures s in Stage(db, task, gone) && !InThread(task.table) ==>
              (task in Stage(db, task, gone)[s].refs <==> task in db[s].refs)
    ensures s in Stage(db, task, gone) <==> s in db && s !in gone
  {
  }

  function TableAt(k: nat): Table {
    if k == 1 then Message
    else if k == 2 then Submission
    else if k == 3 then Claim
    else if k == 4 then Template
    else Task
  }

  /** A row of the statement's own table. */
  lemma OwnTable(db: Db, task: Ref, k: nat, gone: set<Ref>, r: Ref)
    requires task.table.Task? && 1 <= k < 6 && r in Stage(db, task, gone)
    requires !Cascades(r.table, TableAt(k))
    ensures r in Cascaded(Stage(db, task, gone), Selected(Stage(db, task, gone), task, k)) <==> r in Goes(db, task, k)
  {
    var cur := Stage(db, task, gone);
    StageKeepsTask(db, task, gone, r);
    hide Stage, Cascaded;
    NotCascaded(cur, Selected(cur, task, k), r, TableAt(k));
  }

  /** A row that the statement's cascade reaches. */
  lemma ChildTable(db: Db, task: Ref, k: nat, gone: set<Ref>, r: Ref)
    requires task.table.Task? && 1 <= k < 6 && r in Stage(db, task, gone) && r in db
    requires Cascades(r.table, TableAt(k)) && forall s <- gone :: GoneTable(k, s.table)
    ensures r in Cascaded(Stage(db, task, gone), Selected(Stage(db, task, gone), task, k)) <==> r in Goes(db, task, k)
  {
    hide Stage, Cascaded, NamesVia, Files, Names;
    assert forall s <- gone :: s.table != TableAt(k);
    ChildrenCascade(db, task, gone, TableAt(k), r);
    assert (k == 2 && r.table.Answer?) || (k == 4 && r.table.Question?);
  }

  lemma SelectedAre(db: Db, task: Ref, k: nat, r: Ref)
    requires task.table.Task? && 1 <= k < 6
    requires r in Stage(db, task, GoneBefore(db, task, k))
    ensures var cur := Stage(db, task, GoneBefore(db, task, k));
            r in Cascaded(cur, Selected(cur, task, k)) <==> r in Goes(db, task, k)
  {
    hide *;
    var gone := GoneBefore(db, task, k);
    StageKeepsTask(db, task, gone, r);
    forall s | s in gone ensures GoneTable(k, s.table) { GoneTables(db, task, k, s); }
    if Cascades(r.table, TableAt(k)) {
      ChildTable(db, task, k, gone, r);
    } else {
      OwnTable(db, task, k, gone, r);
    }
  }

  /** Only answers of submissions, questions of templates and baselines are reached by a cascade. */
  lemma NotCascaded(cur: Db, rows: set<Ref>, r: Ref, table: Table)
    requires r in cur && (forall x <- rows :: x.table == table) && !Cascades(r.table, table)
    ensures r in Cascaded(cur, rows) <==> r in rows
  {
  }

  /** The k-th statement succeeds, and leaves the next stage. */
  lemma StatementRuns(db: Db, task: Ref, k: nat, rows: set<Ref>)
    requires Intact(db) && Coherent(db) && task.table.Task? && k < 6
    requires var cur := Stage(db, task, GoneBefore(db, task, k));
             if k == 0 then rows == Files(db, task) else rows == Selected(cur, task, k)
    ensures var cur := Stage(db, task, GoneBefore(db, task, k));
            && !Blocked(cur, rows)
            && Without(cur, Cascaded(cur, rows)) == Stage(db, task, GoneBefore(db, task, k + 1))
  {
    var cur := Stage(db, task, GoneBefore(db, task, k));
    StageUnreferred(db, task, k);
    forall r | r in cur ensures r in Cascaded(cur, rows) <==> r in Goes(db, task, k) {
      if k == 0 {
        FilesSelected(db, task, rows, r);
      } else {
        SelectedAre(db, task, k, r);
      }
    }
    StageAdvances(db, task, k, rows);
  }

  lemma FilesSelected(db: Db, task: Ref, rows: set<Ref>, r: Ref)
    requires rows == Files(db, task) && r in Stage(db, task, {})
    ensures r in Cascaded(Stage(db, task, {}), rows) <==> r in Goes(db, task, 0)
  {
  }

  lemma StageAdvances(db: Db, task: Ref, k: nat, rows: set<Ref>)
    requires var cur := Stage(db, task, GoneBefore(db, task, k));
             && Unreferred(cur, Goes(db, task, k))
             && forall r | r in cur :: r in Cascaded(cur, rows) <==> r in Goes(db, task, k)
    ensures var cur := Stage(db, task, GoneBefore(db, task, k));
            && !Blocked(cur, rows)
            && Without(cur, Cascaded(cur, rows)) == Stage(db, task, GoneBefore(db, task, k + 1))
  {
    var cur := Stage(db, task, GoneBefore(db, task, k));
    assert GoneBefore(db, task, k + 1) == GoneBefore(db, task, k) + Goes(db, task, k);
    CascadedIn(cur, rows);
    hide Goes, GoneBefore, Cascaded, Unthreaded, Blocked;
    UnreferredAgain(cur, Goes(db, task, k), Cascaded(cur, rows));
    NotBlocked(cur, rows);
    TwiceWithout(Unthreaded(db, task), GoneBefore(db, task, k), Goes(db, task, k), Cascaded(cur, rows));
  }

  lemma CascadedIn(db: Db, rows: set<Ref>)
    ensures Cascaded(db, rows) <= db.Keys
  {
  }

  lemma UnreferredAgain(db: Db, gone: set<Ref>, gone': set<Ref>)
    requires Unreferred(db, gone) && gone' <= db.Keys && forall r | r in db :: r in gone' <==> r in gone
    ensures Unreferred(db, gone')
  {
  }

  lemma TwiceWithout(db: Db, first: set<Ref>, second: set<Ref>, second': set<Ref>)
    requires forall r | r in Without(db, first) :: r in second' <==> r in second
    ensures Without(Without(db, first), second') == Without(db, first + second)
  {
  }

  /** After the last statement the whole aggregate has gone, and every other row is as it was. */
  lemma AllGone(db: Db, task: Ref)
    requires task.table.Task? && task in db
    ensures Stage(db, task, GoneBefore(db, task, 6)) == Without(db, Aggregate(db, {task}))
  {
    var gone := GoneBefore(db, task, 6);
    forall r | r in db ensures r in gone <==> InAggregate(db, r, {task}) {
      GoneIs(db, task, 6, r);
      AggregateGoes(db, task, r);
    }
    forall r | r in db && InThread(r.table) && task in db[r].refs ensures r in gone {
      NamesOne(db, r, task);
    }
    hide GoneBefore, InAggregate;
  }

  lemma AggregateGoes(db: Db, task: Ref, r: Ref)
    requires r in db && task.table.Task? && task in db
    ensures InAggregate(db, r, {task}) <==> exists j: nat :: j < 6 && GoesAt(db, task, j, r)
  {
    NamesOne(db, r, task);
    hide NamesVia, NamesViaTwo, Names;
    if InAggregate(db, r, {task}) {
      var j: nat :=
        if r.table.Attachment? then 0 else if r.table.Message? then 1
        else if r.table.Submission? || r.table.Answer? then 2 else if r.table.Claim? then 3
        else if r.table.Template? || r.table.Question? then 4 else 5;
      assert GoesAt(db, task, j, r);
    }
  }
}
