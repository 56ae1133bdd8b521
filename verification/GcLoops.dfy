/** Why the sweep may take its lists one row at a time. */
module GcLoops {
  import opened Common
  import opened Gc
  import opened GcSteps

  /* ---------- Paths of foreign keys, under union and removal ---------- */

  lemma NamesUnion(db: Db, r: Ref, a: set<Ref>, b: set<Ref>)
    ensures Names(db, r, a + b) <==> Names(db, r, a) || Names(db, r, b)
  {
  }

  lemma NamesStay(db: Db, gone: set<Ref>, r: Ref, x: set<Ref>)
    requires Unreferred(db, gone) && r !in gone
    ensures Names(Without(db, gone), r, x) == Names(db, r, x)
    ensures r in db ==> forall t <- db[r].refs :: t !in gone
  {
  }

  lemma NamesViaStay(db: Db, gone: set<Ref>, r: Ref, via: Table, x: set<Ref>)
    requires Unreferred(db, gone) && r !in gone
    ensures NamesVia(Without(db, gone), r, via, x) == NamesVia(db, r, via, x)
  {
  }

  lemma NamesViaTwoStay(db: Db, gone: set<Ref>, r: Ref, via: Table, next: Table, x: set<Ref>)
    requires Unreferred(db, gone) && r !in gone
    ensures NamesViaTwo(Without(db, gone), r, via, next, x) == NamesViaTwo(db, r, via, next, x)
  {
    NamesStay(db, gone, r, x);
    var cur := Without(db, gone);
    assert r in cur <==> r in db;
    if r in db {
      assert cur[r] == db[r];
      hide *;
      forall t | t in db[r].refs ensures NamesVia(cur, t, next, x) == NamesVia(db, t, next, x) {
        NamesViaStay(db, gone, t, next, x);
      }
      SameViaTwo(db, cur, r, via, next, x);
    }
  }

  lemma SameViaTwo(a: Db, b: Db, r: Ref, via: Table, next: Table, x: set<Ref>)
    requires r in a && r in b && a[r] == b[r]
    requires forall t <- a[r].refs :: NamesVia(a, t, next, x) == NamesVia(b, t, next, x)
    ensures NamesViaTwo(a, r, via, next, x) == NamesViaTwo(b, r, via, next, x)
  {
  }

  /* ---------- Tasks ---------- */

  lemma AggregateStays(db: Db, gone: set<Ref>, r: Ref, tasks: set<Ref>)
    requires Unreferred(db, gone) && r !in gone
    ensures InAggregate(Without(db, gone), r, tasks) == InAggregate(db, r, tasks)
  {
    NamesStay(db, gone, r, tasks);
    NamesViaStay(db, gone, r, Submission, tasks);
    NamesViaStay(db, gone, r, Template, tasks);
    NamesViaStay(db, gone, r, Message, tasks);
    NamesViaTwoStay(db, gone, r, Answer, Submission, tasks);
    hide Names, NamesVia, NamesViaTwo, Without, Unreferred;
  }

  lemma AggregateUnion(db: Db, r: Ref, a: set<Ref>, b: set<Ref>)
    ensures InAggregate(db, r, a + b) <==> InAggregate(db, r, a) || InAggregate(db, r, b)
  {
  }

  lemma NextTask(db: Db, done: set<Ref>, task: Ref)
    requires Unreferred(db, Aggregate(db, done))
    ensures var cur := Without(db, Aggregate(db, done));
            Without(cur, Aggregate(cur, {task})) == Without(db, Aggregate(db, done + {task}))
  {
    var gone := Aggregate(db, done);
    var cur := Without(db, gone);
    forall r | r in db
      ensures r in Aggregate(db, done + {task}) <==> r in gone || r in Aggregate(cur, {task})
    {
      AggregateUnion(db, r, done, {task});
      if r !in gone {
        AggregateStays(db, gone, r, {task});
      }
    }
    hide InAggregate, Unreferred;
  }

  /* ---------- Divisions and teams ---------- */

  lemma NextGroup(db: Db, gone: set<Ref>, done: set<Ref>, group: Ref)
    requires Unreferred(db, gone + GroupRows(db, done))
    ensures var cur := Without(db, gone + GroupRows(db, done));
            Without(cur, GroupRows(cur, {group})) == Without(db, gone + GroupRows(db, done + {group}))
  {
  }

  /** With fewer rows a group or role can only be freer. */
  lemma StillFree(db: Db, gone: set<Ref>, x: Ref)
    ensures GroupFree(db, x) ==> GroupFree(Without(db, gone), x)
    ensures RoleUnreferenced(db, x) ==> RoleUnreferenced(Without(db, gone), x)
  {
  }

  /** The statements of deleting a group go from its leaves inward. */
  lemma PartUnreferred(db: Db, gone: set<Ref>, part: set<Ref>)
    requires forall r, t | Refers(db, r, t) && t in part :: r in gone || r in part
    ensures Unreferred(Without(db, gone), part)
  {
  }

  function TemplateRows(db: Db, group: Ref): set<Ref> {
    set r | r in db && ((r.table.Template? && Names(db, r, {group}))
        || (r.table.Question? && NamesVia(db, r, Template, {group})))
  }

  lemma TemplatesCascade(db: Db, group: Ref)
    ensures Cascaded(db, Children(db, Template, group)) == TemplateRows(db, group)
  {
  }

  /** Templates, then roles, then the group: each is unreferred when its turn comes. */
  lemma GroupParts(db: Db, group: Ref)
    requires Intact(db) && Coherent(db) && group in db && (group.table.Division? || group.table.Team?)
             && GroupFree(db, group)
    ensures Unreferred(db, TemplateRows(db, group))
    ensures Unreferred(Without(db, TemplateRows(db, group)), Children(db, Role, group))
    ensures Unreferred(Without(db, TemplateRows(db, group) + Children(db, Role, group)), {group})
    ensures GroupRows(db, {group}) == TemplateRows(db, group) + Children(db, Role, group) + {group}
  {
    forall r
      ensures r in GroupRows(db, {group}) <==> r in TemplateRows(db, group) + Children(db, Role, group) + {group}
    {
      NamesOne(db, r, group);
    }
    forall r, t | Refers(db, r, t) && t in GroupRows(db, {group})
      ensures t in TemplateRows(db, group) ==> r in TemplateRows(db, group)
      ensures t !in Children(db, Role, group)
      ensures t == group ==> r in TemplateRows(db, group) + Children(db, Role, group)
    {
      assert t.table in Targets(r.table);
      GroupReferrer(db, group, r, t);
    }
    hide Intact, Coherent, GroupFree, GroupRows;
    PartUnreferred(db, TemplateRows(db, group), Children(db, Role, group));
    PartUnreferred(db, TemplateRows(db, group) + Children(db, Role, group), {group});
  }

  lemma GroupReferrer(db: Db, group: Ref, r: Ref, t: Ref)
    requires Intact(db) && Coherent(db) && group in db && (group.table.Division? || group.table.Team?)
             && GroupFree(db, group)
    requires Refers(db, r, t) && t.table in Targets(r.table)
    ensures t in TemplateRows(db, group) ==> r in TemplateRows(db, group)
    ensures t !in Children(db, Role, group)
    ensures t == group ==> r in TemplateRows(db, group) + Children(db, Role, group)
  {
    NamesOne(db, r, group);
    NamesOne(db, t, group);
    if t.table.Question? {
      AnsweredNotInGroup(db, {group}, r, t);
    }
    hide Intact, Coherent;
    assert t.table.Template? && Names(db, t, {group}) ==> NamesVia(db, r, Template, {group});
    assert t in Children(db, Role, group) ==> RoleUnreferenced(db, t);
    assert r.table in {Membership, Grant, Mapping} ==> !RoleUnreferenced(db, t);
    assert t == group && r.table.Task? ==> RefersFrom(db, {Task}, group);
  }

  /* ---------- Users ---------- */

  predicate Leaf(t: Table) { t in {Personal, Membership, Link, Baseline, InvitationUse, Claim, Attachment, Grant} }

  lemma LeavesUnreferred(db: Db, rows: set<Ref>)
    requires Intact(db) && forall r <- rows :: Leaf(r.table)
    ensures Cascaded(db, rows) == rows * db.Keys && !Blocked(db, rows)
  {
    forall r, t | r in db && t in db[r].refs ensures t !in rows {
      assert Refers(db, r, t);
      NoTargets(r.table, t.table);
    }
    hide Leaf, Cascades, Intact;
  }

  lemma NoTargets(from: Table, to: Table)
    ensures to in Targets(from) ==> !Leaf(to)
  {
  }

  lemma SatellitesAreLeaves(db: Db, users: set<Ref>)
    ensures forall r <- Satellites(db, users) :: Leaf(r.table)
  {
  }
}
