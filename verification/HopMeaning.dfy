/** What one hop of the cascade means for the rows it touches, column by column. */
module HopMeaning {
  import opened Common
  import opened EdgePolicy
  import opened FlowModel

  /** The downstream can be claimed: eligible, and no longer held back. */
  ghost predicate Released(before: Exec, after: Exec) {
    && after.eligibility == EligibleNow && after.flow == before.flow && after.skipped == before.skipped
    && after.phase == if before.phase == Blocked then Runnable else before.phase
  }

  /** The downstream has ended without running. */
  ghost predicate SkippedRow(before: Exec, after: Exec) {
    after.phase == Terminal && after.eligibility == NotApplicable && after.skipped && after.flow == before.flow
  }

  ghost predicate RowMeans(before: Exec, after: Exec, d: Decision) {
    if before.phase == Terminal || before.phase == Cancelled || d.Pending? then after == before
    else if d.Satisfied? then Released(before, after)
    else SkippedRow(before, after)
  }

  /** An edge of the flow runs from `x` into the group's downstream. */
  ghost predicate RunsInto(db: Db, x: ExecId, g: GroupKey) {
    exists k :: k in db.edges && k.flow == g.flow && db.edges[k].up == x && db.edges[k].down == g.down
  }

  /** A sibling still to be cancelled: it runs into the group, has not ended, and is not the winner. */
  ghost predicate ToCancel(db: Db, x: ExecId, g: GroupKey, winner: ExecId) {
    && x != winner && x in db.execs && RunsInto(db, x, g)
    && db.execs[x].phase != Terminal && db.execs[x].phase != Cancelled && !db.execs[x].skipped
  }

  /** The rows after a hop that led to decision `d`. */
  ghost predicate HopMeans(db: Db, db': Db, g: GroupKey, up: ExecId, d: Decision)
    requires g in db.groups
  {
    && db'.execs.Keys == db.execs.Keys && db'.groups.Keys == db.groups.Keys && db'.edges == db.edges && db'.flows == db.flows
    && (forall x :: x in db.execs ==> if x == g.down then RowMeans(db.execs[x], db'.execs[x], d) else db'.execs[x] == db.execs[x])
    && (forall h :: h in db.groups && h != g ==> db'.groups[h] == db.groups[h])
    && (if d.Impossible? && g.down in db.execs && db.execs[g.down].phase != Terminal && db.execs[g.down].phase != Cancelled then
          db'.events == db.events[db.nextEvent := Event(g.down, Some(g.flow), "skipped", false)]
        else db'.events == db.events)
    && (if d == Satisfied(true) && !db.groups[g].flagged then
          && db'.groups[g].flagged && db'.pendingCancel == db.pendingCancel + {g}
          && forall x :: x in db'.groups[g].members <==> ToCancel(db, x, g, up)
        else
          && db'.groups[g].flagged == db.groups[g].flagged && db'.groups[g].members == db.groups[g].members
          && db'.pendingCancel == db.pendingCancel)
  }

  lemma SiblingsAre(db: Db, g: GroupKey, winner: ExecId, x: ExecId)
    ensures x in Siblings(db, g, winner) <==> ToCancel(db, x, g, winner)
  {
    if ToCancel(db, x, g, winner) {
      var k :| k in db.edges && k.flow == g.flow && db.edges[k].up == x && db.edges[k].down == g.down;
      assert k in InEdges(db, g);
    }
  }

  /**
   A hop that satisfies the group releases a live downstream, one that makes it impossible skips
   it, and siblings are listed once, exactly those still running into the group.
   */
  lemma HopDoes(db: Db, g: GroupKey, up: ExecId, o: Outcome)
    requires g in db.groups
    ensures var db' := Advance(db, g, up, o); HopMeans(db, db', g, up, db'.groups[g].Decision())
    ensures Advance(db, g, up, o).groups[g].policy == db.groups[g].policy
  {
    var db' := Advance(db, g, up, o);
    forall x ensures x in Siblings(db, g, up) <==> ToCancel(db, x, g, up) { SiblingsAre(db, g, up, x); }
    RowDoes(db, g, up, o);
  }

  lemma RowDoes(db: Db, g: GroupKey, up: ExecId, o: Outcome)
    requires g in db.groups
    ensures var db' := Advance(db, g, up, o);
      && db'.execs.Keys == db.execs.Keys
      && forall x :: x in db.execs ==>
           if x == g.down then RowMeans(db.execs[x], db'.execs[x], db'.groups[g].Decision()) else db'.execs[x] == db.execs[x]
  {
  }
}
