/**
 What the quiet end of a dispatching run means, read off the tables before dispatching starts.
 */
module QuietMeaning {
  import opened Common
  import opened EdgePolicy
  import opened FlowModel
  import opened FlowGraph
  import opened FlowCounters
  import opened Cascade
  import opened Confluence
  import opened HopMeaning
  import opened CascadeResult

  /** Some upstream that had not been counted before ends and reaches the group. */
  ghost predicate Reached(w0: World, w: World, g: GroupKey) {
    exists k, o :: Ends(w0.db, Skipped(w0, w), k, o) && k !in w0.advanced && GroupOf(w0.db.edges, k) == g
  }

  lemma ReachedIsTouched(w0: World, w: World, g: GroupKey)
    requires Joined(w0.db) && EventsInv(w.db) && AdvancedInv(w) && CoverInv(w) && Later(w0, w) && Quiescent(w)
    ensures Reached(w0, w, g) <==> Touched(w0, w, g)
  {
    if k, o :| Ends(w0.db, Skipped(w0, w), k, o) && k !in w0.advanced && GroupOf(w0.db.edges, k) == g {
      QuietAdvanced(w0, w, k, o);
      assert TouchedBy(w0, w, k, g);
    }
    if k :| TouchedBy(w0, w, k, g) {
      QuietAdvanced(w0, w, k, w.advanced[k]);
      assert Ends(w0.db, Skipped(w0, w), k, w.advanced[k]);
    }
  }

  lemma DecisionRow(row: Exec, d: Decision)
    ensures RowMeans(row, AfterDecision(row, d), d)
  {
  }

  /**
   At a quiet end a member of a flow that an upstream reached is released when its verdict is
   satisfied, skipped when it is impossible, and untouched while it is pending.
   */
  lemma QuietRow(w: World, steps: seq<Step>, x: ExecId, f: FlowId)
    requires Inv(w) && DispatchRun(w, steps) && OrderlyRun(w, steps) && Quiescent(Run(w, steps))
    requires Member(w.db, f, x) && GroupKey(f, x) in w.db.groups
    ensures var w', g := Run(w, steps), GroupKey(f, x);
      && x in w'.db.execs
      && if Reached(w, w', g) then RowMeans(w.db.execs[x], w'.db.execs[x], Verdict(w.db, Skipped(w, w'), g))
         else w'.db.execs[x] == w.db.execs[x]
  {
    RunResult(w, steps);
    var w', g := Run(w, steps), GroupKey(f, x);
    ReachedIsTouched(w, w', g);
    QuietVerdict(w, w', g);
    DecisionRow(w.db.execs[x], w'.db.groups[g].Decision());
    assert w'.db.execs[x] == RowNow(w, w', x);
  }

  /** Enough upstreams have succeeded; a quorum from 2^31 on counts as met at once. */
  ghost predicate Met(policy: Policy, success: nat) {
    match policy
    case AllOf => false
    case AnyOf(_) => success >= 1
    case Quorum(k, _) => k >= TWO_31 || success >= k
  }

  lemma CancelsIffMet(policy: Policy, success: nat, fail: nat, skip: nat, total: nat)
    ensures Evaluate(policy, success, fail, skip, total) == Satisfied(true) <==> AsksToCancel(policy) && Met(policy, success)
  {
  }

  /**
   At a quiet end a group that an upstream reached has its siblings up for cancelling, if they
   were not before, exactly when its policy asks for it and enough upstreams succeed.
   */
  lemma QuietCancels(w: World, steps: seq<Step>, g: GroupKey)
    requires Inv(w) && DispatchRun(w, steps) && OrderlyRun(w, steps) && Quiescent(Run(w, steps))
    requires g in w.db.groups && !w.db.groups[g].flagged && g !in w.db.pendingCancel
    ensures var w' := Run(w, steps);
      var asks := AsksToCancel(PolicyOf(w.db, g)) && Met(PolicyOf(w.db, g), |Ended(w.db, Skipped(w, w'), g, Success)|);
      && g in w'.db.groups
      && (g in w'.db.pendingCancel <==> Reached(w, w', g) && asks)
      && (w'.db.groups[g].flagged <==> Reached(w, w', g) && asks)
  {
    RunResult(w, steps);
    var w' := Run(w, steps);
    ReachedIsTouched(w, w', g);
    QuietVerdict(w, w', g);
    var xs := Skipped(w, w');
    CancelsIffMet(PolicyOf(w.db, g), |Ended(w.db, xs, g, Success)|, |Ended(w.db, xs, g, Fail)|, |Ended(w.db, xs, g, Skip)|,
                  |AppliedInto(w.db.edges, g)|);
  }
}
