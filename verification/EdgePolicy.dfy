/**
 Edge-group policies: the decision function of the dependency cascade and the
 JSON form in which a policy is stored.
 */
module EdgePolicy {
  import opened Common

  datatype OnSatisfied = CancelRemaining | LetRun

  datatype Policy =
    | AllOf
    | AnyOf(onSatisfied: OnSatisfied)
    | Quorum(k: u32, onSatisfied: OnSatisfied)

  /** How an upstream ended, as the resolver counts it. */
  datatype Outcome = Success | Fail | Skip

  datatype Decision = Pending | Satisfied(cancelSiblings: bool) | Impossible

  function OutcomeKind(s: string): Outcome {
    if s == "success" then Success
    else if s == "skipped" then Skip
    else Fail
  }

  /** Anything but the two known words counts as a failure. */
  lemma OutcomeKindExact(s: string)
    ensures OutcomeKind(s) == Success <==> s == "success"
    ensures OutcomeKind(s) == Skip <==> s == "skipped"
  {
  }

  function Evaluate(policy: Policy, success: int, fail: int, skip: int, total: int): Decision {
    var nonsuccess := fail + skip;
    match policy
    case AllOf =>
      if success == total && total > 0 then Satisfied(false)
      else if nonsuccess > 0 then Impossible
      else Pending
    case AnyOf(on) =>
      if success >= 1 then Satisfied(on == CancelRemaining)
      else if nonsuccess >= total && total > 0 then Impossible
      else Pending
    case Quorum(k, on) =>
      if success >= AsI32(k) then Satisfied(on == CancelRemaining)
      else if total - nonsuccess < AsI32(k) then Impossible
      else Pending
  }

  // ---------------------------------------------------------------------
  // What a policy asks for, said without counters that are still moving.

  /** The policy's demand once all `total` upstreams have ended, `success` of them well. */
  ghost predicate Demand(policy: Policy, success: int, total: int) {
    match policy
    case AllOf => success == total
    case AnyOf(_) => success >= 1
    case Quorum(k, _) => success >= k
  }

  /** Number of entries of `outcomes` equal to `o`. */
  ghost function Count(outcomes: seq<Outcome>, o: Outcome): (n: nat)
    ensures n <= |outcomes|
  {
    if outcomes == [] then 0
    else Count(outcomes[1..], o) + if outcomes[0] == o then 1 else 0
  }

  /** Every way the `running` upstreams can still end meets the demand. */
  ghost predicate Inevitable(policy: Policy, success: int, running: nat, total: int) {
    forall rest: seq<Outcome> :: |rest| == running ==> Demand(policy, success + Count(rest, Success), total)
  }

  /** No way the `running` upstreams can still end meets the demand. */
  ghost predicate Hopeless(policy: Policy, success: int, running: nat, total: int) {
    forall rest: seq<Outcome> :: |rest| == running ==> !Demand(policy, success + Count(rest, Success), total)
  }

  /** The decision that agrees with the demand over every future. */
  ghost predicate Exact(policy: Policy, success: nat, fail: nat, skip: nat, running: nat) {
    var total := success + fail + skip + running;
    var d := Evaluate(policy, success, fail, skip, total);
    && (d.Satisfied? <==> Inevitable(policy, success, running, total))
    && (d.Impossible? <==> Hopeless(policy, success, running, total))
    && (running == 0 ==> !d.Pending?)
  }

  ghost function Repeat(o: Outcome, n: nat): (r: seq<Outcome>)
    ensures |r| == n
    ensures Count(r, o) == n
    ensures forall p :: p != o ==> Count(r, p) == 0
  {
    if n == 0 then [] else [o] + Repeat(o, n - 1)
  }

  /** The worst and the best future bound every other one. */
  lemma FuturesReduce(policy: Policy, success: nat, running: nat, total: nat)
    requires success + running <= total
    ensures Inevitable(policy, success, running, total) <==> Demand(policy, success, total)
    ensures Hopeless(policy, success, running, total) <==> !Demand(policy, success + running, total)
  {
    var worst, best := Repeat(Fail, running), Repeat(Success, running);
    assert Count(worst, Success) == 0 && Count(best, Success) == running;
    forall rest: seq<Outcome> | |rest| == running
      ensures Demand(policy, success, total) ==> Demand(policy, success + Count(rest, Success), total)
      ensures !Demand(policy, success + running, total) ==> !Demand(policy, success + Count(rest, Success), total)
    {
    }
  }

  /** The policy asks for the remaining siblings to be cancelled once it is satisfied. */
  ghost predicate AsksToCancel(policy: Policy) {
    match policy
    case AllOf => false
    case AnyOf(on) => on == CancelRemaining
    case Quorum(_, on) => on == CancelRemaining
  }

  /** A satisfied group cancels its siblings exactly when its policy asks for it. */
  lemma CancelExact(policy: Policy, success: int, fail: int, skip: int, total: int)
    ensures var d := Evaluate(policy, success, fail, skip, total);
      d.Satisfied? ==> (d.cancelSiblings <==> AsksToCancel(policy))
  {
  }

  /**
   The decision is exact, over every future of the running upstreams, exactly for the
   policies whose quorum survives the cast to a signed 32-bit number, on groups that have an
   upstream; and a satisfied group cancels its siblings exactly when its policy asks for it.
   A larger quorum reads as negative and is satisfied at once although it can never be reached;
   without upstreams AllOf and AnyOf stay pending for ever.
   */
  lemma EvaluateExact(policy: Policy, success: nat, fail: nat, skip: nat, running: nat)
    requires success + fail + skip + running < TWO_31
    ensures Exact(policy, success, fail, skip, running)
      <==> if policy.Quorum? then policy.k < TWO_31 else success + fail + skip + running > 0
    ensures var d := Evaluate(policy, success, fail, skip, success + fail + skip + running);
      d.Satisfied? ==> (d.cancelSiblings <==> AsksToCancel(policy))
  {
    FuturesReduce(policy, success, running, success + fail + skip + running);
  }

  /**
   An AnyOf group decides like a quorum of one, and an AllOf group like a quorum of all,
   exactly when the group has an upstream.
   */
  lemma PoliciesAsQuorum(on: OnSatisfied, success: nat, fail: nat, skip: nat, running: nat)
    requires success + fail + skip + running < TWO_31
    ensures var total := success + fail + skip + running;
      && (Evaluate(AnyOf(on), success, fail, skip, total) == Evaluate(Quorum(1, on), success, fail, skip, total) <==> total > 0)
      && (Evaluate(AllOf, success, fail, skip, total) == Evaluate(Quorum(total, LetRun), success, fail, skip, total) <==> total > 0)
  {
  }

  // ---------------------------------------------------------------------
  // Finality

  /** Moving upstreams out of the running bucket never revises a decision that was taken. */
  lemma DecisionStable(policy: Policy, success: nat, fail: nat, skip: nat,
                       success': nat, fail': nat, skip': nat, total: nat)
    requires success <= success' && fail <= fail' && skip <= skip'
    requires success' + fail' + skip' <= total
    requires !Evaluate(policy, success, fail, skip, total).Pending?
    ensures Evaluate(policy, success', fail', skip', total) == Evaluate(policy, success, fail, skip, total)
  {
  }

  lemma {:induction false} CountsAddUp(outcomes: seq<Outcome>)
    ensures Count(outcomes, Success) + Count(outcomes, Fail) + Count(outcomes, Skip) == |outcomes|
  {
    if outcomes != [] { CountsAddUp(outcomes[1..]); }
  }

  /**
   Once taken, a decision outlives every sequence of further upstream outcomes on a group
   whose edges are fixed.
   */
  lemma {:induction false} DecisionFinal(policy: Policy, success: nat, fail: nat, skip: nat, running: nat, later: seq<Outcome>)
    requires |later| <= running
    requires var total := success + fail + skip + running;
      !Evaluate(policy, success, fail, skip, total).Pending?
    ensures var total := success + fail + skip + running;
      Evaluate(policy, success + Count(later, Success), fail + Count(later, Fail), skip + Count(later, Skip), total)
      == Evaluate(policy, success, fail, skip, total)
  {
    CountsAddUp(later);
    DecisionStable(policy, success, fail, skip,
                   success + Count(later, Success), fail + Count(later, Fail), skip + Count(later, Skip),
                   success + fail + skip + running);
  }

  // ---------------------------------------------------------------------
  // Stored form

  function OnSatisfiedText(on: OnSatisfied): string {
    match on
    case CancelRemaining => "cancel_remaining"
    case LetRun => "let_run"
  }

  function EncodePolicy(p: Policy): Json {
    match p
    case AllOf => Object(map["kind" := Text("all_of")])
    case AnyOf(on) => Object(map["kind" := Text("any_of"), "on_satisfied" := Text(OnSatisfiedText(on))])
    case Quorum(k, on) =>
      Object(map["kind" := Text("quorum"), "k" := Number(k), "on_satisfied" := Text(OnSatisfiedText(on))])
  }

  function ParseOnSatisfied(v: Json): OnSatisfied {
    if v.GetText("on_satisfied") == Some("let_run") then LetRun else CancelRemaining
  }

  /** Tolerant decoding: an unknown kind is AllOf, a missing or oversized k is 1. */
  function DecodePolicy(v: Json): Policy {
    match v.GetText("kind")
    case Some("any_of") => AnyOf(ParseOnSatisfied(v))
    case Some("quorum") =>
      var k := match v.GetU64("k")
               case Some(n) => if n < TWO_32 then n else 1
               case None => 1;
      Quorum(k, ParseOnSatisfied(v))
    case _ => AllOf
  }

  lemma PolicyRoundTrip(p: Policy)
    ensures DecodePolicy(EncodePolicy(p)) == p
  {
  }

  /** Decoding never fails: each missing or unknown part has its default. */
  lemma DecodeTolerant(v: Json)
    ensures v.GetText("kind") != Some("any_of") && v.GetText("kind") != Some("quorum") ==> DecodePolicy(v) == AllOf
    ensures v.GetText("kind") == Some("any_of") ==> DecodePolicy(v).AnyOf?
    ensures v.GetText("kind") == Some("quorum") && v.GetU64("k").Some? && v.GetU64("k").value < TWO_32 ==>
      DecodePolicy(v).Quorum? && Some(DecodePolicy(v).k) == v.GetU64("k")
    ensures v.GetText("kind") == Some("quorum") && (v.GetU64("k").None? || v.GetU64("k").value >= TWO_32) ==>
      DecodePolicy(v).Quorum? && DecodePolicy(v).k == 1
    ensures DecodePolicy(v) != AllOf ==>
      (DecodePolicy(v).onSatisfied == LetRun <==> v.GetText("on_satisfied") == Some("let_run"))
  {
  }
}
