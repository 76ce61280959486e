/** Status codes, the transition table and the default owners of a form. */
module FormStatus {
  import opened Basics

  const NO_STATUS := 0
  const NOT_STARTED := 1
  const IN_PROGRESS := 2
  const UNDER_REVIEW_BY_STATE := 3
  const RETURNED_BY_STATE := 4
  const UNDER_REVIEW_BY_MOHUA := 5
  const RETURNED_BY_MOHUA := 6
  const SUBMISSION_ACKNOWLEDGED_BY_MOHUA := 7
  const APPROVED_BY_STATE := 8
  const AWAITING_CLAIM_LETTER := 9
  const EXEMPTED_ACKNOWLEDGED := 12
  const UNDER_REVIEW_BY_PMU := 13
  const RETURNED_BY_PMU := 14

  /** The transition table, row by row. */
  function AllowedNext(status: int): seq<int> {
    if status == NO_STATUS then [NOT_STARTED, IN_PROGRESS]
    else if status == NOT_STARTED then [IN_PROGRESS]
    else if status == IN_PROGRESS then [IN_PROGRESS, UNDER_REVIEW_BY_STATE, UNDER_REVIEW_BY_PMU]
    else if status == UNDER_REVIEW_BY_STATE then [RETURNED_BY_STATE, APPROVED_BY_STATE]
    else if status == RETURNED_BY_STATE then [IN_PROGRESS, UNDER_REVIEW_BY_STATE]
    else if status == UNDER_REVIEW_BY_MOHUA then [RETURNED_BY_MOHUA, SUBMISSION_ACKNOWLEDGED_BY_MOHUA]
    else if status == RETURNED_BY_MOHUA then [IN_PROGRESS, UNDER_REVIEW_BY_STATE]
    else if status == APPROVED_BY_STATE then [UNDER_REVIEW_BY_STATE, AWAITING_CLAIM_LETTER]
    else if status == AWAITING_CLAIM_LETTER then [UNDER_REVIEW_BY_MOHUA]
    else if status == UNDER_REVIEW_BY_PMU then [RETURNED_BY_PMU, UNDER_REVIEW_BY_MOHUA]
    else if status == RETURNED_BY_PMU then [IN_PROGRESS, UNDER_REVIEW_BY_PMU]
    else []
  }

  predicate CanTransition(from: int, to: int) { to in AllowedNext(from) }

  predicate IsTerminal(status: int) {
    status == SUBMISSION_ACKNOWLEDGED_BY_MOHUA || status == EXEMPTED_ACKNOWLEDGED
  }

  function DefaultOwner(status: int): Option<string> {
    if status in {NOT_STARTED, IN_PROGRESS, RETURNED_BY_STATE, RETURNED_BY_MOHUA} then Some("ULB")
    else if status in {UNDER_REVIEW_BY_STATE, APPROVED_BY_STATE, RETURNED_BY_PMU} then Some("STATE")
    else if status == UNDER_REVIEW_BY_MOHUA then Some("MoHUA")
    else if status == UNDER_REVIEW_BY_PMU then Some("PMU")
    else None
  }

  // ----- paths through the table

  predicate IsPath(p: seq<int>) {
    |p| > 0 && forall i :: 0 <= i < |p| - 1 ==> CanTransition(p[i], p[i + 1])
  }

  predicate Leads(p: seq<int>, from: int, to: int) {
    IsPath(p) && p[0] == from && p[|p| - 1] == to
  }

  /** The table read by columns: where each status can come from. */
  lemma CameFrom(from: int, to: int)
    ensures CanTransition(from, to) <==>
              || (to == NOT_STARTED && from == NO_STATUS)
              || (to == IN_PROGRESS
                  && from in {NO_STATUS, NOT_STARTED, IN_PROGRESS, RETURNED_BY_STATE, RETURNED_BY_MOHUA, RETURNED_BY_PMU})
              || (to == UNDER_REVIEW_BY_STATE && from in {IN_PROGRESS, RETURNED_BY_STATE, RETURNED_BY_MOHUA, APPROVED_BY_STATE})
              || (to in {RETURNED_BY_STATE, APPROVED_BY_STATE} && from == UNDER_REVIEW_BY_STATE)
              || (to == AWAITING_CLAIM_LETTER && from == APPROVED_BY_STATE)
              || (to == UNDER_REVIEW_BY_PMU && from in {IN_PROGRESS, RETURNED_BY_PMU})
              || (to == RETURNED_BY_PMU && from == UNDER_REVIEW_BY_PMU)
              || (to == UNDER_REVIEW_BY_MOHUA && from in {AWAITING_CLAIM_LETTER, UNDER_REVIEW_BY_PMU})
              || (to in {RETURNED_BY_MOHUA, SUBMISSION_ACKNOWLEDGED_BY_MOHUA} && from == UNDER_REVIEW_BY_MOHUA)
  {
  }

  /** Reviewers own what is before them; what they return or leave undone is with those below; the rest is nobody's. */
  lemma OwnersOfStatuses(status: int)
    ensures DefaultOwner(status) == Some("PMU") <==> status == UNDER_REVIEW_BY_PMU
    ensures DefaultOwner(status) == Some("MoHUA") <==> status == UNDER_REVIEW_BY_MOHUA
    ensures DefaultOwner(status) == Some("STATE") <==> status in {UNDER_REVIEW_BY_STATE, APPROVED_BY_STATE, RETURNED_BY_PMU}
    ensures DefaultOwner(status) == Some("ULB") <==>
              Live(status) && (CanTransition(status, IN_PROGRESS) || status == IN_PROGRESS) && status != RETURNED_BY_PMU
    ensures Live(status) && DefaultOwner(status) == None <==> status in {AWAITING_CLAIM_LETTER, SUBMISSION_ACKNOWLEDGED_BY_MOHUA}
    ensures !Live(status) ==> DefaultOwner(status) == None
  {
  }

  /**
   On any path from NOT_STARTED, whenever MoHUA reviews, the form has just come either straight from PMU review or
   through state review, state approval and the claim letter, in that order; and an acknowledgement comes straight
   from MoHUA review.
   */
  lemma MohuaReviewIsEarned(p: seq<int>, i: nat)
    requires IsPath(p) && p[0] == NOT_STARTED && i < |p|
    ensures p[i] == UNDER_REVIEW_BY_MOHUA ==>
              || (i >= 1 && p[i - 1] == UNDER_REVIEW_BY_PMU)
              || (i >= 3 && p[i - 3..i] == [UNDER_REVIEW_BY_STATE, APPROVED_BY_STATE, AWAITING_CLAIM_LETTER])
    ensures p[i] == SUBMISSION_ACKNOWLEDGED_BY_MOHUA ==> i >= 1 && p[i - 1] == UNDER_REVIEW_BY_MOHUA && i == |p| - 1
  {
    if i + 1 < |p| { assert CanTransition(p[i], p[i + 1]); }
    if i >= 1 { assert CanTransition(p[i - 1], p[i]); }
    if i >= 2 { assert CanTransition(p[i - 2], p[i - 1]); }
    if i >= 3 { assert CanTransition(p[i - 3], p[i - 2]); }
  }

  /** The statuses that some transition leads to. */
  const LIVE: set<int> := {
    NOT_STARTED, IN_PROGRESS, UNDER_REVIEW_BY_STATE, RETURNED_BY_STATE, UNDER_REVIEW_BY_MOHUA, RETURNED_BY_MOHUA,
    SUBMISSION_ACKNOWLEDGED_BY_MOHUA, APPROVED_BY_STATE, AWAITING_CLAIM_LETTER, UNDER_REVIEW_BY_PMU, RETURNED_BY_PMU
  }

  predicate Live(status: int) { status in LIVE }

  const TO_STATE: seq<int> := [NOT_STARTED, IN_PROGRESS, UNDER_REVIEW_BY_STATE]
  const TO_PMU: seq<int> := [NOT_STARTED, IN_PROGRESS, UNDER_REVIEW_BY_PMU]
  const TO_MOHUA: seq<int> := [NOT_STARTED, IN_PROGRESS, UNDER_REVIEW_BY_PMU, UNDER_REVIEW_BY_MOHUA]

  /** A path that leads to `status`. */
  function RouteFromStart(status: int): seq<int>
    requires Live(status)
  {
    if status == NOT_STARTED then TO_STATE[..1]
    else if status == IN_PROGRESS then TO_STATE[..2]
    else if status == UNDER_REVIEW_BY_STATE then TO_STATE
    else if status == AWAITING_CLAIM_LETTER then TO_STATE + [APPROVED_BY_STATE, status]
    else if status in {RETURNED_BY_STATE, APPROVED_BY_STATE} then TO_STATE + [status]
    else if status == UNDER_REVIEW_BY_PMU then TO_PMU
    else if status == RETURNED_BY_PMU then TO_PMU + [status]
    else if status == UNDER_REVIEW_BY_MOHUA then TO_MOHUA
    else TO_MOHUA + [status]
  }

  const FROM_MOHUA: seq<int> := [UNDER_REVIEW_BY_MOHUA, SUBMISSION_ACKNOWLEDGED_BY_MOHUA]
  const FROM_STATE: seq<int> := [UNDER_REVIEW_BY_STATE, APPROVED_BY_STATE, AWAITING_CLAIM_LETTER] + FROM_MOHUA

  /** A path from `status` on that ends with the acknowledgement. */
  function RouteToAcknowledgement(status: int): seq<int>
    requires Live(status)
  {
    if status == NOT_STARTED then [NOT_STARTED, IN_PROGRESS, UNDER_REVIEW_BY_PMU] + FROM_MOHUA
    else if status in {IN_PROGRESS, RETURNED_BY_PMU} then [status, UNDER_REVIEW_BY_PMU] + FROM_MOHUA
    else if status in {UNDER_REVIEW_BY_PMU, AWAITING_CLAIM_LETTER} then [status] + FROM_MOHUA
    else if status in {RETURNED_BY_STATE, RETURNED_BY_MOHUA} then [status] + FROM_STATE
    else if status == UNDER_REVIEW_BY_STATE then FROM_STATE
    else if status == APPROVED_BY_STATE then FROM_STATE[1..]
    else if status == UNDER_REVIEW_BY_MOHUA then FROM_MOHUA
    else FROM_MOHUA[1..]
  }

  lemma {:induction false} PathStaysLive(p: seq<int>, i: nat)
    requires IsPath(p) && p[0] == NOT_STARTED && i < |p|
    ensures Live(p[i])
  {
    if i > 0 {
      PathStaysLive(p, i - 1);
      assert CanTransition(p[i - 1], p[i]);
    }
  }

  lemma RouteFromStartLeads(status: int)
    requires Live(status)
    ensures Leads(RouteFromStart(status), NOT_STARTED, status)
  {
  }

  lemma PathGrows(status: int, p: seq<int>)
    requires IsPath(p) && CanTransition(status, p[0])
    ensures IsPath([status] + p)
  {
    var q := [status] + p;
    forall i | 0 <= i < |q| - 1 ensures CanTransition(q[i], q[i + 1]) {
      assert i > 0 ==> q[i] == p[i - 1] && q[i + 1] == p[i];
    }
  }

  lemma RouteThroughPmuLeads(status: int)
    requires status in {NOT_STARTED, IN_PROGRESS, RETURNED_BY_PMU}
    ensures Leads(RouteToAcknowledgement(status), status, SUBMISSION_ACKNOWLEDGED_BY_MOHUA)
  {
    var pmu: seq<int> := [UNDER_REVIEW_BY_PMU] + FROM_MOHUA;
    PathGrows(UNDER_REVIEW_BY_PMU, FROM_MOHUA);
    if status == NOT_STARTED {
      PathGrows(IN_PROGRESS, pmu);
      PathGrows(NOT_STARTED, [IN_PROGRESS] + pmu);
      assert RouteToAcknowledgement(status) == [NOT_STARTED] + ([IN_PROGRESS] + pmu);
    } else {
      PathGrows(status, pmu);
      assert RouteToAcknowledgement(status) == [status] + pmu;
    }
  }

  lemma RouteToAcknowledgementLeads(status: int)
    requires Live(status)
    ensures Leads(RouteToAcknowledgement(status), status, SUBMISSION_ACKNOWLEDGED_BY_MOHUA)
  {
    PathGrows(UNDER_REVIEW_BY_PMU, FROM_MOHUA);
    if status in {NOT_STARTED, IN_PROGRESS, RETURNED_BY_PMU} {
      RouteThroughPmuLeads(status);
    } else if status == AWAITING_CLAIM_LETTER {
      PathGrows(status, FROM_MOHUA);
    } else if status in {RETURNED_BY_STATE, RETURNED_BY_MOHUA} {
      PathGrows(status, FROM_STATE);
    }
  }

  /** Eleven statuses are reachable, each of them can still reach acknowledgement, and only it ends there. */
  lemma ReachableStatuses(status: int)
    ensures Live(status) <==> exists p :: Leads(p, NOT_STARTED, status)
    ensures Live(status) ==> exists p :: Leads(p, status, SUBMISSION_ACKNOWLEDGED_BY_MOHUA)
    ensures Live(status) ==> (AllowedNext(status) == [] <==> IsTerminal(status))
  {
    if Live(status) {
      RouteFromStartLeads(status);
      RouteToAcknowledgementLeads(status);
    }
    if p :| Leads(p, NOT_STARTED, status) {
      PathStaysLive(p, |p| - 1);
    }
  }
}
