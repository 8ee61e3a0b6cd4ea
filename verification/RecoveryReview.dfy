/** The review end of a recovery, shared by the fresh-worker and cold-start engines:
    what a finished review run means, and when a reviewed candidate may be rebound. */
module RecoveryReview {

  /** A commit id git printed and the engine validated. */
  type Sha = s: string | |s| == 40 witness seq(40, _ => '0')

  /** A review run; `completed` means finished over the structured channel. */
  datatype Review = Review(id: string, target: string, completed: bool, approved: bool)

  /** What the engine does with a run or candidate that is the row's own. */
  datatype Ruling =
    | Hold(err: bool)              // leave the row alone
    | Fail(code: string, err: bool)  // fail the review
    | Accept                       // carry on to the rebind

  function RuleOnRun(run: Review): Ruling {
    if !run.completed then Fail("review_result_malformed", false)
    else if !run.approved then Fail("review_changes_requested", false)
    else Accept
  }

  /** Provider and store evidence at the rebind, in the order it is consulted. */
  datatype Evidence = Evidence(
    drifted: bool, refreshes: bool, waits: bool, merges: bool,
    incident: bool, inScope: bool, admission: bool, checkPassed: bool)

  function RuleOnCandidate(v: Evidence): Ruling {
    if v.drifted then Fail("review_provider_identity_drift", false)
    else if !v.refreshes then Hold(true)
    else if v.waits then Hold(false)
    else if !v.merges then Fail("review_not_mergeable", false)
    else if !v.incident then Hold(true)
    else if !v.inScope then Fail("review_scope_drift", true)
    else if !v.admission then Hold(true)
    else if !v.checkPassed then Hold(false)
    else Accept
  }

  // ----- What the rulings come to

  /** Everything a rebind asks for: the same pull request, refreshed, due, mergeable, in
      scope, its incident and admission at hand, and the required check passed. */
  predicate Qualifies(v: Evidence) {
    !v.drifted && v.refreshes && !v.waits && v.merges && v.incident && v.inScope && v.admission && v.checkPassed
  }

  /** The three findings that end a review for good. */
  predicate Disqualifies(v: Evidence, code: string) {
    || (code == "review_provider_identity_drift" && v.drifted)
    || (code == "review_not_mergeable" && !v.drifted && v.refreshes && !v.waits && !v.merges)
    || (code == "review_scope_drift" && !v.drifted && v.refreshes && !v.waits && v.merges && v.incident && !v.inScope)
  }

  /** Evidence that cannot be had is an error of the call, and so is lost scope; evidence
      that is merely not there yet is none. */
  predicate Troubles(v: Evidence) {
    && !v.drifted
    && (!v.refreshes || (!v.waits && v.merges && (!v.incident || !v.inScope || !v.admission)))
  }

  /** A candidate is rebound, failed or left alone, and each exactly on this evidence. */
  lemma CandidateIff(v: Evidence, code: string)
    ensures RuleOnCandidate(v).Accept? <==> Qualifies(v)
    ensures RuleOnCandidate(v).Fail? && RuleOnCandidate(v).code == code <==> Disqualifies(v, code)
    ensures !RuleOnCandidate(v).Accept? ==> (RuleOnCandidate(v).err <==> Troubles(v))
  {
  }

  /** Why a finished run fails the review. */
  predicate Rejects(run: Review, code: string) {
    || (code == "review_result_malformed" && !run.completed)
    || (code == "review_changes_requested" && run.completed && !run.approved)
  }

  lemma RunIff(run: Review, code: string)
    ensures RuleOnRun(run).Accept? <==> run.completed && run.approved
    ensures RuleOnRun(run).Fail? && RuleOnRun(run).code == code <==> Rejects(run, code)
    ensures !RuleOnRun(run).Accept? ==> RuleOnRun(run).Fail? && !RuleOnRun(run).err
  {
  }
}
