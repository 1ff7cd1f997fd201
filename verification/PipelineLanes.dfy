/** The six stops of the pipeline in board order, and the lifecycle states and phases each lifecycle lane hosts. */
module PipelineLanes {
  import opened Options

  datatype Lane = Queue | Build | Review | Pr | Attention | Complete

  const PIPELINE_LANES: seq<Lane> := [Queue, Build, Review, Pr, Attention, Complete]

  datatype LifecycleLane = BuildLane | ReviewLane | PrLane

  const LIFECYCLE_LANE_ORDER: seq<LifecycleLane> := [BuildLane, ReviewLane, PrLane]

  const BUILD_LIFECYCLE_STATES: set<string> :=
    {"CREATE_WORKTREE", "INSTALL_DEPENDENCIES", "IMPLEMENT", "ASSESS_CHANGES", "PRE_COMMIT"}

  const REVIEW_LIFECYCLE_STATES: set<string> := {"REVIEW"}

  const PR_LIFECYCLE_STATES: set<string> :=
    {"COMMIT", "CREATE_PR", "WATCH_PR_STATUS_CHECKS", "RESOLVE_PR_MERGE_CONFLICT", "INVESTIGATE_PR_STATUS_CHECKS",
     "MARK_PR_READY_FOR_REVIEW", "DECIDE_PR_MERGE", "MERGE_PR", "CLOSE_ISSUE", "LOCAL_CLEANUP"}

  const PR_PHASES: set<string> := PR_LIFECYCLE_STATES + {"GITHUB_STATUS_CHECKS"}

  function LifecycleLaneForState(state: string): Option<LifecycleLane> {
    if state in BUILD_LIFECYCLE_STATES then Some(BuildLane)
    else if state in REVIEW_LIFECYCLE_STATES then Some(ReviewLane)
    else if state in PR_LIFECYCLE_STATES then Some(PrLane)
    else None
  }

  function LifecycleLaneForPhase(phase: string): Option<LifecycleLane> {
    if phase in BUILD_LIFECYCLE_STATES then Some(BuildLane)
    else if phase in REVIEW_LIFECYCLE_STATES then Some(ReviewLane)
    else if phase in PR_PHASES then Some(PrLane)
    else None
  }
}
