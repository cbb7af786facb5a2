/** Reward-function configuration (src/simenv/rl/reward_functions.py): the
    record of a reward node, its validating constructor, and the copy that
    re-resolves its two entities after the scene tree has been cloned.
    Entities are values of a type parameter `E`; the scene's name lookup is a
    finite map. */
module Rewards {
  import opened Wrappers

  const AllowedRewardTypes: seq<string> := ["dense", "sparse", "or", "and", "not", "see", "timeout"]
  const AllowedDistanceMetrics: seq<string> := ["euclidean"]

  const DefaultRewardType: string := "dense"
  const DefaultDistanceMetric: string := "euclidean"

  /** The exceptions of this module: the two ValueErrors of construction, and
      a name the scene's lookup cannot resolve. */
  datatype RewardError = InvalidRewardType(rewardType: string)
                       | InvalidDistanceMetric(metric: string)
                       | NodeNotFound(name: string)

  /** A constructed reward node; `rewardType` is the source's `type` field. */
  datatype RewardFunction<E> = RewardFunction(
    entityA: E,
    entityB: E,
    rewardType: string,
    distanceMetric: string,
    scalar: real,
    threshold: real,
    isTerminal: bool,
    isCollectable: bool,
    triggerOnce: bool,
    rewardFunctionA: Option<RewardFunction<E>>,
    rewardFunctionB: Option<RewardFunction<E>>)

  /** The constructor's arguments; `None` is an omitted type or metric. */
  datatype RewardArgs<E> = RewardArgs(
    entityA: E,
    entityB: E,
    rewardType: Option<string>,
    distanceMetric: Option<string>,
    scalar: real,
    threshold: real,
    isTerminal: bool,
    isCollectable: bool,
    triggerOnce: bool,
    rewardFunctionA: Option<RewardFunction<E>>,
    rewardFunctionB: Option<RewardFunction<E>>)

  /** The arguments of a call that passes only the two entities. */
  function DefaultArgs<E>(entityA: E, entityB: E): RewardArgs<E> {
    RewardArgs(entityA, entityB, None, None, 1.0, 1.0, false, false, true, None, None)
  }

  /** A record every successful construction produces. */
  predicate Valid<E>(rf: RewardFunction<E>) {
    rf.rewardType in AllowedRewardTypes && rf.distanceMetric in AllowedDistanceMetrics
  }

  /** The dataclass constructor followed by `__post_init__`: default and check
      the type, then default and check the distance metric; every other field
      is stored as given. */
  function NewRewardFunction<E>(args: RewardArgs<E>): (r: Result<RewardFunction<E>, RewardError>)
    ensures r.Ok? <==> args.rewardType.GetOr(DefaultRewardType) in AllowedRewardTypes
                       && args.distanceMetric.GetOr(DefaultDistanceMetric) in AllowedDistanceMetrics
    ensures args.rewardType.GetOr(DefaultRewardType) !in AllowedRewardTypes ==>
              r == Err(InvalidRewardType(args.rewardType.value))
    ensures args.rewardType.GetOr(DefaultRewardType) in AllowedRewardTypes
            && args.distanceMetric.GetOr(DefaultDistanceMetric) !in AllowedDistanceMetrics ==>
              r == Err(InvalidDistanceMetric(args.distanceMetric.value))
    ensures r.Ok? ==> Valid(r.value)
    ensures r.Ok? ==> r.value.rewardType == args.rewardType.GetOr(DefaultRewardType)
                      && r.value.distanceMetric == args.distanceMetric.GetOr(DefaultDistanceMetric)
    ensures r.Ok? ==> ArgsOf(r.value).(rewardType := args.rewardType, distanceMetric := args.distanceMetric) == args
  {
    var rewardType := args.rewardType.GetOr(DefaultRewardType);
    if rewardType !in AllowedRewardTypes then
      Err(InvalidRewardType(rewardType))
    else
      var metric := args.distanceMetric.GetOr(DefaultDistanceMetric);
      if metric !in AllowedDistanceMetrics then
        Err(InvalidDistanceMetric(metric))
      else
        Ok(RewardFunction(args.entityA, args.entityB, rewardType, metric, args.scalar, args.threshold,
                          args.isTerminal, args.isCollectable, args.triggerOnce,
                          args.rewardFunctionA, args.rewardFunctionB))
  }

  /** The arguments that rebuild a record field for field. */
  function ArgsOf<E>(rf: RewardFunction<E>): RewardArgs<E> {
    RewardArgs(rf.entityA, rf.entityB, Some(rf.rewardType), Some(rf.distanceMetric), rf.scalar,
               rf.threshold, rf.isTerminal, rf.isCollectable, rf.triggerOnce,
               rf.rewardFunctionA, rf.rewardFunctionB)
  }

  /** With only the entities given, the node is a dense, euclidean reward of
      scalar 1 and threshold 1 that is neither terminal nor collectable,
      triggers once and has no children. */
  lemma DefaultRewardFunction<E>(entityA: E, entityB: E)
    ensures NewRewardFunction(DefaultArgs(entityA, entityB))
            == Ok(RewardFunction(entityA, entityB, "dense", "euclidean", 1.0, 1.0, false, false, true, None, None))
  {
  }

  /** Type is checked before metric: with both invalid the type error wins. */
  lemma TypeCheckedFirst<E>(args: RewardArgs<E>)
    requires args.rewardType.Some? && args.rewardType.value !in AllowedRewardTypes
    requires args.distanceMetric.Some? && args.distanceMetric.value !in AllowedDistanceMetrics
    ensures NewRewardFunction(args) == Err(InvalidRewardType(args.rewardType.value))
  {
  }

  /** Re-running the constructor on a constructed node returns the node
      itself: normalisation is idempotent and never raises on its own output. */
  lemma ConstructionIdempotent<E>(args: RewardArgs<E>)
    requires NewRewardFunction(args).Ok?
    ensures NewRewardFunction(ArgsOf(NewRewardFunction(args).value)) == NewRewardFunction(args)
  {
  }

  /** A node is accepted by the constructor exactly when it is valid. */
  lemma ValidIffReconstructs<E>(rf: RewardFunction<E>)
    ensures Valid(rf) <==> NewRewardFunction(ArgsOf(rf)) == Ok(rf)
  {
  }

  /** `_post_copy`: rebuild the node through the constructor, with each
      entity replaced by the scene root's node of the name its last copy
      carries; entity A is looked up before entity B. */
  function PostCopy<E>(rf: RewardFunction<E>, lastCopyName: E -> string, nodes: map<string, E>)
    : (r: Result<RewardFunction<E>, RewardError>)
    ensures lastCopyName(rf.entityA) !in nodes ==> r == Err(NodeNotFound(lastCopyName(rf.entityA)))
    ensures lastCopyName(rf.entityA) in nodes && lastCopyName(rf.entityB) !in nodes ==>
              r == Err(NodeNotFound(lastCopyName(rf.entityB)))
  {
    var nameA := lastCopyName(rf.entityA);
    if nameA !in nodes then
      Err(NodeNotFound(nameA))
    else
      var nameB := lastCopyName(rf.entityB);
      if nameB !in nodes then
        Err(NodeNotFound(nameB))
      else
        NewRewardFunction(ArgsOf(rf).(entityA := nodes[nameA], entityB := nodes[nameB]))
  }

  /** A valid node is copied whenever both names resolve, and the copy differs
      from it only in its two entities, which become the resolved nodes; the
      child reward functions are the very same values. */
  lemma PostCopyChangesOnlyEntities<E>(rf: RewardFunction<E>, lastCopyName: E -> string, nodes: map<string, E>)
    requires Valid(rf)
    ensures PostCopy(rf, lastCopyName, nodes).Ok?
            <==> lastCopyName(rf.entityA) in nodes && lastCopyName(rf.entityB) in nodes
    ensures PostCopy(rf, lastCopyName, nodes).Ok? ==>
              PostCopy(rf, lastCopyName, nodes).value
              == rf.(entityA := nodes[lastCopyName(rf.entityA)], entityB := nodes[lastCopyName(rf.entityB)])
    ensures PostCopy(rf, lastCopyName, nodes).Ok? ==> Valid(PostCopy(rf, lastCopyName, nodes).value)
  {
  }

  /** An invalid node (one whose fields were changed after construction)
      cannot be copied: once both names resolve, the constructor's error is
      raised. */
  lemma PostCopyRevalidates<E>(rf: RewardFunction<E>, lastCopyName: E -> string, nodes: map<string, E>)
    requires lastCopyName(rf.entityA) in nodes && lastCopyName(rf.entityB) in nodes
    ensures PostCopy(rf, lastCopyName, nodes).Ok? <==> Valid(rf)
    ensures rf.rewardType !in AllowedRewardTypes ==>
              PostCopy(rf, lastCopyName, nodes) == Err(InvalidRewardType(rf.rewardType))
  {
  }
}
