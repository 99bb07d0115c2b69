/** Parameter changes: one step at a time, within bounds, at most one every cooldown. */
module Params {
  import opened Wrappers
  import opened Types

  function ParamLevelBounds(param: ParamKind): (u8, u8) {
    match param
    case Gravity | Speed => (PARAM_MIN_LEVEL, PARAM_MAX_LEVEL_THREE_STAGE)
    case Friction => (PARAM_MIN_LEVEL, PARAM_MAX_LEVEL_FRICTION)
  }

  function Level(params: PlayerParams, param: ParamKind): u8 {
    match param
    case Gravity => params.gravity
    case Friction => params.friction
    case Speed => params.speed
  }

  function WithLevel(params: PlayerParams, param: ParamKind, level: u8): PlayerParams {
    match param
    case Gravity => params.(gravity := level)
    case Friction => params.(friction := level)
    case Speed => params.(speed := level)
  }

  /** One step on an 8-bit level, saturating at both ends of the type. */
  function StepLevel(level: u8, direction: ParamDirection): u8 {
    match direction
    case Increase => if level == 255 then 255 else level + 1
    case Decrease => if level == 0 then 0 else level - 1
  }

  function ApplyParamChange(
    params: PlayerParams, nextParamChangeAt: Unix, param: ParamKind, direction: ParamDirection, now: Unix)
    : Result<ParamMutation, LobbyError>
  {
    if now < nextParamChangeAt then Err(CooldownActive(nextParamChangeAt))
    else
      var candidate := StepLevel(Level(params, param), direction);
      var (minLevel, maxLevel) := ParamLevelBounds(param);
      if !(minLevel <= candidate <= maxLevel) then Err(OutOfRange)
      else Ok(ParamMutation(WithLevel(params, param, candidate), now + PARAM_CHANGE_COOLDOWN_SECS))
  }

  function Delta(direction: ParamDirection): int {
    if direction == Increase then 1 else -1
  }

  predicate InBounds(params: PlayerParams) {
    forall param: ParamKind :: ParamLevelBounds(param).0 <= Level(params, param) <= ParamLevelBounds(param).1
  }

  /**
   For every 8-bit state, in or out of bounds: a change succeeds exactly when the cooldown has
   passed and the exact (unsaturated) target is in range; it moves one level by one and leaves
   the others; and the cooldown is reported before the range.
   */
  lemma ChangeMeaning(
    params: PlayerParams, nextAt: Unix, param: ParamKind, direction: ParamDirection, now: Unix)
    ensures var r := ApplyParamChange(params, nextAt, param, direction, now);
      var target := Level(params, param) + Delta(direction);
      var inRange := 1 <= target <= (if param.Friction? then 2 else 3);
      && (r.Ok? <==> now >= nextAt && inRange)
      && (r == Err(CooldownActive(nextAt)) <==> now < nextAt)
      && (r == Err(OutOfRange) <==> now >= nextAt && !inRange)
      && (r.Ok? ==>
            && r.value.nextParamChangeAt == now + 7
            && Level(r.value.params, param) == target
            && (forall other: ParamKind | other != param ::
                  Level(r.value.params, other) == Level(params, other))
            && (InBounds(params) ==> InBounds(r.value.params)))
  {
  }

  /** A change and the opposite change after the cooldown restore the parameters. */
  lemma OppositeChangeUndoes(
    params: PlayerParams, nextAt: Unix, param: ParamKind, direction: ParamDirection, now: Unix, later: Unix)
    requires InBounds(params)
    requires ApplyParamChange(params, nextAt, param, direction, now).Ok? && later >= now + 7
    ensures var changed := ApplyParamChange(params, nextAt, param, direction, now).value;
      var opposite := if direction == Increase then Decrease else Increase;
      var r := ApplyParamChange(changed.params, changed.nextParamChangeAt, param, opposite, later);
      r.Ok? && r.value.params == params
  {
  }
}
