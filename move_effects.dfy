/** Move-transition effects (src/move_transition_effects.rs): the "Move_"
    filter naming, the "create the move filter only if absent" check, the
    timing override of a move, and the spin axis mapping. The OBS calls are
    parameters (their results) or named in the returned plan; the float
    positions computed by `custom_filter_settings` are carried opaquely in
    the fetched settings. */
module MoveEffects {
  import opened Common

  const MovePrefix := "Move_"

  /** The move filter that animates a scene item or source. */
  function MoveFilterName(item: string): (r: string)
    ensures |r| == |MovePrefix| + |item|
    ensures r[..|MovePrefix|] == MovePrefix && r[|MovePrefix|..] == item
  {
    MovePrefix + item
  }

  /** Different items never share a move filter. */
  lemma MoveFilterNameInjective(a: string, b: string)
    requires MoveFilterName(a) == MoveFilterName(b)
    ensures a == b
  {
    assert MoveFilterName(a)[|MovePrefix|..] == MoveFilterName(b)[|MovePrefix|..];
  }

  // ---------------------------------------------------------------------
  // find_or_create_filter
  // ---------------------------------------------------------------------

  /** Walks the listed filters and sets a flag when one has exactly the
      wanted name; creates the filter only when none had. `listing` is the
      filter list, or None when listing failed (logged, then Ok without
      creating anything); `createOk` is whether creating succeeds. Returns
      whether the filter is created and the function's result. */
  method FindOrCreateFilter(listing: Option<seq<string>>, filterName: string, createOk: bool)
    returns (create: bool, r: Result<()>)
    ensures create <==> listing.Some? && filterName !in listing.value
    ensures r.Err? <==> create && !createOk
  {
    if listing.None? {
      return false, Ok(());
    }
    var filters := listing.value;
    var filterExists := false;
    var i := 0;
    while i < |filters|
      invariant 0 <= i <= |filters|
      invariant filterExists <==> filterName in filters[..i]
    {
      assert filters[..i + 1] == filters[..i] + [filters[i]];
      if filters[i] == filterName {
        filterExists := true;
      }
      i := i + 1;
    }
    assert filters[..i] == filters;
    create := !filterExists;
    if create && !createOk {
      r := Err("could not create the move filter");
    } else {
      r := Ok(());
    }
  }

  // ---------------------------------------------------------------------
  // Moves
  // ---------------------------------------------------------------------

  /** The settings of a move filter: the three timing fields the effects
      override, and everything else `custom_filter_settings` computed. */
  datatype MoveSettings = MoveSettings(
    duration: Option<nat>,
    easingType: Option<int>,
    easingFunction: Option<int>,
    positioned: map<string, string>)

  /** The `move_with_move_source` call a move ends with. */
  datatype MovePlan = MovePlan(scene: string, filterName: string, settings: MoveSettings)

  /** The `find_or_create_filter` call a move starts with: the filters of
      `scene` are listed and the move filter for `source` is created when
      absent. */
  datatype FilterCheck = FilterCheck(scene: string, source: string, filterName: string)

  /** What a move does: the filter check it makes first, if any (its result
      is dropped with `let _ =`), and then the move call, or the error of
      fetching the settings, which `?` returns. */
  datatype Move = Move(check: Option<FilterCheck>, plan: Result<MovePlan>)

  /** The three field assignments of `move_source_in_scene_x_and_y`. */
  function OverrideTiming(settings: MoveSettings, duration: nat, easingFunction: int, easingType: int): (r: MoveSettings)
    ensures r.duration == Some(duration) && r.easingType == Some(easingType) && r.easingFunction == Some(easingFunction)
    ensures r.positioned == settings.positioned
  {
    settings.(duration := Some(duration), easingType := Some(easingType), easingFunction := Some(easingFunction))
  }

  /** `move_source_in_scene_x_and_y`, where `fetched` is the result of
      fetching the source's settings (already positioned at x, y). The
      filter check comes before the fetch, so it is made even when the
      fetch fails. */
  function MoveSourceInSceneXAndY(scene: string, source: string, duration: nat, easingFunction: int, easingType: int,
                                  fetched: Result<MoveSettings>): (r: Move)
    ensures r.check == Some(FilterCheck(scene, source, MoveFilterName(source)))
    ensures r.plan.Err? <==> fetched.Err?
    ensures r.plan.Err? ==> r.plan.msg == fetched.msg
    ensures r.plan.Ok? ==>
      && r.plan.value.scene == scene && r.plan.value.filterName == MoveFilterName(source)
      && r.plan.value.settings.positioned == fetched.value.positioned
      && r.plan.value.settings.duration == Some(duration)
      && r.plan.value.settings.easingType == Some(easingType)
      && r.plan.value.settings.easingFunction == Some(easingFunction)
  {
    var check := Some(FilterCheck(scene, source, MoveFilterName(source)));
    match fetched
    case Err(e) => Move(check, Err(e))
    case Ok(settings) => Move(check, Ok(MovePlan(scene, MoveFilterName(source), OverrideTiming(settings, duration, easingFunction, easingType))))
  }

  /** `top_right`: no filter check; the fetched settings are used as computed. */
  function TopRight(scene: string, sceneItem: string, fetched: Result<MoveSettings>): (r: Move)
    ensures r.check.None?
    ensures r.plan.Err? <==> fetched.Err?
    ensures r.plan.Ok? ==> r.plan.value == MovePlan(scene, MoveFilterName(sceneItem), fetched.value)
  {
    match fetched
    case Err(e) => Move(None, Err(e))
    case Ok(settings) => Move(None, Ok(MovePlan(scene, MoveFilterName(sceneItem), settings)))
  }

  /** `bottom_right`: checks the filter first, whatever the fetch then
      returns, and moves with the computed settings. */
  function BottomRight(scene: string, sceneItem: string, fetched: Result<MoveSettings>): (r: Move)
    ensures r.check == Some(FilterCheck(scene, sceneItem, MoveFilterName(sceneItem)))
    ensures r.plan.Err? <==> fetched.Err?
    ensures r.plan.Ok? ==> r.plan.value == MovePlan(scene, MoveFilterName(sceneItem), fetched.value)
  {
    var check := Some(FilterCheck(scene, sceneItem, MoveFilterName(sceneItem)));
    match fetched
    case Err(e) => Move(check, Err(e))
    case Ok(settings) => Move(check, Ok(MovePlan(scene, MoveFilterName(sceneItem), settings)))
  }

  /** All three moves of one item go through the same filter, and only the
      timing fields distinguish a timed move from a corner move; the two
      moves that check the filter check the same one. */
  lemma MovesShareFilter(scene: string, item: string, settings: MoveSettings, duration: nat, easingFunction: int, easingType: int)
    ensures var timed := MoveSourceInSceneXAndY(scene, item, duration, easingFunction, easingType, Ok(settings));
      var corner := BottomRight(scene, item, Ok(settings));
      && timed.plan.value.filterName == corner.plan.value.filterName == TopRight(scene, item, Ok(settings)).plan.value.filterName
      && timed.plan.value.settings == OverrideTiming(corner.plan.value.settings, duration, easingFunction, easingType)
      && timed.check == corner.check
  {
  }

  // ---------------------------------------------------------------------
  // spin
  // ---------------------------------------------------------------------

  /** The 3D-transform setting a spin command animates. */
  function SpinSetting(filterSettingName: string): (r: string)
    ensures filterSettingName == "spinx" || filterSettingName == "x" ==> r == "Rotation.X"
    ensures filterSettingName == "spiny" || filterSettingName == "y" ==> r == "Rotation.Y"
    ensures filterSettingName !in {"spinx", "x", "spiny", "y"} ==> r == "Rotation.Z"
  {
    if filterSettingName == "spin" || filterSettingName == "z" then "Rotation.Z"
    else if filterSettingName == "spinx" || filterSettingName == "x" then "Rotation.X"
    else if filterSettingName == "spiny" || filterSettingName == "y" then "Rotation.Y"
    else "Rotation.Z"
  }

  /** The `update_and_trigger_move_value_filter` call `spin` makes. */
  datatype ValueFilterUpdate = ValueFilterUpdate(
    source: string, moveFilterName: string, settingName: string, targetFilter: string, duration: nat, moveType: nat)

  /** `spin`: the update it makes, given the name of the 3D transform
      filter; whatever `updateResult` the update returns, spin returns Ok. */
  function Spin(source: string, filterSettingName: string, duration: nat, transformFilterName: string,
                updateResult: Result<()>): (r: (ValueFilterUpdate, Result<()>))
    ensures r.1.Ok?
    ensures r.0.moveFilterName == MoveFilterName(transformFilterName) && r.0.targetFilter == transformFilterName
    ensures r.0.settingName in {"Rotation.X", "Rotation.Y", "Rotation.Z"}
    ensures r.0.source == source && r.0.duration == duration && r.0.moveType == 2
  {
    (ValueFilterUpdate(source, MoveFilterName(transformFilterName), SpinSetting(filterSettingName),
                       transformFilterName, duration, 2),
     Ok(()))
  }
}
