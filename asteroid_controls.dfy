/** The advanced asteroid controls: the Torino-to-colour lookup of the risk
    panel, the rewind and fast-forward speed buttons, the play/pause icon, and
    which parts of the panel are shown. */
module AsteroidControls {
  import opened Wrappers
  import opened Numerics
  import RiskCalculator

  /** The colour classes of Torino levels 0 through 10, in order. */
  const RiskColors: seq<string> := [
    "text-green-500", "text-yellow-500", "text-yellow-600", "text-orange-500", "text-orange-600",
    "text-red-500", "text-red-600", "text-red-700", "text-red-800", "text-red-900", "text-purple-600"]

  /** The class used for any other key. */
  const DefaultColor: string := "text-white"

  /** The table has one non-empty class per level, none of them the default, all different. */
  lemma RiskColorsTable()
    ensures |RiskColors| == 11
    ensures forall k :: 0 <= k < |RiskColors| ==> RiskColors[k] != "" && RiskColors[k] != DefaultColor
    ensures forall j, k :: 0 <= j < k < |RiskColors| ==> RiskColors[j] != RiskColors[k]
  {
  }

  /** `getRiskColor`: the listed class of a level 0..10, and "text-white" for any other key,
      including a missing one. Every listed class is truthy, so `||` only applies to misses. */
  function RiskColor(torino: Option<int>): (c: string)
    ensures torino.Some? && 0 <= torino.value <= 10 ==> c == RiskColors[torino.value]
    ensures c == DefaultColor <==> !(torino.Some? && 0 <= torino.value <= 10)
  {
    RiskColorsTable();
    if torino.Some? && 0 <= torino.value < |RiskColors| then
      var listed := RiskColors[torino.value];
      if listed != "" then listed else DefaultColor
    else DefaultColor
  }

  /** Two levels of 0..10 get the same colour only if they are equal. */
  lemma RiskColorInjective(a: int, b: int)
    requires 0 <= a <= 10 && 0 <= b <= 10 && RiskColor(Some(a)) == RiskColor(Some(b))
    ensures a == b
  {
    RiskColorsTable();
  }

  /** An assessment of the risk calculator would be coloured from the table: its level is one
      of 0, 2, 4, 6, 8 and 10, each with its own class. The program itself never hands such an
      assessment to the panel: the backend serves only the impact prediction, and the one place
      that mounts the panel passes no `riskAssessment`. */
  lemma AssessmentColored(m: MathLib, d: RiskCalculator.AsteroidData)
    requires RiskCalculator.AssessRisk(m, d).Assessed?
    ensures var t := RiskCalculator.AssessRisk(m, d).assessment.torinoScale;
            RiskColor(Some(t)) in {"text-green-500", "text-yellow-600", "text-orange-600",
                                   "text-red-600", "text-red-800", "text-purple-600"}
  {
    RiskCalculator.AssessRiskConsistent(m, d);
  }

  /** The speed the rewind button sends: half the current one. */
  function Rewind(speed: real): (s: real)
    ensures 2.0 * s == speed
  {
    speed / 2.0
  }

  /** The speed the fast-forward button sends: twice the current one. */
  function FastForward(speed: real): (s: real)
    ensures s / 2.0 == speed
  {
    speed * 2.0
  }

  /** One press of each button, in either order, restores the speed, and neither press changes
      its sign. */
  lemma SpeedButtons(speed: real)
    ensures FastForward(Rewind(speed)) == speed && Rewind(FastForward(speed)) == speed
    ensures (Rewind(speed) > 0.0 <==> speed > 0.0) && (Rewind(speed) < 0.0 <==> speed < 0.0)
    ensures (FastForward(speed) > 0.0 <==> speed > 0.0) && (FastForward(speed) < 0.0 <==> speed < 0.0)
  {
  }

  datatype Icon = PlayIcon | PauseIcon

  /** The play/pause button shows the play icon exactly while paused. */
  function PlayPauseIcon(isPaused: bool): (icon: Icon)
    ensures icon == PlayIcon <==> isPaused
  {
    if isPaused then PlayIcon else PauseIcon
  }

  /** The component's own state: the advanced view and the risk details toggles, both off at
      first. */
  datatype ControlsState = ControlsState(isExpanded: bool, showRiskPanel: bool)

  const InitialState: ControlsState := ControlsState(false, false)

  function ToggleExpanded(s: ControlsState): (t: ControlsState)
    ensures t.isExpanded == !s.isExpanded && t.showRiskPanel == s.showRiskPanel
  {
    s.(isExpanded := !s.isExpanded)
  }

  function ToggleRiskPanel(s: ControlsState): (t: ControlsState)
    ensures t.showRiskPanel == !s.showRiskPanel && t.isExpanded == s.isExpanded
  {
    s.(showRiskPanel := !s.showRiskPanel)
  }

  /** The part of an assessment the details show. */
  datatype Assessment = Assessment(torinoScale: Option<int>, impactProbability: real)

  /** What the advanced part of the panel shows: the time controls with their icon, the
      selected asteroid's panel, and the details with their colour class. */
  datatype View = View(timeControls: Option<Icon>, riskPanel: bool, details: Option<string>)

  /** The nested conditions of the markup: time controls when expanded, the asteroid panel when
      also an asteroid is selected, and the details when also toggled on and an assessment is
      present. */
  function Render(s: ControlsState, isPaused: bool, hasSelection: bool, assessment: Option<Assessment>): (v: View)
    ensures v.timeControls.Some? <==> s.isExpanded
    ensures v.riskPanel <==> s.isExpanded && hasSelection
    ensures v.details.Some? <==> s.isExpanded && hasSelection && s.showRiskPanel && assessment.Some?
    ensures v.timeControls.Some? ==> v.timeControls.value == PlayPauseIcon(isPaused)
    ensures v.details.Some? ==> v.details.value == RiskColor(assessment.value.torinoScale)
  {
    if !s.isExpanded then View(None, false, None)
    else
      var panel := hasSelection;
      var details := if panel && s.showRiskPanel && assessment.Some? then Some(RiskColor(assessment.value.torinoScale)) else None;
      View(Some(PlayPauseIcon(isPaused)), panel, details)
  }

  /** At first nothing of the advanced part is shown. */
  lemma InitiallyCollapsed(isPaused: bool, hasSelection: bool, assessment: Option<Assessment>)
    ensures Render(InitialState, isPaused, hasSelection, assessment) == View(None, false, None)
  {
  }

  /** Collapsing and expanding again keeps the details toggle, so the view comes back as it was. */
  lemma CollapseKeepsDetails(s: ControlsState, isPaused: bool, hasSelection: bool, assessment: Option<Assessment>)
    ensures ToggleExpanded(ToggleExpanded(s)) == s
    ensures Render(ToggleExpanded(ToggleExpanded(s)), isPaused, hasSelection, assessment)
            == Render(s, isPaused, hasSelection, assessment)
  {
  }

  /** Without a selected asteroid the details never show, whatever the toggles. */
  lemma NoSelectionNoDetails(s: ControlsState, isPaused: bool, assessment: Option<Assessment>)
    ensures Render(s, isPaused, false, assessment).details.None?
    ensures !Render(s, isPaused, false, assessment).riskPanel
  {
  }
}
