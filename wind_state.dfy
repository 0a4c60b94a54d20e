/** The state of the wind plugin as a value, and one transition function per
    event the plugin handles. The class KerbalWind is proved against these
    functions; the lemmas here state what holds over any sequence of events. */
module WindState {
  import opened Vectors
  import opened Dial
  import opened Label

  /** Which speed button, if any, was pressed while the window was drawn. */
  datatype Press = NoPress | MinusButton | PlusButton

  datatype State = State(
    isWindowOpen: bool,
    enableThroughGuiEvent: bool,
    enableThroughToolbar: bool,
    windDirectionNumb: int,
    windSpeed: real,
    windSpeedLabel: string,
    needsUpdate: bool,
    windDirection: Vec3,      // map space: x east/west, z north/south
    windDirectionWS: Vec3,    // world space, as handed to the aerodynamics
    surfaceToWorld: Frame)    // last orientation obtained from the host

  /** The state when the flight scene starts: window shown, centre cell, speed
      zero, both winds zero and a refresh pending. */
  function Init(frame: Frame): State {
    State(true, true, true, DirectionDialNoWind, 0.0, "", true, Zero, Zero, frame)
  }

  /** What the plugin keeps true between events: the speed is a whole number
      of at least zero, the window is open exactly when neither the toolbar nor
      the host's hide-UI event closed it, the map wind is horizontal, and when
      no refresh is pending the wind and the label match the dial. */
  ghost predicate Inv(st: State) {
    && st.windSpeed >= 0.0
    && IsWhole(st.windSpeed)
    && st.isWindowOpen == (st.enableThroughGuiEvent && st.enableThroughToolbar)
    && st.windDirection.y == 0.0
    && (!st.needsUpdate ==>
          st.windDirection == CompassWind(st.windDirectionNumb, st.windSpeed)
          && st.windSpeedLabel == SpeedLabel(st.windSpeed))
  }

  function PressMinus(st: State): State {
    st.(needsUpdate := true, windSpeed := Decrement(st.windSpeed))
  }

  function PressPlus(st: State): State {
    st.(windSpeed := Increment(st.windSpeed), needsUpdate := true)
  }

  function ApplyPress(st: State, press: Press): State {
    match press
    case NoPress => st
    case MinusButton => PressMinus(st)
    case PlusButton => PressPlus(st)
  }

  /** The grid reports the selected cell; a change of cell marks the wind
      stale. */
  function SelectCell(st: State, cell: int): State {
    st.(windDirectionNumb := cell,
        needsUpdate := st.needsUpdate || cell != st.windDirectionNumb)
  }

  /** Recomputes the map wind and the label, but only when stale. */
  function Refresh(st: State): State {
    if st.needsUpdate then
      st.(windDirection := CompassWind(st.windDirectionNumb, st.windSpeed),
          windSpeedLabel := SpeedLabel(st.windSpeed),
          needsUpdate := false)
    else
      st
  }

  /** One drawing of the window: an optional button press, the grid
      selection, then the refresh. */
  function OnWindow(st: State, press: Press, selected: int): State {
    Refresh(SelectCell(ApplyPress(st, press), selected))
  }

  /** The window is drawn, and its input handled, only while it is open. */
  function OnGui(st: State, press: Press, selected: int): State {
    if st.isWindowOpen then OnWindow(st, press, selected) else st
  }

  function ToolbarClick(st: State): State {
    var toolbar := !st.enableThroughToolbar;
    st.(enableThroughToolbar := toolbar,
        isWindowOpen := st.enableThroughGuiEvent && toolbar)
  }

  function HideUI(st: State): State {
    var gui := false;
    st.(enableThroughGuiEvent := gui, isWindowOpen := gui && st.enableThroughToolbar)
  }

  function ShowUI(st: State): State {
    var gui := true;
    st.(enableThroughGuiEvent := gui, isWindowOpen := gui && st.enableThroughToolbar)
  }

  /** The physics tick. Outside the flight scene nothing happens. A zero map
      wind gives a zero world wind without asking the host for the frame;
      otherwise the frame is refreshed when the host can supply one (None when
      it cannot, and the last frame is reused) and the map wind is rotated. */
  function FixedUpdate(st: State, inFlight: bool, frameUpdate: Option<Frame>): State {
    if !inFlight then st
    else if st.windDirection != Zero then
      var frame := if frameUpdate.Some? then frameUpdate.value else st.surfaceToWorld;
      st.(surfaceToWorld := frame, windDirectionWS := Rotate(frame, st.windDirection))
    else
      st.(windDirectionWS := Zero)
  }

  datatype Event =
    | Minus
    | Plus
    | Select(cell: int)
    | RefreshWind
    | Gui(press: Press, selected: int)
    | Toolbar
    | Hide
    | Show
    | Tick(inFlight: bool, frameUpdate: Option<Frame>)

  function Step(st: State, e: Event): State {
    match e
    case Minus => PressMinus(st)
    case Plus => PressPlus(st)
    case Select(cell) => SelectCell(st, cell)
    case RefreshWind => Refresh(st)
    case Gui(press, selected) => OnGui(st, press, selected)
    case Toolbar => ToolbarClick(st)
    case Hide => HideUI(st)
    case Show => ShowUI(st)
    case Tick(inFlight, frameUpdate) => FixedUpdate(st, inFlight, frameUpdate)
  }

  function Run(st: State, events: seq<Event>): State
    decreases |events|
  {
    if events == [] then st else Run(Step(st, events[0]), events[1..])
  }

  /** The number of "+" presses among the events. */
  function PlusPresses(events: seq<Event>): nat
    decreases |events|
  {
    if events == [] then 0
    else
      var e := events[0];
      (if e.Plus? || (e.Gui? && e.press == PlusButton) then 1 else 0) + PlusPresses(events[1..])
  }

  lemma InitInv(frame: Frame)
    ensures Inv(Init(frame))
  {
  }

  /** Every event preserves the invariant. */
  lemma StepInv(st: State, e: Event)
    requires Inv(st)
    ensures Inv(Step(st, e))
  {
  }

  lemma {:induction false} RunInv(st: State, events: seq<Event>)
    requires Inv(st)
    ensures Inv(Run(st, events))
    decreases |events|
  {
    if events != [] {
      StepInv(st, events[0]);
      RunInv(Step(st, events[0]), events[1..]);
    }
  }

  /** Whatever the events since the flight scene started, the speed is a
      whole number of at least zero and the window is open exactly when both
      flags allow it. */
  lemma ReachableStates(frame: Frame, events: seq<Event>)
    ensures var st := Run(Init(frame), events);
      && st.windSpeed >= 0.0 && IsWhole(st.windSpeed)
      && st.isWindowOpen == (st.enableThroughGuiEvent && st.enableThroughToolbar)
  {
    InitInv(frame);
    RunInv(Init(frame), events);
  }

  /** The speed grows by at most one per "+" press. */
  lemma {:induction false} SpeedBound(st: State, events: seq<Event>)
    requires Inv(st)
    ensures Run(st, events).windSpeed <= st.windSpeed + PlusPresses(events) as real
    decreases |events|
  {
    if events != [] {
      StepInv(st, events[0]);
      SpeedBound(Step(st, events[0]), events[1..]);
    }
  }

  /** A button press always marks the wind stale; a grid selection does so
      exactly when it differs from the previous cell, and selecting the same
      cell again changes nothing. */
  lemma DirtyFlagProtocol(st: State, cell: int)
    ensures PressMinus(st).needsUpdate && PressPlus(st).needsUpdate
    ensures SelectCell(st, cell).needsUpdate <==> st.needsUpdate || cell != st.windDirectionNumb
    ensures SelectCell(st, st.windDirectionNumb) == st
  {
  }

  /** After a refresh nothing is pending, the map wind is horizontal and
      matches the dial; a refresh when nothing is pending changes nothing, so
      refreshing twice is refreshing once. */
  lemma RefreshProperties(st: State)
    requires Inv(st)
    ensures !Refresh(st).needsUpdate
    ensures Refresh(st).windDirection == CompassWind(st.windDirectionNumb, st.windSpeed)
    ensures Refresh(st).windDirection.y == 0.0
    ensures !st.needsUpdate ==> Refresh(st) == st
    ensures Refresh(Refresh(st)) == Refresh(st)
  {
  }

  /** Once the window has been drawn, the map wind and the label show exactly
      the cell and the speed on the dial, whatever was pressed. */
  lemma WindowShowsDial(st: State, press: Press, selected: int)
    requires Inv(st)
    ensures var r := OnWindow(st, press, selected);
      && r.windDirectionNumb == selected
      && r.windDirection == CompassWind(selected, r.windSpeed)
      && r.windSpeedLabel == SpeedLabel(r.windSpeed)
      && !r.needsUpdate
  {
  }

  /** A closed window ignores the mouse. */
  lemma ClosedWindowIgnoresInput(st: State, press: Press, selected: int)
    requires !st.isWindowOpen
    ensures OnGui(st, press, selected) == st
  {
  }

  /** The visibility events keep the window open exactly when both flags
      allow it, touch only their own flag, and leave the wind alone. A
      toolbar click undone by a second click restores the state; "show" after
      "hide" reopens the window unless the toolbar has closed it. */
  lemma VisibilityProtocol(st: State)
    ensures var t := ToolbarClick(st);
      t.isWindowOpen == (t.enableThroughGuiEvent && t.enableThroughToolbar)
      && t.enableThroughToolbar == !st.enableThroughToolbar
      && t.enableThroughGuiEvent == st.enableThroughGuiEvent
    ensures var h := HideUI(st);
      !h.isWindowOpen && !h.enableThroughGuiEvent && h.enableThroughToolbar == st.enableThroughToolbar
    ensures var s := ShowUI(st);
      s.isWindowOpen == s.enableThroughToolbar && s.enableThroughGuiEvent
      && s.enableThroughToolbar == st.enableThroughToolbar
    ensures Inv(st) ==> ToolbarClick(ToolbarClick(st)) == st
    ensures ShowUI(HideUI(st)).isWindowOpen == st.enableThroughToolbar
    ensures var wind := (x: State) => (x.windSpeed, x.windDirectionNumb, x.windDirection, x.windDirectionWS);
      wind(ToolbarClick(st)) == wind(HideUI(st)) == wind(ShowUI(st)) == wind(st)
  {
  }

  /** In flight, the world wind is the map wind rotated by the newest frame
      available, the stale one when the host reports none; so the zero gate
      never changes the output, it only spares the frame query: a zero map
      wind gives a zero world wind whatever the host could report. */
  lemma FixedUpdateGate(st: State, frameUpdate: Option<Frame>)
    ensures st.windDirection == Zero ==>
      && FixedUpdate(st, true, frameUpdate).windDirectionWS == Zero
      && FixedUpdate(st, true, frameUpdate) == FixedUpdate(st, true, None)
    ensures FixedUpdate(st, true, frameUpdate).windDirectionWS
         == Rotate(if frameUpdate.Some? then frameUpdate.value else st.surfaceToWorld, st.windDirection)
    ensures FixedUpdate(st, false, frameUpdate) == st
  {
  }

  /** Opposite cells at the same speed give opposite world-space winds under
      the same frame. */
  lemma OppositeCellsOppositeWorldWinds(frame: Frame, cell: int, speed: real)
    requires 0 <= cell < 9
    ensures Rotate(frame, CompassWind(8 - cell, speed)) == Neg(Rotate(frame, CompassWind(cell, speed)))
  {
    OppositeCells(cell, speed);
    RotateNeg(frame, CompassWind(cell, speed));
  }
}
