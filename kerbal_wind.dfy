/** The plugin object: its fields and its event handlers, each proved to
    perform the matching transition of module WindState. */
module Plugin {
  import opened Vectors
  import opened Dial
  import opened Label
  import WindState

  class KerbalWind {
    var isWindowOpen: bool
    var enableThroughGuiEvent: bool
    var enableThroughToolbar: bool
    var windDirectionNumb: int
    var windSpeed: real
    var windSpeedLabel: string
    var needsUpdate: bool
    var windDirectionWS: Vec3   // final wind in world space
    var windDirection: Vec3     // wind in map space: x east/west, z north/south
    var qSurfaceToWorld: Frame  // orientation of the surface under the vessel

    /** The fields as one value. */
    function State(): WindState.State
      reads this
    {
      WindState.State(isWindowOpen, enableThroughGuiEvent, enableThroughToolbar,
                      windDirectionNumb, windSpeed, windSpeedLabel, needsUpdate,
                      windDirection, windDirectionWS, qSurfaceToWorld)
    }

    ghost predicate Valid()
      reads this
    {
      WindState.Inv(State())
    }

    /** The plugin as the flight scene creates it; the orientation before the
        host first reports one is a parameter. */
    constructor (initialFrame: Frame)
      ensures Valid()
      ensures State() == WindState.Init(initialFrame)
    {
      isWindowOpen := true;
      enableThroughGuiEvent := true;
      enableThroughToolbar := true;
      windDirectionNumb := DirectionDialNoWind;
      windSpeed := 0.0;
      windSpeedLabel := "";
      needsUpdate := true;
      windDirectionWS := Zero;
      windDirection := Zero;
      qSurfaceToWorld := initialFrame;
    }

    /** The "-" button. */
    method PressMinus()
      requires Valid()
      modifies this
      ensures Valid()
      ensures State() == WindState.PressMinus(old(State()))
    {
      needsUpdate := true;
      windSpeed := Decrement(windSpeed);
    }

    /** The "+" button. */
    method PressPlus()
      requires Valid()
      modifies this
      ensures Valid()
      ensures State() == WindState.PressPlus(old(State()))
    {
      windSpeed := Increment(windSpeed);
      needsUpdate := true;
    }

    /** The 3x3 grid reports the selected cell. */
    method SelectCell(cell: int)
      requires Valid()
      modifies this
      ensures Valid()
      ensures State() == WindState.SelectCell(old(State()), cell)
    {
      var oldWindDirectionNumb := windDirectionNumb;
      windDirectionNumb := cell;
      if windDirectionNumb != oldWindDirectionNumb {
        needsUpdate := true;
      }
    }

    /** Recomputes the map wind, component by component, and the label, when
        they are stale. */
    method Refresh()
      requires Valid()
      modifies this
      ensures Valid()
      ensures State() == WindState.Refresh(old(State()))
    {
      if needsUpdate {
        windDirection := Zero;
        match windDirectionNumb {
          case 7 =>  // south
            windDirection := windDirection.(z := windSpeed);
          case 3 =>  // west
            windDirection := windDirection.(x := windSpeed);
          case 1 =>  // north
            windDirection := windDirection.(z := -windSpeed);
          case 5 =>  // east
            windDirection := windDirection.(x := -windSpeed);
          case 6 =>  // south west
            windDirection := windDirection.(x := windSpeed);
            windDirection := windDirection.(z := windSpeed);
          case 0 =>  // north west
            windDirection := windDirection.(x := windSpeed);
            windDirection := windDirection.(z := -windSpeed);
          case 2 =>  // north east
            windDirection := windDirection.(x := -windSpeed);
            windDirection := windDirection.(z := -windSpeed);
          case 8 =>  // south east
            windDirection := windDirection.(x := -windSpeed);
            windDirection := windDirection.(z := windSpeed);
          case _ =>  // no wind
        }
        windSpeedLabel := SpeedLabel(windSpeed);
        needsUpdate := false;
      }
    }

    /** One drawing of the window: the speed buttons, the grid, the refresh. */
    method OnWindow(press: WindState.Press, selected: int)
      requires Valid()
      modifies this
      ensures Valid()
      ensures State() == WindState.OnWindow(old(State()), press, selected)
    {
      match press {
        case NoPress =>
        case MinusButton => PressMinus();
        case PlusButton => PressPlus();
      }
      SelectCell(selected);
      Refresh();
    }

    /** Draws the window when it is open; returns its title then. */
    method OnGui(press: WindState.Press, selected: int) returns (title: Option<string>)
      requires Valid()
      modifies this
      ensures Valid()
      ensures State() == WindState.OnGui(old(State()), press, selected)
      ensures title == if old(isWindowOpen) then Some(WindowTitle(old(windDirectionNumb))) else None
    {
      title := None;
      if isWindowOpen {
        title := Some(WindowTitle(windDirectionNumb));
        OnWindow(press, selected);
      }
    }

    /** The toolbar button's click handler. */
    method ToolbarClick()
      requires Valid()
      modifies this
      ensures Valid()
      ensures State() == WindState.ToolbarClick(old(State()))
    {
      enableThroughToolbar := !enableThroughToolbar;
      isWindowOpen := enableThroughGuiEvent && enableThroughToolbar;
    }

    /** The host hides its user interface. */
    method OnHideUI()
      requires Valid()
      modifies this
      ensures Valid()
      ensures State() == WindState.HideUI(old(State()))
    {
      enableThroughGuiEvent := false;
      isWindowOpen := enableThroughGuiEvent && enableThroughToolbar;
    }

    /** The host shows its user interface again. */
    method OnShowUI()
      requires Valid()
      modifies this
      ensures Valid()
      ensures State() == WindState.ShowUI(old(State()))
    {
      enableThroughGuiEvent := true;
      isWindowOpen := enableThroughGuiEvent && enableThroughToolbar;
    }

    /** The physics tick. frameUpdate is the orientation the host reports, or
        None when it has none to report. */
    method FixedUpdate(inFlight: bool, frameUpdate: Option<Frame>)
      requires Valid()
      modifies this
      ensures Valid()
      ensures State() == WindState.FixedUpdate(old(State()), inFlight, frameUpdate)
    {
      if !inFlight {
        return;
      }
      if windDirection != Zero {
        if frameUpdate.Some? {
          qSurfaceToWorld := frameUpdate.value;
        }
        windDirectionWS := Rotate(qSurfaceToWorld, windDirection);
      } else {
        windDirectionWS := Zero;
      }
    }

    /** The query answered to the aerodynamics: the same world-space wind for
        every body, part and position. */
    method GetWind<Body, Part>(body: Body, part: Part, position: Vec3) returns (wind: Vec3)
      ensures wind == windDirectionWS
    {
      wind := windDirectionWS;
    }
  }
}
