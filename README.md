# KerbalWind: the manual wind dial

KerbalWind is a Kerbal Space Program plugin. It supplies a wind vector to the
FAR aerodynamics mod. The player sets the wind in a small window:

- "-" and "+" buttons step the wind speed by one m/s, never below zero.
- A 3x3 compass grid picks the side the wind comes from. The centre "X" means no wind.

When the dial changes, the plugin recomputes a map-space wind vector:
x points east/west and z north/south. On every physics tick it rotates that
vector into world space with the orientation of the surface under the vessel.
FAR queries the world-space vector through a callback, which ignores its
arguments. A toolbar button and the game's hide/show-UI events decide
whether the window is shown.

The model has five modules:

- `Vectors` (vectors.dfy): 3-vectors and the surface-to-world orientation.
  The orientation is a linear map given by the images of the unit axes, so it sends zero to zero.
- `Dial` (dial.dfy): the speed steps and the compass grid.
  `CompassWind` is a geometric reference for the grid: row `i / 3` fixes the
  north/south component and column `i % 3` the east/west component, matching
  the three-per-row `SelectionGrid` layout.
- `Label` (label.dfy): the speed label, the speed formatted with no decimals plus " m/s".
- `WindState` (wind_state.dfy): all plugin fields as one value.
  It has one transition function per event, an invariant, and lemmas over any sequence of events.
- `Plugin` (kerbal_wind.dfy): the class `KerbalWind` with the source's fields.
  Its handlers update the fields in place, the way the source does. The direction `switch` is
  written out component by component. Each handler is proved to perform its `WindState` transition.

## Model

| member | source | states |
|---|---|---|
| Vectors.Rotate | KerbalWind.cs:190 | the surface-to-world rotation maps the zero vector to the zero vector |
| Vectors.RotateNeg | KerbalWind.cs:190 | rotating the opposite vector gives the opposite world vector |
| Vectors.RotateAdd | KerbalWind.cs:190 | rotation distributes over vector sums |
| Dial.Decrement | KerbalWind.cs:220-224 | "-" gives max(0, speed - 1): exactly one less for a speed of at least one, zero below that; never raises a non-negative speed, and keeps whole speeds whole |
| Dial.Increment | KerbalWind.cs:225-229 | "+" adds exactly one and keeps whole speeds whole |
| Dial.DecrementUndoesIncrement | KerbalWind.cs:220-229 | "-" after "+" restores any non-negative speed |
| Dial.WindowTitle | KerbalWind.cs:211 | the title is "No Wind" exactly when the cell is the centre cell 4, and "Wind" otherwise |
| Dial.IncrementUndoesDecrement | KerbalWind.cs:220-229 | "+" after "-" restores the speed exactly when the speed was at least one; below that the floor at zero loses the difference |
| Dial.CompassWind | KerbalWind.cs:246-288 | the cell wind is horizontal (y = 0) and zero at speed zero |
| Dial.CardinalCells | KerbalWind.cs:249-264 | N gives z = -speed, S gives z = +speed, W gives x = +speed, E gives x = -speed, the other components zero |
| Dial.CalmCells | KerbalWind.cs:285-287 | the centre cell 4 and every index outside the grid give the zero vector |
| Dial.CornerIsSumOfCardinals | KerbalWind.cs:249-284 | NW = N + W, NE = N + E, SW = S + W, SE = S + E |
| Dial.OppositeCells | KerbalWind.cs:249-287 | for every index i, cells i and 8 - i give opposite vectors (both zero off the grid) |
| Dial.WindScalesWithSpeed | KerbalWind.cs:249-284 | a cell's wind is the speed times its unit wind, whose components are -1, 0 or 1 |
| Dial.TitleNamesTheCalmCell | KerbalWind.cs:210-211 | on the grid at a non-zero speed, the title reads "No Wind" exactly when the cell gives no wind |
| Label.SpeedLabel | KerbalWind.cs:289 | the label ends in " m/s", and for a whole non-negative speed what precedes it is exactly the speed's decimal digits |
| Label.DecimalString | KerbalWind.cs:289 | the speed is written as at least one decimal digit, with no leading zero |
| Label.DecimalRoundTrip | KerbalWind.cs:289 | reading the written digits back gives the number |
| Label.RoundF0 | KerbalWind.cs:289 | no-decimal rounding is within one half of the value and exact on whole numbers |
| Label.SpeedLabelDistinguishesSpeeds | KerbalWind.cs:289 | two whole non-negative speeds with the same label are equal |
| WindState.InitInv | KerbalWind.cs:33-47 | the initial fields satisfy the invariant |
| WindState.StepInv | KerbalWind.cs:75-291 | every handler preserves the invariant: whole non-negative speed, window open iff both flags allow, horizontal map wind, wind and label match the dial when no refresh is pending |
| WindState.RunInv | KerbalWind.cs:75-291 | the invariant holds after any sequence of events |
| WindState.ReachableStates | KerbalWind.cs:39-41 | from the initial speed 0, after any events the speed is a non-negative whole number and the window is open iff both flags allow it |
| WindState.SpeedBound | KerbalWind.cs:220-229 | the speed never exceeds its start value plus the number of "+" presses |
| WindState.DirtyFlagProtocol | KerbalWind.cs:220-240 | both buttons set the stale flag; a selection sets it iff the cell changed; re-selecting the same cell changes nothing |
| WindState.RefreshProperties | KerbalWind.cs:242-291 | a refresh leaves nothing pending and a horizontal wind matching the dial; it changes nothing when nothing is pending; it is idempotent |
| WindState.WindowShowsDial | KerbalWind.cs:216-291 | after the window is drawn, the wind and label show exactly the selected cell and the current speed |
| WindState.ClosedWindowIgnoresInput | KerbalWind.cs:205-213 | while the window is closed its input changes nothing |
| WindState.VisibilityProtocol | KerbalWind.cs:75-111 | after a toolbar click, hide or show the window is open iff both flags allow; each touches only its own flag and no wind field; two clicks cancel |
| WindState.FixedUpdateGate | KerbalWind.cs:183-194 | in flight the world wind is the map wind rotated by the newest available frame (the stale one when the host reports none), so the zero gate never changes the output; a zero map wind gives zero whatever frame the host reports; outside flight nothing changes |
| WindState.OppositeCellsOppositeWorldWinds | KerbalWind.cs:187-193 | opposite cells at one speed give opposite world winds under the same frame |
| Plugin.KerbalWind.constructor | KerbalWind.cs:33-52 | the fields start as the source declares them and satisfy the invariant |
| Plugin.KerbalWind.PressMinus | KerbalWind.cs:220-224 | the "-" handler sets the stale flag and the decremented speed, nothing else |
| Plugin.KerbalWind.PressPlus | KerbalWind.cs:225-229 | the "+" handler adds one to the speed and sets the stale flag, nothing else |
| Plugin.KerbalWind.SelectCell | KerbalWind.cs:234-240 | the grid handler stores the cell and sets the stale flag iff the cell changed |
| Plugin.KerbalWind.Refresh | KerbalWind.cs:242-291 | the component-by-component switch yields exactly the grid's reference wind, then the label, and clears the flag, only when stale |
| Plugin.KerbalWind.OnWindow | KerbalWind.cs:216-295 | buttons, then grid, then refresh, in the source's order |
| Plugin.KerbalWind.OnGui | KerbalWind.cs:205-213 | the window is handled only while open, titled from the cell before its input is handled |
| Plugin.KerbalWind.ToolbarClick | KerbalWind.cs:75-79 | toggles the toolbar flag and sets open to the conjunction of both flags |
| Plugin.KerbalWind.OnHideUI | KerbalWind.cs:100-104 | clears the UI flag and closes the window |
| Plugin.KerbalWind.OnShowUI | KerbalWind.cs:107-111 | sets the UI flag; the window is open iff the toolbar flag is set |
| Plugin.KerbalWind.FixedUpdate | KerbalWind.cs:183-194 | overwrites the world wind: zero for a zero map wind, else the map wind rotated by the newest available frame |
| Plugin.KerbalWind.GetWind | KerbalWind.cs:198-201 | returns the stored world wind for every body, part and position |

## Left out

- Procedural weather, gusts and blending: the noise field, Rayleigh sampling, turbulence curves, gust filters and blend scheduler have no implementation in KerbalWind.cs.
- Python scripts (misc/continuousgusts.py, misc/lateralcontinuousgusts.py, filterwhitenoise.py, fourierwtf.py): these are standalone floating-point experiments with random noise, spectra and plotting that prototype gust filters; the plugin never runs them.
- Frame computation (KerbalWind.cs:130-179): the NavBall lookup and the quaternion product are not modelled. `FixedUpdate` takes the host's answer as a parameter: a new frame, or none when the host has no NavBall or vessel. The source ignores that failure (KerbalWind.cs:189), so the stale frame is reused, and the model does the same.
- Plugin.KerbalWind.constructor: the orientation held before the host first reports one is a constructor parameter. The host's default quaternion is not modelled.
- Vectors.Rotate: any linear map stands for the rotation. The model does not require it to be orthonormal, so length preservation is not stated.
- Floating point: speeds and vectors are exact reals. The source's `float` speed stops changing under "+" above 2^24, and the model does not capture that. Unity's `!=` on vectors is an approximate comparison. Reachable components are whole numbers, so this makes no difference to the zero gate.
- GUI plumbing: the GUI skin, window layout and drag, toolbar construction, `GameEvents` registration and FAR callback registration are host calls. Mouse input becomes parameters: the pressed button and the cell `SelectionGrid` returns. `HighLogic.LoadedSceneIsFlight` becomes the `inFlight` parameter.
- Persistence: `Save`/`Load` of the window position is file I/O.
- Dead code: the `#if DEBUG` logging block and the `#if false` block.
- Label.SpeedLabel: .NET's "F0" formatting is modelled as rounding half away from zero, written as an optional minus sign and plain decimal digits. Culture-dependent formatting is not modelled. Only whole speeds are reachable, so rounding never comes into play. The model writes every digit, while the host formats a `float` with at most 7 significant digits, so from 10^7 m/s upward neighbouring speeds print alike (10000001 and 10000002 both as "10000000 m/s"): Label.SpeedLabelDistinguishesSpeeds holds of the program only below 10^7.
