# Traffic control for a four-approach arterial intersection

This project models the signal sequencer `traffic_control_v17.py`, which controls the intersection of the 120 arterial with Martin and TechPkwy. It has four through groups: 120E, 120W, Martin and TechPkwy. Each group has a red, a yellow and a green lamp. There are also three turn lamps: Tech, Martin and 120W.

The controller works like this:
- It starts with 120E/W green.
- It watches the Martin/TechPkwy short loops.
- Once demand appears, it waits up to 45 seconds, then sleeps the delay the wait returns. A vehicle on a side-street long loop ends the polling at once. The delay it then returns is max(5, elapsed + a quarter of the wait). That exceeds the full wait when the detection comes after three quarters of it. So a late detection lengthens the wait rather than cutting it.
- It then runs one cycle:
  - It clears 120E/W.
  - It grants the Tech and Martin turns solidly if their sensors ask.
  - It turns Martin/TechPkwy green and monitors that green. Meanwhile it blinks the granted turn lamps. Sustained pressure on the 120 long loops ends the green early.
  - It clears Martin/TechPkwy.
  - It grants the 120W turn if asked.
  - It returns to 120E/W green.

The model has six modules:

- `Signals` (`signals.dfy`) holds the output table.
  - `Table` gives the levels of every group's three lamp pins and of the three turn lamps.
  - `Write` is one output action: a `set_light_group` call, a solid turn grant or its release, or a blink.
  - `Run` is the table after a sequence of writes.
  - `Safe` holds when every write in the sequence is `Admissible` where it is made. A write is admissible when:
    - it leaves no 120 group green together with a Martin/TechPkwy group;
    - if it is a solid turn grant, all four groups are red;
    - if it sets a group red, that group is not currently green.
- `Transitions` (`transitions.dfy`) defines the write sequences of `all_red`, `run_transition`, `run_turn_phase` and the blinking in `monitor_y_green`. It proves what each sequence does to the table and when it is safe.
- `Waits` (`waits.dfy`) covers the inputs and the waits:
  - A polling loop receives its samples as `Poll`s. Each `Poll` holds the clock reading of one pass and the set of sensors that read LOW in it.
  - `wait_with_possible_long_cut` is a method with a loop.
  - The watch loop of `control_traffic` is a method too.
- `GreenTiming` (`green.dfy`) defines when `monitor_y_green` ends and what it returns. It proves that the green ends early exactly under sustained pressure.
- `Cycle` (`cycle.dfy`) defines the writes of the initial aspects and of one `run_y_cycle`. It proves the cycle safe and proves that it returns to 120E/W green.
- `Controller` (`controller.dfy`) holds the class `Intersection`:
  - It owns the output table `pins`, which its methods update in place in the program's order.
  - Each method is proved against the write sequence the other modules reason about: `pins == Run(old(pins), W)`.
  - A ghost `trace` records every write made, so safety can be stated about the writes themselves.

## Model

| member | source | states |
|---|---|---|
| Controller.Intersection.SetLightGroup | traffic_control_v17.py:28-31 | the group's R, Y and G pins take r, y and g; every other group's pins and every turn lamp keep their levels |
| Controller.Intersection.AllRed | traffic_control_v17.py:33-35 | afterwards all four through groups show red and the turn lamps are unchanged |
| Transitions.AllRedOutcome | traffic_control_v17.py:33-35 | the all_red writes leave all four groups showing exactly red and do not touch the turn lamps |
| Controller.Intersection.RunTransition | traffic_control_v17.py:37-45 | every to-group ends green; every from-group that is not also a to-group ends red; every other group and every turn lamp is unchanged |
| Transitions.TransitionOutcome | traffic_control_v17.py:37-45 | the same end state for the pure write sequence of run_transition, for any start table |
| Transitions.TransitionClearsBeforeGreen | traffic_control_v17.py:37-45 | run_transition writes only groups of from ∪ to; before any green write, every group of from ∪ to has been set red |
| Transitions.TransitionSafe | traffic_control_v17.py:37-45 | from a state without conflicting greens, when the to-groups are on one side, nothing crossing them is green and no to-group outside from is green, every write of run_transition is admissible |
| Transitions.PaintEffect | traffic_control_v17.py:38-45 | one loop of set_light_group calls leaves each listed group showing its aspect and everything else as it was |
| Waits.WaitWithPossibleLongCut | traffic_control_v17.py:50-58 | with no long sensor LOW in a pass before the deadline, the result is start_wait; at the first such pass, max(5, elapsed + start_wait*0.25); so the result is start_wait or at least 5 |
| Waits.LateCutLengthensWait | traffic_control_v17.py:56 | the delay returned at a detection exceeds start_wait exactly when start_wait is under 5 or the detection comes after 0.75·start_wait; after 0.875·start_wait, polling plus delay outlast two full waits |
| Waits.Window | traffic_control_v17.py:52 | the first pass whose clock is start_wait past the start; every earlier pass is inside the window |
| Controller.Intersection.RunTurnPhase | traffic_control_v17.py:60-67 | the result is true exactly when the turn sensor reads LOW; then the lamp is granted and released; otherwise nothing is written |
| Transitions.TurnPhaseEffect | traffic_control_v17.py:60-67 | after the turn phase the lamp is LOW if it was granted, and no other pin changes |
| Transitions.TurnPhaseSafe | traffic_control_v17.py:63-65 | a granted turn phase is safe if and only if all four groups show red |
| Controller.Intersection.MonitorYGreen | traffic_control_v17.py:69-92 | the result is the value GreenRun determines: max_duration, or elapsed + max(3, max_duration*0.25) on an early end; the writes are exactly one HIGH-then-LOW blink round per pass that did not end the green |
| GreenTiming.GreenFrom | traffic_control_v17.py:72-85 | the green ends no later than the time limit, at the limit exactly when not early; an early end happens at a pass where a 120 long loop reads LOW and returns elapsed + max(3, max_duration*0.25) |
| GreenTiming.EarlyExitIsSustained | traffic_control_v17.py:77-85 | an early end comes only after the 120 long loops read LOW at every pass over at least 5 seconds, with no HIGH sample between |
| GreenTiming.SustainedPressureEndsEarly | traffic_control_v17.py:77-85 | conversely, LOW readings at every pass over 5 seconds inside the green end it early, no later than the last of those passes |
| Transitions.BlinksEffect | traffic_control_v17.py:86-91 | after the blink rounds every active turn lamp is LOW if any round ran, every other pin is unchanged, and no group lamp changes |
| Transitions.BlinksWriteOnlyActive | traffic_control_v17.py:86-91 | the blink rounds write nothing but the active turn lamps |
| Transitions.BlinksSafe | traffic_control_v17.py:86-91 | blinking keeps a state without conflicting greens, and every blink write is admissible |
| Controller.Intersection.OpenCross | traffic_control_v17.py:95-105 | the granted turns are collected in the order Tech, Martin, each exactly when its sensor read LOW, and the writes are those of the first half of the cycle |
| Controller.Intersection.CloseCross | traffic_control_v17.py:106-109 | the writes are the blink rounds of the monitored green, then clearing Martin/TechPkwy, the 120W turn phase and the 120E/W green |
| Controller.Intersection.RunYCycle | traffic_control_v17.py:94-110 | entered from 120E/W green, every write of the cycle is admissible and the cycle ends at 120E/W green with every turn lamp LOW |
| Cycle.CycleReturnsToArterialGreen | traffic_control_v17.py:94-110 | for any turn-sensor readings and any number of blink rounds, the cycle's writes are safe from 120E/W green and end there |
| Cycle.ClearArterial | traffic_control_v17.py:95 | clearing 120E/W from 120E/W green is safe and leaves all groups red and all turn lamps LOW |
| Cycle.TurnUnderAllRed | traffic_control_v17.py:97-98 | a turn phase under all red is safe and ends under all red with every turn lamp LOW |
| Cycle.CrossGo | traffic_control_v17.py:104-105 | turning Martin and TechPkwy green from all red is safe and shows them green, with 120E/W red |
| Cycle.CrossBlinks | traffic_control_v17.py:106 | the Tech/Martin blinking during the Martin/TechPkwy green is safe and keeps that state with every turn lamp LOW |
| Cycle.ClearCross | traffic_control_v17.py:107 | clearing Martin/TechPkwy from their green is safe and leaves all groups red |
| Cycle.RestoreArterial | traffic_control_v17.py:109 | restoring 120E/W from all red is safe and reaches 120E/W green |
| Controller.Intersection.constructor | traffic_control_v17.py:112-117 | from all pins LOW, the initial aspects are written safely and reach 120E/W green with every turn lamp LOW |
| Cycle.StartupReachesArterialGreen | traffic_control_v17.py:114-117 | the initial writes from the all-LOW table are safe and reach 120E/W green |
| Waits.AwaitDemand | traffic_control_v17.py:121-127 | the first sample in which the Martin or TechPkwy short loop reads LOW, or none when no sample shows demand |
| Controller.Intersection.Serve | traffic_control_v17.py:119-128 | one pass of the control loop runs a cycle exactly when demand is seen: with demand its writes are exactly those of run_y_cycle for the readings given, without demand nothing is written; from 120E/W green every write is admissible and the pass ends at 120E/W green, the loop invariant |

## Left out

- GPIO setup (`setup_gpio`), the physical pin names and the `GPIO` library. Pins are abstract keys: a group's three lamps and the three turn lamps. `setup_gpio` is modelled only as the all-LOW start table `Dark`.
- `time.sleep` is a no-op. The `delay` and `yellow` durations of run_transition, the 15 s turn hold and the blink pauses do not affect the outputs, so they are not modelled.
- `print` and `display_status` are logging only.
- The `KeyboardInterrupt` handler and process entry. Only `all_red`, which the handler calls, is modelled.
- The infinite loops of `control_traffic`. `Serve` models one pass with the loop invariant 120E/W green. An `AwaitDemand` result of None means the loop would still be watching.
- Clock and sensors are inputs:
  - Each pass of a polling loop is one `Poll`, with one clock reading and one reading of every sensor.
  - Two `time.time()` calls in the same pass read the same value, and so do two reads of the same sensor.
  - The samples must run up to the loop's time limit (`Expires`). That keeps the model's loops finite.
- WaitWithPossibleLongCut: a detection is seen when any listed long sensor reads LOW in the pass's sample. The source reads the sensors one after another.
- GreenTiming.SustainedPressureEndsEarly: assumes a positive clock that never goes back (`Clocked`). The source relies on `time.time()` for that. The literal `not triggered_time` test is kept: a trigger reading of 0.0 counts as no trigger.
- The delay returned by the wait and the value returned by `monitor_y_green` only feed `time.sleep`, or are discarded, in `control_traffic` and `run_y_cycle`. The model computes and specifies them but uses them no further.
- Per-pin intermediate states inside `set_light_group`, such as a group momentarily dark. Safety is stated at the granularity of whole group writes.
- Two behaviours of the code shape the safety predicate:
  - `all_red` does not touch the turn lamps.
  - A to-group goes from red straight to green, with no red-yellow stage.
  - Safety therefore forbids only a green→red write without yellow in between. It does not forbid red→green.
