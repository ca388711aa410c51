/** The controller as the program runs it: one object holding the output
    table, whose methods write it in place in the order the program does.
    Each method records its writes in `trace`, so that its effect is stated
    as one of the write sequences whose properties the other modules prove. */
module Controller {
  import opened Signals
  import opened Transitions
  import opened Waits
  import opened GreenTiming
  import opened Cycle

  /** The side-street long loops whose detection shortens the wait before
      a Martin/TechPkwy green. */
  const CrossLongs: seq<Sensor> := [Long(Martin), Long(TechPkwy)]

  /** The maximum length of the Martin/TechPkwy green, in seconds. */
  const CrossGreenMax: real := 45.0

  /** The longest wait before a Martin/TechPkwy green, in seconds. */
  const CrossWaitMax: real := 45.0

  class Intersection {
    /** The level of every output pin. */
    var pins: Table
    /** Every write made since setup_gpio, in order. */
    ghost var trace: seq<Write>

    /** setup_gpio followed by the initial aspects of control_traffic:
        120E/W green, Martin/TechPkwy red, every turn lamp LOW. */
    constructor ()
      ensures trace == StartupWrites() && pins == Run(Dark(), trace)
      ensures ArterialGreen(pins) && Safe(Dark(), trace)
    {
      pins := Dark();
      trace := [];
      new;
      SetLightGroup(East120, false, false, true);
      SetLightGroup(West120, false, false, true);
      SetLightGroup(Martin, true, false, false);
      SetLightGroup(TechPkwy, true, false, false);
      assert trace == StartupWrites();
      RunFour(Dark(), Show(East120, Green), Show(West120, Green), Show(Martin, Red), Show(TechPkwy, Red));
      StartupReachesArterialGreen();
    }

    /** set_light_group: the group's R, Y and G pins take r, y and g; no
        other pin changes. */
    method SetLightGroup(g: Group, r: bool, y: bool, gr: bool)
      modifies this
      ensures pins.lights == old(pins.lights)[g := Lamps(r, y, gr)] && pins.lamps == old(pins.lamps)
      ensures pins == Apply(old(pins), SetGroup(g, Lamps(r, y, gr)))
      ensures trace == old(trace) + [SetGroup(g, Lamps(r, y, gr))]
    {
      pins := Apply(pins, SetGroup(g, Lamps(r, y, gr)));
      trace := trace + [SetGroup(g, Lamps(r, y, gr))];
    }

    /** Paint the groups of gs in order with aspect a, one set_light_group
        each; `done` is what this object has already written in the call
        that paints. */
    method PaintGroups(gs: seq<Group>, a: Aspect, ghost p0: Table, ghost t0: seq<Write>, ghost done: seq<Write>)
      requires pins == Run(p0, done) && trace == t0 + done
      modifies this
      ensures pins == Run(p0, done + Paint(gs, a)) && trace == t0 + (done + Paint(gs, a))
    {
      assert done + Paint(gs[..0], a) == done;
      for i := 0 to |gs|
        invariant pins == Run(p0, done + Paint(gs[..i], a)) && trace == t0 + (done + Paint(gs[..i], a))
      {
        PaintStep(p0, done, gs, i, a);
        Assoc(t0, done + Paint(gs[..i], a), [Show(gs[i], a)]);
        SetLightGroup(gs[i], a == Red, a == Yellow, a == Green);
      }
      assert gs[..|gs|] == gs;
    }

    /** all_red: every through group shows red; the turn lamps keep their
        levels. */
    method AllRed()
      modifies this
      ensures pins == Run(old(pins), AllRedWrites()) && trace == old(trace) + AllRedWrites()
      ensures ShowsAllRed(pins) && pins.lamps == old(pins.lamps)
    {
      PaintGroups(Groups, Red, pins, trace, []);
      assert [] + Paint(Groups, Red) == AllRedWrites();
      AllRedOutcome(old(pins));
    }

    /** run_transition: from-groups yellow, then from- and to-groups red,
        then to-groups green. */
    method RunTransition(from: seq<Group>, to: seq<Group>)
      modifies this
      ensures pins == Run(old(pins), TransitionWrites(from, to))
      ensures trace == old(trace) + TransitionWrites(from, to)
      ensures forall g :: pins.lights[g] == if g in to then Lit(Green) else if g in from then Lit(Red) else old(pins.lights[g])
      ensures pins.lamps == old(pins.lamps)
    {
      ghost var p0, t0 := pins, trace;
      PaintGroups(from, Yellow, p0, t0, []);
      PaintGroups(from + to, Red, p0, t0, [] + Paint(from, Yellow));
      PaintGroups(to, Green, p0, t0, [] + Paint(from, Yellow) + Paint(from + to, Red));
      assert [] + Paint(from, Yellow) + Paint(from + to, Red) + Paint(to, Green) == TransitionWrites(from, to);
      TransitionOutcome(p0, from, to);
    }

    /** run_turn_phase: when the sensor reads LOW in `low`, the turn lamp is
        held HIGH and then set LOW, and the result is true; otherwise
        nothing is written and the result is false. */
    method RunTurnPhase(lamp: Turn, sensor: Sensor, low: set<Sensor>) returns (granted: bool)
      modifies this
      ensures granted <==> sensor in low
      ensures pins == Run(old(pins), TurnWrites(lamp, granted)) && trace == old(trace) + TurnWrites(lamp, granted)
    {
      if sensor in low {
        ghost var p0 := pins;
        pins := Apply(pins, Grant(lamp));
        trace := trace + [Grant(lamp)];
        pins := Apply(pins, Release(lamp));
        trace := trace + [Release(lamp)];
        RunSnoc(p0, [Grant(lamp)], Release(lamp));
        RunSnoc(p0, [], Grant(lamp));
        return true;
      }
      return false;
    }

    /** One `for key in active_turns` loop of monitor_y_green. */
    method FlashTurns(turns: seq<Turn>, on: bool, ghost p0: Table, ghost t0: seq<Write>, ghost done: seq<Write>)
      requires pins == Run(p0, done) && trace == t0 + done
      modifies this
      ensures pins == Run(p0, done + Flash(turns, on)) && trace == t0 + (done + Flash(turns, on))
    {
      assert done + Flash(turns[..0], on) == done;
      for i := 0 to |turns|
        invariant pins == Run(p0, done + Flash(turns[..i], on)) && trace == t0 + (done + Flash(turns[..i], on))
      {
        FlashStep(p0, done, turns, i, on);
        Assoc(t0, done + Flash(turns[..i], on), [Blink(turns[i], on)]);
        pins := Apply(pins, Blink(turns[i], on));
        trace := trace + [Blink(turns[i], on)];
      }
      assert turns[..|turns|] == turns;
    }

    /** The blinking at the end of a pass of monitor_y_green: every active
        turn lamp HIGH, then every one LOW. */
    method BlinkRound(turns: seq<Turn>, ghost p0: Table, ghost t0: seq<Write>, ghost k: nat)
      requires pins == Run(p0, Blinks(turns, k)) && trace == t0 + Blinks(turns, k)
      modifies this
      ensures pins == Run(p0, Blinks(turns, k + 1)) && trace == t0 + Blinks(turns, k + 1)
    {
      ghost var b := Blinks(turns, k);
      FlashTurns(turns, true, p0, t0, b);
      FlashTurns(turns, false, p0, t0, b + Flash(turns, true));
      Assoc(b, Flash(turns, true), Flash(turns, false));
    }

    /** monitor_y_green: poll once per pass until maxDuration has passed or
        the 120 long loops have read LOW for five seconds, blinking the
        active turn lamps on every pass that does not end the green. */
    method MonitorYGreen(maxDuration: real, activeTurns: seq<Turn>, start: real, polls: seq<Poll>)
      returns (result: real)
      requires Expires(start, polls, maxDuration)
      modifies this
      ensures result == GreenValue(GreenRun(start, polls, maxDuration), maxDuration)
      ensures pins == Run(old(pins), Blinks(activeTurns, GreenRun(start, polls, maxDuration).at))
      ensures trace == old(trace) + Blinks(activeTurns, GreenRun(start, polls, maxDuration).at)
    {
      ghost var p0, t0 := pins, trace;
      var k := 0;
      var triggered: Option<real> := None;
      while true
        invariant k <= Deadline(start, polls, maxDuration)
        invariant GreenFrom(start, polls, maxDuration, k, triggered) == GreenRun(start, polls, maxDuration)
        invariant pins == Run(p0, Blinks(activeTurns, k)) && trace == t0 + Blinks(activeTurns, k)
        decreases Deadline(start, polls, maxDuration) - k
      {
        ghost var before := triggered;
        var now := polls[k].at;
        var elapsed := now - start;
        if elapsed >= maxDuration {
          assert GreenRun(start, polls, maxDuration) == Expired(k);
          break;
        }
        if Long(East120) in polls[k].low || Long(West120) in polls[k].low {
          if triggered.None? || triggered.value == 0.0 {
            triggered := Some(now);
          } else if now - triggered.value >= 5.0 {
            assert GreenRun(start, polls, maxDuration) == Early(k, elapsed + Max(3.0, maxDuration * 0.25));
            return elapsed + Max(3.0, maxDuration * 0.25);
          }
        } else {
          triggered := None;
        }
        assert GreenFrom(start, polls, maxDuration, k, before) == GreenFrom(start, polls, maxDuration, k + 1, triggered);
        BlinkRound(activeTurns, p0, t0, k);
        k := k + 1;
      }
      return maxDuration;
    }

    /** The first half of run_y_cycle: clear 120E/W, run the Tech and
        Martin turn phases, collect the granted turns for blinking and turn
        Martin and TechPkwy green. */
    method OpenCross(techLow: set<Sensor>, martinLow: set<Sensor>) returns (turnBlinks: seq<Turn>)
      modifies this
      ensures turnBlinks == Active(TurnSensor(TurnTech) in techLow, TurnSensor(TurnMartin) in martinLow)
      ensures var ws := OpenWrites(TurnSensor(TurnTech) in techLow, TurnSensor(TurnMartin) in martinLow);
              pins == Run(old(pins), ws) && trace == old(trace) + ws
    {
      ghost var p0, t0 := pins, trace;
      RunTransition([East120, West120], []);
      var turnTech := RunTurnPhase(TurnTech, TurnSensor(TurnTech), techLow);
      var turnMartin := RunTurnPhase(TurnMartin, TurnSensor(TurnMartin), martinLow);
      turnBlinks := [];
      if turnTech {
        turnBlinks := turnBlinks + [TurnTech];
      }
      if turnMartin {
        turnBlinks := turnBlinks + [TurnMartin];
      }
      assert turnBlinks == Active(turnTech, turnMartin);
      SetLightGroup(Martin, false, false, true);
      SetLightGroup(TechPkwy, false, false, true);
      OpenTrace(t0, TransitionWrites([East120, West120], []), TurnWrites(TurnTech, turnTech),
                TurnWrites(TurnMartin, turnMartin), Show(Martin, Green), Show(TechPkwy, Green));
      OpenRun(p0, TransitionWrites([East120, West120], []), TurnWrites(TurnTech, turnTech),
              TurnWrites(TurnMartin, turnMartin), Show(Martin, Green), Show(TechPkwy, Green));
    }

    /** The second half of run_y_cycle: the monitored green blinking
        turnBlinks, clearing Martin and TechPkwy, the 120W turn phase and
        the return to 120E/W green. */
    method CloseCross(turnBlinks: seq<Turn>, greenStart: real, greenPolls: seq<Poll>, w120Low: set<Sensor>)
      requires Expires(greenStart, greenPolls, CrossGreenMax)
      modifies this
      ensures var ws := CloseWrites(turnBlinks, GreenRun(greenStart, greenPolls, CrossGreenMax).at,
                                    TurnSensor(Turn120W) in w120Low);
              pins == Run(old(pins), ws) && trace == old(trace) + ws
    {
      ghost var p0, t0 := pins, trace;
      var _ := MonitorYGreen(CrossGreenMax, turnBlinks, greenStart, greenPolls);
      RunTransition([Martin, TechPkwy], []);
      var turn120W := RunTurnPhase(Turn120W, TurnSensor(Turn120W), w120Low);
      RunTransition([], [East120, West120]);
      ghost var blinks := Blinks(turnBlinks, GreenRun(greenStart, greenPolls, CrossGreenMax).at);
      CloseTrace(t0, blinks, TransitionWrites([Martin, TechPkwy], []), TurnWrites(Turn120W, turn120W),
                 TransitionWrites([], [East120, West120]));
      CloseRun(p0, blinks, TransitionWrites([Martin, TechPkwy], []), TurnWrites(Turn120W, turn120W),
               TransitionWrites([], [East120, West120]));
    }

    /** run_y_cycle, given what its sensors read: the Tech and Martin turn
        sensors at its lines 97-98, the passes of its monitored green and
        the 120W turn sensor. Entered from 120E/W green it returns there,
        through admissible writes only. */
    method RunYCycle(techLow: set<Sensor>, martinLow: set<Sensor>, greenStart: real, greenPolls: seq<Poll>,
                     w120Low: set<Sensor>)
      requires Expires(greenStart, greenPolls, CrossGreenMax)
      modifies this
      ensures var ws := CycleWrites(TurnSensor(TurnTech) in techLow, TurnSensor(TurnMartin) in martinLow,
                                    GreenRun(greenStart, greenPolls, CrossGreenMax).at,
                                    TurnSensor(Turn120W) in w120Low);
              pins == Run(old(pins), ws) && trace == old(trace) + ws
      ensures ArterialGreen(old(pins)) ==>
                ArterialGreen(pins) && Safe(old(pins), trace[|old(trace)|..])
    {
      ghost var p0, t0 := pins, trace;
      var turnBlinks := OpenCross(techLow, martinLow);
      ghost var open := trace[|t0|..];
      CloseCross(turnBlinks, greenStart, greenPolls, w120Low);
      ghost var tech, martin := TurnSensor(TurnTech) in techLow, TurnSensor(TurnMartin) in martinLow;
      ghost var rounds := GreenRun(greenStart, greenPolls, CrossGreenMax).at;
      ghost var w120 := TurnSensor(Turn120W) in w120Low;
      RunAppend(p0, OpenWrites(tech, martin), CloseWrites(turnBlinks, rounds, w120));
      Assoc(t0, OpenWrites(tech, martin), CloseWrites(turnBlinks, rounds, w120));
      assert trace[|t0|..] == CycleWrites(tech, martin, rounds, w120);
      if ArterialGreen(p0) {
        CycleReturnsToArterialGreen(p0, tech, martin, rounds, w120);
      }
    }

    /** One pass of the control_traffic loop, given what its inputs read:
        the short-loop watch, the long-cut wait and the cycle. Without side
        street demand in `watch` nothing is written. */
    method Serve(watch: seq<set<Sensor>>, waitStart: real, waitPolls: seq<Poll>,
                 techLow: set<Sensor>, martinLow: set<Sensor>, greenStart: real, greenPolls: seq<Poll>,
                 w120Low: set<Sensor>)
      returns (served: bool)
      requires Expires(waitStart, waitPolls, CrossWaitMax)
      requires Expires(greenStart, greenPolls, CrossGreenMax)
      modifies this
      ensures old(trace) <= trace
      ensures served <==> exists k :: 0 <= k < |watch| && Demand(watch[k])
      ensures !served ==> pins == old(pins) && trace == old(trace)
      ensures served ==>
                var ws := CycleWrites(TurnSensor(TurnTech) in techLow, TurnSensor(TurnMartin) in martinLow,
                                      GreenRun(greenStart, greenPolls, CrossGreenMax).at,
                                      TurnSensor(Turn120W) in w120Low);
                pins == Run(old(pins), ws) && trace == old(trace) + ws
      ensures ArterialGreen(old(pins)) ==>
                ArterialGreen(pins) && Safe(old(pins), trace[|old(trace)|..])
    {
      var found := AwaitDemand(watch);
      if found.None? {
        return false;
      }
      var _ := WaitWithPossibleLongCut(CrossWaitMax, CrossLongs, waitStart, waitPolls);
      RunYCycle(techLow, martinLow, greenStart, greenPolls, w120Low);
      return true;
    }
  }
}
