/** The writes of the initial aspects of control_traffic and of one
    run_y_cycle, and the safety of the cycle: entered with 120E/W green, it
    never shows a 120 green with a Martin/TechPkwy green, grants a solid turn
    only under all red, and returns to 120E/W green with every turn lamp LOW. */
module Cycle {
  import opened Signals
  import opened Transitions

  /** The turn lamps monitor_y_green blinks, in the order run_y_cycle
      appends them. */
  function Active(tech: bool, martin: bool): (turns: seq<Turn>)
    ensures forall u :: u in turns <==> (u == TurnTech && tech) || (u == TurnMartin && martin)
  {
    (if tech then [TurnTech] else []) + (if martin then [TurnMartin] else [])
  }

  /** The aspects control_traffic sets before its loop. */
  function StartupWrites(): seq<Write> {
    [Show(East120, Green), Show(West120, Green), Show(Martin, Red), Show(TechPkwy, Red)]
  }

  /** Martin and TechPkwy turned green by run_y_cycle. */
  function CrossGoWrites(): seq<Write> {
    [Show(Martin, Green), Show(TechPkwy, Green)]
  }

  /** The first half of run_y_cycle (its lines up to the Martin/TechPkwy
      green), when the Tech and Martin turn phases granted `tech` and
      `martin`. */
  function OpenWrites(tech: bool, martin: bool): seq<Write> {
    TransitionWrites([East120, West120], [])
    + TurnWrites(TurnTech, tech)
    + TurnWrites(TurnMartin, martin)
    + CrossGoWrites()
  }

  /** The second half of run_y_cycle, when the green blinked `turns` for
      `rounds` rounds and the 120W turn phase granted `w120`. */
  function CloseWrites(turns: seq<Turn>, rounds: nat, w120: bool): seq<Write> {
    Blinks(turns, rounds)
    + TransitionWrites([Martin, TechPkwy], [])
    + TurnWrites(Turn120W, w120)
    + TransitionWrites([], [East120, West120])
  }

  /** The writes of one run_y_cycle. */
  function CycleWrites(tech: bool, martin: bool, rounds: nat, w120: bool): seq<Write> {
    OpenWrites(tech, martin) + CloseWrites(Active(tech, martin), rounds, w120)
  }

  /** All four groups red and every turn lamp LOW. */
  predicate AllRedDark(p: Table) {
    ShowsAllRed(p) && LampsOff(p)
  }

  /** Martin and TechPkwy green, 120E/W red, every turn lamp LOW. */
  predicate CrossGreen(p: Table) {
    Shows(p, East120, Red) && Shows(p, West120, Red) && Shows(p, Martin, Green) && Shows(p, TechPkwy, Green)
    && LampsOff(p)
  }

  lemma ClearArterial(p: Table)
    requires ArterialGreen(p)
    ensures Safe(p, TransitionWrites([East120, West120], []))
    ensures AllRedDark(Run(p, TransitionWrites([East120, West120], [])))
  {
    TransitionSafe(p, [East120, West120], []);
    TransitionOutcome(p, [East120, West120], []);
    var q := Run(p, TransitionWrites([East120, West120], []));
    assert q.lights[East120] == Lit(Red) && q.lights[West120] == Lit(Red);
    assert q.lights[Martin] == p.lights[Martin] && q.lights[TechPkwy] == p.lights[TechPkwy];
  }

  lemma TurnUnderAllRed(p: Table, t: Turn, granted: bool)
    requires AllRedDark(p)
    ensures Safe(p, TurnWrites(t, granted)) && AllRedDark(Run(p, TurnWrites(t, granted)))
  {
    TurnPhaseEffect(p, t, granted);
    if granted {
      TurnPhaseSafe(p, t);
    }
  }

  lemma CrossGo(p: Table)
    requires AllRedDark(p)
    ensures Safe(p, CrossGoWrites()) && CrossGreen(Run(p, CrossGoWrites()))
  {
    var m1, m2 := Show(Martin, Green), Show(TechPkwy, Green);
    var q := Apply(p, m1);
    assert !IsGreen(p, East120) && !IsGreen(p, West120);
    ShowAdmissible(p, Martin, Green);
    ShowAdmissible(q, TechPkwy, Green);
    SafeOne(p, m1);
    SafeOne(q, m2);
    Then(p, [m1], [m2]);
    assert [m1] + [m2] == CrossGoWrites();
  }

  lemma CrossBlinks(p: Table, turns: seq<Turn>, rounds: nat)
    requires CrossGreen(p) && forall u :: u in turns ==> u != Turn120W
    ensures Safe(p, Blinks(turns, rounds)) && CrossGreen(Run(p, Blinks(turns, rounds)))
  {
    BlinksSafe(p, turns, rounds);
    BlinksEffect(p, turns, rounds);
    var q := Run(p, Blinks(turns, rounds));
    assert !q.lamps[TurnTech] && !q.lamps[TurnMartin] && !q.lamps[Turn120W];
  }

  lemma ClearCross(p: Table)
    requires CrossGreen(p)
    ensures Safe(p, TransitionWrites([Martin, TechPkwy], []))
    ensures AllRedDark(Run(p, TransitionWrites([Martin, TechPkwy], [])))
  {
    TransitionSafe(p, [Martin, TechPkwy], []);
    TransitionOutcome(p, [Martin, TechPkwy], []);
    var q := Run(p, TransitionWrites([Martin, TechPkwy], []));
    assert q.lights[East120] == p.lights[East120] && q.lights[West120] == p.lights[West120];
    assert q.lights[Martin] == Lit(Red) && q.lights[TechPkwy] == Lit(Red);
  }

  lemma RestoreArterial(p: Table)
    requires AllRedDark(p)
    ensures Safe(p, TransitionWrites([], [East120, West120]))
    ensures ArterialGreen(Run(p, TransitionWrites([], [East120, West120])))
  {
    var to := [East120, West120];
    forall g, h | g in to && Arterial(g) != Arterial(h) && h !in to ensures !IsGreen(p, h) {
      assert Shows(p, h, Red) by { GroupCases(h); }
    }
    TransitionSafe(p, [], to);
    TransitionOutcome(p, [], to);
    var q := Run(p, TransitionWrites([], to));
    assert q.lights[East120] == Lit(Green) && q.lights[West120] == Lit(Green);
    assert q.lights[Martin] == p.lights[Martin] && q.lights[TechPkwy] == p.lights[TechPkwy];
  }

  /** The first half of run_y_cycle: clear the arterial, serve the two
      side-street turn phases, turn the side streets green. */
  lemma ToCross(p: Table, tech: bool, martin: bool)
    requires ArterialGreen(p)
    ensures Safe(p, OpenWrites(tech, martin)) && CrossGreen(Run(p, OpenWrites(tech, martin)))
  {
    var w1 := TransitionWrites([East120, West120], []);
    ClearArterial(p);
    var w2 := w1 + TurnWrites(TurnTech, tech);
    TurnUnderAllRed(Run(p, w1), TurnTech, tech);
    Then(p, w1, TurnWrites(TurnTech, tech));
    var w3 := w2 + TurnWrites(TurnMartin, martin);
    TurnUnderAllRed(Run(p, w2), TurnMartin, martin);
    Then(p, w2, TurnWrites(TurnMartin, martin));
    CrossGo(Run(p, w3));
    Then(p, w3, CrossGoWrites());
  }

  /** The second half of run_y_cycle: the monitored green, clearing the
      side streets, the 120W turn phase and the return to 120E/W green. */
  lemma FromCross(p: Table, turns: seq<Turn>, rounds: nat, w120: bool)
    requires CrossGreen(p) && forall u :: u in turns ==> u != Turn120W
    ensures Safe(p, CloseWrites(turns, rounds, w120)) && ArterialGreen(Run(p, CloseWrites(turns, rounds, w120)))
  {
    var w5 := Blinks(turns, rounds);
    CrossBlinks(p, turns, rounds);
    var w6 := w5 + TransitionWrites([Martin, TechPkwy], []);
    ClearCross(Run(p, w5));
    Then(p, w5, TransitionWrites([Martin, TechPkwy], []));
    var w7 := w6 + TurnWrites(Turn120W, w120);
    TurnUnderAllRed(Run(p, w6), Turn120W, w120);
    Then(p, w6, TurnWrites(Turn120W, w120));
    RestoreArterial(Run(p, w7));
    Then(p, w7, TransitionWrites([], [East120, West120]));
  }

  /** Entered from 120E/W green, Martin/TechPkwy red and every turn lamp
      LOW, run_y_cycle makes only admissible writes (no conflicting greens,
      solid turn grants only under all red, no green straight to red) and
      ends in that same state, whatever its sensors read and however long
      its green lasts. */
  lemma CycleReturnsToArterialGreen(p: Table, tech: bool, martin: bool, rounds: nat, w120: bool)
    requires ArterialGreen(p)
    ensures Safe(p, CycleWrites(tech, martin, rounds, w120))
    ensures ArterialGreen(Run(p, CycleWrites(tech, martin, rounds, w120)))
  {
    var x := OpenWrites(tech, martin);
    var y := CloseWrites(Active(tech, martin), rounds, w120);
    ToCross(p, tech, martin);
    FromCross(Run(p, x), Active(tech, martin), rounds, w120);
    Then(p, x, y);
  }

  /** The trace of the calls that make OpenWrites. */
  lemma OpenTrace(t0: seq<Write>, a: seq<Write>, b: seq<Write>, c: seq<Write>, m1: Write, m2: Write)
    ensures t0 + (a + b + c + [m1, m2]) == t0 + a + b + c + [m1] + [m2]
  {
  }

  /** The table left by the calls that make OpenWrites. */
  lemma OpenRun(p: Table, a: seq<Write>, b: seq<Write>, c: seq<Write>, m1: Write, m2: Write)
    ensures Run(p, a + b + c + [m1, m2]) == Apply(Apply(Run(Run(Run(p, a), b), c), m1), m2)
  {
    RunAppend(p, a, b);
    RunAppend(p, a + b, c);
    RunAppend(p, a + b + c, [m1, m2]);
    RunTwo(Run(p, a + b + c), m1, m2);
  }

  /** The trace of the calls that make CloseWrites. */
  lemma CloseTrace(t0: seq<Write>, a: seq<Write>, b: seq<Write>, c: seq<Write>, d: seq<Write>)
    ensures t0 + (a + b + c + d) == t0 + a + b + c + d
  {
  }

  /** The table left by the calls that make CloseWrites. */
  lemma CloseRun(p: Table, a: seq<Write>, b: seq<Write>, c: seq<Write>, d: seq<Write>)
    ensures Run(p, a + b + c + d) == Run(Run(Run(Run(p, a), b), c), d)
  {
    RunAppend(p, a, b);
    RunAppend(p, a + b, c);
    RunAppend(p, a + b + c, d);
  }

  /** The first two writes of the initial aspects: 120E/W green. */
  lemma StartupArterial(p: Table)
    requires NoConflict(p) && !IsGreen(p, Martin) && !IsGreen(p, TechPkwy)
    ensures Safe(p, Paint([East120, West120], Green))
    ensures var q := Run(p, Paint([East120, West120], Green));
      Shows(q, East120, Green) && Shows(q, West120, Green) && q.lamps == p.lamps
      && q.lights[Martin] == p.lights[Martin] && q.lights[TechPkwy] == p.lights[TechPkwy]
  {
    PaintSafe(p, [East120, West120], Green);
    PaintEffect(p, [East120, West120], Green);
  }

  /** The last two writes of the initial aspects: Martin and TechPkwy red. */
  lemma StartupCross(q: Table)
    requires Shows(q, East120, Green) && Shows(q, West120, Green)
    requires !IsGreen(q, Martin) && !IsGreen(q, TechPkwy) && LampsOff(q)
    ensures Safe(q, Paint([Martin, TechPkwy], Red))
    ensures ArterialGreen(Run(q, Paint([Martin, TechPkwy], Red)))
  {
    PaintSafe(q, [Martin, TechPkwy], Red);
    PaintEffect(q, [Martin, TechPkwy], Red);
  }

  /** From any table with no group green and every turn lamp LOW, the
      initial aspects of control_traffic are admissible and establish the
      loop invariant. */
  lemma StartupFrom(p: Table)
    requires LampsOff(p) && !IsGreen(p, East120) && !IsGreen(p, West120)
    requires !IsGreen(p, Martin) && !IsGreen(p, TechPkwy)
    ensures Safe(p, StartupWrites())
    ensures ArterialGreen(Run(p, StartupWrites()))
  {
    var a, b := Paint([East120, West120], Green), Paint([Martin, TechPkwy], Red);
    assert StartupWrites() == a + b;
    StartupArterial(p);
    StartupCross(Run(p, a));
    Then(p, a, b);
  }

  /** From the all-LOW table left by setup_gpio, the initial aspects of
      control_traffic are admissible and establish the loop invariant. */
  lemma StartupReachesArterialGreen()
    ensures Safe(Dark(), StartupWrites())
    ensures ArterialGreen(Run(Dark(), StartupWrites()))
  {
    StartupFrom(Dark());
  }

  /** Four writes in a row. */
  lemma RunFour(p: Table, w1: Write, w2: Write, w3: Write, w4: Write)
    ensures Run(p, [w1, w2, w3, w4]) == Apply(Apply(Apply(Apply(p, w1), w2), w3), w4)
  {
    RunSnoc(p, [], w1);
    RunSnoc(p, [w1], w2);
    RunSnoc(p, [w1, w2], w3);
    RunSnoc(p, [w1, w2, w3], w4);
    assert [] + [w1] == [w1] && [w1] + [w2] == [w1, w2] && [w1, w2] + [w3] == [w1, w2, w3];
    assert [w1, w2, w3] + [w4] == [w1, w2, w3, w4];
  }
}
