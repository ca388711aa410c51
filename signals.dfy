/** The output table of the intersection: the three lamp levels of each
    through group and the level of each turn lamp, and the writes that change
    it. One `Write` is one call of set_light_group (the three pins of a group
    at once) or one output to a turn lamp. */
module Signals {

  /** The four through groups. */
  datatype Group = East120 | West120 | Martin | TechPkwy

  /** The three lamps of a group. */
  datatype Aspect = Red | Yellow | Green

  /** The three turn lamps. */
  datatype Turn = TurnTech | TurnMartin | Turn120W

  /** The levels of a group's R, Y and G pins (true = HIGH). */
  datatype Lamps = Lamps(red: bool, yellow: bool, green: bool)

  /** The table, keyed by group for the lamp pins and by turn for the turn
      lamps. */
  datatype Outputs = Outputs(lights: map<Group, Lamps>, lamps: map<Turn, bool>)

  predicate Complete(t: Outputs) {
    (forall g: Group :: g in t.lights) && (forall u: Turn :: u in t.lamps)
  }

  /** The groups in the order all_red visits them. */
  const Groups: seq<Group> := [East120, West120, Martin, TechPkwy]

  /** The turn lamps. */
  const Turns: seq<Turn> := [TurnTech, TurnMartin, Turn120W]

  lemma GroupCases(g: Group)
    ensures g == East120 || g == West120 || g == Martin || g == TechPkwy
  {
  }

  lemma TurnCases(u: Turn)
    ensures u == TurnTech || u == TurnMartin || u == Turn120W
  {
  }

  /** The table after setup_gpio: every pin LOW. */
  function Dark(): (t: Outputs)
    ensures Complete(t)
    ensures forall g: Group :: t.lights[g] == Lamps(false, false, false)
    ensures forall u: Turn :: !t.lamps[u]
  {
    var off := Lamps(false, false, false);
    var t := Outputs(map[East120 := off, West120 := off, Martin := off, TechPkwy := off],
                     map[TurnTech := false, TurnMartin := false, Turn120W := false]);
    forall g: Group ensures g in t.lights { GroupCases(g); }
    forall u: Turn ensures u in t.lamps { TurnCases(u); }
    t
  }

  /** The output table holds a level for every pin. */
  type Table = t: Outputs | Complete(t) witness Dark()

  /** The groups of the 120 arterial; Martin and TechPkwy cross it. */
  predicate Arterial(g: Group) {
    g == East120 || g == West120
  }

  /** The levels that show exactly aspect a. */
  function Lit(a: Aspect): Lamps {
    Lamps(a == Red, a == Yellow, a == Green)
  }

  predicate IsGreen(p: Table, g: Group) {
    p.lights[g].green
  }

  /** Group g lights exactly the lamp of aspect a. */
  predicate Shows(p: Table, g: Group, a: Aspect) {
    p.lights[g] == Lit(a)
  }

  /** No 120 group is green while Martin or TechPkwy is green. */
  predicate NoConflict(p: Table) {
    !((IsGreen(p, East120) || IsGreen(p, West120)) && (IsGreen(p, Martin) || IsGreen(p, TechPkwy)))
  }

  /** The fail-safe aspect of the four through groups. */
  predicate ShowsAllRed(p: Table) {
    Shows(p, East120, Red) && Shows(p, West120, Red) && Shows(p, Martin, Red) && Shows(p, TechPkwy, Red)
  }

  predicate LampsOff(p: Table) {
    !p.lamps[TurnTech] && !p.lamps[TurnMartin] && !p.lamps[Turn120W]
  }

  /** The resting state of the controller: 120E/W green, Martin and
      TechPkwy red, every turn lamp LOW. */
  predicate ArterialGreen(p: Table) {
    Shows(p, East120, Green) && Shows(p, West120, Green) && Shows(p, Martin, Red) && Shows(p, TechPkwy, Red)
    && LampsOff(p)
  }

  /** One output action of the controller. Lamp writes are tagged by the
      site that makes them: a solid grant and its release by
      run_turn_phase, a blink by monitor_y_green. */
  datatype Write =
    | SetGroup(group: Group, levels: Lamps)
    | Grant(turn: Turn)
    | Release(turn: Turn)
    | Blink(turn: Turn, on: bool)

  /** The write that makes group g show exactly aspect a. */
  function Show(g: Group, a: Aspect): Write {
    SetGroup(g, Lit(a))
  }

  /** The table after one write: the written pins take the new levels. */
  function Apply(p: Table, w: Write): Table {
    match w
    case SetGroup(g, l) => p.(lights := p.lights[g := l])
    case Grant(t) => p.(lamps := p.lamps[t := true])
    case Release(t) => p.(lamps := p.lamps[t := false])
    case Blink(t, on) => p.(lamps := p.lamps[t := on])
  }

  /** The table after a sequence of writes, in order. */
  function Run(p: Table, ws: seq<Write>): Table
    decreases |ws|
  {
    if |ws| == 0 then p else Apply(Run(p, ws[..|ws| - 1]), ws[|ws| - 1])
  }

  /** A write the controller may make in state p: it leaves no conflicting
      greens, a solid turn grant is made only while all four through groups
      are red, and no group is switched from green straight to red. */
  predicate Admissible(p: Table, w: Write) {
    && NoConflict(Apply(p, w))
    && (w.Grant? ==> ShowsAllRed(p))
    && (w.SetGroup? && w.levels.red ==> !IsGreen(p, w.group))
  }

  /** Every write of ws is admissible in the state the earlier writes left. */
  predicate Safe(p: Table, ws: seq<Write>)
    decreases |ws|
  {
    |ws| == 0 ||
    (Safe(p, ws[..|ws| - 1]) && Admissible(Run(p, ws[..|ws| - 1]), ws[|ws| - 1]))
  }

  lemma {:induction false} RunAppend(p: Table, a: seq<Write>, b: seq<Write>)
    ensures Run(p, a + b) == Run(Run(p, a), b)
    decreases |b|
  {
    if |b| == 0 {
      assert a + b == a;
    } else {
      assert (a + b)[..|a + b| - 1] == a + b[..|b| - 1];
      RunAppend(p, a, b[..|b| - 1]);
    }
  }

  lemma {:induction false} SafeAppend(p: Table, a: seq<Write>, b: seq<Write>)
    ensures Safe(p, a + b) <==> Safe(p, a) && Safe(Run(p, a), b)
    decreases |b|
  {
    if |b| == 0 {
      assert a + b == a;
    } else {
      assert (a + b)[..|a + b| - 1] == a + b[..|b| - 1];
      SafeAppend(p, a, b[..|b| - 1]);
      RunAppend(p, a, b[..|b| - 1]);
    }
  }

  lemma Assoc(a: seq<Write>, b: seq<Write>, c: seq<Write>)
    ensures a + b + c == a + (b + c)
  {
  }

  /** One more write: the table it leaves is the table before it with that
      write applied. */
  lemma RunSnoc(p: Table, ws: seq<Write>, w: Write)
    ensures Run(p, ws + [w]) == Apply(Run(p, ws), w)
  {
    assert (ws + [w])[..|ws|] == ws;
  }

  /** The state before write i of ws, and that write. */
  predicate AdmissibleAt(p: Table, ws: seq<Write>, i: nat)
    requires i < |ws|
  {
    Admissible(Run(p, ws[..i]), ws[i])
  }

  /** Safe spelled out write by write: every write of ws is admissible in
      the state the writes before it left. */
  lemma {:induction false} SafeAt(p: Table, ws: seq<Write>)
    requires Safe(p, ws)
    ensures forall i :: 0 <= i < |ws| ==> AdmissibleAt(p, ws, i)
    decreases |ws|
  {
    if |ws| > 0 {
      var n := |ws| - 1;
      var init := ws[..n];
      SafeAt(p, init);
      forall i | 0 <= i < |ws| ensures AdmissibleAt(p, ws, i) {
        if i < n {
          assert init[..i] == ws[..i] && init[i] == ws[i];
          assert AdmissibleAt(p, init, i);
        }
      }
    }
  }

  /** Conversely, a run whose every write is admissible where it is made is
      safe. */
  lemma {:induction false} AtSafe(p: Table, ws: seq<Write>)
    requires forall i :: 0 <= i < |ws| ==> AdmissibleAt(p, ws, i)
    ensures Safe(p, ws)
    decreases |ws|
  {
    if |ws| > 0 {
      var n := |ws| - 1;
      var init := ws[..n];
      forall i | 0 <= i < n ensures AdmissibleAt(p, init, i) {
        assert init[..i] == ws[..i] && init[i] == ws[i];
        assert AdmissibleAt(p, ws, i);
      }
      AtSafe(p, init);
      assert AdmissibleAt(p, ws, n);
    }
  }

  /** A single admissible write is a safe run. */
  lemma SafeOne(p: Table, w: Write)
    requires Admissible(p, w)
    ensures Safe(p, [w]) && Run(p, [w]) == Apply(p, w)
  {
    assert [w][..0] == [];
  }

  /** Two writes in a row. */
  lemma RunTwo(p: Table, w1: Write, w2: Write)
    ensures Run(p, [w1, w2]) == Apply(Apply(p, w1), w2)
  {
    RunSnoc(p, [], w1);
    RunSnoc(p, [w1], w2);
    assert [] + [w1] == [w1] && [w1] + [w2] == [w1, w2];
  }

  /** Sequential composition of two safe runs. */
  lemma Then(p: Table, a: seq<Write>, b: seq<Write>)
    requires Safe(p, a) && Safe(Run(p, a), b)
    ensures Safe(p, a + b) && Run(p, a + b) == Run(Run(p, a), b)
  {
    SafeAppend(p, a, b);
    RunAppend(p, a, b);
  }
}
