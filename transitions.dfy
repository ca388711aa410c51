/** The write sequences of the aspect-writing primitives (all_red,
    run_transition), of a solid turn grant (run_turn_phase) and of the
    turn-lamp blinking of monitor_y_green, with what each does to the output
    table and when each is safe. */
module Transitions {
  import opened Signals

  /** One set_light_group write per group of gs, in order, each showing a. */
  function Paint(gs: seq<Group>, a: Aspect): (ws: seq<Write>)
    ensures |ws| == |gs|
    ensures forall i :: 0 <= i < |gs| ==> ws[i] == Show(gs[i], a)
    decreases |gs|
  {
    if |gs| == 0 then [] else Paint(gs[..|gs| - 1], a) + [Show(gs[|gs| - 1], a)]
  }

  /** The writes of all_red. */
  function AllRedWrites(): seq<Write> {
    Paint(Groups, Red)
  }

  /** The writes of run_transition(from, to): every from-group yellow, then
      every group of from + to red, then every to-group green. */
  function TransitionWrites(from: seq<Group>, to: seq<Group>): seq<Write> {
    Paint(from, Yellow) + Paint(from + to, Red) + Paint(to, Green)
  }

  /** The writes of run_turn_phase: a solid grant and its release when the
      sensor asked for the turn, nothing otherwise. */
  function TurnWrites(t: Turn, granted: bool): seq<Write> {
    if granted then [Grant(t), Release(t)] else []
  }

  /** One `for key in active_turns` loop of monitor_y_green. */
  function Flash(turns: seq<Turn>, on: bool): (ws: seq<Write>)
    ensures |ws| == |turns|
    ensures forall i :: 0 <= i < |turns| ==> ws[i] == Blink(turns[i], on)
    decreases |turns|
  {
    if |turns| == 0 then [] else Flash(turns[..|turns| - 1], on) + [Blink(turns[|turns| - 1], on)]
  }

  /** One polling round of monitor_y_green: every active turn lamp goes
      HIGH, then every one goes LOW. */
  function Round(turns: seq<Turn>): seq<Write> {
    Flash(turns, true) + Flash(turns, false)
  }

  /** The writes of n completed polling rounds of monitor_y_green. */
  function Blinks(turns: seq<Turn>, n: nat): seq<Write>
    decreases n
  {
    if n == 0 then [] else Blinks(turns, n - 1) + Round(turns)
  }

  /** Painting one more group of gs appends one write. */
  lemma PaintStep(p: Table, done: seq<Write>, gs: seq<Group>, i: nat, a: Aspect)
    requires i < |gs|
    ensures Paint(gs[..i + 1], a) == Paint(gs[..i], a) + [Show(gs[i], a)]
    ensures done + Paint(gs[..i + 1], a) == done + Paint(gs[..i], a) + [Show(gs[i], a)]
    ensures Run(p, done + Paint(gs[..i + 1], a)) == Apply(Run(p, done + Paint(gs[..i], a)), Show(gs[i], a))
  {
    assert gs[..i + 1][..i] == gs[..i];
    RunSnoc(p, done + Paint(gs[..i], a), Show(gs[i], a));
  }

  /** Blinking one more turn lamp of turns appends one write. */
  lemma FlashStep(p: Table, done: seq<Write>, turns: seq<Turn>, i: nat, on: bool)
    requires i < |turns|
    ensures Flash(turns[..i + 1], on) == Flash(turns[..i], on) + [Blink(turns[i], on)]
    ensures done + Flash(turns[..i + 1], on) == done + Flash(turns[..i], on) + [Blink(turns[i], on)]
    ensures Run(p, done + Flash(turns[..i + 1], on)) == Apply(Run(p, done + Flash(turns[..i], on)), Blink(turns[i], on))
  {
    assert turns[..i + 1][..i] == turns[..i];
    RunSnoc(p, done + Flash(turns[..i], on), Blink(turns[i], on));
  }

  /** The groups gs may all be green together, and every group crossing
      them is not green in p. */
  predicate Compatible(p: Table, gs: seq<Group>) {
    && (forall g, h {:trigger g in gs, h in gs} :: g in gs && h in gs ==> Arterial(g) == Arterial(h))
    && (forall g, h {:trigger g in gs, IsGreen(p, h)} :: g in gs && Arterial(g) != Arterial(h) ==> !IsGreen(p, h))
  }

  /** Painting leaves every painted group showing a, every other group as it
      was, and the turn lamps untouched. */
  lemma {:induction false} PaintEffect(p: Table, gs: seq<Group>, a: Aspect)
    ensures Run(p, Paint(gs, a)).lamps == p.lamps
    ensures forall g {:trigger Run(p, Paint(gs, a)).lights[g]} ::
      Run(p, Paint(gs, a)).lights[g] == if g in gs then Lit(a) else p.lights[g]
    decreases |gs|
  {
    if |gs| > 0 {
      var init, last := gs[..|gs| - 1], gs[|gs| - 1];
      assert gs == init + [last];
      var ws := Paint(gs, a);
      assert ws[..|ws| - 1] == Paint(init, a);
      PaintEffect(p, init, a);
    }
  }

  /** A single set_light_group write showing a is admissible in q when q
      has no conflicting greens, g is not green if a is red, and no group
      crossing g is green if a is green. */
  lemma ShowAdmissible(q: Table, g: Group, a: Aspect)
    requires NoConflict(q)
    requires a == Red ==> !IsGreen(q, g)
    requires a == Green ==> forall h :: Arterial(h) != Arterial(g) ==> !IsGreen(q, h)
    ensures Admissible(q, Show(g, a))
  {
    if a == Green {
      assert !IsGreen(q, if Arterial(g) then Martin else East120);
      assert !IsGreen(q, if Arterial(g) then TechPkwy else West120);
    }
  }

  /** A safe run from a state without conflicting greens ends in one. */
  lemma {:induction false} SafeEnds(p: Table, ws: seq<Write>)
    requires NoConflict(p) && Safe(p, ws)
    ensures NoConflict(Run(p, ws))
  {
  }

  /** The state before the last write of a painting satisfies the
      requirement of ShowAdmissible for that write. */
  lemma PaintLastAdmissible(p: Table, gs: seq<Group>, a: Aspect)
    requires |gs| > 0
    requires NoConflict(p) && NoConflict(Run(p, Paint(gs[..|gs| - 1], a)))
    requires a == Red ==> forall g :: g in gs ==> !IsGreen(p, g)
    requires a == Green ==> Compatible(p, gs)
    ensures Admissible(Run(p, Paint(gs[..|gs| - 1], a)), Show(gs[|gs| - 1], a))
  {
    var init, last := gs[..|gs| - 1], gs[|gs| - 1];
    var r := Run(p, Paint(init, a));
    PaintEffect(p, init, a);
    assert forall g :: g in init ==> g in gs;
    assert last in gs;
    if a == Green {
      forall h | Arterial(h) != Arterial(last) ensures !IsGreen(r, h) {
        assert h !in init;
        assert !IsGreen(p, h);
        assert r.lights[h] == p.lights[h];
      }
    }
    ShowAdmissible(r, last, a);
  }

  /** Painting yellow keeps a state without conflicting greens; painting red
      does too when no painted group is green; painting green does when the
      painted groups are compatible. */
  lemma {:induction false} PaintSafe(p: Table, gs: seq<Group>, a: Aspect)
    requires NoConflict(p)
    requires a == Red ==> forall g :: g in gs ==> !IsGreen(p, g)
    requires a == Green ==> Compatible(p, gs)
    ensures Safe(p, Paint(gs, a))
    decreases |gs|
  {
    if |gs| > 0 {
      var init := gs[..|gs| - 1];
      var ws := Paint(gs, a);
      assert ws[..|ws| - 1] == Paint(init, a);
      assert a == Green ==> Compatible(p, init) by {
        assert forall g :: g in init ==> g in gs;
      }
      PaintSafe(p, init, a);
      SafeEnds(p, Paint(init, a));
      PaintLastAdmissible(p, gs, a);
    }
  }

  /** all_red leaves all four through groups red and the turn lamps as they
      were, from any state. */
  lemma AllRedOutcome(p: Table)
    ensures ShowsAllRed(Run(p, AllRedWrites()))
    ensures Run(p, AllRedWrites()).lamps == p.lamps
  {
    PaintEffect(p, Groups, Red);
    assert East120 in Groups && West120 in Groups && Martin in Groups && TechPkwy in Groups;
  }

  /** run_transition ends with every to-group showing green, every
      from-group that is not also a to-group showing red, every other group
      as it was, and the turn lamps untouched. */
  lemma TransitionOutcome(p: Table, from: seq<Group>, to: seq<Group>)
    ensures Run(p, TransitionWrites(from, to)).lamps == p.lamps
    ensures forall g {:trigger Run(p, TransitionWrites(from, to)).lights[g]} ::
      Run(p, TransitionWrites(from, to)).lights[g] ==
        if g in to then Lit(Green) else if g in from then Lit(Red) else p.lights[g]
  {
    var A, B, C := Paint(from, Yellow), Paint(from + to, Red), Paint(to, Green);
    var p1 := Run(p, A);
    var p2 := Run(p1, B);
    assert Run(p, TransitionWrites(from, to)) == Run(p2, C) by {
      RunAppend(p, A, B);
      RunAppend(p, A + B, C);
    }
    PaintEffect(p, from, Yellow);
    PaintEffect(p1, from + to, Red);
    PaintEffect(p2, to, Green);
    forall g ensures g in from + to <==> g in from || g in to { }
  }

  /** run_transition writes only groups of from + to, and it writes no
      group green before it has written every group of from + to red. */
  lemma TransitionClearsBeforeGreen(from: seq<Group>, to: seq<Group>)
    ensures var w := TransitionWrites(from, to);
      && (forall i :: 0 <= i < |w| ==> w[i].SetGroup? && (w[i].group in from || w[i].group in to))
      && (forall i, h :: 0 <= i < |w| && w[i].SetGroup? && w[i].levels.green && (h in from || h in to) ==>
            exists j :: 0 <= j < i && w[j] == Show(h, Red))
  {
    var w := TransitionWrites(from, to);
    var n1, n2 := |from|, |from| + |from + to|;
    assert |w| == n2 + |to|;
    forall i | 0 <= i < |w|
      ensures w[i].SetGroup? && (w[i].group in from || w[i].group in to)
      ensures i < n2 ==> !w[i].levels.green
    {
      if i < n1 {
        assert w[i] == Show(from[i], Yellow);
      } else if i < n2 {
        assert w[i] == Show((from + to)[i - n1], Red);
        assert (from + to)[i - n1] in from + to;
      } else {
        assert w[i] == Show(to[i - n2], Green);
      }
    }
    forall i, h | 0 <= i < |w| && w[i].SetGroup? && w[i].levels.green && (h in from || h in to)
      ensures exists j :: 0 <= j < i && w[j] == Show(h, Red)
    {
      assert h in from + to;
      var x :| 0 <= x < |from + to| && (from + to)[x] == h;
      assert w[n1 + x] == Show(h, Red);
    }
  }

  /** The yellow stage of run_transition keeps a state without conflicting
      greens and leaves no group of from + to green. */
  lemma YellowStage(p: Table, from: seq<Group>, to: seq<Group>)
    requires NoConflict(p)
    requires forall g :: g in to && g !in from ==> !IsGreen(p, g)
    ensures Safe(p, Paint(from, Yellow))
    ensures NoConflict(Run(p, Paint(from, Yellow)))
    ensures forall g :: g in from + to ==> !IsGreen(Run(p, Paint(from, Yellow)), g)
    ensures forall g :: g !in from ==> Run(p, Paint(from, Yellow)).lights[g] == p.lights[g]
  {
    PaintSafe(p, from, Yellow);
    SafeEnds(p, Paint(from, Yellow));
    PaintEffect(p, from, Yellow);
  }

  /** The red stage of run_transition keeps a state without conflicting
      greens, after which the to-groups may turn green. */
  lemma RedStage(p: Table, from: seq<Group>, to: seq<Group>)
    requires NoConflict(p)
    requires forall g :: g in from + to ==> !IsGreen(p, g)
    ensures Safe(p, Paint(from + to, Red))
    ensures NoConflict(Run(p, Paint(from + to, Red)))
    ensures forall h :: h in from + to ==> !IsGreen(Run(p, Paint(from + to, Red)), h)
    ensures forall h :: h !in from + to ==> Run(p, Paint(from + to, Red)).lights[h] == p.lights[h]
  {
    PaintSafe(p, from + to, Red);
    SafeEnds(p, Paint(from + to, Red));
    PaintEffect(p, from + to, Red);
  }

  /** run_transition passes only through admissible states when the groups
      it turns green lie on one side of the intersection, no group crossing
      them outside from + to is green, and no to-group that it does not
      first turn yellow is green. */
  lemma TransitionSafe(p: Table, from: seq<Group>, to: seq<Group>)
    requires NoConflict(p)
    requires forall g :: g in to && g !in from ==> !IsGreen(p, g)
    requires forall g, h {:trigger g in to, h in to} :: g in to && h in to ==> Arterial(g) == Arterial(h)
    requires forall g, h {:trigger g in to, IsGreen(p, h)} ::
      g in to && Arterial(g) != Arterial(h) && h !in from && h !in to ==> !IsGreen(p, h)
    ensures Safe(p, TransitionWrites(from, to))
  {
    var A, B, C := Paint(from, Yellow), Paint(from + to, Red), Paint(to, Green);
    var p1 := Run(p, A);
    var p2 := Run(p1, B);
    YellowStage(p, from, to);
    RedStage(p1, from, to);
    assert Compatible(p2, to) by {
      forall g, h | g in to && Arterial(g) != Arterial(h) ensures !IsGreen(p2, h) {
        if h !in from + to {
          assert h !in from && h !in to;
          assert p2.lights[h] == p1.lights[h] == p.lights[h];
          assert !IsGreen(p, h);
        }
      }
    }
    PaintSafe(p2, to, Green);
    Then(p, A, B);
    Then(p, A + B, C);
  }

  /** A turn phase that grants ends with its turn lamp LOW and every other
      pin as it was; one that does not grant writes nothing. */
  lemma TurnPhaseEffect(p: Table, t: Turn, granted: bool)
    ensures Run(p, TurnWrites(t, granted)).lights == p.lights
    ensures Run(p, TurnWrites(t, granted)).lamps == if granted then p.lamps[t := false] else p.lamps
  {
    if granted {
      var w := TurnWrites(t, true);
      assert w[..1] == [Grant(t)] && w[..1][..0] == [];
      assert Run(p, w[..1]) == Apply(p, Grant(t));
      assert Run(p, w) == Apply(Apply(p, Grant(t)), Release(t));
    }
  }

  /** A solid turn grant is admissible exactly when all four through groups
      are red. */
  lemma TurnPhaseSafe(p: Table, t: Turn)
    ensures Safe(p, TurnWrites(t, true)) <==> ShowsAllRed(p)
  {
    var w := TurnWrites(t, true);
    assert w[..1] == [Grant(t)] && w[..1][..0] == [];
    var p1 := Apply(p, Grant(t));
    assert Run(p, w[..1][..0]) == p;
    assert Run(p, w[..1]) == p1;
    assert p1.lights == p.lights;
    assert Safe(p, w[..1]) <==> Admissible(p, Grant(t));
    assert Safe(p, w) <==> Safe(p, w[..1]) && Admissible(p1, Release(t));
  }

  /** A blink loop sets every listed turn lamp to the given level and
      changes no other pin. */
  lemma {:induction false} FlashEffect(p: Table, turns: seq<Turn>, on: bool)
    ensures Run(p, Flash(turns, on)).lights == p.lights
    ensures forall u {:trigger Run(p, Flash(turns, on)).lamps[u]} ::
      Run(p, Flash(turns, on)).lamps[u] == if u in turns then on else p.lamps[u]
    decreases |turns|
  {
    if |turns| > 0 {
      var init, last := turns[..|turns| - 1], turns[|turns| - 1];
      assert turns == init + [last];
      var ws := Flash(turns, on);
      assert ws[..|ws| - 1] == Flash(init, on);
      FlashEffect(p, init, on);
    }
  }

  /** A blink loop never changes a through group, so it keeps a state
      without conflicting greens. */
  lemma {:induction false} FlashSafe(p: Table, turns: seq<Turn>, on: bool)
    requires NoConflict(p)
    ensures Safe(p, Flash(turns, on))
    decreases |turns|
  {
    if |turns| > 0 {
      var init := turns[..|turns| - 1];
      var ws := Flash(turns, on);
      assert ws[..|ws| - 1] == Flash(init, on);
      FlashSafe(p, init, on);
      FlashEffect(p, init, on);
    }
  }

  /** A polling round leaves every active turn lamp LOW and every other pin
      as it was. */
  lemma RoundEffect(p: Table, turns: seq<Turn>)
    ensures Run(p, Round(turns)).lights == p.lights
    ensures forall u {:trigger Run(p, Round(turns)).lamps[u]} ::
      Run(p, Round(turns)).lamps[u] == if u in turns then false else p.lamps[u]
  {
    var p1 := Run(p, Flash(turns, true));
    RunAppend(p, Flash(turns, true), Flash(turns, false));
    FlashEffect(p, turns, true);
    FlashEffect(p1, turns, false);
  }

  /** A polling round keeps a state without conflicting greens. */
  lemma RoundSafe(p: Table, turns: seq<Turn>)
    requires NoConflict(p)
    ensures Safe(p, Round(turns))
  {
    FlashSafe(p, turns, true);
    FlashEffect(p, turns, true);
    FlashSafe(Run(p, Flash(turns, true)), turns, false);
    Then(p, Flash(turns, true), Flash(turns, false));
  }

  /** After n polling rounds of monitor_y_green every active turn lamp is
      LOW if any round completed, and every other pin is as it was. */
  lemma {:induction false} BlinksEffect(p: Table, turns: seq<Turn>, n: nat)
    ensures Run(p, Blinks(turns, n)).lights == p.lights
    ensures forall u {:trigger Run(p, Blinks(turns, n)).lamps[u]} ::
      Run(p, Blinks(turns, n)).lamps[u] == if n > 0 && u in turns then false else p.lamps[u]
    decreases n
  {
    if n > 0 {
      var b := Blinks(turns, n - 1);
      var p1 := Run(p, b);
      assert Run(p, Blinks(turns, n)) == Run(p1, Round(turns)) by {
        RunAppend(p, b, Round(turns));
      }
      BlinksEffect(p, turns, n - 1);
      RoundEffect(p1, turns);
      forall u ensures Run(p, Blinks(turns, n)).lamps[u] == if u in turns then false else p.lamps[u] {
        assert Run(p1, Round(turns)).lamps[u] == if u in turns then false else p1.lamps[u];
      }
    }
  }

  /** The polling rounds of monitor_y_green write nothing but the active
      turn lamps. */
  lemma {:induction false} BlinksWriteOnlyActive(turns: seq<Turn>, n: nat)
    ensures forall i :: 0 <= i < |Blinks(turns, n)| ==>
              Blinks(turns, n)[i].Blink? && Blinks(turns, n)[i].turn in turns
    decreases n
  {
    if n > 0 {
      var b: seq<Write>, c: seq<Write> := Blinks(turns, n - 1), Round(turns);
      BlinksWriteOnlyActive(turns, n - 1);
      forall i: int | 0 <= i < |b + c| ensures (b + c)[i].Blink? && (b + c)[i].turn in turns {
        if i < |b| {
          assert (b + c)[i] == b[i];
        } else {
          var j := i - |b|;
          assert (b + c)[i] == c[j];
          if j < |turns| {
            assert c[j] == Blink(turns[j], true);
          } else {
            assert c[j] == Blink(turns[j - |turns|], false);
          }
        }
      }
    }
  }

  /** The polling rounds of monitor_y_green keep a state without
      conflicting greens. */
  lemma {:induction false} BlinksSafe(p: Table, turns: seq<Turn>, n: nat)
    requires NoConflict(p)
    ensures Safe(p, Blinks(turns, n))
    decreases n
  {
    if n > 0 {
      var b := Blinks(turns, n - 1);
      BlinksSafe(p, turns, n - 1);
      BlinksEffect(p, turns, n - 1);
      RoundSafe(Run(p, b), turns);
      Then(p, b, Round(turns));
    }
  }
}
