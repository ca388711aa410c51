/** When monitor_y_green ends the Martin/TechPkwy green: at max_duration, or
    early once the 120 long loops have read LOW for at least five seconds
    without a HIGH sample between. One `Poll` per pass of its loop; every
    clock reading of a pass before its sleeps is that poll's `at`. */
module GreenTiming {
  import opened Signals
  import opened Waits

  /** A vehicle waits on the 120E or 120W long loop. */
  predicate Pressed(p: Poll) {
    Long(East120) in p.low || Long(West120) in p.low
  }

  /** `not triggered_time`: None and a zero reading are both false. */
  predicate NotTriggered(t: Option<real>) {
    t.None? || t.value == 0.0
  }

  /** How the green ended: at pass `at`, by the time limit or early with the
      returned value. The passes before `at` each blinked the turn lamps. */
  datatype GreenEnd = Expired(at: nat) | Early(at: nat, value: real)

  /** The outcome of monitor_y_green from pass k with the trigger reading
      `trig`. */
  function GreenFrom(start: real, polls: seq<Poll>, maxDur: real, k: nat, trig: Option<real>): (e: GreenEnd)
    requires Expires(start, polls, maxDur) && k <= Deadline(start, polls, maxDur)
    ensures k <= e.at <= Deadline(start, polls, maxDur)
    ensures e.Expired? <==> e.at == Deadline(start, polls, maxDur)
    ensures e.Early? ==> Pressed(polls[e.at]) && e.value == polls[e.at].at - start + Max(3.0, maxDur * 0.25)
    decreases Deadline(start, polls, maxDur) - k
  {
    var p := polls[k];
    var elapsed := p.at - start;
    if elapsed >= maxDur then Expired(k)
    else if Pressed(p) then
      if NotTriggered(trig) then GreenFrom(start, polls, maxDur, k + 1, Some(p.at))
      else if p.at - trig.value >= 5.0 then Early(k, elapsed + Max(3.0, maxDur * 0.25))
      else GreenFrom(start, polls, maxDur, k + 1, trig)
    else GreenFrom(start, polls, maxDur, k + 1, None)
  }

  /** The outcome of a whole call of monitor_y_green. */
  function GreenRun(start: real, polls: seq<Poll>, maxDur: real): GreenEnd
    requires Expires(start, polls, maxDur)
  {
    GreenFrom(start, polls, maxDur, 0, None)
  }

  /** The value monitor_y_green returns. */
  function GreenValue(e: GreenEnd, maxDur: real): (v: real)
    ensures e.Expired? ==> v == maxDur
    ensures e.Early? ==> v == e.value
  {
    if e.Early? then e.value else maxDur
  }

  /** The long loops read LOW at every pass from i up to, not including, k. */
  predicate HeldSince(polls: seq<Poll>, i: int, k: int) {
    0 <= i < k <= |polls| && forall j :: i <= j < k ==> Pressed(polls[j])
  }

  /** The long loops read LOW at every pass from i through m, which lie at
      least five seconds apart. */
  predicate Sustained(polls: seq<Poll>, i: int, m: int) {
    HeldSince(polls, i, m + 1) && polls[m].at - polls[i].at >= 5.0
  }

  lemma {:induction false} EarlyExitFrom(start: real, polls: seq<Poll>, maxDur: real, k: nat, trig: Option<real>)
    requires Expires(start, polls, maxDur) && k <= Deadline(start, polls, maxDur)
    requires trig.Some? ==> exists i :: HeldSince(polls, i, k) && polls[i].at == trig.value
    ensures GreenFrom(start, polls, maxDur, k, trig).Early? ==>
              exists i :: Sustained(polls, i, GreenFrom(start, polls, maxDur, k, trig).at)
    decreases Deadline(start, polls, maxDur) - k
  {
    var p := polls[k];
    if p.at - start < maxDur {
      if Pressed(p) {
        if NotTriggered(trig) {
          assert HeldSince(polls, k, k + 1);
          EarlyExitFrom(start, polls, maxDur, k + 1, Some(p.at));
        } else {
          var i :| HeldSince(polls, i, k) && polls[i].at == trig.value;
          assert HeldSince(polls, i, k + 1);
          if p.at - trig.value >= 5.0 {
            assert Sustained(polls, i, k);
          } else {
            EarlyExitFrom(start, polls, maxDur, k + 1, trig);
          }
        }
      } else {
        EarlyExitFrom(start, polls, maxDur, k + 1, None);
      }
    }
  }

  /** monitor_y_green ends early only after the 120 long loops have read
      LOW at every pass over at least five seconds: a HIGH sample between
      resets the trigger. */
  lemma EarlyExitIsSustained(start: real, polls: seq<Poll>, maxDur: real)
    requires Expires(start, polls, maxDur)
    ensures GreenRun(start, polls, maxDur).Early? ==>
              exists i :: Sustained(polls, i, GreenRun(start, polls, maxDur).at)
  {
    EarlyExitFrom(start, polls, maxDur, 0, None);
  }

  /** The trigger reading after pass k when that pass does not end the
      green. */
  function NextTrigger(p: Poll, trig: Option<real>): Option<real> {
    if !Pressed(p) then None else if NotTriggered(trig) then Some(p.at) else trig
  }

  lemma {:induction false} PressureFrom(start: real, polls: seq<Poll>, maxDur: real, i: nat, m: nat, k: nat, trig: Option<real>)
    requires Expires(start, polls, maxDur) && Clocked(start, polls) && 0.0 < start
    requires m < Deadline(start, polls, maxDur) && Sustained(polls, i, m)
    requires k <= m
    requires trig.Some? ==> trig.value <= polls[k].at
    requires k > i ==> !NotTriggered(trig) && trig.value <= polls[i].at
    ensures GreenFrom(start, polls, maxDur, k, trig).Early?
    ensures GreenFrom(start, polls, maxDur, k, trig).at <= m
    decreases m - k
  {
    var p := polls[k];
    assert p.at - start < maxDur;
    if !(Pressed(p) && !NotTriggered(trig) && p.at - trig.value >= 5.0) {
      var next := NextTrigger(p, trig);
      assert GreenFrom(start, polls, maxDur, k, trig) == GreenFrom(start, polls, maxDur, k + 1, next);
      assert k >= i ==> Pressed(p);
      assert k < m;
      assert polls[k].at <= polls[k + 1].at;
      assert k >= i ==> !NotTriggered(next) && next.value <= polls[i].at by {
        if k >= i {
          assert Pressed(p);
          if NotTriggered(trig) {
            assert k == i && next.value == polls[i].at && polls[i].at >= start;
          }
        }
      }
      PressureFrom(start, polls, maxDur, i, m, k + 1, next);
    }
  }

  /** Conversely, with a positive clock that never goes back, LOW readings
      of the 120 long loops at every pass over five seconds inside the
      green end it early, at the last of those passes at the latest. */
  lemma SustainedPressureEndsEarly(start: real, polls: seq<Poll>, maxDur: real, i: nat, m: nat)
    requires Expires(start, polls, maxDur) && Clocked(start, polls) && 0.0 < start
    requires m < Deadline(start, polls, maxDur) && Sustained(polls, i, m)
    ensures GreenRun(start, polls, maxDur).Early?
    ensures GreenRun(start, polls, maxDur).at <= m
  {
    PressureFrom(start, polls, maxDur, i, m, 0, None);
  }
}
