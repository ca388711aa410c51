/** The inputs of the controller and the sensor-timed wait that precedes a
    Martin/TechPkwy green. The clock and the sensors are not read here: a
    polling loop is given the samples it would take, one `Poll` per pass,
    holding the clock reading of that pass and the set of sensors that read
    0 (LOW, a vehicle present). */
module Waits {
  import opened Signals

  datatype Option<T> = None | Some(value: T)

  /** The eleven sensor inputs: a short and a long loop per through group,
      and one sensor per turn lane. */
  datatype Sensor = Short(Group) | Long(Group) | TurnSensor(Turn)

  /** One pass of a polling loop: the clock reading and the sensors that
      read LOW. */
  datatype Poll = Poll(at: real, low: set<Sensor>)

  /** The samples run up to the loop's deadline: the clock of the last pass
      is at least `limit` past `start`. */
  predicate Expires(start: real, polls: seq<Poll>, limit: real) {
    |polls| > 0 && polls[|polls| - 1].at - start >= limit
  }

  /** The clock readings start at or after `start` and never go back. */
  predicate Clocked(start: real, polls: seq<Poll>) {
    && (forall k :: 0 <= k < |polls| ==> start <= polls[k].at)
    && (forall a, b :: 0 <= a <= b < |polls| ==> polls[a].at <= polls[b].at)
  }

  /** The first pass from k on whose clock is `limit` past `start`: the
      pass at which the loop's time test fails. */
  function Window(start: real, polls: seq<Poll>, limit: real, k: nat): (n: nat)
    requires Expires(start, polls, limit) && k < |polls|
    ensures k <= n < |polls| && polls[n].at - start >= limit
    ensures forall j :: k <= j < n ==> polls[j].at - start < limit
    decreases |polls| - k
  {
    if polls[k].at - start >= limit then k else Window(start, polls, limit, k + 1)
  }

  /** The pass at which a loop timed from `start` for `limit` seconds stops. */
  function Deadline(start: real, polls: seq<Poll>, limit: real): nat
    requires Expires(start, polls, limit)
  {
    Window(start, polls, limit, 0)
  }

  function Max(a: real, b: real): (m: real)
    ensures m >= a && m >= b && (m == a || m == b)
  {
    if a >= b then a else b
  }

  /** One of the listed sensors reads LOW in the sample. */
  predicate Detects(low: set<Sensor>, sensors: seq<Sensor>) {
    exists j :: 0 <= j < |sensors| && sensors[j] in low
  }

  /** wait_with_possible_long_cut: poll the long sensors until start_wait
      seconds have passed. With no detection inside the window the result is
      start_wait; at the first pass that detects one it is
      max(5, elapsed + start_wait * 0.25). */
  method WaitWithPossibleLongCut(startWait: real, longSensors: seq<Sensor>, start: real, polls: seq<Poll>)
    returns (delay: real)
    requires Expires(start, polls, startWait)
    ensures (forall k :: 0 <= k < Deadline(start, polls, startWait) ==> !Detects(polls[k].low, longSensors))
      ==> delay == startWait
    ensures forall i :: 0 <= i < Deadline(start, polls, startWait) && Detects(polls[i].low, longSensors) &&
                        (forall k :: 0 <= k < i ==> !Detects(polls[k].low, longSensors)) ==>
                          delay == Max(5.0, polls[i].at - start + startWait * 0.25)
    ensures delay == startWait || delay >= 5.0
  {
    var k := 0;
    while polls[k].at - start < startWait
      invariant k <= Deadline(start, polls, startWait)
      invariant forall j :: 0 <= j < k ==> !Detects(polls[j].low, longSensors)
      decreases Deadline(start, polls, startWait) - k
    {
      for j := 0 to |longSensors|
        invariant forall i :: 0 <= i < j ==> longSensors[i] !in polls[k].low
      {
        if longSensors[j] in polls[k].low {
          return Max(5.0, (polls[k].at - start) + startWait * 0.25);
        }
      }
      k := k + 1;
    }
    return startWait;
  }

  /** The delay returned at a detection does not always cut the wait: it
      exceeds start_wait exactly when start_wait is under 5 seconds or the
      detection comes after three quarters of start_wait, and the polling
      plus the returned delay outlast two full waits once the detection
      comes after seven eighths of start_wait. */
  lemma LateCutLengthensWait(startWait: real, elapsed: real)
    ensures Max(5.0, elapsed + startWait * 0.25) > startWait <==> startWait < 5.0 || elapsed > 0.75 * startWait
    ensures elapsed > 0.875 * startWait ==> elapsed + Max(5.0, elapsed + startWait * 0.25) > 2.0 * startWait
  {
  }

  /** A vehicle waits on the Martin or TechPkwy short loop. */
  predicate Demand(low: set<Sensor>) {
    Short(Martin) in low || Short(TechPkwy) in low
  }

  /** The inner watch loop of control_traffic: the first sample that shows
      side-street demand, or None while no sample given does (the loop
      would keep polling). */
  method AwaitDemand(watch: seq<set<Sensor>>) returns (found: Option<nat>)
    ensures found.Some? ==>
              found.value < |watch| && Demand(watch[found.value]) &&
              forall k :: 0 <= k < found.value ==> !Demand(watch[k])
    ensures found.None? ==> forall k :: 0 <= k < |watch| ==> !Demand(watch[k])
  {
    var k := 0;
    while k < |watch|
      invariant k <= |watch|
      invariant forall j :: 0 <= j < k ==> !Demand(watch[j])
    {
      if Short(Martin) in watch[k] || Short(TechPkwy) in watch[k] {
        return Some(k);
      }
      k := k + 1;
    }
    return None;
  }
}
