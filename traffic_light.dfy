/**
 The traffic light: a two-phase state machine that publishes every change of
 phase into its message queue, and the wait for a green phase built on that queue.

 One iteration of the cycling loop becomes a deterministic step once its two
 sources of nondeterminism are inputs: the milliseconds the clock advanced since
 the previous iteration, and the next dwell duration drawn at random in
 4000..6000 ms. The loop's locals `waiting_time` and `phase_duration` become the
 fields `waiting` and `duration` of the light.
 */
module TrafficLights {
  import opened MessageQueues

  datatype Phase = Red | Green

  const MinDuration: nat := 4000
  const MaxDuration: nat := 6000

  /** A dwell duration the random draw can produce: 4000 + trunc(2000 * rand() / RAND_MAX) ms. */
  predicate InRange(d: nat) {
    MinDuration <= d <= MaxDuration
  }

  /** The other phase; the light only ever goes red to green or green to red. */
  function Toggle(p: Phase): (q: Phase)
    ensures q != p
  {
    match p
    case Red => Green
    case Green => Red
  }

  /** The part of the light the cycling loop updates: the phase, the time accumulated in it and its dwell duration. */
  datatype LightState = LightState(phase: Phase, waiting: nat, duration: nat)

  /** The inputs of one loop iteration: the clock's advance and the random draw used if the phase changes. */
  datatype Reading = Reading(elapsed: nat, nextDuration: nat)

  /** Between two iterations the accumulated time has not reached the dwell duration, which lies in 4000..6000 ms. */
  predicate Resting(s: LightState) {
    InRange(s.duration) && s.waiting < s.duration
  }

  /** The light after one loop iteration. */
  function Next(s: LightState, rd: Reading): (r: LightState)
    ensures r.phase != s.phase <==> s.waiting + rd.elapsed >= s.duration
    ensures InRange(rd.nextDuration) && InRange(s.duration) ==> Resting(r)
  {
    var waiting := s.waiting + rd.elapsed;
    if waiting >= s.duration then LightState(Toggle(s.phase), 0, rd.nextDuration)
    else LightState(s.phase, waiting, s.duration)
  }

  /** What one loop iteration sends into the queue. */
  function Sent(s: LightState, rd: Reading): (out: seq<Phase>)
    ensures out != [] <==> Next(s, rd).phase != s.phase
    ensures out == [] || out == [Next(s, rd).phase]
  {
    if s.waiting + rd.elapsed >= s.duration then [Toggle(s.phase)] else []
  }

  /** The light after a finite run of loop iterations. */
  function Run(s: LightState, rs: seq<Reading>): LightState
    decreases |rs|
  {
    if rs == [] then s else Run(Next(s, rs[0]), rs[1..])
  }

  /** Everything a finite run of loop iterations sends into the queue, in order. */
  function RunSent(s: LightState, rs: seq<Reading>): seq<Phase>
    decreases |rs|
  {
    if rs == [] then [] else Sent(s, rs[0]) + RunSent(Next(s, rs[0]), rs[1..])
  }

  /** The clock time a run of loop iterations covers. */
  function TotalElapsed(rs: seq<Reading>): nat
    decreases |rs|
  {
    if rs == [] then 0 else rs[0].elapsed + TotalElapsed(rs[1..])
  }

  /** The draws of a run all lie in the range the random expression produces. */
  predicate DrawsInRange(rs: seq<Reading>) {
    forall i :: 0 <= i < |rs| ==> InRange(rs[i].nextDuration)
  }

  /** `s` starts with `first` and no two neighbours are equal. */
  predicate AlternatesFrom(s: seq<Phase>, first: Phase) {
    (s != [] ==> s[0] == first) &&
    forall i :: 0 <= i < |s| - 1 ==> s[i + 1] == Toggle(s[i])
  }

  /**
   The values sent alternate, starting with the phase after the initial one, and
   the light ends in the phase it last sent (or where it began if it sent nothing).
   */
  lemma {:induction false} RunAlternates(s: LightState, rs: seq<Reading>)
    ensures AlternatesFrom(RunSent(s, rs), Toggle(s.phase))
    ensures Run(s, rs).phase == if RunSent(s, rs) == [] then s.phase else RunSent(s, rs)[|RunSent(s, rs)| - 1]
    decreases |rs|
  {
    if rs != [] {
      var t := Next(s, rs[0]);
      RunAlternates(t, rs[1..]);
      var tail := RunSent(t, rs[1..]);
      if Sent(s, rs[0]) != [] {
        assert t.phase == Toggle(s.phase);
        assert Toggle(t.phase) == s.phase;
        var all := [t.phase] + tail;
        assert RunSent(s, rs) == all;
        forall i | 0 <= i < |all| - 1
          ensures all[i + 1] == Toggle(all[i])
        {
          if i > 0 {
            assert all[i] == tail[i - 1];
          }
        }
      } else {
        assert RunSent(s, rs) == tail;
      }
    }
  }

  /** A light that starts red sends green first. */
  lemma FirstSentIsGreen(duration: nat, rs: seq<Reading>)
    requires RunSent(LightState(Red, 0, duration), rs) != []
    ensures RunSent(LightState(Red, 0, duration), rs)[0] == Green
  {
    RunAlternates(LightState(Red, 0, duration), rs);
  }

  /** Every state a run reaches between iterations is resting, when each draw is in range. */
  lemma {:induction false} RunKeepsResting(s: LightState, rs: seq<Reading>)
    requires Resting(s) && DrawsInRange(rs)
    ensures Resting(Run(s, rs))
    decreases |rs|
  {
    if rs != [] {
      assert InRange(rs[0].nextDuration);
      RunKeepsResting(Next(s, rs[0]), rs[1..]);
    }
  }

  /**
   Dwell lower bound: each value sent costs at least 4000 ms of clock time, so a
   run that sends k values covers at least 4000 * k ms (counting what had already
   accumulated at its start).
   */
  lemma {:induction false} RunDwell(s: LightState, rs: seq<Reading>)
    requires MinDuration <= s.duration && DrawsInRange(rs)
    ensures s.waiting + TotalElapsed(rs) >= MinDuration * |RunSent(s, rs)|
    decreases |rs|
  {
    if rs != [] {
      var t := Next(s, rs[0]);
      assert InRange(rs[0].nextDuration);
      RunDwell(t, rs[1..]);
    }
  }

  /** A run that sends nothing only adds its clock time to the accumulator. */
  lemma {:induction false} NoSendAccumulates(s: LightState, rs: seq<Reading>)
    requires RunSent(s, rs) == []
    ensures Run(s, rs) == LightState(s.phase, s.waiting + TotalElapsed(rs), s.duration)
    decreases |rs|
  {
    if rs != [] {
      NoSendAccumulates(Next(s, rs[0]), rs[1..]);
    }
  }

  /**
   Dwell upper bound in accumulated time: from a resting light, any run whose
   readings add up to 6000 ms or more sends at least one phase.
   */
  lemma UpperBound(s: LightState, rs: seq<Reading>)
    requires Resting(s) && DrawsInRange(rs) && TotalElapsed(rs) >= MaxDuration
    ensures RunSent(s, rs) != []
  {
    if RunSent(s, rs) == [] {
      NoSendAccumulates(s, rs);
      RunKeepsResting(s, rs);
      assert false;
    }
  }

  /**
   What waiting for green leaves in the queue: receive from the back, discarding
   red, until a green has been received.
   */
  function DrainToGreen(q: seq<Phase>): (r: seq<Phase>)
    requires Green in q
    ensures |r| < |q| && r == q[..|r|]
    ensures q[|r|] == Green
    ensures forall j :: |r| < j < |q| ==> q[j] == Red
    decreases |q|
  {
    var last := |q| - 1;
    if q[last] == Green then q[..last]
    else
      assert Green in q[..last] by {
        var k :| 0 <= k < |q| && q[k] == Green;
        assert q[..last][k] == Green;
      }
      DrainToGreen(q[..last])
  }

  /** The traffic light: its current phase, the cycling loop's timer and its message queue. */
  class TrafficLight {
    var currentPhase: Phase
    var waiting: nat
    var duration: nat
    const messages: MessageQueue<Phase>

    ghost predicate Valid()
      reads this
    {
      Resting(State())
    }

    /** The loop-relevant state as a value. */
    function State(): LightState
      reads this
    {
      LightState(currentPhase, waiting, duration)
    }

    /** A new light is red with an empty queue; the loop's timer starts at zero with its first draw. */
    constructor (firstDuration: nat)
      requires InRange(firstDuration)
      ensures Valid()
      ensures currentPhase == Red && waiting == 0 && duration == firstDuration
      ensures fresh(messages) && messages.queue == []
    {
      currentPhase := Red;
      waiting := 0;
      duration := firstDuration;
      messages := new MessageQueue<Phase>();
    }

    /** Reads the stored phase and changes nothing. */
    method GetCurrentPhase() returns (p: Phase)
      ensures p == currentPhase
    {
      p := currentPhase;
    }

    /**
     One iteration of the cycling loop. Below the dwell duration only the
     accumulated time grows; once it is reached the phase flips, the new phase
     is sent, the accumulator restarts at zero and the next draw becomes the
     dwell duration.
     */
    method Step(elapsed: nat, nextDuration: nat)
      requires Valid() && InRange(nextDuration)
      modifies this, messages
      ensures Valid()
      ensures State() == Next(old(State()), Reading(elapsed, nextDuration))
      ensures messages.queue == old(messages.queue) + Sent(old(State()), Reading(elapsed, nextDuration))
      ensures old(waiting) + elapsed < old(duration) ==>
                currentPhase == old(currentPhase) && waiting == old(waiting) + elapsed &&
                duration == old(duration) && messages.queue == old(messages.queue)
      ensures old(waiting) + elapsed >= old(duration) ==>
                currentPhase == Toggle(old(currentPhase)) && waiting == 0 && duration == nextDuration &&
                messages.queue == old(messages.queue) + [currentPhase]
    {
      waiting := waiting + elapsed;
      if waiting >= duration {
        if currentPhase == Green {
          currentPhase := Red;
          messages.Send(Red);
        } else {
          currentPhase := Green;
          messages.Send(Green);
        }
        waiting := 0;
        duration := nextDuration;
      }
    }

    /** A finite run of iterations of the cycling loop, one reading each. */
    method Cycle(readings: seq<Reading>)
      requires Valid() && DrawsInRange(readings)
      modifies this, messages
      ensures Valid()
      ensures State() == Run(old(State()), readings)
      ensures messages.queue == old(messages.queue) + RunSent(old(State()), readings)
    {
      var i := 0;
      while i < |readings|
        invariant 0 <= i <= |readings|
        invariant Valid()
        invariant Run(State(), readings[i..]) == Run(old(State()), readings)
        invariant messages.queue + RunSent(State(), readings[i..]) ==
                  old(messages.queue) + RunSent(old(State()), readings)
      {
        var rd := readings[i];
        assert readings[i..][1..] == readings[i + 1..];
        Step(rd.elapsed, rd.nextDuration);
        i := i + 1;
      }
    }

    /**
     Receives from the queue until a green is received. Every red on the way is
     discarded; what is left is the queue up to, and without, its last green.
     */
    method WaitForGreen()
      requires Green in messages.queue
      modifies messages
      ensures messages.queue == DrainToGreen(old(messages.queue))
      ensures old(messages.queue) == messages.queue + [Green] + old(messages.queue)[|messages.queue| + 1..]
      ensures old(messages.queue)[|old(messages.queue)| - 1] == Green ==>
                messages.queue == old(messages.queue)[..|old(messages.queue)| - 1]
    {
      while true
        invariant Green in messages.queue
        invariant DrainToGreen(messages.queue) == DrainToGreen(old(messages.queue))
        decreases |messages.queue|
      {
        var p := messages.Receive();
        if p == Green {
          break;
        }
      }
    }
  }

  /**
   Waiting for green can return while the light is red. Because the queue hands
   out the newest message first, a green that was sent before a red is still
   pending after the red is received and discarded: a light that turns green
   and then red again lets the wait return with the light red and the queue empty.
   */
  method WaitForGreenCanReturnOnRed() returns (phase: Phase, pending: seq<Phase>)
    ensures phase == Red && pending == []
  {
    var light := new TrafficLight(MinDuration);
    light.Step(MinDuration, MinDuration);
    light.Step(MinDuration, MinDuration);
    assert light.messages.queue == [Green, Red];
    light.WaitForGreen();
    phase := light.currentPhase;
    pending := light.messages.queue;
  }
}
