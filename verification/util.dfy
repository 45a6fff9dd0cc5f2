/**
 * Time utilities (util::time): the kinds of timestamp the logger can prefix, and the
 * Chrono stopwatch. The system clock is not modelled: a clock reading is passed in,
 * as an integer number of ticks for Chrono and as opaque text for a formatted timestamp.
 */
module Util {

  /** util::time::timestamp_t */
  datatype TimestampType = None | Delta | Partial | Full

  /**
   * timestamp(kind). The Delta, Partial and Full kinds format the current time
   * (seconds since program start, "%H:%M:%S", "%d_%m_%Y_%H:%M:%S"); that formatted
   * reading is the parameter `clockText`. The None kind reads no clock at all.
   */
  function Timestamp(kind: TimestampType, clockText: string): (r: string)
    ensures kind == None ==> r == ""
    ensures kind != None ==> r == clockText
  {
    if kind == None then "" else clockText
  }

  // ------------------------------------------------------------------
  // Chrono: abstract state and one transition function per operation
  // ------------------------------------------------------------------

  /** The three fields of a Chrono: m_begin, m_paused, m_current_duration (in ticks). */
  datatype ChronoState = ChronoState(begin: int, paused: bool, elapsed: int)

  /** Chrono(): running, nothing accumulated, started now. */
  function Started(now: int): (r: ChronoState)
  {
    ChronoState(now, false, 0)
  }

  /** resume(): only a paused watch restarts its interval, at `now`. */
  function Resumed(s: ChronoState, now: int): (r: ChronoState)
  {
    if s.paused then s.(begin := now, paused := false) else s
  }

  /** pause(): a running watch banks the interval since `begin`. */
  function Paused(s: ChronoState, now: int): (r: ChronoState)
  {
    if s.paused then s else s.(elapsed := s.elapsed + (now - s.begin), paused := true)
  }

  /** restart() as written: clears the pause flag and the total, but does not touch `begin`. */
  function Restarted(s: ChronoState): (r: ChronoState)
  {
    s.(paused := false, elapsed := 0)
  }

  /** get() as written: banks `now - begin` whether or not the watch is paused. */
  function Got(s: ChronoState, now: int): (r: ChronoState)
  {
    s.(elapsed := s.elapsed + (now - s.begin), begin := now)
  }

  /**
   * The time a stopwatch evidently means to show at `now`: the banked total, plus the
   * current interval when it is running.
   */
  function Reading(s: ChronoState, now: int): (r: int)
  {
    s.elapsed + (if s.paused then 0 else now - s.begin)
  }

  /** restart() as evidently intended: start again from zero, running from `now`. */
  function RestartedAt(s: ChronoState, now: int): (r: ChronoState)
    ensures Reading(r, now) == 0 && !r.paused
  {
    Started(now)
  }

  /** get() as evidently intended: only a running watch banks its current interval. */
  function GotIntended(s: ChronoState, now: int): (r: ChronoState)
    ensures r.elapsed == Reading(s, now)
    ensures r.paused == s.paused
    ensures forall later :: Reading(r, later) == Reading(s, later)
  {
    if s.paused then s else s.(elapsed := s.elapsed + (now - s.begin), begin := now)
  }

  // ------------------------------------------------------------------
  // The Chrono class: the fields the source updates in place
  // ------------------------------------------------------------------

  class Chrono {
    var begin: int
    var paused: bool
    var elapsed: int

    function State(): (r: ChronoState)
      reads this
    {
      ChronoState(begin, paused, elapsed)
    }

    constructor (now: int)
      ensures !paused && elapsed == 0 && begin == now
      ensures State() == Started(now)
    {
      begin, paused, elapsed := now, false, 0;
    }

    method Resume(now: int)
      modifies this
      ensures old(paused) ==> begin == now && !paused && elapsed == old(elapsed)
      ensures !old(paused) ==> State() == old(State())
      ensures State() == Resumed(old(State()), now)
    {
      if paused {
        begin := now;
        paused := false;
      }
    }

    method Pause(now: int)
      modifies this
      ensures old(paused) ==> State() == old(State())
      ensures !old(paused) ==> paused && begin == old(begin) && elapsed == old(elapsed) + (now - old(begin))
      ensures State() == Paused(old(State()), now)
    {
      if paused {
        return;
      }
      var buffer := now - begin;
      elapsed := elapsed + buffer;
      paused := true;
    }

    method Restart()
      modifies this
      ensures !paused && elapsed == 0 && begin == old(begin)
      ensures State() == Restarted(old(State()))
    {
      paused := false;
      elapsed := 0;
    }

    method Get(now: int) returns (total: int)
      modifies this
      ensures elapsed == old(elapsed) + (now - old(begin)) && begin == now && paused == old(paused)
      ensures total == elapsed
      ensures State() == Got(old(State()), now)
    {
      var buffer := now - begin;
      elapsed := elapsed + buffer;
      begin := now;
      total := elapsed;
    }
  }

  // ------------------------------------------------------------------
  // Sequences of operations
  // ------------------------------------------------------------------

  datatype Op = ResumeOp | PauseOp | RestartOp | GetOp

  /** One call on a Chrono, made when the clock reads `at`. */
  datatype Event = Event(op: Op, at: int)

  function Step(s: ChronoState, e: Event): (r: ChronoState)
  {
    match e.op
    case ResumeOp => Resumed(s, e.at)
    case PauseOp => Paused(s, e.at)
    case RestartOp => Restarted(s)
    case GetOp => Got(s, e.at)
  }

  /** The state after the calls `evs`, in order, as the code is written. */
  function Run(s: ChronoState, evs: seq<Event>): (r: ChronoState)
  {
    if evs == [] then s else Step(Run(s, evs[..|evs| - 1]), evs[|evs| - 1])
  }

  function IntendedStep(s: ChronoState, e: Event): (r: ChronoState)
  {
    match e.op
    case ResumeOp => Resumed(s, e.at)
    case PauseOp => Paused(s, e.at)
    case RestartOp => RestartedAt(s, e.at)
    case GetOp => GotIntended(s, e.at)
  }

  /** The state after the calls `evs` with restart and get corrected. */
  function IntendedRun(s: ChronoState, evs: seq<Event>): (r: ChronoState)
  {
    if evs == [] then s else IntendedStep(IntendedRun(s, evs[..|evs| - 1]), evs[|evs| - 1])
  }

  /** Whether a watch created before the calls `evs` is running after them. */
  function RunningAfter(evs: seq<Event>): (r: bool)
  {
    if evs == [] then true
    else match evs[|evs| - 1].op
      case PauseOp => false
      case ResumeOp => true
      case RestartOp => true
      case GetOp => RunningAfter(evs[..|evs| - 1])
  }

  /**
   * Reference definition of what a stopwatch created at `t0` should show at `now`
   * after the calls `evs`: the total length of the intervals, since the last restart,
   * during which it was running.
   */
  function Measured(t0: int, evs: seq<Event>, now: int): (r: int)
  {
    if evs == [] then now - t0
    else
      var last := evs[|evs| - 1];
      if last.op == RestartOp then now - last.at
      else Measured(t0, evs[..|evs| - 1], last.at) + (if RunningAfter(evs) then now - last.at else 0)
  }

  /** With restart and get corrected, the watch always shows the measured running time. */
  lemma {:induction false} IntendedRunMeasures(t0: int, evs: seq<Event>, now: int)
    ensures IntendedRun(Started(t0), evs).paused == !RunningAfter(evs)
    ensures Reading(IntendedRun(Started(t0), evs), now) == Measured(t0, evs, now)
  {
    if evs != [] {
      var init, last := evs[..|evs| - 1], evs[|evs| - 1];
      IntendedRunMeasures(t0, init, last.at);
    }
  }

  /** Two get() calls at the same instant report the same total. */
  lemma GetTwiceSameInstant(s: ChronoState, now: int)
    ensures Got(Got(s, now), now).elapsed == Got(s, now).elapsed
    ensures Got(Got(s, now), now) == Got(s, now)
  {
  }

  /**
   * With a clock that never goes backwards, and no restart, the total a Chrono has
   * banked never decreases (whatever mix of pause, resume and get it sees).
   */
  lemma {:induction false} ElapsedNeverDecreases(s: ChronoState, evs: seq<Event>)
    requires forall k :: 0 <= k < |evs| ==> s.begin <= evs[k].at && evs[k].op != RestartOp
    requires forall a, b :: 0 <= a < b < |evs| ==> evs[a].at <= evs[b].at
    ensures Run(s, evs).elapsed >= s.elapsed
    ensures Run(s, evs).begin <= (if evs == [] then s.begin else evs[|evs| - 1].at)
  {
    if evs != [] {
      var init, last := evs[..|evs| - 1], evs[|evs| - 1];
      ElapsedNeverDecreases(s, init);
      assert Run(s, init).begin <= last.at;
    }
  }

  /** Finding: get() on a paused watch counts the paused interval a second time. */
  lemma GetWhilePausedDoubleCounts()
    ensures var evs := [Event(PauseOp, 5), Event(GetOp, 5)];
            Run(Started(0), evs).elapsed == 10 && Measured(0, evs, 5) == 5
            && Reading(IntendedRun(Started(0), evs), 5) == 5
  {
    var evs := [Event(PauseOp, 5), Event(GetOp, 5)];
    assert evs[..1] == [Event(PauseOp, 5)];
    assert evs[..1][..0] == [];
    IntendedRunMeasures(0, evs, 5);
  }

  /** Finding: after restart(), get() still counts from the old `begin`. */
  lemma RestartKeepsOldBegin()
    ensures var evs := [Event(RestartOp, 10), Event(GetOp, 10)];
            Run(Started(0), evs).elapsed == 10 && Measured(0, evs, 10) == 0
            && Reading(IntendedRun(Started(0), evs), 10) == 0
  {
    var evs := [Event(RestartOp, 10), Event(GetOp, 10)];
    assert evs[..1] == [Event(RestartOp, 10)];
    assert evs[..1][..0] == [];
    IntendedRunMeasures(0, evs, 10);
  }
}
