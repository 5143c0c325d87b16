/**
 * The button monitor: the body of the polling loop of `button_task`.
 *
 * Button A pauses and resumes the RGB LED task, button B the buzzer task.
 * The buttons are wired with pull-ups, so a pin level `true` (high) means
 * released and `false` (low) means pressed. Each button has a press latch;
 * a low reading with the latch clear sets the latch and flips the paired
 * task between suspended and running; a high reading clears the latch.
 * Task states are abstracted to one boolean "suspended" per task, and waits
 * are returned as millisecond counts.
 */
module Button {

  /** DEBOUNCE_TIME_MS: the wait after each toggle. */
  const DebounceTimeMs: nat := 200

  /** The wait at the end of every polling pass. */
  const PollDelayMs: nat := 50

  /**
   * The two readings of one button's pin during one pass. `first` is the
   * reading taken by the `if` condition; `second` the one taken by the
   * `else if`, which only happens when the `if` condition is false; on a
   * pass that toggles, `second` is never read and the model ignores it. The
   * two may differ: the button can move between them.
   */
  datatype Sample = Sample(first: bool, second: bool)

  /** One button's share of the monitor: its press latch and the suspended flag of the task it controls. */
  datatype Channel = Channel(pressed: bool, suspended: bool)

  /** The channel after one button's branch, and whether the branch toggled the task. */
  datatype ChannelStep = ChannelStep(next: Channel, toggled: bool)

  /** A press edge: the first reading is low while the latch is clear. */
  predicate IsPressEdge(c: Channel, s: Sample)
  {
    !s.first && !c.pressed
  }

  /**
   * One button's branch of a pass. A toggle happens exactly on a press edge,
   * it flips the suspended flag and sets the latch; nothing else changes the
   * flag; the latch is set afterwards exactly when this branch toggled or the
   * latch was already set and the `else if` did not read a high level.
   */
  function StepChannel(c: Channel, s: Sample): (r: ChannelStep)
    ensures r.toggled <==> IsPressEdge(c, s)
    ensures r.next.suspended == (c.suspended != r.toggled)
    ensures r.next.pressed <==> r.toggled || (c.pressed && !s.second)
  {
    if !s.first && !c.pressed then
      ChannelStep(Channel(true, !c.suspended), true)
    else if s.second then
      ChannelStep(c.(pressed := false), false)
    else
      ChannelStep(c, false)
  }

  /** A channel after a sequence of passes, and the number of toggles they made. */
  datatype RunResult = RunResult(final: Channel, toggles: nat)

  /**
   * One button's branch run over consecutive passes. Each pass toggles at
   * most once, and the task ends suspended-flipped exactly when the number of
   * toggles is odd.
   */
  function RunChannel(c: Channel, s: seq<Sample>): (r: RunResult)
    ensures r.toggles <= |s|
    ensures r.final.suspended == (c.suspended != (r.toggles % 2 == 1))
    decreases |s|
  {
    if s == [] then RunResult(c, 0)
    else
      var prev := RunChannel(c, s[..|s| - 1]);
      var step := StepChannel(prev.final, s[|s| - 1]);
      RunResult(step.next, prev.toggles + if step.toggled then 1 else 0)
  }

  /** A sequence of samples none of whose `else if` readings is high. */
  predicate NoRelease(s: seq<Sample>)
  {
    forall i :: 0 <= i < |s| ==> !s[i].second
  }

  /**
   * How many passes release the latch along a run: the latch is set before
   * the pass and clear after it. Such a pass is one whose `else if` reads a
   * high level while the latch is set.
   */
  function Releases(c: Channel, s: seq<Sample>): (n: nat)
    ensures n <= |s|
    decreases |s|
  {
    if s == [] then 0
    else
      var before := RunChannel(c, s[..|s| - 1]).final;
      var after := StepChannel(before, s[|s| - 1]).next;
      Releases(c, s[..|s| - 1]) + if before.pressed && !after.pressed then 1 else 0
  }

  /** Running over `p` and then over `q` is running over `p + q`. */
  lemma {:induction false} RunAppend(c: Channel, p: seq<Sample>, q: seq<Sample>)
    ensures RunChannel(c, p + q).final == RunChannel(RunChannel(c, p).final, q).final
    ensures RunChannel(c, p + q).toggles == RunChannel(c, p).toggles + RunChannel(RunChannel(c, p).final, q).toggles
    decreases |q|
  {
    if q == [] {
      assert p + q == p;
    } else {
      var q' := q[..|q| - 1];
      assert (p + q)[..|p + q| - 1] == p + q';
      assert (p + q)[|p + q| - 1] == q[|q| - 1];
      RunAppend(c, p, q');
    }
  }

  /**
   * Each toggle uses up the clear latch, and only a release gives it back:
   * the toggles plus one for a clear latch at the end equal one for a clear
   * latch at the start plus the releases.
   */
  lemma {:induction false} TogglesNeedReleases(c: Channel, s: seq<Sample>)
    ensures RunChannel(c, s).toggles + (if RunChannel(c, s).final.pressed then 0 else 1)
         == (if c.pressed then 0 else 1) + Releases(c, s)
    decreases |s|
  {
    if s != [] {
      TogglesNeedReleases(c, s[..|s| - 1]);
    }
  }

  /**
   * Without a release, a button toggles its task at most once, and not at
   * all when its latch is already set.
   */
  lemma OneTogglePerPress(c: Channel, s: seq<Sample>)
    requires Releases(c, s) == 0
    ensures RunChannel(c, s).toggles <= if c.pressed then 0 else 1
  {
    TogglesNeedReleases(c, s);
  }

  /** Samples with no high `else if` reading release nothing, whatever the latch. */
  lemma {:induction false} NoReleaseReleasesNothing(c: Channel, s: seq<Sample>)
    requires NoRelease(s)
    ensures Releases(c, s) == 0
    decreases |s|
  {
    if s != [] {
      NoReleaseReleasesNothing(c, s[..|s| - 1]);
    }
  }

  /**
   * Holding the button: with the latch set and no high reading, any number
   * of passes leaves the latch set, the task's state unchanged and makes no
   * toggle.
   */
  lemma {:induction false} HeldKeepsLatch(c: Channel, s: seq<Sample>)
    requires c.pressed
    requires NoRelease(s)
    ensures RunChannel(c, s) == RunResult(c, 0)
    decreases |s|
  {
    if s != [] {
      HeldKeepsLatch(c, s[..|s| - 1]);
    }
  }

  /**
   * One press and release: starting from a clear latch, a first low reading,
   * then any number of passes with no high reading (the button held, or
   * bouncing only between the two readings of a pass), then one release,
   * toggles the task exactly once and leaves the latch clear again.
   */
  lemma PressAndRelease(c: Channel, press: Sample, hold: seq<Sample>, release: Sample)
    requires !c.pressed && !press.first
    requires NoRelease(hold)
    requires release.second
    ensures RunChannel(c, [press] + hold + [release]) == RunResult(Channel(false, !c.suspended), 1)
  {
    var pressed := Channel(true, !c.suspended);
    assert RunChannel(c, [press]) == RunResult(pressed, 1) by {
      assert [press][..0] == [];
    }
    HeldKeepsLatch(pressed, hold);
    RunAppend(c, [press], hold);
    RunAppend(c, [press] + hold, [release]);
    assert RunChannel(pressed, [release]) == RunResult(Channel(false, !c.suspended), 0) by {
      assert [release][..0] == [];
    }
  }

  /**
   * Two complete presses of a button return its task to the state it had:
   * pressing while the task runs suspends it and pressing again resumes it.
   */
  lemma TwoPressesRestore(c: Channel, press1: Sample, hold1: seq<Sample>, release1: Sample,
                          press2: Sample, hold2: seq<Sample>, release2: Sample)
    requires !c.pressed && !press1.first && !press2.first
    requires NoRelease(hold1) && NoRelease(hold2)
    requires release1.second && release2.second
    ensures var first := [press1] + hold1 + [release1];
            RunChannel(c, first).final.suspended == !c.suspended &&
            RunChannel(c, first + [press2] + hold2 + [release2]) == RunResult(c, 2)
  {
    var first := [press1] + hold1 + [release1];
    var second := [press2] + hold2 + [release2];
    PressAndRelease(c, press1, hold1, release1);
    var mid := Channel(false, !c.suspended);
    PressAndRelease(mid, press2, hold2, release2);
    RunAppend(c, first, second);
    assert first + [press2] + hold2 + [release2] == first + second;
  }

  /** The whole monitor: channel `led` is button A's, channel `buzzer` button B's. */
  datatype Monitor = Monitor(led: Channel, buzzer: Channel)

  /** The readings of both buttons in one pass. */
  datatype PassSamples = PassSamples(a: Sample, b: Sample)

  /** The monitor after one or more passes, and the milliseconds waited. */
  datatype PassResult = PassResult(next: Monitor, waitMs: nat)

  /** How many of the two tasks changed between suspended and running from `m` to `m'`. */
  function Flips(m: Monitor, m': Monitor): (n: nat)
  {
    (if m.led.suspended != m'.led.suspended then 1 else 0)
      + (if m.buzzer.suspended != m'.buzzer.suspended then 1 else 0)
  }

  /**
   * One polling pass: button A's branch acts on the LED channel alone, button
   * B's on the buzzer channel alone, and the pass waits 50 ms plus 200 ms per
   * task it toggled, so 50, 250 or 450 ms.
   */
  function Pass(m: Monitor, p: PassSamples): (r: PassResult)
    ensures r.next.led == StepChannel(m.led, p.a).next
    ensures r.next.buzzer == StepChannel(m.buzzer, p.b).next
    ensures r.waitMs == PollDelayMs + DebounceTimeMs * Flips(m, r.next)
    ensures r.waitMs in {50, 250, 450}
  {
    var a := StepChannel(m.led, p.a);
    var b := StepChannel(m.buzzer, p.b);
    var debounce := (if a.toggled then DebounceTimeMs else 0) + (if b.toggled then DebounceTimeMs else 0);
    PassResult(Monitor(a.next, b.next), debounce + PollDelayMs)
  }

  /** Consecutive passes of the polling loop; `n` passes wait between 50·n and 450·n ms. */
  function Passes(m: Monitor, ps: seq<PassSamples>): (r: PassResult)
    ensures PollDelayMs * |ps| <= r.waitMs <= (PollDelayMs + 2 * DebounceTimeMs) * |ps|
    decreases |ps|
  {
    if ps == [] then PassResult(m, 0)
    else
      var prev := Passes(m, ps[..|ps| - 1]);
      var last := Pass(prev.next, ps[|ps| - 1]);
      PassResult(last.next, prev.waitMs + last.waitMs)
  }

  /** Button A's readings over a sequence of passes. */
  function ASamples(ps: seq<PassSamples>): (s: seq<Sample>)
  {
    seq(|ps|, i requires 0 <= i < |ps| => ps[i].a)
  }

  /** Button B's readings over a sequence of passes. */
  function BSamples(ps: seq<PassSamples>): (s: seq<Sample>)
  {
    seq(|ps|, i requires 0 <= i < |ps| => ps[i].b)
  }

  /**
   * The buttons are independent over any number of passes: the LED channel
   * ends as button A's readings alone make it, the buzzer channel as button
   * B's alone make it, and the total wait is 50 ms per pass plus 200 ms per
   * toggle of either task.
   */
  lemma {:induction false} PassesAreIndependent(m: Monitor, ps: seq<PassSamples>)
    ensures Passes(m, ps).next.led == RunChannel(m.led, ASamples(ps)).final
    ensures Passes(m, ps).next.buzzer == RunChannel(m.buzzer, BSamples(ps)).final
    ensures Passes(m, ps).waitMs == PollDelayMs * |ps|
      + DebounceTimeMs * (RunChannel(m.led, ASamples(ps)).toggles + RunChannel(m.buzzer, BSamples(ps)).toggles)
    decreases |ps|
  {
    if ps != [] {
      var ps' := ps[..|ps| - 1];
      PassesAreIndependent(m, ps');
      assert ASamples(ps)[..|ps| - 1] == ASamples(ps');
      assert BSamples(ps)[..|ps| - 1] == BSamples(ps');
    }
  }

  /**
   * The button task's loop state: the two press latches (both clear when the
   * task starts) and the suspended state of the LED and buzzer tasks as the
   * kernel would report it.
   */
  class ButtonMonitor {
    var aPressed: bool
    var bPressed: bool
    var ledSuspended: bool
    var buzzerSuspended: bool

    /** The abstract value of the monitor. */
    function State(): Monitor
      reads this
    {
      Monitor(Channel(aPressed, ledSuspended), Channel(bPressed, buzzerSuspended))
    }

    /** Both latches start clear; both controlled tasks were created ready, not suspended. */
    constructor ()
      ensures !aPressed && !bPressed
      ensures !ledSuspended && !buzzerSuspended
    {
      aPressed, bPressed := false, false;
      ledSuspended, buzzerSuspended := false, false;
    }

    /**
     * One pass of the polling loop, given the pin readings of the pass.
     * Returns the milliseconds the pass waits.
     */
    method PollPass(a: Sample, b: Sample) returns (waitedMs: nat)
      modifies this
      ensures State() == Pass(old(State()), PassSamples(a, b)).next
      ensures waitedMs == Pass(old(State()), PassSamples(a, b)).waitMs
    {
      waitedMs := 0;
      // Button A controls the LED task.
      if !a.first && !aPressed {
        aPressed := true;
        var ledWasSuspended := ledSuspended;
        if ledWasSuspended {
          ledSuspended := false;  // resume
        } else {
          ledSuspended := true;   // suspend
        }
        waitedMs := waitedMs + DebounceTimeMs;
      } else if a.second {
        aPressed := false;
      }
      // Button B controls the buzzer task.
      if !b.first && !bPressed {
        bPressed := true;
        var buzzerWasSuspended := buzzerSuspended;
        if buzzerWasSuspended {
          buzzerSuspended := false;
        } else {
          buzzerSuspended := true;
        }
        waitedMs := waitedMs + DebounceTimeMs;
      } else if b.second {
        bPressed := false;
      }
      waitedMs := waitedMs + PollDelayMs;
    }

    /** The first `|ps|` passes of the endless polling loop; returns the total wait. */
    method Poll(ps: seq<PassSamples>) returns (waitedMs: nat)
      modifies this
      ensures State() == Passes(old(State()), ps).next
      ensures waitedMs == Passes(old(State()), ps).waitMs
    {
      waitedMs := 0;
      var i := 0;
      while i < |ps|
        invariant 0 <= i <= |ps|
        invariant State() == Passes(old(State()), ps[..i]).next
        invariant waitedMs == Passes(old(State()), ps[..i]).waitMs
      {
        assert ps[..i + 1][..i] == ps[..i];
        var w := PollPass(ps[i].a, ps[i].b);
        waitedMs := waitedMs + w;
        i := i + 1;
      }
      assert ps[..i] == ps;
    }
  }
}
