/**
 Closing down when the browser is gone: live connections counted by guards that come and go, and the
 watcher of the counts, which returns after a quiet grace time. Connections, time and the watcher
 interleave freely; when the watcher's timer and a change are both ready, either may be taken.
 */
module BrowserGrace {

  /** The largest value of the counters; the generation wraps around after it. */
  const COUNTER_MAX: nat := 0xFFFF_FFFF_FFFF_FFFF

  /** Ten seconds, in milliseconds. */
  const GRACE: nat := 10_000

  datatype LiveSnapshot = LiveSnapshot(active: nat, everConnected: bool, generation: nat)

  function NextGeneration(generation: nat): nat {
    (generation + 1) % (COUNTER_MAX + 1)
  }

  function Connected(snapshot: LiveSnapshot): LiveSnapshot {
    LiveSnapshot(if snapshot.active < COUNTER_MAX then snapshot.active + 1 else COUNTER_MAX, true,
      NextGeneration(snapshot.generation))
  }

  function Disconnected(snapshot: LiveSnapshot): LiveSnapshot {
    LiveSnapshot(if snapshot.active > 0 then snapshot.active - 1 else 0, snapshot.everConnected,
      NextGeneration(snapshot.generation))
  }

  /** Where the watcher is suspended. */
  datatype Phase =
    | Looking
    | AwaitingChange
    | InGrace(generation: nat, begun: nat)
    | Returned

  /** `changes` numbers the modifications of the snapshot; `noticed` is the one the watcher has seen. */
  datatype World = World(
    snapshot: LiveSnapshot,
    changes: nat,
    guards: nat,
    clock: nat,
    phase: Phase,
    noticed: nat)

  datatype Ready = TimerReady | ChangeReady

  /** A guard is made or dropped, time passes, or the watcher is polled and prefers one ready branch. */
  datatype Event = Connect | Disconnect | Pass(time: nat) | Poll(choice: Ready)

  function Begin(clock: nat): World {
    World(LiveSnapshot(0, false, 0), 0, 0, clock, Looking, 0)
  }

  function LookAround(world: World): World {
    var snapshot := world.snapshot;
    world.(noticed := world.changes,
           phase := if !snapshot.everConnected || snapshot.active > 0 then AwaitingChange
                    else InGrace(snapshot.generation, world.clock))
  }

  predicate Changed(world: World) {
    world.noticed != world.changes
  }

  function PollWatcher(world: World, choice: Ready): World {
    match world.phase
    case Looking => LookAround(world)
    case AwaitingChange => if Changed(world) then world.(noticed := world.changes, phase := Looking) else world
    case InGrace(generation, begun) =>
      var timer := world.clock >= begun + GRACE;
      if timer && (choice == TimerReady || !Changed(world)) then
        if world.snapshot.active == 0 && world.snapshot.generation == generation then world.(phase := Returned)
        else world.(phase := Looking)
      else if Changed(world) then world.(noticed := world.changes, phase := Looking)
      else world
    case Returned => world
  }

  function Happen(world: World, event: Event): World {
    match event
    case Connect =>
      world.(snapshot := Connected(world.snapshot), changes := world.changes + 1, guards := world.guards + 1)
    case Disconnect =>
      if world.guards == 0 then world
      else world.(snapshot := Disconnected(world.snapshot), changes := world.changes + 1, guards := world.guards - 1)
    case Pass(time) => world.(clock := world.clock + time)
    case Poll(choice) => PollWatcher(world, choice)
  }

  function Run(world: World, events: seq<Event>): World {
    if events == [] then world else Happen(Run(world, events[..|events| - 1]), events[|events| - 1])
  }

  // ----- The counters and the watcher, in place -----

  class LiveConnections {
    var snapshot: LiveSnapshot
    var changes: nat

    constructor ()
      ensures snapshot == LiveSnapshot(0, false, 0) && changes == 0
    {
      snapshot, changes := LiveSnapshot(0, false, 0), 0;
    }

    /** What making a guard does. */
    method NewGuard()
      modifies this
      ensures snapshot == Connected(old(snapshot)) && changes == old(changes) + 1
    {
      var active := if snapshot.active < COUNTER_MAX then snapshot.active + 1 else COUNTER_MAX;
      snapshot := snapshot.(active := active);
      snapshot := snapshot.(everConnected := true);
      snapshot := snapshot.(generation := (snapshot.generation + 1) % (COUNTER_MAX + 1));
      changes := changes + 1;
    }

    /** What dropping a guard does. */
    method DropGuard()
      modifies this
      ensures snapshot == Disconnected(old(snapshot)) && changes == old(changes) + 1
    {
      var active := if snapshot.active > 0 then snapshot.active - 1 else 0;
      snapshot := snapshot.(active := active);
      snapshot := snapshot.(generation := (snapshot.generation + 1) % (COUNTER_MAX + 1));
      changes := changes + 1;
    }
  }

  /** The watcher with its surroundings; each event is what the scheduler lets happen next. */
  class GraceWatch {
    const live: LiveConnections
    var guards: nat
    var clock: nat
    var phase: Phase
    var noticed: nat

    function Value(): World
      reads this, live
    {
      World(live.snapshot, live.changes, guards, clock, phase, noticed)
    }

    constructor (live: LiveConnections, clock: nat)
      requires live.snapshot == LiveSnapshot(0, false, 0) && live.changes == 0
      ensures this.live == live && Value() == Begin(clock)
    {
      this.live, guards, this.clock, phase, noticed := live, 0, clock, Looking, 0;
    }

    /** Runs the watcher until it suspends or returns: one turn of its loop at most. */
    method PollOnce(choice: Ready)
      modifies this
      ensures Value() == PollWatcher(old(Value()), choice)
    {
      match phase {
        case Looking =>
          noticed := live.changes;
          var seen := live.snapshot;
          phase := if !seen.everConnected || seen.active > 0 then AwaitingChange else InGrace(seen.generation, clock);
        case AwaitingChange =>
          if noticed != live.changes {
            noticed, phase := live.changes, Looking;
          }
        case InGrace(generation, begun) =>
          if clock >= begun + GRACE && (choice == TimerReady || noticed == live.changes) {
            var current := live.snapshot;
            phase := if current.active == 0 && current.generation == generation then Returned else Looking;
          } else if noticed != live.changes {
            noticed, phase := live.changes, Looking;
          }
        case Returned =>
      }
    }

    method RunEvents(events: seq<Event>)
      modifies this, live
      ensures Value() == Run(old(Value()), events)
    {
      for k := 0 to |events|
        invariant Value() == Run(old(Value()), events[..k])
      {
        match events[k] {
          case Connect =>
            live.NewGuard();
            guards := guards + 1;
          case Disconnect =>
            if guards > 0 {
              live.DropGuard();
              guards := guards - 1;
            }
          case Pass(time) => clock := clock + time;
          case Poll(choice) => PollOnce(choice);
        }
        assert events[..k + 1][..k] == events[..k];
      }
      assert events[..|events|] == events;
    }
  }

  // ----- The counters -----

  /** `changes` counts the connects and disconnects so far; the counters follow them as long as they fit. */
  ghost predicate Counted(world: World) {
    && world.snapshot.active == world.guards
    && world.guards <= world.changes
    && world.snapshot.generation == world.changes
    && (world.snapshot.everConnected <==> world.changes > 0)
  }

  lemma OneEventKeepsCount(world: World, event: Event)
    requires Counted(world) && Happen(world, event).changes <= COUNTER_MAX
    ensures Counted(Happen(world, event))
  {
    match event
    case Connect =>
    case Disconnect =>
    case Pass(_) =>
    case Poll(choice) => assert PollWatcher(world, choice).snapshot == world.snapshot;
  }

  /**
   As long as there were no more connects and disconnects than the counters hold, however often the
   watcher was polled, `active` is the number of live guards.
   */
  lemma {:induction false} ActiveCountsGuards(clock: nat, events: seq<Event>)
    requires Run(Begin(clock), events).changes <= COUNTER_MAX
    ensures Counted(Run(Begin(clock), events))
    decreases |events|
  {
    if events != [] {
      hide Happen, Counted, Touches;
      var before, last := events[..|events| - 1], events[|events| - 1];
      OneEventCounts(Run(Begin(clock), before), last);
      ActiveCountsGuards(clock, before);
      OneEventKeepsCount(Run(Begin(clock), before), last);
    } else {
      assert Counted(Begin(clock));
    }
  }

  // ----- Returning means the browser was gone -----

  function TimeOf(events: seq<Event>): nat {
    if events == [] then 0
    else TimeOf(events[..|events| - 1]) + TimePassed(events[|events| - 1])
  }

  /** The grace time in force began at event `at`, with somebody seen and nobody left. */
  ghost predicate GraceSince(clock: nat, events: seq<Event>, at: nat, generation: nat, begun: nat) {
    && at <= |events|
    && var then' := Run(Begin(clock), events[..at]);
       && then'.snapshot.everConnected && then'.guards == 0 && then'.snapshot.active == 0
       && then'.snapshot.generation == generation && then'.changes == generation
       && then'.clock == begun
  }

  function TimePassed(event: Event): nat {
    match event
    case Pass(time) => time
    case _ => 0
  }

  lemma OneEventClock(world: World, event: Event)
    ensures Happen(world, event).clock == world.clock + TimePassed(event)
  {
  }

  lemma {:induction false} ClockAdvances(world: World, events: seq<Event>, at: nat)
    requires at <= |events|
    ensures Run(world, events).clock == Run(world, events[..at]).clock + TimeOf(events[at..])
    decreases |events|
  {
    var n := |events|;
    if at == n {
      assert events[..at] == events;
    } else {
      hide Happen, TimePassed;
      ClockAdvances(world, events[..n - 1], at);
      OneEventClock(Run(world, events[..n - 1]), events[n - 1]);
      assert events[..n - 1][..at] == events[..at];
      assert events[at..][..n - at - 1] == events[..n - 1][at..];
    }
  }

  predicate Touches(world: World, event: Event) {
    event.Connect? || (event.Disconnect? && world.guards > 0)
  }

  lemma OneEventCounts(world: World, event: Event)
    ensures world.changes <= Happen(world, event).changes
    ensures Happen(world, event).changes == world.changes <==> !Touches(world, event)
    ensures !Touches(world, event) ==> Happen(world, event).guards == world.guards
  {
  }

  lemma OneEventGrace(world: World, event: Event)
    requires Happen(world, event).phase.InGrace?
    ensures world.phase.InGrace? ==> Happen(world, event).phase == world.phase
    ensures !world.phase.InGrace? ==>
              && world.snapshot.everConnected && world.snapshot.active == 0
              && Happen(world, event).phase == InGrace(world.snapshot.generation, world.clock)
  {
  }

  /** Between two moments with the same number of changes nothing connected or disconnected. */
  lemma {:induction false} SameChangesMeansUntouched(world: World, events: seq<Event>, at: nat, k: nat)
    requires at <= k < |events|
    requires Run(world, events).changes == Run(world, events[..at]).changes
    ensures !Touches(Run(world, events[..k]), events[k])
    ensures Run(world, events[..k]).guards == Run(world, events[..at]).guards
    decreases |events|
  {
    hide Happen, Touches;
    var n := |events|;
    ChangesOnlyGrow(world, events[..n - 1], at);
    OneEventCounts(Run(world, events[..n - 1]), events[n - 1]);
    assert events[..n - 1][..at] == events[..at];
    if k < n - 1 {
      SameChangesMeansUntouched(world, events[..n - 1], at, k);
      assert events[..n - 1][..k] == events[..k];
    }
  }

  lemma {:induction false} ChangesOnlyGrow(world: World, events: seq<Event>, at: nat)
    requires at <= |events|
    ensures Run(world, events[..at]).changes <= Run(world, events).changes
    ensures Run(world, events[..at]).changes == Run(world, events).changes ==>
              Run(world, events[..at]).guards == Run(world, events).guards
    decreases |events|
  {
    var n := |events|;
    if at == n {
      assert events[..at] == events;
    } else {
      hide Happen, Touches;
      ChangesOnlyGrow(world, events[..n - 1], at);
      OneEventCounts(Run(world, events[..n - 1]), events[n - 1]);
      assert events[..n - 1][..at] == events[..at];
    }
  }

  /** While the watcher waits out a grace time, that time began at some event. */
  lemma {:induction false} GraceHasBeginning(clock: nat, events: seq<Event>) returns (at: nat)
    requires Run(Begin(clock), events).changes <= COUNTER_MAX
    requires Run(Begin(clock), events).phase.InGrace?
    ensures var phase := Run(Begin(clock), events).phase; GraceSince(clock, events, at, phase.generation, phase.begun)
    decreases |events|
  {
    hide Happen, Touches;
    var n := |events|;
    var before := Run(Begin(clock), events[..n - 1]);
    OneEventCounts(before, events[n - 1]);
    OneEventGrace(before, events[n - 1]);
    if before.phase.InGrace? {
      at := GraceHasBeginning(clock, events[..n - 1]);
      assert events[..n - 1][..at] == events[..at];
    } else {
      ActiveCountsGuards(clock, events[..n - 1]);
      at := n - 1;
    }
  }

  /** From event `at` up to event `end` no guard was live and none was made or dropped. */
  ghost predicate NobodyBetween(clock: nat, events: seq<Event>, at: nat, end: nat) {
    && at <= end <= |events|
    && forall k | at <= k < end ::
         Run(Begin(clock), events[..k]).guards == 0 && !Touches(Run(Begin(clock), events[..k]), events[k])
  }

  /** The watcher was still waiting before event `end`, which made it return. */
  ghost predicate ReturnsAt(clock: nat, events: seq<Event>, end: nat) {
    && end < |events|
    && !Run(Begin(clock), events[..end]).phase.Returned?
    && Run(Begin(clock), events[..end + 1]).phase.Returned?
  }

  /**
   Event `end` is the return, and for at least the grace time right up to it, from event `at` on, none
   was live and none came or went, though some connection had existed.
   */
  ghost predicate GoneUntilReturn(clock: nat, events: seq<Event>, at: nat, end: nat) {
    && ReturnsAt(clock, events, end)
    && NobodyBetween(clock, events, at, end)
    && Run(Begin(clock), events[..at]).snapshot.everConnected
    && Run(Begin(clock), events[..end]).guards == 0
    && TimeOf(events[at..end]) >= GRACE
  }

  /** What the event that makes the watcher return has found. */
  lemma OneEventReturns(world: World, event: Event)
    requires !world.phase.Returned? && Happen(world, event).phase.Returned?
    ensures world.phase.InGrace? && world.clock >= world.phase.begun + GRACE
    ensures world.snapshot.active == 0 && world.snapshot.generation == world.phase.generation
    ensures Happen(world, event).changes == world.changes
  {
  }

  lemma LastEventReturns(clock: nat, events: seq<Event>) returns (at: nat)
    requires events != [] && Run(Begin(clock), events).changes <= COUNTER_MAX
    requires !Run(Begin(clock), events[..|events| - 1]).phase.Returned? && Run(Begin(clock), events).phase.Returned?
    ensures GoneUntilReturn(clock, events, at, |events| - 1)
  {
    hide Happen, Touches, TimeOf;
    var end := |events| - 1;
    var past := events[..end];
    OneEventReturns(Run(Begin(clock), past), events[end]);
    at := GraceHasBeginning(clock, past);
    ActiveCountsGuards(clock, past);
    ClockAdvances(Begin(clock), past, at);
    assert past[..at] == events[..at] && past[at..] == events[at..end] && events[..end + 1] == events;
    NobodySince(clock, events, at, end);
  }

  lemma NobodySince(clock: nat, events: seq<Event>, at: nat, end: nat)
    requires at <= end <= |events|
    requires Run(Begin(clock), events[..end]).changes == Run(Begin(clock), events[..at]).changes
    requires Run(Begin(clock), events[..at]).guards == 0
    ensures NobodyBetween(clock, events, at, end)
  {
    hide Run, Touches;
    var past := events[..end];
    assert past[..at] == events[..at];
    forall k | at <= k < end
      ensures Run(Begin(clock), events[..k]).guards == 0 && !Touches(Run(Begin(clock), events[..k]), events[k])
    {
      SameChangesMeansUntouched(Begin(clock), past, at, k);
      assert past[..k] == events[..k] && past[k] == events[k];
    }
  }

  lemma GoneInLonger(clock: nat, events: seq<Event>, at: nat, end: nat)
    requires events != [] && GoneUntilReturn(clock, events[..|events| - 1], at, end)
    ensures GoneUntilReturn(clock, events, at, end)
  {
    hide Run, Touches, TimeOf;
    var past := events[..|events| - 1];
    assert past[..at] == events[..at] && past[at..end] == events[at..end];
    assert past[..end] == events[..end] && past[..end + 1] == events[..end + 1];
    forall k | at <= k < end
      ensures Run(Begin(clock), events[..k]).guards == 0 && !Touches(Run(Begin(clock), events[..k]), events[k])
    {
      assert past[..k] == events[..k] && past[k] == events[k];
    }
  }

  /**
   The watcher returns only after some connection had existed and a full grace time, ending at the
   return, in which none was live and none came or went.
   */
  lemma {:induction false} ReturnsOnlyWhenGone(clock: nat, events: seq<Event>) returns (at: nat, end: nat)
    requires Run(Begin(clock), events).changes <= COUNTER_MAX
    requires Run(Begin(clock), events).phase.Returned?
    ensures GoneUntilReturn(clock, events, at, end)
    decreases |events|
  {
    hide Happen, Touches, GoneUntilReturn;
    var n := |events|;
    var before := Run(Begin(clock), events[..n - 1]);
    if before.phase.Returned? {
      OneEventCounts(before, events[n - 1]);
      at, end := ReturnsOnlyWhenGone(clock, events[..n - 1]);
      GoneInLonger(clock, events, at, end);
    } else {
      at := LastEventReturns(clock, events);
      end := n - 1;
    }
  }

  // ----- A browser that is gone is noticed -----

  /** What the watcher has noticed is never ahead of what happened, and fits where it is suspended. */
  ghost predicate Attentive(world: World) {
    && world.noticed <= world.changes
    && match world.phase
       case AwaitingChange => Changed(world) || !world.snapshot.everConnected || world.snapshot.active > 0
       case InGrace(generation, begun) =>
         && begun <= world.clock
         && (Changed(world) || (world.snapshot.active == 0 && generation == world.snapshot.generation))
       case _ => true
  }

  lemma OneEventStaysAttentive(world: World, event: Event)
    requires Attentive(world)
    ensures Attentive(Happen(world, event))
  {
    match event
    case Connect =>
    case Disconnect =>
    case Pass(_) =>
    case Poll(_) =>
  }

  lemma {:induction false} AlwaysAttentive(clock: nat, events: seq<Event>)
    ensures Attentive(Run(Begin(clock), events))
    decreases |events|
  {
    hide Happen, Attentive;
    if events != [] {
      AlwaysAttentive(clock, events[..|events| - 1]);
      OneEventStaysAttentive(Run(Begin(clock), events[..|events| - 1]), events[|events| - 1]);
    } else {
      BeginsAttentive(clock);
    }
  }

  lemma BeginsAttentive(clock: nat)
    ensures Attentive(Begin(clock))
  {
  }

  /** Somebody had connected and nobody is left. */
  ghost predicate Gone(world: World) {
    world.guards == 0 && world.snapshot.everConnected && world.snapshot.active == 0
  }

  /** How many polls the watcher may still need to stand in a grace time that nothing has disturbed. */
  function PollsToGrace(world: World): nat {
    match world.phase
    case Returned => 0
    case InGrace(_, _) => if Changed(world) then 2 else 0
    case Looking => 1
    case AwaitingChange => 2
  }

  function Polls(events: seq<Event>): nat {
    if events == [] then 0 else Polls(events[..|events| - 1]) + if events[|events| - 1].Poll? then 1 else 0
  }

  function LessOne(n: nat): nat {
    if n == 0 then 0 else n - 1
  }

  lemma OneQuietEvent(world: World, event: Event)
    requires Attentive(world) && Gone(world) && !event.Connect?
    ensures Gone(Happen(world, event)) && Attentive(Happen(world, event))
    ensures event.Poll? ==> PollsToGrace(Happen(world, event)) <= LessOne(PollsToGrace(world))
    ensures !event.Poll? ==> PollsToGrace(Happen(world, event)) == PollsToGrace(world)
    ensures PollsToGrace(world) == 0 ==>
              Happen(world, event).phase.Returned? || Happen(world, event).phase == world.phase
  {
    OneEventStaysAttentive(world, event);
    match event
    case Disconnect =>
    case Pass(_) =>
    case Poll(_) =>
  }

  ghost predicate NoConnect(events: seq<Event>) {
    forall k | 0 <= k < |events| :: !events[k].Connect?
  }

  /** While nobody comes back every poll brings the watcher closer to an undisturbed grace time. */
  lemma {:induction false} QuietRun(world: World, events: seq<Event>)
    requires Attentive(world) && Gone(world) && NoConnect(events)
    ensures var after := Run(world, events);
            && Gone(after) && Attentive(after)
            && PollsToGrace(after) <=
               (if Polls(events) >= PollsToGrace(world) then 0 else PollsToGrace(world) - Polls(events))
            && (PollsToGrace(world) == 0 ==> after.phase.Returned? || after.phase == world.phase)
    decreases |events|
  {
    hide Happen, Attentive, Gone, PollsToGrace;
    if events != [] {
      var before, last := events[..|events| - 1], events[|events| - 1];
      QuietRun(world, before);
      OneQuietEvent(Run(world, before), last);
    }
  }

  /** In an undisturbed grace time that has passed, the next poll returns, whichever branch it prefers. */
  lemma PollAfterGrace(world: World, choice: Ready)
    requires Attentive(world) && Gone(world) && PollsToGrace(world) == 0
    requires world.phase.InGrace? ==> world.clock >= world.phase.begun + GRACE
    ensures Happen(world, Poll(choice)).phase.Returned?
  {
  }

  lemma {:induction false} ReturnedStays(world: World, events: seq<Event>)
    requires world.phase.Returned?
    ensures Run(world, events).phase.Returned?
    decreases |events|
  {
    if events != [] {
      ReturnedStays(world, events[..|events| - 1]);
    }
  }

  /** After the grace time any further poll, however many events later, finds the watcher returned. */
  lemma {:induction false} PolledAfterGrace(world: World, events: seq<Event>)
    requires Attentive(world) && Gone(world) && PollsToGrace(world) == 0 && NoConnect(events)
    requires world.phase.InGrace? ==> world.clock >= world.phase.begun + GRACE
    requires Polls(events) >= 1
    ensures Run(world, events).phase.Returned?
    decreases |events|
  {
    hide Happen, Attentive, Gone, PollsToGrace;
    var before, last := events[..|events| - 1], events[|events| - 1];
    QuietRun(world, before);
    ClockAdvances(world, before, 0);
    assert before[..0] == [] && before[0..] == before;
    NothingHappened(world);
    var reached := Run(world, before);
    if last.Poll? {
      PollAfterGrace(reached, last.choice);
    } else {
      PolledAfterGrace(world, before);
      OneQuietEvent(reached, last);
      ReturnedIsKept(reached, last);
    }
  }

  lemma ReturnedIsKept(world: World, event: Event)
    requires world.phase.Returned?
    ensures Happen(world, event).phase.Returned?
  {
  }

  lemma NothingHappened(world: World)
    ensures Run(world, []) == world
  {
  }

  lemma {:induction false} RunJoins(world: World, left: seq<Event>, right: seq<Event>)
    ensures Run(world, left + right) == Run(Run(world, left), right)
    decreases |right|
  {
    hide Happen;
    if right == [] {
      assert left + right == left;
    } else {
      var n := |right| - 1;
      assert (left + right)[..|left + right| - 1] == left + right[..n];
      RunJoins(world, left, right[..n]);
    }
  }

  /**
   Conversely, wherever the watcher is suspended: once the last connection is gone and nobody comes
   back, it has returned after two polls, then the grace time, then one more poll, whatever else is
   interleaved with these and whichever ready branch each poll prefers.
   */
  lemma GoneBrowserIsNoticed(clock: nat, past: seq<Event>, settling: seq<Event>, waiting: seq<Event>, rest: seq<Event>)
    requires Run(Begin(clock), past).changes <= COUNTER_MAX
    requires Run(Begin(clock), past).changes > 0 && Run(Begin(clock), past).guards == 0
    requires NoConnect(settling) && NoConnect(waiting) && NoConnect(rest)
    requires Polls(settling) >= 2 && TimeOf(waiting) >= GRACE && Polls(rest) >= 1
    ensures Run(Begin(clock), past + settling + waiting + rest).phase.Returned?
  {
    var world := Run(Begin(clock), past);
    ActiveCountsGuards(clock, past);
    AlwaysAttentive(clock, past);
    assert PollsToGrace(world) <= 2;
    hide Happen, Attentive, PollsToGrace, Run;
    QuietRun(world, settling);
    var settled := Run(world, settling);
    QuietRun(settled, waiting);
    var waited := Run(settled, waiting);
    ClockAdvances(settled, waiting, 0);
    assert waiting[..0] == [] && waiting[0..] == waiting;
    NothingHappened(settled);
    GraceBegunBefore(settled);
    RunJoins(Begin(clock), past, settling);
    RunJoins(Begin(clock), past + settling, waiting);
    RunJoins(Begin(clock), past + settling + waiting, rest);
    PolledAfterGrace(waited, rest);
  }

  lemma GraceBegunBefore(world: World)
    requires Attentive(world)
    ensures world.phase.InGrace? ==> world.phase.begun <= world.clock
  {
  }
}
