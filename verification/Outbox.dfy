/**
 The outbox of backend/internal/queue/service.go: queue events are applied to
 the index in order, in batches that are acknowledged only when all of a batch
 was applied. A batch that fails part-way, or whose acknowledgement is lost, is
 applied again from its start; the index still ends up as if each event had been
 applied once. Joining and leaving also update the index directly, at any moment
 after their commit; which of those updates the index survives is proved exactly.
 */
module Outbox {
  import opened Common
  import opened QueueIndex

  const BATCH_SIZE := 1000

  datatype Event =
    | CallerJoined(candidate: Candidate)
    | CallerGone(candidate: Candidate, selected: bool)
    | ShowEnded(show: ShowId)

  function Apply(ix: Index, ev: Event): Index {
    match ev
    case CallerJoined(c) => Add(ix, c)
    case CallerGone(c, _) => Remove(ix, c)
    case ShowEnded(sh) => Clear(ix, sh)
  }

  function ApplyAll(ix: Index, evs: seq<Event>): Index {
    if evs == [] then ix else Apply(ApplyAll(ix, evs[..|evs| - 1]), evs[|evs| - 1])
  }

  lemma {:induction false} AllRegistered(ix: Index, evs: seq<Event>)
    requires Registered(ix)
    ensures Registered(ApplyAll(ix, evs))
  {
    if evs != [] {
      AllRegistered(ix, evs[..|evs| - 1]);
    }
  }

  lemma {:induction false} ApplyConcat(ix: Index, a: seq<Event>, b: seq<Event>)
    ensures ApplyAll(ix, a + b) == ApplyAll(ApplyAll(ix, a), b)
    decreases |b|
  {
    if b == [] {
      assert a + b == a;
    } else {
      assert (a + b)[..|a + b| - 1] == a + b[..|b| - 1];
      ApplyConcat(ix, a, b[..|b| - 1]);
    }
  }

  // ------------------------------------------------------------ the last writer decides

  /** What an event makes of one slot: nothing, or its new content. */
  function Writes(ev: Event, s: Slot): Option<Option<int>> {
    match ev
    case CallerJoined(c) => if SlotOf(c) == s then Some(Some(c.position)) else None
    case CallerGone(c, _) => if SlotOf(c) == s then Some(None) else None
    case ShowEnded(sh) => if s.show == sh then Some(None) else None
  }

  function LastWrite(evs: seq<Event>, s: Slot): Option<Option<int>> {
    if evs == [] then None
    else if Writes(evs[|evs| - 1], s).Some? then Writes(evs[|evs| - 1], s)
    else LastWrite(evs[..|evs| - 1], s)
  }

  function Content(ix: Index, s: Slot): Option<int> {
    if s in ix.scores then Some(ix.scores[s]) else None
  }

  /** The same for the registry of ranks. */
  function Registers(ev: Event, t: Tier): Option<bool> {
    match ev
    case CallerJoined(c) => if Tier(c.show, c.rank) == t then Some(true) else None
    case CallerGone(_, _) => None
    case ShowEnded(sh) => if t.show == sh then Some(false) else None
  }

  function LastRegistered(evs: seq<Event>, t: Tier): Option<bool> {
    if evs == [] then None
    else if Registers(evs[|evs| - 1], t).Some? then Registers(evs[|evs| - 1], t)
    else LastRegistered(evs[..|evs| - 1], t)
  }

  lemma {:induction false} ContentAfter(ix: Index, evs: seq<Event>, s: Slot)
    requires Registered(ix)
    ensures Content(ApplyAll(ix, evs), s) == if LastWrite(evs, s).Some? then LastWrite(evs, s).value else Content(ix, s)
  {
    if evs != [] {
      var before := evs[..|evs| - 1];
      ContentAfter(ix, before, s);
      AllRegistered(ix, before);
    }
  }

  lemma {:induction false} RegisteredAfter(ix: Index, evs: seq<Event>, t: Tier)
    ensures t in ApplyAll(ix, evs).priorities <==>
      if LastRegistered(evs, t).Some? then LastRegistered(evs, t).value else t in ix.priorities
  {
    if evs != [] {
      RegisteredAfter(ix, evs[..|evs| - 1], t);
    }
  }

  /** The last write of two lists in a row is the second's, if it has one. */
  lemma {:induction false} WritesConcat(a: seq<Event>, b: seq<Event>, s: Slot, t: Tier)
    ensures LastWrite(a + b, s) == if LastWrite(b, s).Some? then LastWrite(b, s) else LastWrite(a, s)
    ensures LastRegistered(a + b, t) == if LastRegistered(b, t).Some? then LastRegistered(b, t) else LastRegistered(a, t)
    decreases |b|
  {
    if b == [] {
      assert a + b == a;
    } else {
      assert (a + b)[..|a + b| - 1] == a + b[..|b| - 1];
      WritesConcat(a, b[..|b| - 1], s, t);
    }
  }

  /** A list that contains an event writes what the event writes. */
  lemma {:induction false} WrittenIn(evs: seq<Event>, k: nat, s: Slot, t: Tier)
    requires k < |evs|
    ensures Writes(evs[k], s).Some? ==> LastWrite(evs, s).Some?
    ensures Registers(evs[k], t).Some? ==> LastRegistered(evs, t).Some?
  {
    if k < |evs| - 1 {
      WrittenIn(evs[..|evs| - 1], k, s, t);
    }
  }

  lemma SameIndex(a: Index, b: Index)
    requires forall s :: Content(a, s) == Content(b, s)
    requires forall t :: t in a.priorities <==> t in b.priorities
    ensures a == b
  {
    assert forall s :: (s in a.scores <==> Content(a, s).Some?) && (s in b.scores <==> Content(b, s).Some?);
    assert a.scores.Keys == b.scores.Keys;
    assert forall s :: s in a.scores ==> Content(a, s) == Some(a.scores[s]) && Content(b, s) == Some(b.scores[s]);
    assert a.scores == b.scores;
  }

  // ------------------------------------------------------------ being on course

  /** Applying the log from `next` on gives the index of applying each event once. */
  ghost predicate OnCourse(ix: Index, log: seq<Event>, next: nat) {
    next <= |log| && ApplyAll(ix, log[next..]) == ApplyAll(EMPTY, log)
  }

  lemma EmptyRegistered()
    ensures Registered(EMPTY)
  {
  }

  /** What the log leaves in a slot, and in the registry. */
  function Target(log: seq<Event>, s: Slot): Option<int> {
    if LastWrite(log, s).Some? then LastWrite(log, s).value else None
  }

  function TargetRegistered(log: seq<Event>, t: Tier): bool {
    LastRegistered(log, t).Some? && LastRegistered(log, t).value
  }

  /** An index is on course exactly when every slot the rest of the log does not write is right already. */
  ghost predicate RightWhereUnwritten(ix: Index, log: seq<Event>, next: nat)
    requires next <= |log|
  {
    && (forall s :: LastWrite(log[next..], s).None? ==> Content(ix, s) == Target(log, s))
    && (forall t :: LastRegistered(log[next..], t).None? ==> (t in ix.priorities <==> TargetRegistered(log, t)))
  }

  lemma OnCourseIff(ix: Index, log: seq<Event>, next: nat)
    requires Registered(ix) && next <= |log|
    ensures OnCourse(ix, log, next) <==> RightWhereUnwritten(ix, log, next)
  {
    EmptyRegistered();
    var rest := log[next..];
    assert log == log[..next] + rest;
    forall s ensures Content(ApplyAll(EMPTY, log), s) == Target(log, s) {
      ContentAfter(EMPTY, log, s);
    }
    forall t ensures t in ApplyAll(EMPTY, log).priorities <==> TargetRegistered(log, t) {
      RegisteredAfter(EMPTY, log, t);
    }
    forall s ensures Content(ApplyAll(ix, rest), s) == Target(log, s)
                     <==> (LastWrite(rest, s).None? ==> Content(ix, s) == Target(log, s)) {
      ContentAfter(ix, rest, s);
      WritesConcat(log[..next], rest, s, Tier(s.show, s.rank));
    }
    forall t: Tier ensures (t in ApplyAll(ix, rest).priorities <==> TargetRegistered(log, t))
                           <==> (LastRegistered(rest, t).None? ==> (t in ix.priorities <==> TargetRegistered(log, t))) {
      RegisteredAfter(ix, rest, t);
      WritesConcat(log[..next], rest, Slot(t.show, t.rank, 0), t);
    }
    hide ApplyAll, LastWrite, LastRegistered, Target, TargetRegistered, Content;
    if RightWhereUnwritten(ix, log, next) {
      SameIndex(ApplyAll(ix, rest), ApplyAll(EMPTY, log));
    }
  }

  /** Starting again from further back stays on course. */
  lemma RestartStaysOnCourse(ix: Index, log: seq<Event>, back: nat, next: nat)
    requires Registered(ix) && back <= next && OnCourse(ix, log, next)
    ensures OnCourse(ix, log, back)
  {
    OnCourseIff(ix, log, next);
    OnCourseIff(ix, log, back);
    hide OnCourse, Content, Target, TargetRegistered;
    assert log[back..] == log[back..next] + log[next..];
    forall s ensures LastWrite(log[back..], s).None? ==> LastWrite(log[next..], s).None? {
      WritesConcat(log[back..next], log[next..], s, Tier(s.show, s.rank));
    }
    forall t: Tier ensures LastRegistered(log[back..], t).None? ==> LastRegistered(log[next..], t).None? {
      WritesConcat(log[back..next], log[next..], Slot(t.show, t.rank, 0), t);
    }
  }

  lemma {:induction false} MoreLogStaysOnCourse(ix: Index, log: seq<Event>, more: seq<Event>, next: nat)
    requires OnCourse(ix, log, next)
    ensures OnCourse(ix, log + more, next)
  {
    hide ApplyAll;
    assert (log + more)[next..] == log[next..] + more;
    ApplyConcat(ix, log[next..], more);
    ApplyConcat(EMPTY, log, more);
  }

  lemma ApplyOne(ix: Index, ev: Event)
    ensures ApplyAll(ix, [ev]) == Apply(ix, ev)
  {
    assert [ev][..0] == [];
  }

  /** Applying the next event moves on by one. */
  lemma NextStaysOnCourse(ix: Index, log: seq<Event>, next: nat)
    requires next < |log|
    ensures OnCourse(Apply(ix, log[next]), log, next + 1) <==> OnCourse(ix, log, next)
  {
    hide ApplyAll;
    assert log[next..] == [log[next]] + log[next + 1..];
    ApplyConcat(ix, [log[next]], log[next + 1..]);
    ApplyOne(ix, log[next]);
  }

  // ------------------------------------------------------------ direct updates

  /**
   A direct update by event `ev` does no harm: whatever it writes, the events
   still to be applied write again, or the log leaves just that there.
   */
  ghost predicate Harmless(ev: Event, log: seq<Event>, next: nat)
    requires next <= |log|
  {
    && (forall s :: Writes(ev, s).Some? ==> LastWrite(log[next..], s).Some? || LastWrite(log, s) == Writes(ev, s))
    && (forall t :: Registers(ev, t).Some? ==> LastRegistered(log[next..], t).Some? || LastRegistered(log, t) == Registers(ev, t))
  }

  lemma ContentOfApply(ix: Index, ev: Event, s: Slot, t: Tier)
    requires Registered(ix)
    ensures Content(Apply(ix, ev), s) == if Writes(ev, s).Some? then Writes(ev, s).value else Content(ix, s)
    ensures t in Apply(ix, ev).priorities <==> if Registers(ev, t).Some? then Registers(ev, t).value else t in ix.priorities
    ensures Registered(Apply(ix, ev))
  {
  }

  /** An index on course stays on course through a direct update if and only if the update is harmless. */
  lemma DirectIff(ix: Index, log: seq<Event>, next: nat, i: nat)
    requires Registered(ix) && OnCourse(ix, log, next) && i < |log|
    ensures OnCourse(Apply(ix, log[i]), log, next) <==> Harmless(log[i], log, next)
  {
    var ix' := Apply(ix, log[i]);
    ContentOfApply(ix, log[i], Slot(0, 0, 0), Tier(0, 0));
    OnCourseIff(ix, log, next);
    OnCourseIff(ix', log, next);
    forall s ensures Content(ix', s) == if Writes(log[i], s).Some? then Writes(log[i], s).value else Content(ix, s) {
      ContentOfApply(ix, log[i], s, Tier(s.show, s.rank));
    }
    forall t: Tier ensures t in ix'.priorities <==> if Registers(log[i], t).Some? then Registers(log[i], t).value else t in ix.priorities {
      ContentOfApply(ix, log[i], Slot(t.show, t.rank, 0), t);
    }
    forall s ensures Writes(log[i], s).Some? ==> LastWrite(log, s).Some? {
      WrittenIn(log, i, s, Tier(s.show, s.rank));
    }
    forall t: Tier ensures Registers(log[i], t).Some? ==> LastRegistered(log, t).Some? {
      WrittenIn(log, i, Slot(t.show, t.rank, 0), t);
    }
    hide OnCourse, LastWrite, LastRegistered, Content, Registered, Apply, Writes, Registers;
  }

  /** An update that comes before the worker has passed its event is always harmless. */
  lemma PromptIsHarmless(log: seq<Event>, next: nat, i: nat)
    requires next <= i < |log|
    ensures Harmless(log[i], log, next)
  {
    assert log[next..][i - next] == log[i];
    forall s ensures Writes(log[i], s).Some? ==> LastWrite(log[next..], s).Some? {
      WrittenIn(log[next..], i - next, s, Tier(s.show, s.rank));
    }
    forall t: Tier ensures Registers(log[i], t).Some? ==> LastRegistered(log[next..], t).Some? {
      WrittenIn(log[next..], i - next, Slot(t.show, t.rank, 0), t);
    }
  }

  // ------------------------------------------------------------ the worker

  /** The batch in hand: the event to apply next, and where the batch ends. */
  datatype Work = Work(next: nat, end: nat)

  /** The log of events, how many are acknowledged, the batch in hand, and the index so far. */
  datatype State = State(log: seq<Event>, published: nat, work: Option<Work>, index: Index)

  datatype Op =
    | Commit(event: Event)
    | ReadBatch
    | ApplyNext
    /** The batch is given up; the event in hand may have taken effect all the same. */
    | GiveUp(appliedAnyway: bool)
    /** All of the batch was applied; whether that gets recorded may fail. */
    | Acknowledge(recorded: bool)
    /** Service.Join or Service.Leave updates the index by its own event, at any moment after the commit. */
    | Direct(position: nat)

  predicate Valid(s: State) {
    && s.published <= |s.log|
    && (s.work.Some? ==> s.published <= s.work.value.next <= s.work.value.end <= Min(s.published + BATCH_SIZE, |s.log|))
  }

  function NextOf(s: State): nat {
    if s.work.Some? then s.work.value.next else s.published
  }

  function Step(s: State, op: Op): (s': State)
    requires Valid(s)
    ensures Valid(s')
  {
    match op
    case Commit(ev) => s.(log := s.log + [ev])
    case ReadBatch =>
      if s.work.Some? then s else s.(work := Some(Work(s.published, Min(s.published + BATCH_SIZE, |s.log|))))
    case ApplyNext =>
      if s.work.Some? && s.work.value.next < s.work.value.end then
        s.(index := Apply(s.index, s.log[s.work.value.next]), work := Some(s.work.value.(next := s.work.value.next + 1)))
      else s
    case GiveUp(anyway) =>
      if s.work.None? then s
      else if anyway && s.work.value.next < s.work.value.end then
        s.(index := Apply(s.index, s.log[s.work.value.next]), work := None)
      else s.(work := None)
    case Acknowledge(recorded) =>
      if s.work.Some? && s.work.value.next == s.work.value.end then
        s.(work := None, published := if recorded then s.work.value.end else s.published)
      else s
    case Direct(i) => if i < |s.log| then s.(index := Apply(s.index, s.log[i])) else s
  }

  const START := State([], 0, None, EMPTY)

  function Run(ops: seq<Op>): (s: State)
    ensures Valid(s)
  {
    if ops == [] then START else Step(Run(ops[..|ops| - 1]), ops[|ops| - 1])
  }

  lemma {:induction false} RunRegistered(ops: seq<Op>)
    ensures Registered(Run(ops).index)
  {
    if ops == [] {
      EmptyRegistered();
    } else {
      var s, op := Run(ops[..|ops| - 1]), ops[|ops| - 1];
      RunRegistered(ops[..|ops| - 1]);
      hide Registered, Apply;
      if op.Direct? && op.position < |s.log| {
        ContentOfApply(s.index, s.log[op.position], Slot(0, 0, 0), Tier(0, 0));
      } else if s.work.Some? && s.work.value.next < |s.log| {
        ContentOfApply(s.index, s.log[s.work.value.next], Slot(0, 0, 0), Tier(0, 0));
      }
    }
  }

  /** Carrying on from here, or starting the batch again, leads to the index of applying each event once. */
  ghost predicate Converges(s: State) {
    OnCourse(s.index, s.log, NextOf(s))
  }

  /** The direct update a step makes, if any, does harm. */
  ghost predicate StaleUpdate(s: State, op: Op)
    requires Valid(s)
  {
    op.Direct? && op.position < |s.log| && !Harmless(s.log[op.position], s.log, NextOf(s))
  }

  /** A step keeps the index on course if and only if it is not a stale direct update. */
  lemma StepConvergesIff(s: State, op: Op)
    requires Valid(s) && Registered(s.index) && Converges(s)
    ensures Converges(Step(s, op)) <==> !StaleUpdate(s, op)
  {
    hide OnCourse, Harmless, Registered, Apply;
    match op
    case Commit(ev) => MoreLogStaysOnCourse(s.index, s.log, [ev], NextOf(s));
    case ReadBatch =>
    case ApplyNext =>
      if s.work.Some? && s.work.value.next < s.work.value.end {
        NextStaysOnCourse(s.index, s.log, s.work.value.next);
      }
    case GiveUp(anyway) =>
      if s.work.Some? {
        RestartStaysOnCourse(s.index, s.log, s.published, s.work.value.next);
        if anyway && s.work.value.next < s.work.value.end {
          NextStaysOnCourse(s.index, s.log, s.work.value.next);
          ContentOfApply(s.index, s.log[s.work.value.next], Slot(0, 0, 0), Tier(0, 0));
          RestartStaysOnCourse(Apply(s.index, s.log[s.work.value.next]), s.log, s.published, s.work.value.next + 1);
        }
      }
    case Acknowledge(recorded) =>
      if s.work.Some? {
        RestartStaysOnCourse(s.index, s.log, s.published, s.work.value.next);
      }
    case Direct(i) =>
      if i < |s.log| {
        DirectIff(s.index, s.log, NextOf(s), i);
      }
  }

  ghost predicate AlwaysConverges(ops: seq<Op>) {
    Converges(Run(ops)) && (ops != [] ==> AlwaysConverges(ops[..|ops| - 1]))
  }

  ghost predicate NoStaleUpdate(ops: seq<Op>) {
    ops != [] ==> NoStaleUpdate(ops[..|ops| - 1]) && !StaleUpdate(Run(ops[..|ops| - 1]), ops[|ops| - 1])
  }

  /**
   For any interleaving of commits, batches, failures part-way, lost
   acknowledgements, restarts and direct updates, the index is on course all
   along if and only if no direct update was stale.
   */
  lemma {:induction false} AlwaysConvergesIff(ops: seq<Op>)
    ensures AlwaysConverges(ops) <==> NoStaleUpdate(ops)
  {
    hide Converges, StaleUpdate, Registered, Step;
    if ops == [] {
      StartConverges();
    } else {
      var before := ops[..|ops| - 1];
      AlwaysConvergesIff(before);
      RunRegistered(before);
      if AlwaysConverges(before) {
        StepConvergesIff(Run(before), ops[|ops| - 1]);
      }
    }
  }

  lemma StartConverges()
    ensures Converges(START)
  {
  }

  lemma PrefixConverges(ops: seq<Op>)
    requires NoStaleUpdate(ops)
    ensures Converges(Run(ops)) && Registered(Run(ops).index)
  {
    hide Converges, Registered, Run, NoStaleUpdate;
    AlwaysConvergesIff(ops);
    RunRegistered(ops);
  }

  predicate NoDirect(ops: seq<Op>) {
    forall k :: 0 <= k < |ops| ==> !ops[k].Direct?
  }

  lemma {:induction false} NoDirectNoStale(ops: seq<Op>)
    requires NoDirect(ops)
    ensures NoStaleUpdate(ops)
  {
    if ops != [] {
      NoDirectNoStale(ops[..|ops| - 1]);
    }
  }

  // ------------------------------------------------------------ acknowledged events

  /**
   Without direct updates the index never runs ahead of position `high`, within
   the batch in hand, and is on course towards the index of the events before it.
   */
  ghost predicate Clean(s: State, high: nat) {
    && Valid(s) && Registered(s.index)
    && NextOf(s) <= high <= Min(s.published + BATCH_SIZE, |s.log|)
    && (s.work.Some? ==> high <= s.work.value.end)
    && OnCourse(s.index, s.log[..high], NextOf(s))
  }

  lemma AppliedIsClean(s: State, high: nat)
    requires Clean(s, high) && s.work.Some? && s.work.value.next < s.work.value.end
    ensures Clean(Step(s, ApplyNext), if s.work.value.next < high then high else high + 1)
  {
    var k := s.work.value.next;
    ContentOfApply(s.index, s.log[k], Slot(0, 0, 0), Tier(0, 0));
    hide OnCourse, Registered, Apply;
    if k < high {
      NextStaysOnCourse(s.index, s.log[..high], k);
    } else {
      assert s.log[..high + 1] == s.log[..high] + [s.log[k]];
      MoreLogStaysOnCourse(s.index, s.log[..high], [s.log[k]], k);
      NextStaysOnCourse(s.index, s.log[..high + 1], k);
    }
  }

  lemma StepIsClean(s: State, op: Op, high: nat) returns (high': nat)
    requires Clean(s, high) && !op.Direct?
    ensures Clean(Step(s, op), high')
    ensures Step(s, op).published > s.published ==> high' == Step(s, op).published
  {
    hide OnCourse, Registered, Apply;
    high' := high;
    match op
    case Commit(ev) => assert (s.log + [ev])[..high] == s.log[..high];
    case ReadBatch =>
    case ApplyNext =>
      if s.work.Some? && s.work.value.next < s.work.value.end {
        AppliedIsClean(s, high);
        high' := if s.work.value.next < high then high else high + 1;
      }
    case GiveUp(anyway) =>
      if s.work.Some? {
        if anyway && s.work.value.next < s.work.value.end {
          AppliedIsClean(s, high);
          high' := if s.work.value.next < high then high else high + 1;
          RestartStaysOnCourse(Step(s, ApplyNext).index, s.log[..high'], s.published, s.work.value.next + 1);
        } else {
          RestartStaysOnCourse(s.index, s.log[..high], s.published, s.work.value.next);
        }
      }
    case Acknowledge(recorded) =>
      if s.work.Some? && s.work.value.next == s.work.value.end {
        RestartStaysOnCourse(s.index, s.log[..high], s.published, s.work.value.next);
      }
  }

  lemma {:induction false} RunIsClean(ops: seq<Op>) returns (high: nat)
    requires NoDirect(ops)
    ensures Clean(Run(ops), high)
    ensures ops != [] && Run(ops).published > Run(ops[..|ops| - 1]).published ==> high == Run(ops).published
  {
    if ops == [] {
      high := 0;
      EmptyRegistered();
    } else {
      var before := RunIsClean(ops[..|ops| - 1]);
      high := StepIsClean(Run(ops[..|ops| - 1]), ops[|ops| - 1], before);
    }
  }

  /**
   Replay alone is always safe: without direct updates, carrying on or starting
   the batch again from any reachable state gives the index of applying each
   event once, and whenever a batch has just been acknowledged, the index already
   is that of the acknowledged events.
   */
  lemma ReplayConverges(ops: seq<Op>)
    requires NoDirect(ops)
    ensures var s := Run(ops);
      && ApplyAll(s.index, s.log[NextOf(s)..]) == ApplyAll(EMPTY, s.log)
      && ApplyAll(s.index, s.log[s.published..]) == ApplyAll(EMPTY, s.log)
    ensures ops != [] && Run(ops).published > Run(ops[..|ops| - 1]).published ==>
      Run(ops).index == ApplyAll(EMPTY, Run(ops).log[..Run(ops).published])
  {
    NoDirectNoStale(ops);
    hide Run, NoStaleUpdate, NoDirect, ApplyAll, Registered;
    PrefixConverges(ops);
    var s := Run(ops);
    RestartStaysOnCourse(s.index, s.log, s.published, NextOf(s));
    var high := RunIsClean(ops);
    if ops != [] && s.published > Run(ops[..|ops| - 1]).published {
      assert s.log[..high][high..] == [];
      NothingApplied(s.index);
    }
  }

  lemma NothingApplied(ix: Index)
    ensures ApplyAll(ix, []) == ix
  {
  }

  // ------------------------------------------------------------ a stale update

  const CALLER := Candidate(0, 0, 0, 0)

  /** Someone joins and leaves, the worker publishes both, and only then does the join's own update arrive. */
  function Overtaken(): seq<Op> {
    [Commit(CallerJoined(CALLER)), ReadBatch, ApplyNext, Acknowledge(true),
     Commit(CallerGone(CALLER, false)), ReadBatch, ApplyNext, Acknowledge(true),
     Direct(0)]
  }

  lemma RunSnoc(ops: seq<Op>, op: Op)
    ensures Run(ops + [op]) == Step(Run(ops), op)
  {
    assert (ops + [op])[..|ops|] == ops;
  }

  /** One event committed and published by a worker that had caught up. */
  lemma PublishOne(ops: seq<Op>, ev: Event)
    requires var s := Run(ops); s.work.None? && s.published == |s.log|
    ensures var s := Run(ops);
      Run(ops + [Commit(ev), ReadBatch, ApplyNext, Acknowledge(true)])
      == State(s.log + [ev], |s.log| + 1, None, Apply(s.index, ev))
  {
    hide Apply, Run;
    var s := Run(ops);
    RunSnoc(ops, Commit(ev));
    RunSnoc(ops + [Commit(ev)], ReadBatch);
    RunSnoc(ops + [Commit(ev)] + [ReadBatch], ApplyNext);
    RunSnoc(ops + [Commit(ev)] + [ReadBatch] + [ApplyNext], Acknowledge(true));
    assert ops + [Commit(ev)] + [ReadBatch] + [ApplyNext] + [Acknowledge(true)]
        == ops + [Commit(ev), ReadBatch, ApplyNext, Acknowledge(true)];
  }

  /** Everything is acknowledged, the caller has left, and the index still lists them. */
  lemma StaleUpdateLeavesACaller()
    ensures var s := Run(Overtaken());
      && s.published == |s.log| == 2 && s.work.None?
      && SlotOf(CALLER) in s.index.scores
      && SlotOf(CALLER) !in ApplyAll(EMPTY, s.log).scores
      && !Converges(s)
  {
    var joined, gone := CallerJoined(CALLER), CallerGone(CALLER, false);
    var first := [] + [Commit(joined), ReadBatch, ApplyNext, Acknowledge(true)];
    var second := first + [Commit(gone), ReadBatch, ApplyNext, Acknowledge(true)];
    PublishOne([], joined);
    PublishOne(first, gone);
    RunSnoc(second, Direct(0));
    assert second + [Direct(0)] == Overtaken();
    hide Run;
    var s := Run(Overtaken());
    assert s.log == [joined, gone];
    StaleContents(s.log, s.index);
    assert s.log[2..] == [];
    NothingApplied(s.index);
    hide ApplyAll;
  }

  lemma StaleContents(log: seq<Event>, ix: Index)
    requires log == [CallerJoined(CALLER), CallerGone(CALLER, false)]
    requires ix == Apply(Apply(Apply(EMPTY, log[0]), log[1]), log[0])
    ensures SlotOf(CALLER) in ix.scores && SlotOf(CALLER) !in ApplyAll(EMPTY, log).scores
  {
    ApplyOne(EMPTY, log[0]);
    assert log[..1] == [log[0]];
  }

  // ------------------------------------------------------------ the worker's loop

  datatype EventType = JoinedType | LeftType | SelectedType | EndedType

  function TypeOf(ev: Event): EventType {
    match ev
    case CallerJoined(_) => JoinedType
    case CallerGone(_, selected) => if selected then SelectedType else LeftType
    case ShowEnded(_) => EndedType
  }

  function ShowOf(ev: Event): ShowId {
    if ev.ShowEnded? then ev.show else ev.candidate.show
  }

  /** One notification per show: that it ended, if it did, and otherwise its first event. */
  ghost predicate Notifies(notifications: map<ShowId, EventType>, evs: seq<Event>) {
    && (forall sh :: sh in notifications <==> exists i :: 0 <= i < |evs| && ShowOf(evs[i]) == sh)
    && (forall i :: 0 <= i < |evs| && evs[i].ShowEnded? ==> notifications[ShowOf(evs[i])] == EndedType)
    && (forall i :: 0 <= i < |evs| && (forall j :: 0 <= j < i ==> ShowOf(evs[j]) != ShowOf(evs[i])) ==>
          notifications[ShowOf(evs[i])] == TypeOf(evs[i]) || notifications[ShowOf(evs[i])] == EndedType)
    && (forall sh :: sh in notifications && notifications[sh] == EndedType ==>
          exists i :: 0 <= i < |evs| && ShowOf(evs[i]) == sh && evs[i].ShowEnded?)
  }

  lemma NotifiesMore(notifications: map<ShowId, EventType>, evs: seq<Event>, ev: Event)
    requires Notifies(notifications, evs)
    ensures Notifies(
      if ShowOf(ev) !in notifications || ev.ShowEnded? then notifications[ShowOf(ev) := TypeOf(ev)] else notifications, evs + [ev])
  {
    var evs' := evs + [ev];
    var ns := if ShowOf(ev) !in notifications || ev.ShowEnded? then notifications[ShowOf(ev) := TypeOf(ev)] else notifications;
    assert forall i :: 0 <= i < |evs| ==> evs'[i] == evs[i];
    assert evs'[|evs|] == ev;
    forall sh | sh in ns ensures exists i :: 0 <= i < |evs'| && ShowOf(evs'[i]) == sh {
      if sh == ShowOf(ev) {
        assert ShowOf(evs'[|evs|]) == sh;
      } else {
        var i :| 0 <= i < |evs| && ShowOf(evs[i]) == sh;
        assert ShowOf(evs'[i]) == sh;
      }
    }
    forall sh | sh in ns && ns[sh] == EndedType ensures exists i :: 0 <= i < |evs'| && ShowOf(evs'[i]) == sh && evs'[i].ShowEnded? {
      if sh == ShowOf(ev) && ev.ShowEnded? {
        assert evs'[|evs|].ShowEnded?;
      } else {
        var i :| 0 <= i < |evs| && ShowOf(evs[i]) == sh && evs[i].ShowEnded?;
        assert evs'[i].ShowEnded?;
      }
    }
  }

  function RunFrom(s: State, ops: seq<Op>): (s': State)
    requires Valid(s)
    ensures Valid(s')
  {
    if ops == [] then s else Step(RunFrom(s, ops[..|ops| - 1]), ops[|ops| - 1])
  }

  /** What one call of flushOutbox does, as steps: read, apply `applied` events, and give up or acknowledge. */
  function FlushSteps(applied: nat, last: Op): seq<Op> {
    [ReadBatch] + seq(applied, _ => ApplyNext) + [last]
  }

  lemma {:induction false} AppliesInOrder(s: State, k: nat)
    requires Valid(s) && s.work.None? && k <= |Batch(s)|
    ensures RunFrom(s, [ReadBatch] + seq(k, _ => ApplyNext))
         == s.(work := Some(Work(s.published + k, s.published + |Batch(s)|)), index := ApplyAll(s.index, Batch(s)[..k]))
  {
    hide Apply, ApplyAll, Batch, RunFrom;
    if k == 0 {
      BatchIsRead(s);
      assert [ReadBatch] + seq(0, _ => ApplyNext) == [ReadBatch];
    } else {
      AppliesInOrder(s, k - 1);
      OneMoreApplied(s, k);
      assert [ReadBatch] + seq(k, _ => ApplyNext) == [ReadBatch] + seq(k - 1, _ => ApplyNext) + [ApplyNext];
      RunFromSnoc(s, [ReadBatch] + seq(k - 1, _ => ApplyNext), ApplyNext);
    }
  }

  lemma BatchIsRead(s: State)
    requires Valid(s) && s.work.None?
    ensures RunFrom(s, [ReadBatch])
         == s.(work := Some(Work(s.published, s.published + |Batch(s)|)), index := ApplyAll(s.index, Batch(s)[..0]))
  {
    assert [ReadBatch][..0] == [] && Batch(s)[..0] == [];
  }

  lemma OneMoreApplied(s: State, k: nat)
    requires Valid(s) && 0 < k <= |Batch(s)|
    ensures ApplyAll(s.index, Batch(s)[..k]) == Apply(ApplyAll(s.index, Batch(s)[..k - 1]), s.log[s.published + k - 1])
    ensures s.published + |Batch(s)| <= |s.log|
  {
    hide Apply;
    assert Batch(s)[..k][..k - 1] == Batch(s)[..k - 1];
  }

  lemma RunFromSnoc(s: State, ops: seq<Op>, op: Op)
    requires Valid(s)
    ensures RunFrom(s, ops + [op]) == Step(RunFrom(s, ops), op)
  {
    assert (ops + [op])[..|ops|] == ops;
  }

  function Batch(s: State): seq<Event>
    requires Valid(s)
  {
    s.log[s.published..Min(s.published + BATCH_SIZE, |s.log|)]
  }

  lemma FlushRuns(s: State, k: nat, last: Op)
    requires Valid(s) && s.work.None? && k <= |Batch(s)|
    ensures RunFrom(s, FlushSteps(k, last))
         == Step(s.(work := Some(Work(s.published + k, s.published + |Batch(s)|)), index := ApplyAll(s.index, Batch(s)[..k])), last)
  {
    AppliesInOrder(s, k);
    var ops := FlushSteps(k, last);
    assert ops[..|ops| - 1] == [ReadBatch] + seq(k, _ => ApplyNext);
  }

  /** How a call of flushOutbox goes wrong, if it does. */
  datatype Outcome =
    | UpdateFails(at: nat, appliedAnyway: bool)
    | PublishFails
    | RecordFails
    | AllGoesWell

  class OutboxWorker {
    const index: CandidateIndex
    var log: seq<Event>
    var published: nat

    /** Between two calls no batch is in hand. */
    function Snapshot(): State
      reads this, index
    {
      State(log, published, None, index.Value())
    }

    constructor ()
      ensures Snapshot() == START && fresh(index)
    {
      index := new CandidateIndex();
      log, published := [], 0;
    }

    method ApplyEvent(ev: Event)
      modifies index
      ensures index.Value() == Apply(old(index.Value()), ev)
    {
      match ev
      case CallerJoined(c) => index.AddCandidate(c);
      case CallerGone(c, _) => index.RemoveCandidate(c);
      case ShowEnded(sh) => index.ClearShow(sh);
    }

    /** The update Service.Join or Service.Leave makes itself. */
    method UpdateDirectly(i: nat)
      requires published <= |log|
      modifies index
      ensures Snapshot() == Step(old(Snapshot()), Direct(i))
    {
      if i < |log| {
        ApplyEvent(log[i]);
      }
    }

    /** Applies events in order, up to the first whose update fails. */
    method ApplyBatch(events: seq<Event>, outcome: Outcome) returns (done: nat, notifications: map<ShowId, EventType>)
      modifies index
      ensures done == if outcome.UpdateFails? && outcome.at < |events| then outcome.at else |events|
      ensures index.Value() == ApplyAll(old(index.Value()), events[..done])
      ensures Notifies(notifications, events[..done])
    {
      hide Apply, Notifies;
      notifications := map[];
      done := 0;
      assert Notifies(notifications, events[..0]) by { NotifiesNone(); assert events[..0] == []; }
      while done < |events|
        invariant 0 <= done <= |events|
        invariant outcome.UpdateFails? ==> done <= outcome.at || |events| <= outcome.at
        invariant index.Value() == ApplyAll(old(index.Value()), events[..done])
        invariant Notifies(notifications, events[..done])
      {
        if outcome.UpdateFails? && outcome.at == done {
          return;
        }
        var ev := events[done];
        assert events[..done + 1] == events[..done] + [ev];
        assert events[..done + 1][..done] == events[..done];
        ApplyEvent(ev);
        NotifiesMore(notifications, events[..done], ev);
        if ShowOf(ev) !in notifications || ev.ShowEnded? {
          notifications := notifications[ShowOf(ev) := TypeOf(ev)];
        }
        done := done + 1;
      }
    }

    /**
     Applies the batch until an update fails, notifies each of its shows once,
     and acknowledges it if nothing failed; `more` asks to be called again at once.
     */
    method FlushOutbox(outcome: Outcome) returns (more: bool, notifications: map<ShowId, EventType>)
      requires published <= |log|
      modifies this, index
      ensures published <= |log|
      ensures var s := old(Snapshot());
        var n := |Batch(s)|;
        if outcome.UpdateFails? && outcome.at < n then
          Snapshot() == RunFrom(s, FlushSteps(outcome.at, GiveUp(outcome.appliedAnyway))) && !more
        else
          && Snapshot() == RunFrom(s, FlushSteps(n, Acknowledge(!outcome.PublishFails? && !outcome.RecordFails?)))
          && Notifies(notifications, Batch(s))
          && (more <==> !outcome.PublishFails? && !outcome.RecordFails? && n == BATCH_SIZE)
    {
      hide RunFrom, FlushSteps, ApplyAll, Apply, Notifies;
      ghost var s := Snapshot();
      var events := log[published..Min(published + BATCH_SIZE, |log|)];
      assert events == Batch(s);
      var done;
      done, notifications := ApplyBatch(events, outcome);
      if done < |events| {
        FlushRuns(s, done, GiveUp(outcome.appliedAnyway));
        if outcome.appliedAnyway {
          ApplyEvent(events[done]);
        }
        return false, notifications;
      }
      assert events[..done] == events;
      FlushRuns(s, done, Acknowledge(!outcome.PublishFails? && !outcome.RecordFails?));
      if outcome.PublishFails? || outcome.RecordFails? {
        return false, notifications;
      }
      published := published + |events|;
      return |events| == BATCH_SIZE, notifications;
    }
  }

  lemma NotifiesNone()
    ensures Notifies(map[], [])
  {
  }
}
