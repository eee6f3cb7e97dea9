/**
 realtime.go, RealtimeSession: the goroutines of a realtime session as atomic steps. One
 goroutine consumes the provider's events, one runs each tool call, one closes the event
 channel when all others have ended, and users call Close whenever they like.
 */
module Realtime {
  import opened Wrappers

  datatype Event = ToolCalled(id: string, body: string) | ToolCancelled(id: string) | Plain(body: string)

  type Failure = string

  const BACKPRESSURE: Failure := "goai: realtime backpressure limit reached"

  /** Where consume is. Publishing, it blocks when the queue is full. Leaving, it first cancels
      all tools and then signs off. */
  datatype Consumer =
    | Waiting
    | Handling(e: Event)
    | Publishing(e: Event)
    | Blocked(e: Event)
    | Exiting
    | SigningOff
    | Gone

  /** Where a tool's goroutine is. Sending, it has found its context not canceled and is on its
      way to send the result. Its deferred calls unregister it, give the slot back and sign off. */
  datatype Phase = Queued | Acquired | Running | Sending | Sent | Unregistered | Released | Ended

  /** A context ends once, by a cancellation or by its deadline. */
  datatype Context = Open | Canceled | Expired

  datatype Tool = Tool(id: string, phase: Phase, context: Context, answered: bool)

  /** The queue of events holds what is published and not read yet. A fault is a panic of the
      runtime: a misuse of the wait group, of a channel or of the slots. */
  datatype Session = Session(
    slots: nat, capacity: nat, source: seq<Event>, taken: nat, consumer: Consumer, tools: seq<Tool>, wait: nat,
    held: nat, cancels: map<string, nat>, published: seq<Event>, read: nat, results: seq<nat>, context: Context,
    error: Option<Failure>, closed: bool, done: bool, fault: bool)

  /** A new session, with the consumer started. */
  function Started(slots: nat, capacity: nat, source: seq<Event>): Session {
    Session(slots, capacity, source, 0, Waiting, [], 1, 0, map[], [], 0, [], Open, None, false, false, false)
  }

  datatype Action =
    | Receive
    | SourceEnds(failure: Option<Failure>)
    | NoticeCancel
    | Handle
    | Publish
    | Block
    | GiveUp
    | TimeOut
    | CancelAll
    | SignOff
    | Acquire(i: nat)
    | Register(i: nat)
    | Abandon(i: nat)
    | Expire(i: nat)
    | Check(i: nat)
    | Send(i: nat, failure: Option<Failure>)
    | Unregister(i: nat)
    | Release(i: nat)
    | ToolSignsOff(i: nat)
    | Close(failure: Option<Failure>)
    | ContextEnds(why: Context)
    | ReadEvent
    | CloseEvents
    | CloseDone

  /** setErr: only the first error is kept. */
  function SetError(s: Session, failure: Option<Failure>): Session {
    if failure.Some? && s.error.None? then s.(error := failure) else s
  }

  /** WaitGroup.Add(1): adding to a group that may be waited for at zero is a misuse. */
  function AddOne(s: Session): Session {
    s.(wait := s.wait + 1, fault := s.fault || s.wait == 0)
  }

  /** WaitGroup.Done, which panics below zero. */
  function DoneOne(s: Session): Session {
    if s.wait == 0 then s.(fault := true) else s.(wait := s.wait - 1)
  }

  /** A send on a closed channel panics. */
  function SendEvent(s: Session, e: Event): Session {
    if s.closed then s.(fault := true) else s.(published := s.published + [e])
  }

  function SetTool(s: Session, i: nat, t: Tool): Session
    requires i < |s.tools|
  {
    s.(tools := s.tools[i := t])
  }

  function EndContext(t: Tool, why: Context): Tool {
    if t.context.Open? then t.(context := why) else t
  }

  /** cancelAllTools: those that are registered. */
  function CancelledTools(s: Session): seq<Tool> {
    seq(|s.tools|, i requires 0 <= i < |s.tools| =>
      if s.tools[i].id in s.cancels && s.cancels[s.tools[i].id] == i
      then EndContext(s.tools[i], Canceled) else s.tools[i])
  }

  /** The session's context ends, and with it those that the tools made from it. */
  function EndSession(s: Session, why: Context): Session {
    if s.context.Open?
    then s.(context := why, tools := seq(|s.tools|, i requires 0 <= i < |s.tools| => EndContext(s.tools[i], why)))
    else s
  }

  /** handleInternalEvent. */
  function HandleEvent(s: Session, e: Event): Session {
    match e
    case ToolCalled(id, _) => AddOne(s.(tools := s.tools + [Tool(id, Queued, Open, false)]))
    case ToolCancelled(id) =>
      if id != "" && id in s.cancels && s.cancels[id] < |s.tools|
      then SetTool(s, s.cancels[id], EndContext(s.tools[s.cancels[id]], Canceled)) else s
    case Plain(_) => s
  }

  predicate At(s: Session, i: nat, p: Phase) {
    i < |s.tools| && s.tools[i].phase == p
  }

  predicate HasRoom(s: Session) {
    |s.published| < s.read + s.capacity
  }

  /** What can happen; a select takes any case that is ready, its default if none is. */
  predicate Enabled(s: Session, a: Action) {
    match a
    case Receive => s.consumer.Waiting? && s.taken < |s.source|
    case SourceEnds(_) => s.consumer.Waiting?
    case NoticeCancel => s.consumer.Waiting? && !s.context.Open?
    case Handle => s.consumer.Handling?
    case Publish => (s.consumer.Publishing? || s.consumer.Blocked?) && HasRoom(s)
    case Block => s.consumer.Publishing? && !HasRoom(s) && s.context.Open?
    case GiveUp => (s.consumer.Publishing? || s.consumer.Blocked?) && !s.context.Open?
    case TimeOut => s.consumer.Blocked?
    case CancelAll => s.consumer.Exiting?
    case SignOff => s.consumer.SigningOff?
    case Acquire(i) => At(s, i, Queued) && s.held < s.slots
    case Register(i) => At(s, i, Acquired)
    case Abandon(i) => At(s, i, Queued) && !s.context.Open?
    case Expire(i) => i < |s.tools| && HasSlot(s.tools[i])
    case Check(i) => At(s, i, Running) && !s.tools[i].context.Canceled?
    case Send(i, _) => At(s, i, Sending)
    case Unregister(i) => At(s, i, Running) || At(s, i, Sent)
    case Release(i) => At(s, i, Unregistered)
    case ToolSignsOff(i) => At(s, i, Released)
    case Close(_) => true
    case ContextEnds(why) => !why.Open?
    case ReadEvent => s.read < |s.published|
    case CloseEvents => s.wait == 0 && !s.closed
    case CloseDone => s.closed && !s.done
  }

  function SentBy(s: Session, i: nat): Session
    requires i < |s.tools|
  {
    SetTool(s, i, s.tools[i].(phase := Sent, answered := true)).(results := s.results + [i])
  }

  /** A result that cannot be sent ends the session. */
  function AfterSend(s: Session, failure: Option<Failure>): Session {
    if failure.Some? then EndSession(SetError(s, failure), Canceled) else s
  }

  function Step(s: Session, a: Action): Session
    requires Enabled(s, a)
  {
    match a
    case Receive => s.(taken := s.taken + 1, consumer := Handling(s.source[s.taken]))
    case SourceEnds(failure) => SetError(s, failure).(consumer := Exiting)
    case NoticeCancel => s.(consumer := Exiting)
    case Handle => HandleEvent(s, s.consumer.e).(consumer := Publishing(s.consumer.e))
    case Publish => SendEvent(s, s.consumer.e).(consumer := Waiting)
    case Block => s.(consumer := Blocked(s.consumer.e))
    case GiveUp => s.(consumer := Exiting)
    case TimeOut => EndSession(SetError(s, Some(BACKPRESSURE)), Canceled).(consumer := Exiting)
    case CancelAll => s.(tools := CancelledTools(s), consumer := SigningOff)
    case SignOff => DoneOne(s).(consumer := Gone)
    case Acquire(i) => SetTool(s, i, s.tools[i].(phase := Acquired, context := s.context)).(held := s.held + 1)
    case Register(i) => SetTool(s, i, s.tools[i].(phase := Running)).(cancels := s.cancels[s.tools[i].id := i])
    case Abandon(i) => SetTool(s, i, s.tools[i].(phase := Released))
    case Expire(i) => SetTool(s, i, EndContext(s.tools[i], Expired))
    case Check(i) => SetTool(s, i, s.tools[i].(phase := Sending))
    case Send(i, failure) => AfterSend(SentBy(s, i), failure)
    case Unregister(i) =>
      SetTool(s, i, s.tools[i].(phase := Unregistered)).(cancels := s.cancels - {s.tools[i].id})
    case Release(i) =>
      SetTool(s, i, s.tools[i].(phase := Released)).(held := if s.held > 0 then s.held - 1 else 0,
                                                     fault := s.fault || s.held == 0)
    case ToolSignsOff(i) => DoneOne(SetTool(s, i, s.tools[i].(phase := Ended)))
    case Close(failure) =>
      var t := SetError(EndSession(s, Canceled), failure);
      t.(tools := CancelledTools(t))
    case ContextEnds(why) => EndSession(s, why)
    case ReadEvent => s.(read := s.read + 1)
    case CloseEvents => s.(closed := true)
    case CloseDone => s.(done := true)
  }

  /** Any scheduling: actions that cannot happen are passed over. */
  function Run(s: Session, actions: seq<Action>): Session {
    if actions == [] then s
    else
      var t := Run(s, actions[..|actions| - 1]);
      if Enabled(t, actions[|actions| - 1]) then Step(t, actions[|actions| - 1]) else t
  }

  // --------------------------------------------------------------- counting

  function Alive(tools: seq<Tool>): nat {
    if tools == [] then 0 else Alive(tools[..|tools| - 1]) + (if tools[|tools| - 1].phase.Ended? then 0 else 1)
  }

  predicate HasSlot(t: Tool) {
    t.phase.Acquired? || IsRunning(t.phase) || t.phase.Unregistered?
  }

  /** From its registration to its deferred calls. */
  predicate IsRunning(p: Phase) {
    p.Running? || p.Sending? || p.Sent?
  }

  function Holding(tools: seq<Tool>): nat {
    if tools == [] then 0 else Holding(tools[..|tools| - 1]) + (if HasSlot(tools[|tools| - 1]) then 1 else 0)
  }

  lemma {:induction false} Counts(tools: seq<Tool>, i: nat, t: Tool)
    requires i < |tools|
    ensures Alive(tools[i := t]) + (if tools[i].phase.Ended? then 0 else 1)
            == Alive(tools) + (if t.phase.Ended? then 0 else 1)
    ensures Holding(tools[i := t]) + (if HasSlot(tools[i]) then 1 else 0)
            == Holding(tools) + (if HasSlot(t) then 1 else 0)
  {
    var front, n := tools[..|tools| - 1], |tools| - 1;
    if i < n {
      Counts(front, i, t);
      assert tools[i := t][..n] == front[i := t];
    } else {
      assert tools[i := t][..n] == front;
    }
  }

  lemma {:induction false} SameCounts(tools: seq<Tool>, others: seq<Tool>)
    requires |tools| == |others| && forall i | 0 <= i < |tools| :: tools[i].phase == others[i].phase
    ensures Alive(tools) == Alive(others) && Holding(tools) == Holding(others)
  {
    if tools != [] {
      SameCounts(tools[..|tools| - 1], others[..|others| - 1]);
    }
  }

  lemma {:induction false} NoneAlive(tools: seq<Tool>)
    requires Alive(tools) == 0
    ensures Holding(tools) == 0 && forall i | 0 <= i < |tools| :: tools[i].phase.Ended?
  {
    if tools != [] {
      NoneAlive(tools[..|tools| - 1]);
    }
  }

  lemma {:induction false} OneHolds(tools: seq<Tool>, i: nat)
    requires i < |tools|
    ensures !tools[i].phase.Ended? ==> Alive(tools) > 0
    ensures HasSlot(tools[i]) ==> Holding(tools) > 0
  {
    if i < |tools| - 1 {
      OneHolds(tools[..|tools| - 1], i);
    }
  }

  // ------------------------------------------------------------ the invariant

  /** The event the consumer has in hand. */
  function InHand(c: Consumer): seq<Event> {
    if c.Handling? || c.Publishing? || c.Blocked? then [c.e] else []
  }

  predicate Leaving(c: Consumer) {
    c.Exiting? || c.SigningOff? || c.Gone?
  }

  /** Published, and then in hand, is what was taken; a leaving consumer may drop one event. */
  predicate InOrder(s: Session) {
    && s.taken <= |s.source| && s.published <= s.source
    && (if Leaving(s.consumer) then |s.published| <= s.taken <= |s.published| + 1
        else s.published + InHand(s.consumer) == s.source[..s.taken])
  }

  predicate QueueFits(s: Session) {
    s.read <= |s.published| <= s.read + s.capacity
  }

  /** The wait count is the number of goroutines that have not signed off. */
  predicate Counted(s: Session) {
    s.wait == (if s.consumer.Gone? then 0 else 1) + Alive(s.tools) && s.held == Holding(s.tools) <= s.slots
  }

  predicate Registered(s: Session) {
    forall id | id in s.cancels ::
      var i := s.cancels[id]; i < |s.tools| && IsRunning(s.tools[i].phase) && s.tools[i].id == id
  }

  /** Every tool call's result is sent at most once. */
  ghost predicate AnsweredOnce(s: Session) {
    && (forall j, k | 0 <= j < k < |s.results| :: s.results[j] != s.results[k])
    && (forall i: nat :: i in s.results <==> i < |s.tools| && s.tools[i].answered)
    && (forall i | 0 <= i < |s.tools| && MayAnswer(s.tools[i].phase) :: !s.tools[i].answered)
  }

  predicate MayAnswer(p: Phase) {
    p.Queued? || p.Acquired? || p.Running? || p.Sending?
  }

  predicate Core(s: Session) {
    && !s.fault && InOrder(s) && QueueFits(s) && Counted(s) && Registered(s)
    && (s.closed ==> s.wait == 0) && (s.done ==> s.closed)
  }

  ghost predicate Safe(s: Session) {
    Core(s) && AnsweredOnce(s)
  }

  /** What no step undoes. */
  predicate Keeps(s: Session, t: Session) {
    && t.source == s.source && t.slots == s.slots && t.capacity == s.capacity
    && (s.error.Some? ==> t.error == s.error) && (!s.context.Open? ==> t.context == s.context)
    && (s.wait == 0 ==> t.wait == 0)
    && s.published <= t.published && (s.closed ==> t.closed && t.published == s.published)
    && s.results <= t.results && s.read <= t.read && (s.done ==> t.done)
  }

  lemma KeepsOn(s: Session, t: Session, u: Session)
    requires Keeps(s, t) && Keeps(t, u)
    ensures Keeps(s, u)
  {
  }

  // ------------------------------------------- steps that leave the phases alone

  predicate SamePhases(ts: seq<Tool>, us: seq<Tool>) {
    && |us| == |ts|
    && forall i | 0 <= i < |ts| ::
         us[i].phase == ts[i].phase && us[i].id == ts[i].id && us[i].answered == ts[i].answered
  }

  /** t differs in contexts and the error only. */
  predicate Alike(s: Session, t: Session) {
    && t == s.(tools := t.tools, context := t.context, error := t.error)
    && SamePhases(s.tools, t.tools)
    && (s.error.Some? ==> t.error == s.error) && (!s.context.Open? ==> t.context == s.context)
  }

  lemma AlikeKeeps(s: Session, t: Session)
    requires Core(s) && Alike(s, t)
    ensures Core(t) && Keeps(s, t)
  {
    SameCounts(s.tools, t.tools);
  }

  lemma EndSessionAlike(s: Session, why: Context)
    ensures Alike(s, EndSession(s, why))
  {
  }

  lemma SetErrorAlike(s: Session, failure: Option<Failure>)
    ensures Alike(s, SetError(s, failure))
  {
  }

  lemma EndedAlike(s: Session, failure: Option<Failure>, why: Context)
    ensures Alike(s, EndSession(SetError(s, failure), why)) && Alike(s, SetError(EndSession(s, why), failure))
  {
    SetErrorAlike(s, failure);
    EndSessionAlike(SetError(s, failure), why);
    AlikeOn(s, SetError(s, failure), EndSession(SetError(s, failure), why));
    EndSessionAlike(s, why);
    SetErrorAlike(EndSession(s, why), failure);
    AlikeOn(s, EndSession(s, why), SetError(EndSession(s, why), failure));
  }

  lemma CancelledAlike(s: Session)
    ensures Alike(s, s.(tools := CancelledTools(s)))
  {
  }

  lemma AlikeOn(s: Session, t: Session, u: Session)
    requires Alike(s, t) && Alike(t, u)
    ensures Alike(s, u)
  {
  }

  /** Ways in which contexts end. */
  predicate EndsContexts(a: Action) {
    a.Expire? || a.Close? || a.ContextEnds?
  }

  lemma ContextsAlike(s: Session, a: Action)
    requires Enabled(s, a) && EndsContexts(a)
    ensures Alike(s, Step(s, a))
  {
    if a.Close? {
      var t := SetError(EndSession(s, Canceled), a.failure);
      EndedAlike(s, a.failure, Canceled);
      CancelledAlike(t);
      AlikeOn(s, t, Step(s, a));
    } else if a.ContextEnds? {
      EndedAlike(s, None, a.why);
    }
  }

  // ------------------------------------------------------------- the consumer

  predicate ByConsumer(a: Action) {
    || a.Receive? || a.SourceEnds? || a.NoticeCancel? || a.Handle? || a.Publish? || a.Block? || a.GiveUp? || a.TimeOut?
  }

  lemma AliveIsCounted(s: Session)
    requires Core(s) && !s.consumer.Gone?
    ensures s.wait > 0 && !s.closed
  {
  }

  lemma ReceiveKeeps(s: Session)
    requires Core(s) && Enabled(s, Receive)
    ensures Core(Step(s, Receive)) && Keeps(s, Step(s, Receive))
  {
    assert s.source[..s.taken + 1] == s.source[..s.taken] + [s.source[s.taken]];
  }

  lemma PublishKeeps(s: Session, a: Action)
    requires Core(s) && Enabled(s, a) && (a.Publish? || a.Block?)
    ensures Core(Step(s, a)) && Keeps(s, Step(s, a))
  {
    AliveIsCounted(s);
  }

  /** The consumer starts to leave, with an event in hand or none. */
  lemma LeavingKeeps(s: Session)
    requires Core(s) && !Leaving(s.consumer)
    ensures Core(s.(consumer := Exiting)) && Keeps(s, s.(consumer := Exiting))
  {
    assert |s.published| + |InHand(s.consumer)| == s.taken;
  }

  lemma ExitKeeps(s: Session, a: Action)
    requires Core(s) && Enabled(s, a) && (a.SourceEnds? || a.NoticeCancel? || a.GiveUp? || a.TimeOut?)
    ensures Core(Step(s, a)) && Keeps(s, Step(s, a))
  {
    var t := if a.SourceEnds? then SetError(s, a.failure)
             else if a.TimeOut? then EndSession(SetError(s, Some(BACKPRESSURE)), Canceled) else s;
    EndedAlike(s, Some(BACKPRESSURE), Canceled);
    AlikeKeeps(s, t);
    LeavingKeeps(t);
    KeepsOn(s, t, Step(s, a));
  }

  lemma CallHandled(s: Session, id: string)
    requires Core(s) && s.consumer.Handling?
    ensures var t := HandleEvent(s, ToolCalled(id, "")); Core(t) && Keeps(s, t)
  {
    var t := Tool(id, Queued, Open, false);
    AliveIsCounted(s);
    assert (s.tools + [t])[..|s.tools|] == s.tools;
  }

  lemma HandleKeeps(s: Session)
    requires Core(s) && Enabled(s, Handle)
    ensures Core(Step(s, Handle)) && Keeps(s, Step(s, Handle))
  {
    var t := HandleEvent(s, s.consumer.e);
    if s.consumer.e.ToolCalled? {
      CallHandled(s, s.consumer.e.id);
    } else {
      AlikeKeeps(s, t);
    }
    HandledKeeps(t);
    KeepsOn(s, t, Step(s, Handle));
  }

  lemma HandledKeeps(s: Session)
    requires Core(s) && s.consumer.Handling?
    ensures var t := s.(consumer := Publishing(s.consumer.e)); Core(t) && Keeps(s, t)
  {
  }

  // ------------------------------------------------------------- the tools

  /** What a tool's goroutine does, but for sending its result. */
  predicate ByTool(a: Action) {
    || a.Acquire? || a.Register? || a.Abandon? || a.Check? || a.Unregister? || a.Release? || a.ToolSignsOff?
  }

  lemma ToolCounts(s: Session, a: Action)
    requires Core(s) && Enabled(s, a) && ByTool(a)
    ensures var t := Step(s, a); !t.fault && Counted(t)
  {
    var t := Step(s, a);
    OneHolds(s.tools, a.i);
    Counts(s.tools, a.i, t.tools[a.i]);
    assert t.tools == s.tools[a.i := t.tools[a.i]];
  }

  lemma ToolRegistry(s: Session, a: Action)
    requires Core(s) && Enabled(s, a) && ByTool(a)
    ensures Registered(Step(s, a))
  {
  }

  lemma ToolKeeps(s: Session, a: Action)
    requires Core(s) && Enabled(s, a) && ByTool(a)
    ensures Core(Step(s, a)) && Keeps(s, Step(s, a))
  {
    ToolCounts(s, a);
    ToolRegistry(s, a);
    OneHolds(s.tools, a.i);
  }

  lemma SendKeeps(s: Session, i: nat, failure: Option<Failure>)
    requires Core(s) && Enabled(s, Send(i, failure))
    ensures Core(Step(s, Send(i, failure))) && Keeps(s, Step(s, Send(i, failure)))
  {
    var t := SentBy(s, i);
    Counts(s.tools, i, t.tools[i]);
    EndedAlike(t, failure, Canceled);
    AlikeKeeps(t, AfterSend(t, failure));
    KeepsOn(s, t, AfterSend(t, failure));
  }

  // --------------------------------------------------------------- every step

  lemma CancelAllKeeps(s: Session)
    requires Core(s) && s.consumer.Exiting?
    ensures Core(Step(s, CancelAll)) && Keeps(s, Step(s, CancelAll))
  {
    CancelledAlike(s);
    AlikeKeeps(s, s.(tools := CancelledTools(s)));
  }

  lemma EndKeeps(s: Session, a: Action)
    requires Core(s) && Enabled(s, a) && (a.SignOff? || a.ReadEvent? || a.CloseEvents? || a.CloseDone?)
    ensures Core(Step(s, a)) && Keeps(s, Step(s, a))
  {
  }

  lemma ConsumerKeeps(s: Session, a: Action)
    requires Core(s) && Enabled(s, a) && ByConsumer(a)
    ensures Core(Step(s, a)) && Keeps(s, Step(s, a))
  {
    match a
    case Receive => ReceiveKeeps(s);
    case Handle => HandleKeeps(s);
    case Publish => PublishKeeps(s, a);
    case Block => PublishKeeps(s, a);
    case _ => ExitKeeps(s, a);
  }

  lemma CoreKept(s: Session, a: Action)
    requires Core(s) && Enabled(s, a)
    ensures Core(Step(s, a)) && Keeps(s, Step(s, a))
  {
    if ByConsumer(a) {
      ConsumerKeeps(s, a);
    } else if EndsContexts(a) {
      ContextsAlike(s, a);
      AlikeKeeps(s, Step(s, a));
    } else if a.Send? {
      SendKeeps(s, a.i, a.failure);
    } else if a.CancelAll? {
      CancelAllKeeps(s);
    } else if a.SignOff? || a.ReadEvent? || a.CloseEvents? || a.CloseDone? {
      EndKeeps(s, a);
    } else {
      ToolKeeps(s, a);
    }
  }

  /** The same results; the same tools, and maybe new ones, with their answers; and what is
      canceled stays so. The tools but for `i` are where they were. */
  ghost predicate OthersStay(s: Session, t: Session, i: int) {
    && t.results == s.results && |t.tools| >= |s.tools|
    && (s.context.Canceled? ==> t.context.Canceled?)
    && (forall k | 0 <= k < |s.tools| ::
          && t.tools[k].answered == s.tools[k].answered
          && (s.tools[k].context.Canceled? && !s.tools[k].phase.Queued? ==> t.tools[k].context.Canceled?)
          && (k != i ==> t.tools[k].phase == s.tools[k].phase))
    && (forall k | |s.tools| <= k < |t.tools| :: !t.tools[k].answered)
  }

  lemma ConsumerStays(s: Session, a: Action)
    requires Enabled(s, a) && ByConsumer(a) && !a.TimeOut?
    ensures OthersStay(s, Step(s, a), -1)
  {
  }

  lemma EndSessionStays(s: Session, why: Context)
    ensures OthersStay(s, EndSession(s, why), -1)
  {
  }

  lemma SetErrorStays(s: Session, failure: Option<Failure>)
    ensures OthersStay(s, SetError(s, failure), -1) && SetError(s, failure).tools == s.tools
  {
  }

  lemma EndedStays(s: Session, failure: Option<Failure>, why: Context)
    ensures OthersStay(s, EndSession(SetError(s, failure), why), -1)
    ensures OthersStay(s, SetError(EndSession(s, why), failure), -1)
  {
    SetErrorStays(s, failure);
    EndSessionStays(SetError(s, failure), why);
    StaysOn(s, SetError(s, failure), EndSession(SetError(s, failure), why));
    EndSessionStays(s, why);
    SetErrorStays(EndSession(s, why), failure);
  }

  lemma CancelledStays(s: Session)
    ensures OthersStay(s, s.(tools := CancelledTools(s)), -1)
  {
  }

  lemma StaysOn(s: Session, t: Session, u: Session)
    requires OthersStay(s, t, -1) && OthersStay(t, u, -1) && |t.tools| == |s.tools|
    ensures OthersStay(s, u, -1)
  {
    forall k | 0 <= k < |s.tools|
      ensures s.tools[k].context.Canceled? && !s.tools[k].phase.Queued? ==> u.tools[k].context.Canceled?
    {
      assert t.tools[k].phase == s.tools[k].phase;
    }
  }

  lemma ContextsStay(s: Session, a: Action)
    requires Enabled(s, a) && EndsContexts(a)
    ensures OthersStay(s, Step(s, a), -1)
  {
    if a.Close? {
      var t := SetError(EndSession(s, Canceled), a.failure);
      EndedStays(s, a.failure, Canceled);
      CancelledStays(t);
      StaysOn(s, t, Step(s, a));
    } else if a.ContextEnds? {
      EndedStays(s, None, a.why);
    }
  }

  lemma ToolMoves(s: Session, a: Action)
    requires Enabled(s, a) && ByTool(a)
    ensures var t := Step(s, a);
            && t.results == s.results && t.context == s.context && t.tools == s.tools[a.i := t.tools[a.i]]
            && t.tools[a.i].answered == s.tools[a.i].answered
            && (!a.Acquire? ==> t.tools[a.i].context == s.tools[a.i].context)
  {
  }

  lemma ToolStays(s: Session, a: Action)
    requires Enabled(s, a) && ByTool(a)
    ensures OthersStay(s, Step(s, a), a.i)
  {
    ToolMoves(s, a);
  }

  lemma AllStay(s: Session, a: Action)
    requires Enabled(s, a) && !a.Send? && !ByTool(a)
    ensures OthersStay(s, Step(s, a), -1)
  {
    if a.TimeOut? {
      EndedStays(s, Some(BACKPRESSURE), Canceled);
    } else if ByConsumer(a) {
      ConsumerStays(s, a);
    } else if EndsContexts(a) {
      ContextsStay(s, a);
    } else if a.CancelAll? {
      CancelledStays(s);
    } else {
      EndStays(s, a);
    }
  }

  lemma EndStays(s: Session, a: Action)
    requires Enabled(s, a) && (a.SignOff? || a.ReadEvent? || a.CloseEvents? || a.CloseDone?)
    ensures OthersStay(s, Step(s, a), -1)
  {
  }

  lemma AnswersKept(s: Session, a: Action)
    requires AnsweredOnce(s) && Enabled(s, a)
    ensures AnsweredOnce(Step(s, a))
  {
    if a.Send? {
      SentOnce(s, a.i, a.failure);
    } else if ByTool(a) {
      ToolStays(s, a);
      ToolAnswersKept(s, a);
    } else {
      AllStay(s, a);
      StayingKeeps(s, Step(s, a));
    }
  }

  lemma ToolAnswersKept(s: Session, a: Action)
    requires AnsweredOnce(s) && Enabled(s, a) && ByTool(a) && OthersStay(s, Step(s, a), a.i)
    ensures AnsweredOnce(Step(s, a))
  {
    var t := Step(s, a);
    assert MayAnswer(t.tools[a.i].phase) ==> MayAnswer(s.tools[a.i].phase);
  }

  lemma StayingKeeps(s: Session, t: Session)
    requires AnsweredOnce(s) && OthersStay(s, t, -1)
    ensures AnsweredOnce(t)
  {
  }

  lemma SentOnce(s: Session, i: nat, failure: Option<Failure>)
    requires AnsweredOnce(s) && Enabled(s, Send(i, failure))
    ensures AnsweredOnce(Step(s, Send(i, failure)))
  {
    var t := SentBy(s, i);
    assert i !in s.results;
    forall k: nat ensures k in t.results <==> k < |t.tools| && t.tools[k].answered {
      assert k in t.results <==> k in s.results || k == i;
    }
    assert AnsweredOnce(t);
    EndedAlike(t, failure, Canceled);
  }

  /** One step of any goroutine or user. */
  lemma StepKeeps(s: Session, a: Action)
    requires Safe(s) && Enabled(s, a)
    ensures Safe(Step(s, a)) && Keeps(s, Step(s, a))
  {
    CoreKept(s, a);
    AnswersKept(s, a);
  }

  // ------------------------------------------------------------- main results

  /** In every state that any scheduling reaches: no misuse of the wait group, the event
      channel or the slots; the tools holding a slot are no more than there are; the queue
      holds no more than it has room for; the wait count is the number of live goroutines; the
      published events are a prefix of the provider's; and each tool's result is sent at most
      once. */
  lemma EveryReachableStateIsSafe(slots: nat, capacity: nat, source: seq<Event>, actions: seq<Action>)
    ensures var s := Run(Started(slots, capacity, source), actions);
            Safe(s) && s.slots == slots && s.capacity == capacity && s.source == source
  {
    NothingIsUndone(Started(slots, capacity, source), actions);
  }

  /** From a safe state on, the first error and the end of the context stay, the wait count does
      not rise from zero, and nothing is published once the events are closed. */
  lemma {:induction false} NothingIsUndone(s: Session, actions: seq<Action>)
    requires Safe(s)
    ensures Safe(Run(s, actions)) && Keeps(s, Run(s, actions))
  {
    if actions != [] {
      var front, a := actions[..|actions| - 1], actions[|actions| - 1];
      NothingIsUndone(s, front);
      var t := Run(s, front);
      if Enabled(t, a) {
        StepKeeps(t, a);
        KeepsOn(s, t, Step(t, a));
      }
    }
  }

  /** When the events are closed all goroutines have ended, every slot is free and no tool is
      registered. */
  lemma ClosedIsQuiet(s: Session)
    requires Safe(s) && s.closed
    ensures s.consumer.Gone? && s.held == 0 && s.cancels == map[]
    ensures forall i | 0 <= i < |s.tools| :: s.tools[i].phase.Ended?
  {
    NoneAlive(s.tools);
    assert s.cancels.Keys == {};
  }

  // -------------------------------------------------- which results are sent

  ghost predicate CanBeSent(s: Session, i: nat) {
    exists actions :: i in Run(s, actions).results
  }

  /** A call whose context is not canceled, or was not when it was looked at. A call that waits
      for a slot will have the session's context. */
  predicate MaySend(s: Session, i: nat) {
    && i < |s.tools|
    && match s.tools[i].phase
       case Queued => !s.context.Canceled?
       case Acquired => !s.tools[i].context.Canceled?
       case Running => !s.tools[i].context.Canceled?
       case Sending => true
       case _ => false
  }

  lemma LostStays(s: Session, a: Action, i: nat)
    requires Safe(s) && Enabled(s, a) && i < |s.tools| && i !in s.results && !MaySend(s, i)
    ensures var t := Step(s, a); i < |t.tools| && i !in t.results && !MaySend(t, i)
  {
    if a.Send? {
      assert a.i != i;
      EndedStays(SentBy(s, a.i), a.failure, Canceled);
    } else if ByTool(a) {
      ToolStays(s, a);
      LostByTool(s, a, i);
    } else {
      AllStay(s, a);
    }
  }

  lemma LostByTool(s: Session, a: Action, i: nat)
    requires Enabled(s, a) && ByTool(a) && OthersStay(s, Step(s, a), a.i)
    requires i < |s.tools| && !MaySend(s, i)
    ensures !MaySend(Step(s, a), i)
  {
  }

  lemma {:induction false} LostIsNotSent(s: Session, i: nat, actions: seq<Action>)
    requires Safe(s) && i < |s.tools| && i !in s.results && !MaySend(s, i)
    ensures var t := Run(s, actions); i < |t.tools| && i !in t.results && !MaySend(t, i)
  {
    if actions != [] {
      var front, a := actions[..|actions| - 1], actions[|actions| - 1];
      LostIsNotSent(s, i, front);
      NothingIsUndone(s, front);
      if Enabled(Run(s, front), a) {
        LostStays(Run(s, front), a, i);
      }
    }
  }

  lemma {:induction false} RunCons(s: Session, a: Action, actions: seq<Action>)
    requires Enabled(s, a)
    ensures Run(s, [a] + actions) == Run(Step(s, a), actions)
  {
    if actions == [] {
      assert ([a] + actions)[..0] == [];
    } else {
      RunCons(s, a, actions[..|actions| - 1]);
      assert ([a] + actions)[..|actions|] == [a] + actions[..|actions| - 1];
    }
  }

  lemma SendsAfter(s: Session, a: Action, i: nat)
    requires Enabled(s, a) && CanBeSent(Step(s, a), i)
    ensures CanBeSent(s, i)
  {
    var actions :| i in Run(Step(s, a), actions).results;
    RunCons(s, a, actions);
  }

  lemma RunningCanBeSent(s: Session, i: nat)
    requires i < |s.tools| && MaySend(s, i) && !s.tools[i].phase.Queued?
    ensures CanBeSent(s, i)
    decreases if s.tools[i].phase.Acquired? then 2 else if s.tools[i].phase.Running? then 1 else 0
  {
    if s.tools[i].phase.Sending? {
      var t := Step(s, Send(i, None));
      assert i in Run(t, []).results;
      SendsAfter(s, Send(i, None), i);
    } else {
      var a := if s.tools[i].phase.Acquired? then Register(i) else Check(i);
      RunningCanBeSent(Step(s, a), i);
      SendsAfter(s, a, i);
    }
  }

  /** How far a tool is from giving its slot back. */
  function ToRelease(p: Phase): nat {
    match p
    case Acquired => 5
    case Running => 4
    case Sending => 3
    case Sent => 2
    case Unregistered => 1
    case _ => 0
  }

  function TowardsRelease(p: Phase, j: nat): Action {
    match p
    case Acquired => Register(j)
    case Sending => Send(j, None)
    case Unregistered => Release(j)
    case _ => Unregister(j)
  }

  /** With a slot taken by tool j, the call waits for its end. */
  lemma QueuedCanBeSent(s: Session, i: nat, j: nat)
    requires Safe(s) && s.slots > 0 && At(s, i, Queued) && MaySend(s, i)
    requires s.held == s.slots ==> j < |s.tools| && HasSlot(s.tools[j])
    ensures CanBeSent(s, i)
    decreases if j < |s.tools| then ToRelease(s.tools[j].phase) else 0
  {
    if s.held < s.slots {
      RunningCanBeSent(Step(s, Acquire(i)), i);
      SendsAfter(s, Acquire(i), i);
    } else {
      var a := TowardsRelease(s.tools[j].phase, j);
      StepKeeps(s, a);
      QueuedCanBeSent(Step(s, a), i, j);
      SendsAfter(s, a, i);
    }
  }

  lemma {:induction false} SomeHolder(tools: seq<Tool>) returns (j: nat)
    requires Holding(tools) > 0
    ensures j < |tools| && HasSlot(tools[j])
  {
    if HasSlot(tools[|tools| - 1]) {
      j := |tools| - 1;
    } else {
      j := SomeHolder(tools[..|tools| - 1]);
    }
  }

  /** Some scheduling sends a result that was not sent yet, exactly if its context is not
      canceled, or it was found so before: a call that is canceled between the check and the
      send is answered all the same. */
  lemma SentExactlyIf(s: Session, i: nat)
    requires Safe(s) && s.slots > 0 && i < |s.tools| && i !in s.results
    ensures CanBeSent(s, i) <==> MaySend(s, i)
  {
    if MaySend(s, i) {
      if At(s, i, Queued) {
        var j := 0;
        if s.held == s.slots {
          j := SomeHolder(s.tools);
        }
        QueuedCanBeSent(s, i, j);
      } else {
        RunningCanBeSent(s, i);
      }
    } else {
      forall actions ensures i !in Run(s, actions).results {
        LostIsNotSent(s, i, actions);
      }
    }
  }

  /** So a call that is marked as canceled can still be answered exactly if it is about to
      send. */
  lemma CancelledIsSentIfChecked(s: Session, i: nat)
    requires Safe(s) && s.slots > 0 && i < |s.tools| && i !in s.results
    requires s.tools[i].context.Canceled? && !s.tools[i].phase.Queued?
    ensures CanBeSent(s, i) <==> At(s, i, Sending)
  {
    SentExactlyIf(s, i);
  }

  // -------------------------------------------- which calls a cancellation marks

  /** The call that was the last to register under this id, if none has unregistered since. */
  function LastRegistered(s: Session, actions: seq<Action>, id: string): Option<nat> {
    if actions == [] then None
    else
      var front, a := actions[..|actions| - 1], actions[|actions| - 1];
      var t := Run(s, front);
      if a.Register? && Enabled(t, a) && t.tools[a.i].id == id then Some(a.i)
      else if a.Unregister? && Enabled(t, a) && t.tools[a.i].id == id then None
      else LastRegistered(s, front, id)
  }

  lemma RegistryStep(s: Session, a: Action)
    requires Enabled(s, a)
    ensures Step(s, a).cancels == if a.Register? then s.cancels[s.tools[a.i].id := a.i]
                                  else if a.Unregister? then s.cancels - {s.tools[a.i].id} else s.cancels
  {
    if a.Send? {
      EndedAlike(SentBy(s, a.i), a.failure, Canceled);
    } else if ByConsumer(a) {
      ConsumerRegistersNone(s, a);
    } else if EndsContexts(a) {
      ContextsAlike(s, a);
    } else if ByTool(a) {
      ToolRegisters(s, a);
    }
  }

  lemma ConsumerRegistersNone(s: Session, a: Action)
    requires Enabled(s, a) && ByConsumer(a)
    ensures Step(s, a).cancels == s.cancels
  {
    EndedAlike(s, Some(BACKPRESSURE), Canceled);
  }

  lemma ToolRegisters(s: Session, a: Action)
    requires Enabled(s, a) && ByTool(a)
    ensures Step(s, a).cancels == if a.Register? then s.cancels[s.tools[a.i].id := a.i]
                                  else if a.Unregister? then s.cancels - {s.tools[a.i].id} else s.cancels
  {
  }

  lemma {:induction false} RegistryIs(s: Session, actions: seq<Action>, id: string)
    requires s.cancels == map[]
    ensures var t := Run(s, actions);
            LastRegistered(s, actions, id) == if id in t.cancels then Some(t.cancels[id]) else None
  {
    if actions != [] {
      var front, a := actions[..|actions| - 1], actions[|actions| - 1];
      RegistryIs(s, front, id);
      if Enabled(Run(s, front), a) {
        RegistryStep(Run(s, front), a);
      }
    }
  }

  /** In every run, a cancellation that is handled marks the last call registered under its id,
      if that has not unregistered and the id is not empty, and no other: neither one that is not registered yet nor an
      earlier one with the same id. */
  lemma CancellationMarks(slots: nat, capacity: nat, source: seq<Event>, actions: seq<Action>, id: string)
    requires Run(Started(slots, capacity, source), actions).consumer == Handling(ToolCancelled(id))
    ensures var s := Run(Started(slots, capacity, source), actions);
            var t := Step(s, Handle);
            && |t.tools| == |s.tools|
            && forall i | 0 <= i < |s.tools| ::
                 t.tools[i] == if id != "" && LastRegistered(Started(slots, capacity, source), actions, id) == Some(i)
                               then EndContext(s.tools[i], Canceled) else s.tools[i]
  {
    RegistryIs(Started(slots, capacity, source), actions, id);
    EveryReachableStateIsSafe(slots, capacity, source, actions);
  }

  // ------------------------------------------------- a call and its cancellation

  lemma RunNext(s: Session, actions: seq<Action>, n: nat)
    requires n < |actions| && Enabled(Run(s, actions[..n]), actions[n])
    ensures Run(s, actions[..n + 1]) == Step(Run(s, actions[..n]), actions[n])
  {
    assert actions[..n + 1][..n] == actions[..n];
  }

  function Source(id: string): seq<Event> {
    [ToolCalled(id, ""), ToolCancelled(id)]
  }

  /** A session for a call and its cancellation. The call is in this phase with this context;
      so many of the two events were taken, and so many published. */
  function Calling(id: string, taken: nat, published: nat, consumer: Consumer, phase: Phase, context: Context): Session
    requires published <= 2
  {
    Started(1, 4, Source(id)).(
      taken := taken, published := Source(id)[..published], consumer := consumer, wait := 2,
      tools := [Tool(id, phase, context, phase.Sent?)], results := if phase.Sent? then [0] else [],
      held := if phase.Queued? then 0 else 1, cancels := if IsRunning(phase) then map[id := 0] else map[])
  }

  lemma Moves(id: string, n: nat, m: nat, c: Consumer, context: Context)
    requires m <= 2
    ensures Step(Calling(id, n, m, c, Queued, Open), Acquire(0)) == Calling(id, n, m, c, Acquired, Open)
    ensures Step(Calling(id, n, m, c, Acquired, Open), Register(0)) == Calling(id, n, m, c, Running, Open)
    ensures Step(Calling(id, n, m, c, Running, Open), Check(0)) == Calling(id, n, m, c, Sending, Open)
    ensures Step(Calling(id, n, m, c, Sending, context), Send(0, None)) == Calling(id, n, m, c, Sent, context)
  {
  }

  lemma Handles(id: string, phase: Phase)
    requires id != "" && (phase.Queued? || phase.Sending?)
    ensures var c := if phase.Sending? then Canceled else Open;
            Step(Calling(id, 2, 1, Handling(ToolCancelled(id)), phase, Open), Handle)
            == Calling(id, 2, 1, Publishing(ToolCancelled(id)), phase, c)
  {
  }

  /** A session that has taken the call. */
  function Begun(id: string, c: Consumer, tools: seq<Tool>): Session {
    Started(1, 4, Source(id)).(taken := 1, consumer := c, tools := tools, wait := 1 + |tools|)
  }

  lemma Begins(id: string)
    ensures var e, call := ToolCalled(id, ""), Tool(id, Queued, Open, false);
            && Step(Started(1, 4, Source(id)), Receive) == Begun(id, Handling(e), [])
            && Step(Begun(id, Handling(e), []), Handle) == Begun(id, Publishing(e), [call])
            && Step(Begun(id, Publishing(e), [call]), Publish) == Calling(id, 1, 1, Waiting, Queued, Open)
  {
    assert Source(id)[..1] == [] + [Source(id)[0]];
    assert [] + [Tool(id, Queued, Open, false)] == [Tool(id, Queued, Open, false)];
  }

  /** The call is received and its goroutine waits for a slot. */
  lemma CallStarts(s: Session, id: string, actions: seq<Action>)
    requires s == Started(1, 4, Source(id)) && |actions| > 3
    requires actions[0] == Receive && actions[1] == Handle && actions[2] == Publish
    ensures Run(s, actions[..3]) == Calling(id, 1, 1, Waiting, Queued, Open)
  {
    assert Run(s, actions[..0]) == s;
    Begins(id);
    RunNext(s, actions, 0);
    RunNext(s, actions, 1);
    RunNext(s, actions, 2);
  }

  /** Its goroutine gets a slot, registers, runs the tool and finds it not canceled. */
  lemma CallRuns(s: Session, actions: seq<Action>, k: nat, id: string, n: nat, c: Consumer)
    requires k + 3 <= |actions| && Run(s, actions[..k]) == Calling(id, n, 1, c, Queued, Open)
    requires actions[k] == Acquire(0) && actions[k + 1] == Register(0) && actions[k + 2] == Check(0)
    ensures Run(s, actions[..k + 3]) == Calling(id, n, 1, c, Sending, Open)
  {
    Moves(id, n, 1, c, Open);
    RunNext(s, actions, k);
    RunNext(s, actions, k + 1);
    RunNext(s, actions, k + 2);
  }

  lemma CallSends(s: Session, actions: seq<Action>, k: nat, id: string, n: nat, c: Consumer, context: Context)
    requires k + 1 == |actions| && Run(s, actions[..k]) == Calling(id, n, 1, c, Sending, context)
    requires actions[k] == Send(0, None)
    ensures Run(s, actions) == Calling(id, n, 1, c, Sent, context)
  {
    Moves(id, n, 1, c, context);
    RunNext(s, actions, k);
    assert actions[..k + 1] == actions;
  }

  /** The cancellation is received and handled. */
  lemma CancelHandled(s: Session, actions: seq<Action>, k: nat, id: string, phase: Phase)
    requires k + 2 <= |actions| && Run(s, actions[..k]) == Calling(id, 1, 1, Waiting, phase, Open)
    requires id != "" && (phase.Queued? || phase.Sending?) && actions[k] == Receive && actions[k + 1] == Handle
    ensures Run(s, actions[..k + 2])
            == Calling(id, 2, 1, Publishing(ToolCancelled(id)), phase, if phase.Sending? then Canceled else Open)
  {
    RunNext(s, actions, k);
    Handles(id, phase);
    RunNext(s, actions, k + 1);
  }

  /** Canceled between the check and the send, the call is answered. */
  lemma CancelledWhileSending(s: Session, id: string, actions: seq<Action>)
    requires s == Started(1, 4, Source(id)) && id != ""
    requires actions == [Receive, Handle, Publish, Acquire(0), Register(0), Check(0), Receive, Handle, Send(0, None)]
    ensures Run(s, actions[..8]) == Calling(id, 2, 1, Publishing(ToolCancelled(id)), Sending, Canceled)
    ensures Run(s, actions) == Calling(id, 2, 1, Publishing(ToolCancelled(id)), Sent, Canceled)
  {
    CallStarts(s, id, actions);
    CallRuns(s, actions, 3, id, 1, Waiting);
    CancelHandled(s, actions, 6, id, Sending);
    CallSends(s, actions, 8, id, 2, Publishing(ToolCancelled(id)), Canceled);
  }

  /** A cancellation that is handled before the call has registered marks nothing, and the call
      is answered. */
  lemma CancelledBeforeRegistration(s: Session, id: string, actions: seq<Action>)
    requires s == Started(1, 4, Source(id)) && id != ""
    requires actions == [Receive, Handle, Publish, Receive, Handle, Acquire(0), Register(0), Check(0), Send(0, None)]
    ensures Run(s, actions[..5]) == Calling(id, 2, 1, Publishing(ToolCancelled(id)), Queued, Open)
    ensures Run(s, actions) == Calling(id, 2, 1, Publishing(ToolCancelled(id)), Sent, Open)
  {
    CallStarts(s, id, actions);
    CancelHandled(s, actions, 3, id, Queued);
    CallRuns(s, actions, 5, id, 2, Publishing(ToolCancelled(id)));
    CallSends(s, actions, 8, id, 2, Publishing(ToolCancelled(id)), Open);
  }

  // ------------------------------------------------------------- the program

  /** The session. A scheduling picks what happens next: which goroutine goes on, and which of
      the ready cases its select takes. */
  class RealtimeSession {
    var state: Session

    constructor (slots: nat, capacity: nat, source: seq<Event>)
      ensures state == Started(slots, capacity, source) && Safe(state)
    {
      state := Started(slots, capacity, source);
    }

    /** Any scheduling of the goroutines and the users of a session that is safe, as a new
        one is: it stays safe, and what was final stays. */
    method Schedule(actions: seq<Action>)
      requires Safe(state)
      modifies this
      ensures state == Run(old(state), actions) && Safe(state) && Keeps(old(state), state)
      ensures state.closed ==> state.consumer.Gone? && state.held == 0 && state.cancels == map[]
    {
      for n := 0 to |actions|
        invariant state == Run(old(state), actions[..n]) && Safe(state)
      {
        assert actions[..n + 1][..n] == actions[..n];
        if Enabled(state, actions[n]) {
          StepKeeps(state, actions[n]);
          Perform(actions[n]);
        }
      }
      assert actions[..|actions|] == actions;
      NothingIsUndone(old(state), actions);
      if state.closed {
        ClosedIsQuiet(state);
      }
    }

    /** One goroutine, from one point where another may run to the next. */
    method Perform(a: Action)
      requires Core(state) && Enabled(state, a)
      modifies this
      ensures state == Step(old(state), a)
    {
      if a.CancelAll? {
        CancelAllTools();
        state := state.(consumer := SigningOff);
      } else if a.Close? {
        EndedAlike(state, a.failure, Canceled);
        AlikeKeeps(state, SetError(EndSession(state, Canceled), a.failure));
        state := SetError(EndSession(state, Canceled), a.failure);
        CancelAllTools();
      } else {
        state := Step(state, a);
      }
    }

    /** cancelAllTools: the registered functions are called one by one, in any order. */
    method CancelAllTools()
      requires Registered(state)
      modifies this
      ensures state == old(state).(tools := CancelledTools(old(state)))
    {
      var ids := state.cancels.Keys;
      ghost var s := state;
      while ids != {}
        invariant ids <= s.cancels.Keys && |state.tools| == |s.tools| && state == s.(tools := state.tools)
        invariant forall i | 0 <= i < |s.tools| ::
                    state.tools[i] == if s.tools[i].id in s.cancels && s.cancels[s.tools[i].id] == i
                                         && s.tools[i].id !in ids
                                      then EndContext(s.tools[i], Canceled) else s.tools[i]
        decreases ids
      {
        var id :| id in ids;
        var i := state.cancels[id];
        state := state.(tools := state.tools[i := EndContext(state.tools[i], Canceled)]);
        ids := ids - {id};
      }
    }
  }
}
