/**
 processOne and heartbeat (internal/worker/runner.go:97-175) as two processes that
 interleave freely: they share the cancellation of the job's context and a result
 channel with room for one message. The context may also be cancelled from outside.
 Store contract assumed: a Heartbeat called with a cancelled context fails.
 */
module WorkerRunner {
  datatype Message = NoError | LeaseLost

  datatype StoreCall = Complete | Retry | Fail

  /** Where processOne is. */
  datatype Main = Handling | Returned(failed: bool) | Receiving(failed: bool) | Deciding(failed: bool, message: Message) | Finished(message: Message)

  /** Where heartbeat is. */
  datatype Beat =
    | Selecting
    | Calling(cancelled: bool)  // whether the context was already cancelled when the call began
    | CallFailed
    | Cancelling
    | Sending(message: Message)
    | Exited

  datatype State = State(main: Main, beat: Beat, cancelled: bool, channel: seq<Message>, sent: nat, calls: seq<StoreCall>)

  datatype Step =
    | HandlerReturns(failed: bool)
    | MainCancels
    | MainReceives
    | MainDecides
    | OutsideCancels
    | BeatSeesDone
    | BeatTicks
    | CallReturns(ok: bool)
    | BeatChecksContext
    | BeatCancels
    | BeatSends

  const CAPACITY := 1

  /** NewRunner falls back to five attempts. */
  function EffectiveMaxAttempts(configured: int): int {
    if configured <= 0 then 5 else configured
  }

  function Decision(failed: bool, attempt: int, maxAttempts: int): StoreCall {
    if !failed then Complete else if attempt >= maxAttempts then Fail else Retry
  }

  predicate Enabled(s: State, step: Step) {
    match step
    case HandlerReturns(_) => s.main.Handling?
    case MainCancels => s.main.Returned?
    case MainReceives => s.main.Receiving? && s.channel != []
    case MainDecides => s.main.Deciding?
    case OutsideCancels => !s.cancelled
    case BeatSeesDone => s.beat.Selecting? && s.cancelled
    case BeatTicks => s.beat.Selecting?
    case CallReturns(ok) => s.beat.Calling? && (s.beat.cancelled ==> !ok)
    case BeatChecksContext => s.beat.CallFailed?
    case BeatCancels => s.beat.Cancelling?
    case BeatSends => s.beat.Sending? && |s.channel| < CAPACITY
  }

  function Next(s: State, step: Step, attempt: int, maxAttempts: int): State
    requires Enabled(s, step)
  {
    match step
    case HandlerReturns(failed) => s.(main := Returned(failed))
    case MainCancels => s.(main := Receiving(s.main.failed), cancelled := true)
    case MainReceives => s.(main := Deciding(s.main.failed, s.channel[0]), channel := s.channel[1..])
    case MainDecides =>
      s.(main := Finished(s.main.message),
         calls := if s.main.message == LeaseLost then s.calls else s.calls + [Decision(s.main.failed, attempt, maxAttempts)])
    case OutsideCancels => s.(cancelled := true)
    case BeatSeesDone => s.(beat := Sending(NoError))
    case BeatTicks => s.(beat := Calling(s.cancelled))
    case CallReturns(ok) => s.(beat := if ok then Selecting else CallFailed)
    case BeatChecksContext => s.(beat := if s.cancelled then Sending(NoError) else Cancelling)
    case BeatCancels => s.(beat := Sending(LeaseLost), cancelled := true)
    case BeatSends => s.(beat := Exited, channel := s.channel + [s.beat.message], sent := s.sent + 1)
  }

  const INITIAL := State(Handling, Selecting, false, [], 0, [])

  ghost predicate Legal(s: State, steps: seq<Step>, attempt: int, maxAttempts: int)
    decreases |steps|
  {
    steps == [] || (Enabled(s, steps[0]) && Legal(Next(s, steps[0], attempt, maxAttempts), steps[1..], attempt, maxAttempts))
  }

  ghost function Run(s: State, steps: seq<Step>, attempt: int, maxAttempts: int): State
    requires Legal(s, steps, attempt, maxAttempts)
    decreases |steps|
  {
    if steps == [] then s else Run(Next(s, steps[0], attempt, maxAttempts), steps[1..], attempt, maxAttempts)
  }

  // ---------------------------------------------------------------- the invariant

  predicate Received(main: Main) { main.Deciding? || main.Finished? }

  predicate Inv(s: State, attempt: int, maxAttempts: int) {
    && s.sent == (if s.beat.Exited? then 1 else 0)
    && |s.channel| == (if s.beat.Exited? && !Received(s.main) then 1 else 0)
    && (Received(s.main) ==> s.beat.Exited?)
    && (s.main.Receiving? || Received(s.main) ==> s.cancelled)
    && (s.beat.Calling? && s.beat.cancelled ==> s.cancelled)
    && (s.beat == Sending(LeaseLost) || LeaseLost in s.channel ==> s.cancelled)
    && (s.main.Finished? && s.main.message == NoError ==>
          exists failed :: s.calls == [Decision(failed, attempt, maxAttempts)])
    && (!s.main.Finished? || s.main.message == LeaseLost ==> s.calls == [])
  }

  lemma InvStep(s: State, step: Step, attempt: int, maxAttempts: int)
    requires Inv(s, attempt, maxAttempts) && Enabled(s, step)
    ensures Inv(Next(s, step, attempt, maxAttempts), attempt, maxAttempts)
  {
  }

  lemma {:induction false} InvRun(s: State, steps: seq<Step>, attempt: int, maxAttempts: int)
    requires Inv(s, attempt, maxAttempts) && Legal(s, steps, attempt, maxAttempts)
    ensures Inv(Run(s, steps, attempt, maxAttempts), attempt, maxAttempts)
    decreases |steps|
  {
    if steps != [] {
      InvStep(s, steps[0], attempt, maxAttempts);
      InvRun(Next(s, steps[0], attempt, maxAttempts), steps[1..], attempt, maxAttempts);
    }
  }

  predicate Failing(main: Main, failed: bool) {
    match main
    case Returned(f) => f == failed
    case Receiving(f) => f == failed
    case Deciding(f, _) => f == failed
    case _ => true
  }

  /** The handler returns at most once, and what it returned is what the decision is based on. */
  lemma {:induction false} DecisionFollowsHandler(s: State, steps: seq<Step>, attempt: int, maxAttempts: int, failed: bool)
    requires Inv(s, attempt, maxAttempts) && Legal(s, steps, attempt, maxAttempts)
    requires if s.main.Handling? then HandlerReturns(failed) in steps else Failing(s.main, failed)
    requires s.main.Finished? && s.main.message == NoError ==> s.calls == [Decision(failed, attempt, maxAttempts)]
    ensures var end := Run(s, steps, attempt, maxAttempts);
            end.main.Finished? && end.main.message == NoError ==> end.calls == [Decision(failed, attempt, maxAttempts)]
    decreases |steps|
  {
    if steps != [] {
      var t := Next(s, steps[0], attempt, maxAttempts);
      InvStep(s, steps[0], attempt, maxAttempts);
      if s.main.Handling? && steps[0].HandlerReturns? && steps[0].failed != failed {
        ReturnsOnlyOnce(t, steps[1..], attempt, maxAttempts, failed);
        assert false;
      }
      DecisionFollowsHandler(t, steps[1..], attempt, maxAttempts, failed);
    }
  }

  lemma {:induction false} ReturnsOnlyOnce(s: State, steps: seq<Step>, attempt: int, maxAttempts: int, failed: bool)
    requires Legal(s, steps, attempt, maxAttempts) && !s.main.Handling?
    ensures HandlerReturns(failed) !in steps
    decreases |steps|
  {
    if steps != [] {
      ReturnsOnlyOnce(Next(s, steps[0], attempt, maxAttempts), steps[1..], attempt, maxAttempts, failed);
      assert steps == [steps[0]] + steps[1..];
    }
  }

  /**
   In every interleaving that ends: exactly one message was sent and received;
   if it was an error no store call is made, otherwise exactly one, and it is Fail
   exactly when the handler failed on an attempt that reached the maximum.
   */
  lemma ExactlyOneOutcome(steps: seq<Step>, attempt: int, configured: int, failed: bool)
    requires var max := EffectiveMaxAttempts(configured); Legal(INITIAL, steps, attempt, max)
    requires Run(INITIAL, steps, attempt, EffectiveMaxAttempts(configured)).main.Finished?
    requires HandlerReturns(failed) in steps
    ensures var max := EffectiveMaxAttempts(configured);
            var end := Run(INITIAL, steps, attempt, max);
            && end.sent == 1 && end.channel == [] && end.beat.Exited?
            && (end.main.message == LeaseLost ==> end.calls == [])
            && (end.main.message == NoError ==>
                  && |end.calls| == 1
                  && (end.calls[0] == Complete <==> !failed)
                  && (end.calls[0] == Fail <==> failed && attempt >= (if configured <= 0 then 5 else configured))
                  && (end.calls[0] == Retry <==> failed && attempt < (if configured <= 0 then 5 else configured)))
  {
    var max := EffectiveMaxAttempts(configured);
    InvRun(INITIAL, steps, attempt, max);
    DecisionFollowsHandler(INITIAL, steps, attempt, max, failed);
  }

  // ---------------------------------------------------------------- when a lease counts as lost

  /** Some heartbeat had failed and found its context live when it looked. */
  ghost predicate FailedLive(s: State, steps: seq<Step>, attempt: int, maxAttempts: int)
    requires Legal(s, steps, attempt, maxAttempts)
    decreases |steps|
  {
    steps != [] && ((steps[0].BeatChecksContext? && !s.cancelled) || FailedLive(Next(s, steps[0], attempt, maxAttempts), steps[1..], attempt, maxAttempts))
  }

  /** The loss is on its way to processOne, or has arrived. */
  predicate Lost(s: State) {
    || s.beat.Cancelling? || s.beat == Sending(LeaseLost) || LeaseLost in s.channel
    || (s.main.Deciding? && s.main.message == LeaseLost) || (s.main.Finished? && s.main.message == LeaseLost)
  }

  lemma LostStep(s: State, step: Step, attempt: int, maxAttempts: int)
    requires Inv(s, attempt, maxAttempts) && Enabled(s, step)
    ensures Lost(Next(s, step, attempt, maxAttempts)) <==> Lost(s) || (step.BeatChecksContext? && !s.cancelled)
  {
    if step.BeatSends? {
      assert s.channel == [] && s.channel + [s.beat.message] == [s.beat.message];
    }
    if step.MainReceives? {
      assert s.channel == [s.channel[0]] && s.channel[1..] == [];
    }
  }

  lemma {:induction false} LostAfterIff(s: State, steps: seq<Step>, attempt: int, maxAttempts: int)
    requires Inv(s, attempt, maxAttempts) && Legal(s, steps, attempt, maxAttempts)
    ensures Lost(Run(s, steps, attempt, maxAttempts)) <==> Lost(s) || FailedLive(s, steps, attempt, maxAttempts)
    decreases |steps|
  {
    hide Lost, Inv, Enabled, Next;
    if steps != [] {
      LostStep(s, steps[0], attempt, maxAttempts);
      InvStep(s, steps[0], attempt, maxAttempts);
      LostAfterIff(Next(s, steps[0], attempt, maxAttempts), steps[1..], attempt, maxAttempts);
    }
  }

  /**
   processOne receives an error exactly if some heartbeat failed while the context was
   live, that is for another reason than the end of the job; then the context was
   cancelled before the error was sent.
   */
  lemma LeaseIsLostIff(steps: seq<Step>, attempt: int, maxAttempts: int)
    requires Legal(INITIAL, steps, attempt, maxAttempts) && Run(INITIAL, steps, attempt, maxAttempts).main.Finished?
    ensures Run(INITIAL, steps, attempt, maxAttempts).main.message == LeaseLost <==> FailedLive(INITIAL, steps, attempt, maxAttempts)
  {
    InvRun(INITIAL, steps, attempt, maxAttempts);
    LostAfterIff(INITIAL, steps, attempt, maxAttempts);
    var end := Run(INITIAL, steps, attempt, maxAttempts);
    assert end.channel == [];
  }

  /** At any moment: an error that is sent or waits was preceded by the cancellation. */
  lemma LossCancelsFirst(steps: seq<Step>, attempt: int, maxAttempts: int)
    requires Legal(INITIAL, steps, attempt, maxAttempts)
    ensures var end := Run(INITIAL, steps, attempt, maxAttempts);
            end.beat == Sending(LeaseLost) || LeaseLost in end.channel ==> end.cancelled
  {
    InvRun(INITIAL, steps, attempt, maxAttempts);
  }

  // ---------------------------------------------------------------- nobody waits for ever

  function MainRank(main: Main): nat {
    match main
    case Handling => 4
    case Returned(_) => 3
    case Receiving(_) => 2
    case Deciding(_, _) => 1
    case Finished(_) => 0
  }

  /** Bounds the steps heartbeat can still take once the context is cancelled. */
  function BeatRank(beat: Beat): nat {
    match beat
    case Calling(cancelled) => if cancelled then 4 else 6
    case Selecting => 5
    case CallFailed => 3
    case Cancelling => 2
    case Sending(_) => 1
    case Exited => 0
  }

  function Rank(s: State): nat { MainRank(s.main) + BeatRank(s.beat) }

  /** The send never blocks, and processOne is never stuck: whoever it waits for can move. */
  lemma SomebodyCanMove(s: State, attempt: int, maxAttempts: int)
    requires Inv(s, attempt, maxAttempts) && !s.main.Finished? && !s.main.Handling?
    ensures s.beat.Sending? ==> Enabled(s, BeatSends)
    ensures exists step :: Enabled(s, step) && !step.OutsideCancels?
    ensures s.main.Receiving? && s.channel == [] ==>
              Enabled(s, BeatSeesDone) || Enabled(s, CallReturns(false)) || Enabled(s, BeatChecksContext)
              || Enabled(s, BeatCancels) || Enabled(s, BeatSends)
  {
    match s.main
    case Returned(_) => assert Enabled(s, MainCancels);
    case Deciding(_, _) => assert Enabled(s, MainDecides);
    case Receiving(_) =>
      match s.beat
      case Selecting => assert Enabled(s, BeatSeesDone);
      case Calling(_) => assert Enabled(s, CallReturns(false));
      case CallFailed => assert Enabled(s, BeatChecksContext);
      case Cancelling => assert Enabled(s, BeatCancels);
      case Sending(_) => assert Enabled(s, BeatSends);
      case Exited => assert Enabled(s, MainReceives);
  }

  lemma CancelledStepsCountDown(s: State, step: Step, attempt: int, maxAttempts: int)
    requires Inv(s, attempt, maxAttempts) && s.cancelled && Enabled(s, step)
    ensures Next(s, step, attempt, maxAttempts).cancelled
    ensures Rank(Next(s, step, attempt, maxAttempts)) < Rank(s)
  {
  }

  /**
   Once processOne has cancelled the context, every interleaving is short: no run
   from there has more than Rank steps, so with SomebodyCanMove it always finishes.
   */
  lemma {:induction false} CancelledRunsAreShort(s: State, steps: seq<Step>, attempt: int, maxAttempts: int)
    requires Inv(s, attempt, maxAttempts) && s.cancelled && Legal(s, steps, attempt, maxAttempts)
    ensures |steps| <= Rank(s)
    decreases |steps|
  {
    if steps != [] {
      CancelledStepsCountDown(s, steps[0], attempt, maxAttempts);
      InvStep(s, steps[0], attempt, maxAttempts);
      CancelledRunsAreShort(Next(s, steps[0], attempt, maxAttempts), steps[1..], attempt, maxAttempts);
    }
  }

  /** A run that cannot be continued, after the handler returned, has finished processOne. */
  lemma MaximalRunsFinish(steps: seq<Step>, attempt: int, maxAttempts: int)
    requires Legal(INITIAL, steps, attempt, maxAttempts)
    requires forall step :: Enabled(Run(INITIAL, steps, attempt, maxAttempts), step) ==> step.OutsideCancels?
    ensures Run(INITIAL, steps, attempt, maxAttempts).main.Finished?
  {
    InvRun(INITIAL, steps, attempt, maxAttempts);
    var end := Run(INITIAL, steps, attempt, maxAttempts);
    assert end.main.Handling? == Enabled(end, HandlerReturns(false));
    if !end.main.Handling? && !end.main.Finished? {
      SomebodyCanMove(end, attempt, maxAttempts);
    }
  }
}
