/** The startup handshake: nine platform calls made strictly in order, the
    first failure ending the sequence with an error, and on full success a
    handle that owns the activated client and the mix format. The platform is
    an oracle: each call's outcome and the values it returns are given up
    front, and `Start` is a fold of those outcomes over the fixed step order. */
module Startup {
  import opened Wrappers
  import opened Native
  import opened BufferPolicy
  import CH = ClientHandle
  import Ownership

  /** The platform calls, in the order they are made. */
  datatype Step =
    | Initialise              // CoInitialize
    | CreateEnumerator        // CoCreateInstance of the device enumerator
    | ResolveDefaultEndpoint  // GetDefaultAudioEndpoint(render, console)
    | ActivateClient          // Activate, requesting IAudioClient3
    | QueryMixFormat          // GetMixFormat
    | QueryEnginePeriod       // GetSharedModeEnginePeriod
    | InitialiseStream        // InitializeSharedAudioStream
    | ElevatePriority         // AvSetMmThreadCharacteristics("Pro Audio")
    | StartStream             // IAudioClient3::Start

  const Order: seq<Step> :=
    [Initialise, CreateEnumerator, ResolveDefaultEndpoint, ActivateClient, QueryMixFormat,
     QueryEnginePeriod, InitialiseStream, ElevatePriority, StartStream]

  /** Where each step stands in `Order`. */
  function Position(s: Step): (i: nat)
    ensures i < |Order| && Order[i] == s
  {
    match s
    case Initialise => 0
    case CreateEnumerator => 1
    case ResolveDefaultEndpoint => 2
    case ActivateClient => 3
    case QueryMixFormat => 4
    case QueryEnginePeriod => 5
    case InitialiseStream => 6
    case ElevatePriority => 7
    case StartStream => 8
  }

  /** The literal positions `Prepared` and `Reached` use are those of the steps
      that return values: activation 3, mix format 4, engine period 5 and stream
      initialisation 6 (then priority 7 and stream start 8). */
  lemma PositionsOfAcquiringSteps()
    ensures Position(ActivateClient) == 3 && Position(QueryMixFormat) == 4
    ensures Position(QueryEnginePeriod) == 5 && Position(InitialiseStream) == 6
    ensures Position(ElevatePriority) == 7 && Position(StartStream) == 8
  {
  }

  /** Each step occurs once in `Order`: the step at index i is at position i. */
  lemma PositionOfOrder(i: nat)
    requires i < |Order|
    ensures Position(Order[i]) == i
  {
  }

  /** What each platform call answers. A call that returns a value succeeds
      exactly when the value is present; `taskHandle` is whether the scheduler
      returned a non-null task handle. */
  datatype Platform = Platform(
    initialised: bool,
    enumerator: bool,
    endpoint: bool,
    activation: Option<ClientId>,
    mixFormat: Option<FormatBlock>,
    enginePeriod: Option<EnginePeriod>,
    streamInitialised: bool,
    taskHandle: bool,
    streamStarted: bool)

  /** Whether the call `s` succeeds on platform `p`. */
  predicate Succeeds(p: Platform, s: Step)
  {
    match s
    case Initialise => p.initialised
    case CreateEnumerator => p.enumerator
    case ResolveDefaultEndpoint => p.endpoint
    case ActivateClient => p.activation.Some?
    case QueryMixFormat => p.mixFormat.Some?
    case QueryEnginePeriod => p.enginePeriod.Some?
    case InitialiseStream => p.streamInitialised
    case ElevatePriority => p.taskHandle
    case StartStream => p.streamStarted
  }

  /** The arguments of the shared-stream initialisation call: stream flags,
      buffer size in frames, and the format (no session GUID is passed). */
  datatype StreamRequest = StreamRequest(flags: nat, bufferFrames: U32, format: FormatBlock)

  /** What the sequence holds so far: the values returned by the calls made and
      the request the stream was initialised with. */
  datatype Session = Session(
    client: Option<ClientId>,
    format: Option<FormatBlock>,
    period: Option<EnginePeriod>,
    stream: Option<StreamRequest>)

  const Fresh: Session := Session(None, None, None, None)

  /** The session after the first k steps of `Order` have all succeeded. The
      positions are those `PositionsOfAcquiringSteps` checks against `Order`. */
  predicate Prepared(k: nat, ses: Session)
  {
    && (k > 3 <==> ses.client.Some?)
    && (k > 4 <==> ses.format.Some?)
    && (k > 5 <==> ses.period.Some?)
    && (k > 6 <==> ses.stream.Some?)
  }

  /** The session after n calls of `Order` were made, the last of which failed
      (or all nine succeeded): a call that returns a value and fails returns
      none, while the stream request is recorded as soon as the call is made. */
  predicate Reached(n: nat, ses: Session)
  {
    && (n > 4 <==> ses.client.Some?)
    && (n > 5 <==> ses.format.Some?)
    && (n > 6 <==> ses.period.Some?)
    && (n > 6 <==> ses.stream.Some?)
  }

  /** The session holds only what the platform returned, and any stream request
      is built from the queried period bounds and the mix format. */
  predicate Faithful(p: Platform, ses: Session)
  {
    && (ses.client.Some? ==> ses.client == p.activation)
    && (ses.format.Some? ==> ses.format == p.mixFormat)
    && (ses.period.Some? ==> ses.period == p.enginePeriod)
    && (ses.stream.Some? ==>
          && p.enginePeriod.Some? && p.mixFormat.Some?
          && ses.stream.value.flags == 0
          && ses.stream.value.format == p.mixFormat.value
          && ses.stream.value.bufferFrames
             == CalculateBufferSize(p.enginePeriod.value.minFrames, p.enginePeriod.value.maxFrames))
  }

  /** Makes call `Order[k]`: records what it returned, and for the stream initialisation
      the request it was made with (made whether or not it then succeeds). */
  function Invoke(p: Platform, k: nat, ses: Session): (r: Session)
    requires k < |Order| && Prepared(k, ses)
    ensures Succeeds(p, Order[k]) ==> Prepared(k + 1, r)
    ensures !Succeeds(p, Order[k]) ==> Reached(k + 1, r)
    ensures Faithful(p, ses) ==> Faithful(p, r)
  {
    match Order[k]
    case ActivateClient => ses.(client := p.activation)
    case QueryMixFormat => ses.(format := p.mixFormat)
    case QueryEnginePeriod => ses.(period := p.enginePeriod)
    case InitialiseStream =>
      var e := ses.period.value;
      ses.(stream := Some(StreamRequest(0, CalculateBufferSize(e.minFrames, e.maxFrames), ses.format.value)))
    case _ => ses
  }

  /** The calls made, the session they left, and whether every call succeeded. */
  datatype Transcript = Transcript(invoked: seq<Step>, session: Session, completed: bool)

  /** Performs steps k .. of `Order`, stopping at the first failure. */
  function Run(p: Platform, k: nat, ses: Session): (t: Transcript)
    requires k <= |Order| && Prepared(k, ses) && Faithful(p, ses)
    ensures k + |t.invoked| <= |Order|
    ensures forall j :: 0 <= j < |t.invoked| ==> t.invoked[j] == Order[k + j]
    ensures t.completed ==> Prepared(|Order|, t.session)
    ensures Reached(k + |t.invoked|, t.session)
    ensures Faithful(p, t.session)
    decreases |Order| - k
  {
    if k == |Order| then Transcript([], ses, true)
    else
      var ses' := Invoke(p, k, ses);
      if !Succeeds(p, Order[k]) then Transcript([Order[k]], ses', false)
      else
        var t := Run(p, k + 1, ses');
        Transcript([Order[k]] + t.invoked, t.session, t.completed)
  }

  /** The result of the handshake, together with what it did. */
  datatype Launch = Launch(invoked: seq<Step>, session: Session, result: Result<CH.Handle, WindowsError>)

  /** The handshake: every step in order; on full success, ownership of the
      activated client and the mix format moves into a new handle. */
  function Start(p: Platform): (r: Launch)
    ensures r.result.Ok? <==> forall j :: 0 <= j < |Order| ==> Succeeds(p, Order[j])
    ensures r.result.Ok? ==> p.activation.Some? && p.mixFormat.Some?
    ensures r.result.Ok? ==>
              && r.result.value == CH.Construct(p.activation.value, p.mixFormat.value)
              && CH.Live(r.result.value)
              && CH.Owned(r.result.value) == {ClientRes(p.activation.value), FormatRes(p.mixFormat.value.id)}
  {
    RunStopsAtFirstFailure(p, 0, Fresh);
    RunSucceedsUntilLast(p, 0, Fresh);
    var t := Run(p, 0, Fresh);
    var res := if t.completed
               then Ok(CH.Construct(t.session.client.value, t.session.format.value))
               else Err(WindowsError);
    Launch(t.invoked, t.session, res)
  }

  /** The first step of `Order`, from k on, that fails; `|Order|` when none
      does. This is the reference the fold is checked against. */
  function FirstFailureFrom(p: Platform, k: nat): (i: nat)
    requires k <= |Order|
    ensures k <= i <= |Order|
    ensures forall j :: k <= j < i ==> Succeeds(p, Order[j])
    ensures i < |Order| ==> !Succeeds(p, Order[i])
    decreases |Order| - k
  {
    if k == |Order| || !Succeeds(p, Order[k]) then k else FirstFailureFrom(p, k + 1)
  }

  function FirstFailure(p: Platform): nat
  {
    FirstFailureFrom(p, 0)
  }

  /** How many calls the handshake makes: up to and including the first failing
      one, or all of them. */
  function CallsMade(p: Platform): nat
  {
    var i := FirstFailure(p);
    if i < |Order| then i + 1 else |Order|
  }

  /** The fold makes exactly the calls up to and including the first failing
      one, and it completes exactly when no remaining step fails. */
  lemma {:induction false} RunStopsAtFirstFailure(p: Platform, k: nat, ses: Session)
    requires k <= |Order| && Prepared(k, ses) && Faithful(p, ses)
    ensures var t := Run(p, k, ses);
            && |t.invoked| == (if FirstFailureFrom(p, k) < |Order| then FirstFailureFrom(p, k) + 1 else |Order|) - k
            && (t.completed <==> FirstFailureFrom(p, k) == |Order|)
    decreases |Order| - k
  {
    if k < |Order| && Succeeds(p, Order[k]) {
      RunStopsAtFirstFailure(p, k + 1, Invoke(p, k, ses));
    }
  }

  /** Every call the fold makes but the last succeeded, and a run that did not
      complete ended on a failing call. */
  lemma {:induction false} RunSucceedsUntilLast(p: Platform, k: nat, ses: Session)
    requires k <= |Order| && Prepared(k, ses) && Faithful(p, ses)
    ensures var t := Run(p, k, ses);
            && (forall j :: 0 <= j < |t.invoked| - 1 ==> Succeeds(p, t.invoked[j]))
            && (!t.completed ==> |t.invoked| > 0 && !Succeeds(p, t.invoked[|t.invoked| - 1]))
    decreases |Order| - k
  {
    if k < |Order| && Succeeds(p, Order[k]) {
      RunSucceedsUntilLast(p, k + 1, Invoke(p, k, ses));
    }
  }

  /** The handshake makes the calls of `Order` up to and including the first
      failing one, in order, and no call after it; every call but the last
      succeeded, and a failed handshake ended on its failing call. */
  lemma StartStopsAtFirstFailure(p: Platform)
    ensures Start(p).invoked == Order[..CallsMade(p)]
    ensures forall j :: 0 <= j < |Start(p).invoked| - 1 ==> Succeeds(p, Start(p).invoked[j])
    ensures Start(p).result.Err? ==> !Succeeds(p, Start(p).invoked[|Start(p).invoked| - 1])
  {
    RunStopsAtFirstFailure(p, 0, Fresh);
    RunSucceedsUntilLast(p, 0, Fresh);
    var t := Run(p, 0, Fresh);
    assert Start(p).invoked == t.invoked;
    assert Start(p).result.Err? == !t.completed;
    assert forall j :: 0 <= j < |t.invoked| ==> t.invoked[j] == Order[..CallsMade(p)][j];
  }

  /** `StartStream` is the last step: only the whole of `Order` contains it. */
  lemma {:induction false} StartStreamIsLast(n: nat)
    requires n <= |Order|
    ensures StartStream in Order[..n] ==> n == |Order|
  {
    if StartStream in Order[..n] {
      var i :| 0 <= i < n && Order[..n][i] == StartStream;
      PositionOfOrder(i);
    }
  }

  /** When every call is made, every call but the last succeeded. */
  lemma AllCallsMadeAfterSuccesses(p: Platform)
    ensures CallsMade(p) == |Order| ==> forall j :: 0 <= j < |Order| - 1 ==> Succeeds(p, Order[j])
  {
    var f := FirstFailure(p);
    assert forall j :: 0 <= j < f ==> Succeeds(p, Order[j]);
  }

  /** The stream is started only after the priority elevation returned a task
      handle, and only when every earlier call succeeded. */
  lemma StreamStartedOnlyAfterPriority(p: Platform)
    ensures StartStream in Start(p).invoked ==>
              && p.taskHandle
              && ElevatePriority in Start(p).invoked
              && forall j :: 0 <= j < Position(StartStream) ==> Succeeds(p, Order[j])
    ensures Start(p).result.Ok? ==> p.taskHandle && p.streamStarted
  {
    StartStopsAtFirstFailure(p);
    StartStreamIsLast(CallsMade(p));
    AllCallsMadeAfterSuccesses(p);
    var e := Position(ElevatePriority);
    assert Succeeds(p, Order[e]) ==> p.taskHandle;
    if StartStream in Start(p).invoked {
      assert Start(p).invoked[e] == ElevatePriority;
    }
  }

  /** Whenever the stream initialisation is called, it is called with no flags,
      the mix format, and the clamp of the queried period bounds. */
  lemma StreamInitialisedWithClampedBuffer(p: Platform)
    ensures InitialiseStream in Start(p).invoked ==>
              && p.enginePeriod.Some? && p.mixFormat.Some?
              && Start(p).session.stream
                 == Some(StreamRequest(0, CalculateBufferSize(p.enginePeriod.value.minFrames,
                                                              p.enginePeriod.value.maxFrames),
                                       p.mixFormat.value))
  {
    var t := Run(p, 0, Fresh);
    assert Start(p).invoked == t.invoked && Start(p).session == t.session;
    if InitialiseStream in t.invoked {
      var i :| 0 <= i < |t.invoked| && t.invoked[i] == InitialiseStream;
      assert t.invoked[i] == Order[i];
      PositionOfOrder(i);
      assert t.session.stream.Some?;
    }
  }

  /** A property query on the handle a successful handshake returned reports
      the sample format the mix-format query returned during the handshake. */
  lemma PropertiesReportMixFormat(p: Platform, enginePeriod: Option<EnginePeriod>)
    requires Start(p).result.Ok?
    ensures var q := CH.GetProperties(Start(p).result.value, enginePeriod);
            q.Ok? ==> CH.WaveOf(q.value) == p.mixFormat.value.wave
  {
  }

  /** A gap the handshake leaves open: when a call after the mix-format query
      fails, the format descriptor was obtained but no handle takes it, so
      nothing will ever free it. */
  lemma MixFormatUnownedAfterLateFailure(p: Platform)
    requires Position(QueryMixFormat) < FirstFailure(p) < |Order|
    ensures p.mixFormat.Some?
    ensures Start(p).result.Err?
    ensures Start(p).session.format == p.mixFormat
  {
    StartStopsAtFirstFailure(p);
  }

  /** The handle a successful handshake returns is what the store's `Adopt`
      operation adds, and it may be adopted by any store that has not seen
      its two resources before (the platform hands out a new client and a new
      descriptor on each activation and format query). */
  lemma StartResultIsAdoptable(p: Platform, s: Ownership.Store)
    requires Start(p).result.Ok?
    requires ClientRes(p.activation.value) !in s.acquired
    requires FormatRes(p.mixFormat.value.id) !in s.acquired
    ensures var op := Ownership.Adopt(p.activation.value, p.mixFormat.value);
            && Ownership.Enabled(s, op)
            && Ownership.Apply(s, op).slots == s.slots + [Start(p).result.value]
            && Ownership.Apply(s, op).acquired == s.acquired + CH.Owned(Start(p).result.value)
  {
  }
}
