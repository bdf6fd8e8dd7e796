/**
 * The controller-loading state machine of a capture device, as values.
 *
 * A device holds an optional hardware controller, a lifecycle state, an
 * optional in-flight load task and a wrapping 64-bit load generation. Three
 * kinds of event change them, each one an atomic main-actor step:
 *   - a call of `ensureControllerLoaded`,
 *   - the 3-second watchdog of some attempt firing,
 *   - the background initialisation of some attempt handing back its result.
 * The class `CaptureDevices.CaptureDevice` performs these steps on its fields
 * and is proved to follow the functions of this module.
 */
module ControllerLoading {
  import opened Wrappers

  const UINT64_LIMIT: int := 0x1_0000_0000_0000_0000

  type UInt64 = x: int | 0 <= x < UINT64_LIMIT

  /** Swift's `&+= 1` on a `UInt64`: the largest value wraps round to zero. */
  function WrappingIncrement(g: UInt64): (r: UInt64)
    ensures r == (g + 1) % UINT64_LIMIT
    ensures r != g
  {
    if g == UINT64_LIMIT - 1 then 0 else g + 1
  }

  const TimeoutMessage: string := "UVC init timed out (> 3s)."
  const NilDeviceMessage: string := "UVC init returned nil device."
  const NoControlsMessage: string := "Unable to initialize camera controls."
  const ExceptionPrefix: string := "NSException: "

  datatype ControllerState = Idle | Loading | Loaded | Failed(message: Option<string>)

  /** The property set of an opened UVC session; opaque to this model. */
  datatype UvcProperties = UvcProperties(handle: nat)

  /** A native UVC session over a capture device. */
  datatype UvcDevice = UvcDevice(properties: UvcProperties)

  /** The hardware control facade, built from the (optional) UVC properties. */
  datatype DeviceController = DeviceController(properties: Option<UvcProperties>)

  /**
   * What the native calls of one load attempt did: the text of an Objective-C
   * exception caught around the UVC initialiser, if any; the UVC device it
   * produced, if any; and whether the controller facade could be built from
   * its properties.
   */
  datatype InitOutcome = InitOutcome(objcError: Option<string>, uvc: Option<UvcDevice>, controllerBuilds: bool)

  /** What a load attempt hands back to the main actor. */
  datatype LoadResult = LoadResult(controller: Option<DeviceController>, errorMsg: Option<string>)

  function PropertiesOf(uvc: Option<UvcDevice>): Option<UvcProperties>
  {
    if uvc.Some? then Some(uvc.value.properties) else None
  }

  /**
   * The background part of a load attempt: turn the native outcome into a
   * controller or an error message. The first applicable message wins: the
   * exception text, then the nil UVC device, then the facade that could not
   * be built.
   */
  function BuildLoadResult(o: InitOutcome): (r: LoadResult)
    ensures r.controller.Some? <==> o.controllerBuilds
    ensures r.controller.Some? ==> r.controller.value.properties == PropertiesOf(o.uvc)
    ensures r.controller.None? ==> r.errorMsg.Some?
    ensures o.objcError.Some? ==> r.errorMsg == Some(ExceptionPrefix + o.objcError.value)
    ensures o.objcError.None? && o.uvc.None? ==> r.errorMsg == Some(NilDeviceMessage)
    ensures o.objcError.None? && o.uvc.Some? ==>
              r.errorMsg == (if o.controllerBuilds then None else Some(NoControlsMessage))
  {
    var afterException := if o.objcError.Some? then Some(ExceptionPrefix + o.objcError.value) else None;
    var afterNilDevice := if o.uvc.None? && afterException.None? then Some(NilDeviceMessage) else afterException;
    var dc := if o.controllerBuilds then Some(DeviceController(PropertiesOf(o.uvc))) else None;
    var errorMsg := if dc.None? && afterNilDevice.None? then Some(NoControlsMessage) else afterNilDevice;
    LoadResult(dc, errorMsg)
  }

  /** A handle on the in-flight load task, tagged with its attempt's generation. */
  datatype LoadTask = LoadTask(tag: UInt64)

  /** The four loading fields of a capture device. */
  datatype Loader = Loader(
    controller: Option<DeviceController>,
    state: ControllerState,
    task: Option<LoadTask>,
    generation: UInt64)

  const InitialLoader: Loader := Loader(None, Idle, None, 0)

  /** The two invariants the loading fields keep between events. */
  predicate Consistent(l: Loader)
  {
    && (l.controller.Some? <==> l.state == Loaded)
    && (l.task.Some? <==> l.state == Loading)
  }

  /** `isConfigurable`: the device has a controller. */
  predicate Configurable(l: Loader)
  {
    l.controller.Some?
  }

  /** The guard of `ensureControllerLoaded`; the state is not consulted. */
  predicate ShouldStart(l: Loader, hasNative: bool)
  {
    l.controller.None? && l.task.None? && hasNative
  }

  /**
   * `ensureControllerLoaded`: unless there already is a controller, a task in
   * flight or no native device, start an attempt tagged with the next
   * generation.
   */
  function EnsureLoaded(l: Loader, hasNative: bool): (r: Loader)
    ensures !ShouldStart(l, hasNative) ==> r == l
    ensures ShouldStart(l, hasNative) ==>
              && r.state == Loading
              && r.generation == (l.generation + 1) % UINT64_LIMIT
              && r.task == Some(LoadTask(r.generation))
              && r.controller == l.controller
  {
    if ShouldStart(l, hasNative) then
      var gen := WrappingIncrement(l.generation);
      l.(state := Loading, generation := gen, task := Some(LoadTask(gen)))
    else
      l
  }

  /** The watchdog of the attempt tagged `tag` acts only on that attempt, still loading. */
  predicate WatchdogApplies(l: Loader, tag: UInt64)
  {
    l.generation == tag && l.controller.None? && l.state == Loading
  }

  /**
   * The watchdog firing: fail the attempt, invalidate its generation so that
   * its late completion is ignored, and drop the task.
   */
  function WatchdogFire(l: Loader, tag: UInt64): (r: Loader)
    ensures r.controller == l.controller
    ensures !WatchdogApplies(l, tag) ==> r == l
    ensures WatchdogApplies(l, tag) ==>
              && r.state == Failed(Some(TimeoutMessage))
              && r.task.None?
              && r.generation != tag
              && r.generation == (l.generation + 1) % UINT64_LIMIT
  {
    if WatchdogApplies(l, tag) then
      l.(state := Failed(Some(TimeoutMessage)), generation := WrappingIncrement(l.generation), task := None)
    else
      l
  }

  /**
   * A completion tagged `tag` reaching the main actor: ignored entirely unless
   * the generation is still `tag`; otherwise it installs the controller or
   * records the failure, and the task is over either way.
   */
  function Complete(l: Loader, tag: UInt64, result: LoadResult): (r: Loader)
    ensures l.generation != tag ==> r == l
    ensures r.generation == l.generation
    ensures l.generation == tag ==>
              && r.task.None?
              && (result.controller.Some? ==> r.controller == result.controller && r.state == Loaded)
              && (result.controller.None? ==> r.controller == l.controller && r.state == Failed(result.errorMsg))
  {
    if l.generation != tag then
      l
    else if result.controller.Some? then
      l.(controller := result.controller, state := Loaded, task := None)
    else
      l.(state := Failed(result.errorMsg), task := None)
  }

  // ---------------------------------------------------------------------
  // Arbitrary interleavings of events
  // ---------------------------------------------------------------------

  /**
   * A device's loading fields together with the history that explains them:
   * whether the device has a native reference, `epoch`, the number of times
   * the generation was advanced (so the generation is `epoch` modulo 2^64),
   * and the attempts (numbered by the epoch that started them) whose
   * completion has not reached the main actor yet.
   */
  datatype Machine = Machine(hasNative: bool, loader: Loader, epoch: nat, outstanding: set<nat>)

  function InitialMachine(hasNative: bool): Machine
  {
    Machine(hasNative, InitialLoader, 0, {})
  }

  /** The generation value with which attempt number `attempt` was tagged. */
  function Tag(attempt: nat): UInt64
  {
    attempt % UINT64_LIMIT
  }

  datatype Event =
    | EnsureCalled
    | WatchdogFired(tag: UInt64)
    | InitCompleted(attempt: nat, result: LoadResult)

  /**
   * Which events can happen: `ensureControllerLoaded` and any watchdog at any
   * time; a completion only for an attempt that was started and has not
   * completed yet, and before the generation has advanced 2^64 times since.
   */
  predicate Enabled(m: Machine, e: Event)
  {
    match e
    case InitCompleted(attempt, _) => attempt in m.outstanding && m.epoch - attempt < UINT64_LIMIT
    case _ => true
  }

  function Step(m: Machine, e: Event): (r: Machine)
    requires Enabled(m, e)
    ensures r.hasNative == m.hasNative
    ensures m.epoch <= r.epoch <= m.epoch + 1
  {
    match e
    case EnsureCalled =>
      if ShouldStart(m.loader, m.hasNative) then
        m.(loader := EnsureLoaded(m.loader, m.hasNative), epoch := m.epoch + 1,
           outstanding := m.outstanding + {m.epoch + 1})
      else
        m
    case WatchdogFired(tag) =>
      if WatchdogApplies(m.loader, tag) then
        m.(loader := WatchdogFire(m.loader, tag), epoch := m.epoch + 1)
      else
        m
    case InitCompleted(attempt, result) =>
      m.(loader := Complete(m.loader, Tag(attempt), result), outstanding := m.outstanding - {attempt})
  }

  /** The events of `es` in order; `None` if one of them could not have happened. */
  function Replay(m: Machine, es: seq<Event>): Option<Machine>
    decreases |es|
  {
    if es == [] then Some(m)
    else if !Enabled(m, es[0]) then None
    else Replay(Step(m, es[0]), es[1..])
  }

  /**
   * The invariant of the machine: the loading fields are consistent, the
   * generation is the epoch modulo 2^64, a task in flight carries the current
   * generation, and the device is loading exactly when the current attempt's
   * completion is still outstanding.
   */
  predicate Coherent(m: Machine)
  {
    && Consistent(m.loader)
    && m.loader.generation == Tag(m.epoch)
    && (m.loader.task.Some? ==> m.loader.task.value.tag == m.loader.generation)
    && (forall a :: a in m.outstanding ==> a <= m.epoch)
    && (m.loader.state == Loading <==> m.epoch in m.outstanding)
  }

  lemma InitialMachineCoherent(hasNative: bool)
    ensures Coherent(InitialMachine(hasNative))
    ensures InitialMachine(hasNative).loader.state == Idle
  {
  }

  lemma TagOfNext(epoch: nat)
    ensures Tag(epoch + 1) == WrappingIncrement(Tag(epoch))
  {
  }

  /** Two attempts fewer than 2^64 generations apart carry different tags. */
  lemma TagsDifferWithinWindow(a: nat, b: nat)
    requires a < b && b - a < UINT64_LIMIT
    ensures Tag(a) != Tag(b)
  {
  }

  /** Every event keeps the machine coherent. */
  lemma {:induction false} StepKeepsCoherent(m: Machine, e: Event)
    requires Coherent(m) && Enabled(m, e)
    ensures Coherent(Step(m, e))
  {
    match e
    case EnsureCalled =>
      TagOfNext(m.epoch);
    case WatchdogFired(tag) =>
      TagOfNext(m.epoch);
    case InitCompleted(attempt, result) =>
      if attempt != m.epoch {
        TagsDifferWithinWindow(attempt, m.epoch);
      }
  }

  /**
   * Across any sequence of events, a controller is present exactly when the
   * state is `loaded`, and a task is in flight exactly when it is `loading`.
   */
  lemma {:induction false} ReplayKeepsCoherent(m: Machine, es: seq<Event>)
    requires Coherent(m)
    ensures Replay(m, es).Some? ==> Coherent(Replay(m, es).value)
    ensures Replay(m, es).Some? ==> Consistent(Replay(m, es).value.loader)
    decreases |es|
  {
    if es != [] && Enabled(m, es[0]) {
      StepKeepsCoherent(m, es[0]);
      ReplayKeepsCoherent(Step(m, es[0]), es[1..]);
    }
  }

  /** A completion of any attempt but the current one changes no loading field. */
  lemma StaleCompletionIgnored(m: Machine, attempt: nat, result: LoadResult)
    requires Coherent(m) && Enabled(m, InitCompleted(attempt, result))
    requires attempt != m.epoch
    ensures Step(m, InitCompleted(attempt, result)).loader == m.loader
  {
    TagsDifferWithinWindow(attempt, m.epoch);
  }

  /**
   * Calling `ensureControllerLoaded` again right after a call changes nothing:
   * at most one attempt is ever in flight.
   */
  lemma EnsureIsIdempotent(m: Machine)
    requires Coherent(m)
    ensures Step(Step(m, EnsureCalled), EnsureCalled) == Step(m, EnsureCalled)
    ensures |Step(m, EnsureCalled).outstanding - m.outstanding| <= 1
  {
  }

  /**
   * An attempt whose native initialisation hangs: when its watchdog fires the
   * device has failed with the timeout message and is not configurable, and
   * the completion that arrives afterwards, with whatever result, leaves the
   * loading fields exactly as the watchdog left them.
   */
  lemma {:induction false} LateCompletionAfterWatchdog(m: Machine, result: LoadResult)
    requires Coherent(m) && ShouldStart(m.loader, m.hasNative)
    ensures
      var started := Step(m, EnsureCalled);
      var attempt := started.epoch;
      var timedOut := Step(started, WatchdogFired(started.loader.generation));
      && timedOut.loader.state == Failed(Some(TimeoutMessage))
      && !Configurable(timedOut.loader)
      && Enabled(timedOut, InitCompleted(attempt, result))
      && Step(timedOut, InitCompleted(attempt, result)).loader == timedOut.loader
  {
    var started := Step(m, EnsureCalled);
    StepKeepsCoherent(m, EnsureCalled);
    var timedOut := Step(started, WatchdogFired(started.loader.generation));
    StepKeepsCoherent(started, WatchdogFired(started.loader.generation));
    StaleCompletionIgnored(timedOut, started.epoch, result);
  }

  /**
   * An attempt whose initialisation succeeds before its watchdog: the device
   * is loaded and configurable, and the watchdog firing later changes nothing.
   */
  lemma {:induction false} SuccessfulLoad(m: Machine, dc: DeviceController, errorMsg: Option<string>)
    requires Coherent(m) && ShouldStart(m.loader, m.hasNative)
    ensures
      var started := Step(m, EnsureCalled);
      var done := Step(started, InitCompleted(started.epoch, LoadResult(Some(dc), errorMsg)));
      && done.loader.state == Loaded
      && done.loader.controller == Some(dc)
      && Configurable(done.loader)
      && Step(done, WatchdogFired(started.loader.generation)) == done
  {
    StepKeepsCoherent(m, EnsureCalled);
  }

  /**
   * After a failure no task is in flight, so the next `ensureControllerLoaded`
   * of a device with a native reference starts a new attempt.
   */
  lemma FailedIsRetried(m: Machine)
    requires Coherent(m) && m.loader.state.Failed? && m.hasNative
    ensures Step(m, EnsureCalled).loader.state == Loading
    ensures Step(m, EnsureCalled).epoch == m.epoch + 1
  {
  }
}
