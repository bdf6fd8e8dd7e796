/**
 * A capture device: its identity, its native reference and the fields of its
 * controller-loading state machine, which the main-actor event handlers
 * update in place.
 */
module CaptureDevices {
  import opened Wrappers
  import opened ControllerLoading

  /**
   * The platform's capture-device object: an opaque reference (compared by
   * identity) that carries the device's unique identifier and display name.
   */
  class NativeDevice {
    const uniqueID: string
    const localizedName: string

    constructor (uniqueID: string, localizedName: string)
      ensures this.uniqueID == uniqueID && this.localizedName == localizedName
    {
      this.uniqueID := uniqueID;
      this.localizedName := localizedName;
    }
  }

  /** The hardware work a read or write request hands to a background task. */
  datatype HardwareJob =
    | RefreshValues(controller: DeviceController)
    | WriteValues(controller: DeviceController)

  class CaptureDevice {
    const name: string
    const uniqueID: string
    const avDevice: NativeDevice?
    var controller: Option<DeviceController>
    var controllerState: ControllerState
    var controllerTask: Option<LoadTask>
    var controllerLoadGeneration: UInt64
    // How often the generation was advanced, and the attempts whose
    // completion is still to come (see ControllerLoading.Machine).
    ghost var epoch: nat
    ghost var outstanding: set<nat>

    /** The loading fields as a value. */
    function Fields(): Loader
      reads this
    {
      Loader(controller, controllerState, controllerTask, controllerLoadGeneration)
    }

    ghost function Snapshot(): Machine
      reads this
    {
      Machine(avDevice != null, Fields(), epoch, outstanding)
    }

    ghost predicate Valid()
      reads this
    {
      Coherent(Snapshot())
    }

    /** The device's identity is the one its native reference reports. */
    predicate IdentityMatchesNative()
    {
      avDevice != null ==> uniqueID == avDevice.uniqueID && name == avDevice.localizedName
    }

    constructor (avDevice: NativeDevice)
      ensures this.avDevice == avDevice && IdentityMatchesNative()
      ensures Valid() && Snapshot() == InitialMachine(true)
    {
      this.avDevice := avDevice;
      name := avDevice.localizedName;
      uniqueID := avDevice.uniqueID;
      controller := None;
      controllerState := Idle;
      controllerTask := None;
      controllerLoadGeneration := 0;
      epoch := 0;
      outstanding := {};
      new;
      InitialMachineCoherent(true);
    }

    /** A device with no native reference, for previews. */
    constructor Preview(name: string, uniqueID: string)
      ensures this.name == name && this.uniqueID == uniqueID && avDevice == null
      ensures Valid() && Snapshot() == InitialMachine(false)
    {
      avDevice := null;
      this.name := name;
      this.uniqueID := uniqueID;
      controller := None;
      controllerState := Idle;
      controllerTask := None;
      controllerLoadGeneration := 0;
      epoch := 0;
      outstanding := {};
      new;
      InitialMachineCoherent(false);
    }

    /**
     * `==`: devices are equal exactly when their unique identifiers are, and
     * then they feed the hasher the same input.
     */
    static function Equal(lhs: CaptureDevice, rhs: CaptureDevice): (eq: bool)
      ensures eq <==> lhs.uniqueID == rhs.uniqueID
      ensures eq <==> lhs.HashKey() == rhs.HashKey()
    {
      lhs.uniqueID == rhs.uniqueID
    }

    /** What `hash(into:)` feeds the hasher: the unique identifier alone, never the name. */
    function HashKey(): (key: string)
      ensures key == uniqueID
    {
      uniqueID
    }

    /** `isConfigurable`: a controller is present, which is to say the state is `loaded`. */
    function IsConfigurable(): (b: bool)
      reads this
      requires Valid()
      ensures b <==> controllerState == Loaded
      ensures b <==> controller.Some?
    {
      controller.Some?
    }

    /** `readValuesFromDevice`: refresh from the hardware, or nothing without a controller. */
    method ReadValuesFromDevice() returns (job: Option<HardwareJob>)
      ensures job.None? <==> controller.None?
      ensures controller.Some? ==> job == Some(RefreshValues(controller.value))
    {
      if controller.None? {
        return None;
      }
      job := Some(RefreshValues(controller.value));
    }

    /** `writeValuesToDevice`: push pending values, or nothing without a controller. */
    method WriteValuesToDevice() returns (job: Option<HardwareJob>)
      ensures job.None? <==> controller.None?
      ensures controller.Some? ==> job == Some(WriteValues(controller.value))
    {
      if controller.None? {
        return None;
      }
      job := Some(WriteValues(controller.value));
    }

    /**
     * `ensureControllerLoaded`: start a load attempt tagged with the next
     * generation, unless a controller exists, a task is in flight or there is
     * no native device. The attempt's watchdog and completion arrive later as
     * `WatchdogFire` and `CompleteLoad`.
     */
    method EnsureControllerLoaded()
      requires Valid()
      modifies this
      ensures Valid()
      ensures Snapshot() == Step(old(Snapshot()), EnsureCalled)
      ensures Fields() == EnsureLoaded(old(Fields()), avDevice != null)
    {
      if controller.Some? || controllerTask.Some? || avDevice == null {
        return;
      }
      ghost var before := Snapshot();
      controllerState := Loading;
      controllerLoadGeneration := WrappingIncrement(controllerLoadGeneration);
      var gen := controllerLoadGeneration;
      epoch := epoch + 1;
      outstanding := outstanding + {epoch};
      controllerTask := Some(LoadTask(gen));
      StepKeepsCoherent(before, EnsureCalled);
    }

    /** The watchdog of the attempt tagged `gen`, three seconds after it started. */
    method WatchdogFire(gen: UInt64)
      requires Valid()
      modifies this
      ensures Valid()
      ensures Snapshot() == Step(old(Snapshot()), WatchdogFired(gen))
      ensures Fields() == ControllerLoading.WatchdogFire(old(Fields()), gen)
    {
      if controllerLoadGeneration != gen || controller.Some? || controllerState != Loading {
        return;
      }
      ghost var before := Snapshot();
      controllerState := Failed(Some(TimeoutMessage));
      controllerLoadGeneration := WrappingIncrement(controllerLoadGeneration);
      epoch := epoch + 1;
      controllerTask := None;
      StepKeepsCoherent(before, WatchdogFired(gen));
    }

    /**
     * The completion of the attempt tagged `gen` (attempt number `attempt`)
     * reaching the main actor with what the background work built.
     */
    method CompleteLoad(gen: UInt64, dcResult: Option<DeviceController>, errorResult: Option<string>, ghost attempt: nat)
      requires Valid()
      requires Enabled(Snapshot(), InitCompleted(attempt, LoadResult(dcResult, errorResult)))
      requires gen == Tag(attempt)
      modifies this
      ensures Valid()
      ensures Snapshot() == Step(old(Snapshot()), InitCompleted(attempt, LoadResult(dcResult, errorResult)))
      ensures Fields() == Complete(old(Fields()), gen, LoadResult(dcResult, errorResult))
    {
      ghost var before := Snapshot();
      outstanding := outstanding - {attempt};
      StepKeepsCoherent(before, InitCompleted(attempt, LoadResult(dcResult, errorResult)));
      if controllerLoadGeneration != gen {
        return;
      }
      if dcResult.Some? {
        controller := dcResult;
        controllerState := Loaded;
      } else {
        controllerState := Failed(errorResult);
      }
      controllerTask := None;
    }
  }

  /** Equality of devices is an equivalence that ignores the display name. */
  lemma EqualityIsAnEquivalence(a: CaptureDevice, b: CaptureDevice, c: CaptureDevice)
    ensures CaptureDevice.Equal(a, a)
    ensures CaptureDevice.Equal(a, b) ==> CaptureDevice.Equal(b, a)
    ensures CaptureDevice.Equal(a, b) && CaptureDevice.Equal(b, c) ==> CaptureDevice.Equal(a, c)
    ensures a.uniqueID == b.uniqueID && a.name != b.name ==> CaptureDevice.Equal(a, b)
  {
  }

  /** Equal devices hash alike, and the hash depends on nothing but the identifier. */
  lemma EqualDevicesHashAlike(a: CaptureDevice, b: CaptureDevice)
    ensures CaptureDevice.Equal(a, b) <==> a.HashKey() == b.HashKey()
  {
  }
}
