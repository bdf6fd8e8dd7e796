# CameraController device lifecycle, modelled in Dafny

This project models the device lifecycle of the CameraController macOS app:

- **Controller loading** (`CaptureDevice`). Each capture device lazily builds a
  hardware controller (a UVC session wrapped in a `DeviceController`). It keeps
  four fields: the optional controller, a lifecycle state
  (`idle | loading | loaded | failed(message?)`), the in-flight load task, and
  a wrapping 64-bit load generation. Three main-actor steps change them:
  `ensureControllerLoaded`, the 3-second watchdog of an attempt, and the
  completion of an attempt. Each step is an atomic event here. The generation
  tag is compared at every mutation, so a stale completion is ignored.
- **Device registry** (`DevicesManager`). It holds an ordered list of devices
  and an optional selection. It reacts to connect and disconnect
  notifications. It keeps the identifier of the last selected device in the
  settings store and restores the selection from it at launch.

Files:

- `wrappers.dfy`: `Option`.
- `controller_loading.dfy` (module `ControllerLoading`): the loader as values.
  It holds the wrapping increment, the derivation of the error message, one
  function per event, and a `Machine` that pairs the fields with their
  history. That history is `epoch`, the unbounded count of generation bumps
  (the generation is `epoch` mod 2^64), plus the set of attempts whose
  completion is still outstanding. `Step` and `Replay` run events, and lemmas
  state what holds for every interleaving.
- `capture_device.dfy` (module `CaptureDevices`): the class `CaptureDevice`.
  Its methods update the fields in place, and each one is proved to perform
  exactly one `Step` of the machine.
- `device_manager.dfy` (module `DeviceManagement`): pure functions for the
  registry's searches and rules, lemmas about them, and the class
  `DevicesManager`, whose methods update `devices` and `selectedDevice` in place.

Inputs and outputs. The platform's enumeration and the notification payloads
are parameters: `seq<NativeDevice>` and `NativeDevice?`. `NativeDevice` is an
opaque reference carrying a unique identifier. The settings store is the field
`lastSelectedDevice`. Each `devicesUpdated` post increments
`devicesUpdatedPosts`. The native initialisation of an attempt is an abstract
`InitOutcome`: the caught exception text if any, the UVC device if any, and
whether a `DeviceController` can be built from it. Hardware reads and writes
are returned as a `HardwareJob` value.

Behaviour of the code worth noting:

- `ensureControllerLoaded` does not look at the state. After a failure no task
  is in flight, so the next call starts a new attempt. Failure is not terminal
  (see `ControllerLoading.FailedIsRetried`).
- There is one timeout, the 3-second watchdog. No shorter race timeout exists.
- Reselecting a device does not touch its generation.
- A disconnect does not invalidate a device's in-flight attempt. The device
  simply leaves the list.

## Model

| member | source | states |
|---|---|---|
| `ControllerLoading.WrappingIncrement` | CameraController/Devices/CaptureDevice.swift:92 | `&+= 1` on the UInt64 generation is +1 modulo 2^64, and the result always differs from the old generation |
| `ControllerLoading.BuildLoadResult` | CameraController/Devices/CaptureDevice.swift:116-135 | a controller results exactly when one can be built. Every missing controller comes with a message. The exception text ("NSException: …") takes precedence, then "UVC init returned nil device.", then "Unable to initialize camera controls." |
| `ControllerLoading.EnsureLoaded` | CameraController/Devices/CaptureDevice.swift:86-93 | no change when a controller exists, a task is in flight or there is no native device. Otherwise the state becomes `loading`, the generation advances by one mod 2^64, and a task tagged with the new generation is in flight |
| `ControllerLoading.WatchdogFire` | CameraController/Devices/CaptureDevice.swift:99-110 | acts only if the generation equals the tag, there is no controller and the state is `loading`. It then sets `failed("UVC init timed out (> 3s).")`, bumps the generation away from the tag and clears the task. Otherwise nothing changes, and the controller is never touched |
| `ControllerLoading.Complete` | CameraController/Devices/CaptureDevice.swift:140-149 | a completion whose tag is not the current generation changes nothing. Otherwise success installs the controller and sets `loaded`, failure sets `failed(message)`, and the task is cleared either way |
| `ControllerLoading.Step` | CameraController/Devices/CaptureDevice.swift:86-149 | an event never moves the generation count backwards and advances it by at most one |
| `ControllerLoading.InitialMachineCoherent` | CameraController/Devices/CaptureDevice.swift:21-24 | a new device is `idle` with no controller, no task and generation 0, which satisfies the invariant |
| `ControllerLoading.TagOfNext` | CameraController/Devices/CaptureDevice.swift:92 | the tag of the next attempt is the wrapped increment of the current generation |
| `ControllerLoading.TagsDifferWithinWindow` | CameraController/Devices/CaptureDevice.swift:101 | two attempts fewer than 2^64 bumps apart have different generation tags |
| `ControllerLoading.StepKeepsCoherent` | CameraController/Devices/CaptureDevice.swift:86-149 | every event keeps four facts. A controller is present iff the state is `loaded`. A task is in flight iff the state is `loading`, and it carries the current generation. The state is `loading` iff the current attempt's completion is still outstanding |
| `ControllerLoading.ReplayKeepsCoherent` | CameraController/Devices/CaptureDevice.swift:86-149 | across any sequence of ensure, watchdog and completion events: controller ≠ nil ⇔ `loaded`, and task in flight ⇔ `loading` |
| `ControllerLoading.StaleCompletionIgnored` | CameraController/Devices/CaptureDevice.swift:140-141 | the completion of any attempt other than the current one leaves all loading fields unchanged |
| `ControllerLoading.EnsureIsIdempotent` | CameraController/Devices/CaptureDevice.swift:87-89 | a second `ensureControllerLoaded` right after the first changes nothing. At most one attempt is added |
| `ControllerLoading.LateCompletionAfterWatchdog` | CameraController/Devices/CaptureDevice.swift:95-149 | after the watchdog fires on a hung attempt, the state is `failed` with the timeout message and the device is not configurable. The attempt's late completion, with any result, leaves the fields exactly as the watchdog left them |
| `ControllerLoading.SuccessfulLoad` | CameraController/Devices/CaptureDevice.swift:140-149 | a completion that arrives in time with a controller leaves the device `loaded` and configurable. Its watchdog firing later changes nothing |
| `ControllerLoading.FailedIsRetried` | CameraController/Devices/CaptureDevice.swift:87-93 | from `failed`, with a native device, the next `ensureControllerLoaded` starts a new attempt |
| `CaptureDevices.CaptureDevice.constructor` | CameraController/Devices/CaptureDevice.swift:33-37 | name and identifier come from the native device, and loading starts `idle` at generation 0 |
| `CaptureDevices.CaptureDevice.Preview` | CameraController/Devices/CaptureDevice.swift:48-52 | a device without a native reference, `idle` at generation 0 |
| `CaptureDevices.CaptureDevice.Equal` | CameraController/Devices/CaptureDevice.swift:39-41 | two devices are equal iff their unique identifiers are equal, which is also iff their hash inputs are equal; the name plays no part |
| `CaptureDevices.CaptureDevice.HashKey` | CameraController/Devices/CaptureDevice.swift:43-45 | the hasher is fed the unique identifier and nothing else |
| `CaptureDevices.EqualityIsAnEquivalence` | CameraController/Devices/CaptureDevice.swift:39-41 | device equality is reflexive, symmetric and transitive, and two devices with the same identifier are equal whatever their names |
| `CaptureDevices.EqualDevicesHashAlike` | CameraController/Devices/CaptureDevice.swift:39-45 | two devices are equal iff the hash input (the identifier alone) is the same |
| `CaptureDevices.CaptureDevice.IsConfigurable` | CameraController/Devices/CaptureDevice.swift:54-56 | configurable iff a controller is present, iff the state is `loaded` |
| `CaptureDevices.CaptureDevice.ReadValuesFromDevice` | CameraController/Devices/CaptureDevice.swift:62-72 | no work without a controller. Otherwise exactly one refresh of that controller |
| `CaptureDevices.CaptureDevice.WriteValuesToDevice` | CameraController/Devices/CaptureDevice.swift:74-82 | no work without a controller. Otherwise exactly one write through that controller |
| `CaptureDevices.CaptureDevice.EnsureControllerLoaded` | CameraController/Devices/CaptureDevice.swift:84-113 | the fields change as `EnsureLoaded` says, and the invariant is kept |
| `CaptureDevices.CaptureDevice.WatchdogFire` | CameraController/Devices/CaptureDevice.swift:95-111 | the fields change as `ControllerLoading.WatchdogFire` says, and the invariant is kept |
| `CaptureDevices.CaptureDevice.CompleteLoad` | CameraController/Devices/CaptureDevice.swift:138-149 | the fields change as `Complete` says, and the invariant is kept |
| `DeviceManagement.FirstIndexWithUniqueID` | CameraController/Devices/DeviceManager.swift:85 | the first position holding the identifier, or none exactly when no device has it |
| `DeviceManagement.FirstIndexOfNative` | CameraController/Devices/DeviceManager.swift:99-101 | the first position whose native reference is the given one (by identity, not identifier), or none when no entry holds it |
| `DeviceManagement.RemoveAt` | CameraController/Devices/DeviceManager.swift:107 | exactly one element is removed, and the others keep their relative order |
| `DeviceManagement.InitialSelection` | CameraController/Devices/DeviceManager.swift:50-55 | the first device with the remembered identifier if it is attached. Otherwise the first device, or nil exactly when the list is empty. A non-nil result is always a listed device |
| `DeviceManagement.PersistedAfterSelect` | CameraController/Devices/DeviceManager.swift:21-24 | the stored identifier is rewritten only when the new value is non-nil and differs by identifier from the current one. Assigning nil keeps it |
| `DeviceManagement.SelectionAfterRemoval` | CameraController/Devices/DeviceManager.swift:109-111 | the selection becomes nil iff it has the removed identifier, and it never becomes another device |
| `DeviceManagement.AppendKeepsUniqueIDs` | CameraController/Devices/DeviceManager.swift:84-89 | appending a device whose identifier is not listed keeps the identifiers duplicate-free |
| `DeviceManagement.RemoveKeepsUniqueIDs` | CameraController/Devices/DeviceManager.swift:107 | removing an entry keeps the identifiers duplicate-free |
| `DeviceManagement.RemoveKeepsOthers` | CameraController/Devices/DeviceManager.swift:107 | every other listed device is still listed after the removal |
| `DeviceManagement.RemovalKeepsSelectionListed` | CameraController/Devices/DeviceManager.swift:99-111 | after a disconnect, the selection is still nil or a listed device |
| `DeviceManagement.PersistedSelectionIsRestored` | CameraController/Devices/DeviceManager.swift:21-55 | selecting a listed device that differs from the current one, then relaunching with it attached, restores exactly that device |
| `DeviceManagement.DevicesManager.constructor` | CameraController/Devices/DeviceManager.swift:42-56 | one fresh device per enumerated native device, in order, each `idle` at generation 0 with nothing outstanding, and the selection given by `InitialSelection`. The stored identifier is unchanged, no post is made, and the registry invariant holds |
| `DeviceManagement.DevicesManager.SetSelectedDevice` | CameraController/Devices/DeviceManager.swift:20-24 | the selection becomes the new value. The stored identifier follows `PersistedAfterSelect`, and the list is unchanged |
| `DeviceManagement.DevicesManager.DeviceAdded` | CameraController/Devices/DeviceManager.swift:79-91 | with no payload, or an identifier that is already listed, nothing changes and nothing is posted. Otherwise exactly one fresh device, `idle` at generation 0, is appended at the end and one post is made. The selection and stored identifier are untouched, and duplicate-freedom and the selection invariant are kept |
| `DeviceManagement.DevicesManager.DeviceRemoved` | CameraController/Devices/DeviceManager.swift:94-113 | with no payload, or a native reference not listed, nothing changes and nothing is posted. Otherwise the first matching entry is removed with order kept, the selection follows `SelectionAfterRemoval`, and one post is made. The stored identifier is untouched, and duplicate-freedom and the selection invariant are kept |

## Left out

- Threads and timing are not modelled. This covers `Task.detached`, `Task.sleep`, `MainActor.run` and task priorities. Each main-actor hop is one event, and events may interleave arbitrarily.
- `controllerTask?.cancel()` is not modelled. The background task never checks cancellation, so cancelling changes none of the modelled fields.
- The `[weak self]` captures are not modelled. A device freed before its watchdog or completion runs would make that event do nothing. The model keeps every device alive.
- `ControllerLoading.Enabled` admits a completion only for an attempt that is still outstanding and that began fewer than 2^64 generation bumps earlier. After exactly 2^64 bumps the wrapped tag would equal the current generation again, and the code as written would apply the stale result. The lemmas assume this does not happen.
- The native calls are not modelled: `UVCDevice(device:)`, `DeviceController(properties:)` and the Objective-C exception trampoline. Their combined effect is the abstract `InitOutcome`.
- The hardware reads and writes behind `update()` and `writeValues()` are not modelled. Only the no-controller guard and the job handed to the background are.
- The `@Published` change notifications are not modelled. The state itself is.
- `isDefaultDevice` always returns false and is not modelled.
- AVFoundation device discovery is not modelled. Its result is the constructor's input list.
- `startMonitoring` and `stopMonitoring` register notification observers, which is platform plumbing. The handlers they register are modelled.
- `NotificationCenter` posts are not modelled. They become the `devicesUpdatedPosts` counter.
- `deviceMonitor.updateDevice` is not part of this model. `DeviceMonitor` is not among the source files.
- The debug-log file writes in the `willSet` observer are file I/O and are not modelled.
- The `DevicesManager.shared` singleton is not modelled. The registry is an ordinary object.
- DeviceManagement.DevicesManager.SetSelectedDevice: the registry invariant is promised only when the new value is nil or a listed device. The UI only offers listed devices.
- DeviceManagement.DevicesManager.constructor: no duplicate-free promise is made for the devices. The list is duplicate-free exactly when the enumerated identifiers are.
