/**
 * The device registry: an ordered list of capture devices, kept free of
 * duplicate unique identifiers across connect and disconnect notifications,
 * and an optional selection that is always one of them. The identifier of
 * the last selected device is kept in a settings store and restored at launch.
 */
module DeviceManagement {
  import opened Wrappers
  import opened CaptureDevices
  import opened ControllerLoading

  /** No two devices share a unique identifier. */
  predicate UniqueIDs(devices: seq<CaptureDevice>)
  {
    forall i, j :: 0 <= i < j < |devices| ==> devices[i].uniqueID != devices[j].uniqueID
  }

  predicate HasUniqueID(devices: seq<CaptureDevice>, id: string)
  {
    exists k :: 0 <= k < |devices| && devices[k].uniqueID == id
  }

  /** `first(where: { $0.uniqueID == id })`, as an index. */
  function FirstIndexWithUniqueID(devices: seq<CaptureDevice>, id: string): (r: Option<nat>)
    ensures r.None? <==> !HasUniqueID(devices, id)
    ensures r.Some? ==> r.value < |devices| && devices[r.value].uniqueID == id
    ensures r.Some? ==> forall k :: 0 <= k < r.value ==> devices[k].uniqueID != id
    decreases |devices|
  {
    if devices == [] then None
    else if devices[0].uniqueID == id then Some(0)
    else
      var rest := FirstIndexWithUniqueID(devices[1..], id);
      if rest.Some? then Some(rest.value + 1) else None
  }

  /** `firstIndex { $0.avDevice == native }`: matched by native reference, not identifier. */
  function FirstIndexOfNative(devices: seq<CaptureDevice>, native: NativeDevice): (r: Option<nat>)
    ensures r.None? <==> forall k :: 0 <= k < |devices| ==> devices[k].avDevice != native
    ensures r.Some? ==> r.value < |devices| && devices[r.value].avDevice == native
    ensures r.Some? ==> forall k :: 0 <= k < r.value ==> devices[k].avDevice != native
    decreases |devices|
  {
    if devices == [] then None
    else if devices[0].avDevice == native then Some(0)
    else
      var rest := FirstIndexOfNative(devices[1..], native);
      if rest.Some? then Some(rest.value + 1) else None
  }

  /** `remove(at:)`: drop one element and keep the others in order. */
  function RemoveAt<T>(s: seq<T>, i: nat): (r: seq<T>)
    requires i < |s|
    ensures |r| == |s| - 1
    ensures forall k :: 0 <= k < i ==> r[k] == s[k]
    ensures forall k :: i <= k < |r| ==> r[k] == s[k + 1]
  {
    s[..i] + s[i + 1..]
  }

  /**
   * The selection at launch: the first device with the remembered identifier
   * if one is attached, otherwise the first device, otherwise none.
   */
  function InitialSelection(devices: seq<CaptureDevice>, lastSelected: Option<string>): (sel: CaptureDevice?)
    ensures sel == null <==> |devices| == 0
    ensures sel != null ==> sel in devices
    ensures lastSelected.Some? && HasUniqueID(devices, lastSelected.value) ==>
              sel != null && sel.uniqueID == lastSelected.value &&
              sel == devices[FirstIndexWithUniqueID(devices, lastSelected.value).value]
    ensures !(lastSelected.Some? && HasUniqueID(devices, lastSelected.value)) && |devices| > 0 ==>
              sel == devices[0]
  {
    var saved := if lastSelected.Some? then FirstIndexWithUniqueID(devices, lastSelected.value) else None;
    if saved.Some? then devices[saved.value]
    else if |devices| > 0 then devices[0]
    else null
  }

  /**
   * The stored identifier after the selection changes from `current` to
   * `newValue`: written only for a non-nil value that is not equal (by
   * identifier) to the current selection.
   */
  function PersistedAfterSelect(current: CaptureDevice?, newValue: CaptureDevice?, stored: Option<string>): (r: Option<string>)
    ensures newValue == null ==> r == stored
    ensures newValue != null && current != null && current.uniqueID == newValue.uniqueID ==> r == stored
    ensures newValue != null && (current == null || current.uniqueID != newValue.uniqueID) ==>
              r == Some(newValue.uniqueID)
  {
    if newValue != null && (current == null || !CaptureDevice.Equal(current, newValue)) then
      Some(newValue.uniqueID)
    else
      stored
  }

  /** The selection after the device with identifier `removedID` is disconnected. */
  function SelectionAfterRemoval(selected: CaptureDevice?, removedID: string): (r: CaptureDevice?)
    ensures r == null || r == selected
    ensures r == null <==> selected == null || selected.uniqueID == removedID
  {
    if selected != null && selected.uniqueID == removedID then null else selected
  }

  /** Appending a device whose identifier is new keeps the identifiers unique. */
  lemma {:induction false} AppendKeepsUniqueIDs(devices: seq<CaptureDevice>, d: CaptureDevice)
    requires UniqueIDs(devices) && !HasUniqueID(devices, d.uniqueID)
    ensures UniqueIDs(devices + [d])
  {
    var s := devices + [d];
    forall i, j | 0 <= i < j < |s| ensures s[i].uniqueID != s[j].uniqueID {
      if j == |devices| {
        assert s[i] == devices[i];
      }
    }
  }

  /** Removing an entry keeps the identifiers unique. */
  lemma RemoveKeepsUniqueIDs(devices: seq<CaptureDevice>, i: nat)
    requires i < |devices| && UniqueIDs(devices)
    ensures UniqueIDs(RemoveAt(devices, i))
  {
    var r := RemoveAt(devices, i);
    forall a, b | 0 <= a < b < |r| ensures r[a].uniqueID != r[b].uniqueID {
      var a' := if a < i then a else a + 1;
      var b' := if b < i then b else b + 1;
      assert r[a] == devices[a'] && r[b] == devices[b'];
    }
  }

  /** Removing an entry keeps every other object in the list. */
  lemma {:induction false} RemoveKeepsOthers(devices: seq<CaptureDevice>, i: nat, x: CaptureDevice)
    requires i < |devices| && x in devices && x != devices[i]
    ensures x in RemoveAt(devices, i)
  {
    var j :| 0 <= j < |devices| && devices[j] == x;
    var r := RemoveAt(devices, i);
    if j < i {
      assert r[j] == x;
    } else {
      assert r[j - 1] == x;
    }
  }

  /**
   * Disconnecting keeps "the selection is nil or a listed device": if the
   * removed entry was the selection, its identifier matches and the
   * selection is cleared.
   */
  lemma {:induction false} RemovalKeepsSelectionListed(devices: seq<CaptureDevice>, selected: CaptureDevice?, i: nat, removedID: string)
    requires i < |devices| && devices[i].uniqueID == removedID
    requires selected == null || selected in devices
    ensures SelectionAfterRemoval(selected, removedID) == null ||
            SelectionAfterRemoval(selected, removedID) in RemoveAt(devices, i)
  {
    if selected != null && selected.uniqueID != removedID {
      RemoveKeepsOthers(devices, i, selected);
    }
  }

  /**
   * A selection that was persisted is the one restored at the next launch,
   * provided a device with that identifier is attached then.
   */
  lemma {:induction false} PersistedSelectionIsRestored(current: CaptureDevice?, chosen: CaptureDevice, stored: Option<string>, devices: seq<CaptureDevice>)
    requires current == null || current.uniqueID != chosen.uniqueID
    requires UniqueIDs(devices) && chosen in devices
    ensures InitialSelection(devices, PersistedAfterSelect(current, chosen, stored)) == chosen
  {
    var k :| 0 <= k < |devices| && devices[k] == chosen;
    var idx := FirstIndexWithUniqueID(devices, chosen.uniqueID);
    assert HasUniqueID(devices, chosen.uniqueID);
    assert idx.value == k;
  }

  class DevicesManager {
    var devices: seq<CaptureDevice>
    var selectedDevice: CaptureDevice?
    /** The settings store's last selected device identifier. */
    var lastSelectedDevice: Option<string>
    /** How many `devicesUpdated` notifications were posted. */
    var devicesUpdatedPosts: nat

    /** Every listed device reports the identifier of its native reference. */
    predicate IdentitiesMatchNatives()
      reads this
    {
      forall d :: d in devices ==> d.IdentityMatchesNative()
    }

    predicate SelectionListed()
      reads this
    {
      selectedDevice == null || selectedDevice in devices
    }

    predicate Valid()
      reads this
    {
      IdentitiesMatchNatives() && SelectionListed()
    }

    /**
     * Launch: one device per enumerated native device, in order, and the
     * selection restored from the stored identifier. Assignments in the
     * initialiser run no property observer, so nothing is persisted here.
     */
    constructor (enumerated: seq<NativeDevice>, lastSelectedDevice: Option<string>)
      ensures Valid()
      ensures |devices| == |enumerated|
      ensures forall k :: 0 <= k < |enumerated| ==>
                fresh(devices[k]) && devices[k].avDevice == enumerated[k] &&
                devices[k].uniqueID == enumerated[k].uniqueID &&
                devices[k].Valid() && devices[k].Snapshot() == InitialMachine(true)
      ensures selectedDevice == InitialSelection(devices, lastSelectedDevice)
      ensures this.lastSelectedDevice == lastSelectedDevice && devicesUpdatedPosts == 0
    {
      var created: seq<CaptureDevice> := [];
      var k := 0;
      while k < |enumerated|
        invariant 0 <= k <= |enumerated| && |created| == k
        invariant forall i :: 0 <= i < k ==>
                    fresh(created[i]) && created[i].avDevice == enumerated[i] &&
                    created[i].IdentityMatchesNative() && created[i].Valid() &&
                    created[i].Snapshot() == InitialMachine(true)
      {
        var d := new CaptureDevice(enumerated[k]);
        created := created + [d];
        k := k + 1;
      }
      devices := created;
      selectedDevice := InitialSelection(created, lastSelectedDevice);
      this.lastSelectedDevice := lastSelectedDevice;
      devicesUpdatedPosts := 0;
    }

    /** Assigning `selectedDevice`, with the persisting rule of its `willSet`. */
    method SetSelectedDevice(newValue: CaptureDevice?)
      modifies this
      ensures selectedDevice == newValue
      ensures lastSelectedDevice == PersistedAfterSelect(old(selectedDevice), newValue, old(lastSelectedDevice))
      ensures devices == old(devices) && devicesUpdatedPosts == old(devicesUpdatedPosts)
      ensures old(IdentitiesMatchNatives()) && (newValue == null || newValue in devices) ==> Valid()
    {
      if newValue != null && (selectedDevice == null || !CaptureDevice.Equal(selectedDevice, newValue)) {
        lastSelectedDevice := Some(newValue.uniqueID);
      }
      selectedDevice := newValue;
    }

    /**
     * A connect notification whose object is `device` (null when it is not a
     * capture device): append a new device unless one with the same
     * identifier is listed, and then post `devicesUpdated`.
     */
    method DeviceAdded(device: NativeDevice?)
      requires Valid()
      modifies this
      ensures Valid()
      ensures selectedDevice == old(selectedDevice) && lastSelectedDevice == old(lastSelectedDevice)
      ensures device == null || HasUniqueID(old(devices), device.uniqueID) ==>
                devices == old(devices) && devicesUpdatedPosts == old(devicesUpdatedPosts)
      ensures device != null && !HasUniqueID(old(devices), device.uniqueID) ==>
                && |devices| == |old(devices)| + 1
                && devices[..|old(devices)|] == old(devices)
                && fresh(devices[|old(devices)|])
                && devices[|old(devices)|].avDevice == device
                && devices[|old(devices)|].uniqueID == device.uniqueID
                && devices[|old(devices)|].Valid()
                && devices[|old(devices)|].Snapshot() == InitialMachine(true)
                && devicesUpdatedPosts == old(devicesUpdatedPosts) + 1
      ensures UniqueIDs(old(devices)) ==> UniqueIDs(devices)
    {
      if device == null {
        return;
      }
      if FirstIndexWithUniqueID(devices, device.uniqueID).Some? {
        return;
      }
      var d := new CaptureDevice(device);
      if UniqueIDs(devices) {
        AppendKeepsUniqueIDs(devices, d);
      }
      devices := devices + [d];
      devicesUpdatedPosts := devicesUpdatedPosts + 1;
    }

    /**
     * A disconnect notification whose object is `device`: remove the first
     * entry holding that native reference, clear the selection if it has the
     * same identifier, and post `devicesUpdated`; nothing at all if no entry
     * holds it.
     */
    method DeviceRemoved(device: NativeDevice?)
      requires Valid()
      modifies this
      ensures Valid()
      ensures lastSelectedDevice == old(lastSelectedDevice)
      ensures device == null || FirstIndexOfNative(old(devices), device).None? ==>
                devices == old(devices) && selectedDevice == old(selectedDevice) &&
                devicesUpdatedPosts == old(devicesUpdatedPosts)
      ensures device != null && FirstIndexOfNative(old(devices), device).Some? ==>
                && devices == RemoveAt(old(devices), FirstIndexOfNative(old(devices), device).value)
                && selectedDevice == SelectionAfterRemoval(old(selectedDevice), device.uniqueID)
                && devicesUpdatedPosts == old(devicesUpdatedPosts) + 1
      ensures UniqueIDs(old(devices)) ==> UniqueIDs(devices)
    {
      if device == null {
        return;
      }
      var index := FirstIndexOfNative(devices, device);
      if index.None? {
        return;
      }
      var i := index.value;
      assert devices[i] in devices && devices[i].IdentityMatchesNative();
      RemovalKeepsSelectionListed(devices, selectedDevice, i, device.uniqueID);
      if UniqueIDs(devices) {
        RemoveKeepsUniqueIDs(devices, i);
      }
      devices := RemoveAt(devices, i);
      if selectedDevice != null && device.uniqueID == selectedDevice.uniqueID {
        SetSelectedDevice(null);
      }
      devicesUpdatedPosts := devicesUpdatedPosts + 1;
    }
  }
}
