/** The devices store: the local device, the discovered devices, the user's selection and
    a discovering flag, with getters and actions that update them in place. */
module DevicesStore {
  import opened Types
  import opened DeviceList

  /** `availableDevices`: the discovered list without the local device. */
  function Available(discovered: seq<Device>, local: Option<Device>): (r: seq<Device>)
    ensures local.None? ==> r == discovered
    ensures forall d :: d in r <==> d in discovered && (local.None? || d.id != local.value.id)
  {
    WithoutIdMembers(discovered, if local.Some? then local.value.id else "");
    if local.None? then discovered else WithoutId(discovered, local.value.id)
  }

  class DevicesStore {
    var localDevice: Option<Device>
    var discoveredDevices: seq<Device>
    var selectedDevice: Option<Device>
    var isDiscovering: bool

    constructor ()
      ensures localDevice == None && discoveredDevices == [] && selectedDevice == None
      ensures !isDiscovering
    {
      localDevice, discoveredDevices, selectedDevice, isDiscovering := None, [], None, false;
    }

    function DeviceCount(): (n: nat)
      reads this
      ensures n == 0 <==> discoveredDevices == []
      ensures n >= |AvailableDevices()|
    {
      |discoveredDevices|
    }

    function HasSelectedDevice(): (b: bool)
      reads this
      ensures b <==> selectedDevice != None
    {
      selectedDevice.Some?
    }

    function AvailableDevices(): (r: seq<Device>)
      reads this
      ensures forall d :: d in r <==>
        d in discoveredDevices && (localDevice.None? || d.id != localDevice.value.id)
      ensures |r| <= |discoveredDevices|
    {
      var r := Available(discoveredDevices, localDevice);
      WithoutIdLength(discoveredDevices, if localDevice.Some? then localDevice.value.id else "");
      r
    }

    method SetLocalDevice(d: Device)
      modifies this
      ensures localDevice == Some(d)
      ensures discoveredDevices == old(discoveredDevices) && selectedDevice == old(selectedDevice)
      ensures isDiscovering == old(isDiscovering)
    {
      localDevice := Some(d);
    }

    /** Replace the entry with the same id in place, else append. */
    method AddDiscoveredDevice(d: Device)
      modifies this
      ensures discoveredDevices == UpsertById(old(discoveredDevices), d)
      ensures localDevice == old(localDevice) && selectedDevice == old(selectedDevice)
      ensures isDiscovering == old(isDiscovering)
    {
      var existing := IndexOfId(discoveredDevices, d.id);
      if existing.Some? {
        discoveredDevices := discoveredDevices[existing.value := d];
      } else {
        discoveredDevices := discoveredDevices + [d];
      }
    }

    /** Drop every entry with the id; clear the selection exactly when it has that id. */
    method RemoveDiscoveredDevice(id: string)
      modifies this
      ensures discoveredDevices == WithoutId(old(discoveredDevices), id)
      ensures forall d :: d in discoveredDevices <==> d in old(discoveredDevices) && d.id != id
      ensures selectedDevice == (if old(selectedDevice).Some? && old(selectedDevice).value.id == id
                                 then None else old(selectedDevice))
      ensures localDevice == old(localDevice) && isDiscovering == old(isDiscovering)
    {
      WithoutIdMembers(discoveredDevices, id);
      discoveredDevices := WithoutId(discoveredDevices, id);
      if selectedDevice.Some? && selectedDevice.value.id == id {
        selectedDevice := None;
      }
    }

    method SelectDevice(d: Device)
      modifies this`selectedDevice
      ensures selectedDevice == Some(d)
    {
      selectedDevice := Some(d);
    }

    method ClearSelection()
      modifies this`selectedDevice
      ensures selectedDevice == None
    {
      selectedDevice := None;
    }

    method SetDiscovering(b: bool)
      modifies this`isDiscovering
      ensures isDiscovering == b
    {
      isDiscovering := b;
    }

    /** Empty the list and the selection; the local device and the flag stay. */
    method ClearDevices()
      modifies this`discoveredDevices, this`selectedDevice
      ensures discoveredDevices == [] && selectedDevice == None
    {
      discoveredDevices := [];
      selectedDevice := None;
    }
  }
}
