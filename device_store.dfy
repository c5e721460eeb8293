/** The client's device store: the device list and the selected device. */
module ClientDevices {
  import opened Errors

  /** A device as the client holds it. */
  datatype DeviceItem = DeviceItem(id: int, name: string, price: int)

  class DeviceStore {
    var devices: seq<DeviceItem>
    var selectedDevice: Option<DeviceItem>

    constructor ()
      ensures devices == [] && selectedDevice == None
    {
      devices := [];
      selectedDevice := None;
    }

    /** setDevices: the new list replaces the old one; a second call with the
        same list leaves the state as the first left it. */
    method SetDevices(ds: seq<DeviceItem>)
      modifies this`devices
      ensures devices == ds && selectedDevice == old(selectedDevice)
    {
      devices := ds;
    }

    /** setSelectedDevice; `null` is None. */
    method SetSelectedDevice(d: Option<DeviceItem>)
      modifies this`selectedDevice
      ensures selectedDevice == d && devices == old(devices)
    {
      selectedDevice := d;
    }
  }
}
