/** The RTL88xxAU driver object: the fields its lifecycle methods update in place.
    The IOKit calls each method makes are parameters carrying their outcome; the
    ghost log `calls` records which of them the method reached, in order. */
module Driver {
  import opened IOKit
  import opened DeviceIds
  import opened Lifecycle

  const DRIVER_NAME: string := "RTL88xxAU"
  const DRIVER_VERSION: string := "1.0.0"

  class RTL88xxAU {
    var usbInterface: Option<Ref>   // fInterface
    var device: Option<Ref>         // fDevice
    var workLoop: Option<Ref>       // fWorkLoop
    var vendorID: uint16            // fVendorID
    var productID: uint16           // fProductID
    var started: bool               // fStarted
    var enabled: bool               // fEnabled
    var linkUp: bool                // fLinkUp

    /** The calls the driver has made into IOKit and its own pipe stubs. */
    ghost var calls: seq<Call>

    /** The three status flags, as the lifecycle state machine sees them. */
    function State(): Flags
      reads this
    {
      Flags(started, enabled, linkUp)
    }

    /** Allocation: the object's storage starts zero-filled. */
    constructor ()
      ensures State() == Zeroed && calls == []
      ensures usbInterface == None && device == None && workLoop == None
      ensures vendorID == 0 && productID == 0
    {
      usbInterface, device, workLoop := None, None, None;
      vendorID, productID := 0, 0;
      started, enabled, linkUp := false, false, false;
      calls := [];
    }

    /** init: when the superclass accepts, clear the three flags and succeed; when it
        refuses, fail and write nothing. */
    method Init(superInitOk: bool) returns (ok: bool)
      modifies this`started, this`enabled, this`linkUp, this`calls
      ensures ok == superInitOk
      ensures ok ==> !started && !enabled && !linkUp
      ensures !ok ==> State() == old(State())
      ensures State() == Apply(old(State()), Event.Init(superInitOk))
      ensures calls == old(calls) + EventCalls(old(State()), Event.Init(superInitOk))
    {
      calls := calls + [SuperInit];
      if !superInitOk {
        return false;
      }
      started := false;
      enabled := false;
      linkUp := false;
      return true;
    }

    /** start: super::start, cast the provider to a USB interface, read the device's
        IDs, check them, create the work loop, configure the device, open the pipes;
        the first failure returns false, and only a complete chain sets started. */
    method Start(o: StartOutcome) returns (ok: bool)
      modifies this
      ensures ok == StartSucceeds(o)
      ensures started == (old(started) || ok)
      ensures enabled == old(enabled) && linkUp == old(linkUp)
      ensures State() == Apply(old(State()), Event.Start(o))
      ensures calls == old(calls) + StartCalls(o)
      // the interface pointer is written once super::start has succeeded
      ensures usbInterface == if o.superStarted then o.usbInterface else old(usbInterface)
      // the device and its IDs are recorded before the support check
      ensures o.superStarted && o.usbInterface.Some? ==>
                device == Some(o.device) && vendorID == o.vendorID && productID == o.productID
      ensures !(o.superStarted && o.usbInterface.Some?) ==>
                device == old(device) && vendorID == old(vendorID) && productID == old(productID)
      // the work loop is created only for a supported device
      ensures workLoop == if o.superStarted && o.usbInterface.Some? && IsDeviceSupported(o.vendorID, o.productID)
                          then o.workLoop else old(workLoop)
    {
      calls := calls + [SuperStart];
      if !o.superStarted {
        return false;
      }

      calls := calls + [CastToUSBInterface];
      usbInterface := o.usbInterface;
      if usbInterface.None? {
        return false;
      }

      calls := calls + [GetDevice];
      device := Some(o.device);
      calls := calls + [GetVendorID];
      vendorID := o.vendorID;
      calls := calls + [GetProductID];
      productID := o.productID;
      // the IDs are read: the first five steps of the chain are done
      assert calls == old(calls) + FullStartChain[..5];

      if !IsDeviceSupported(vendorID, productID) {
        return false;
      }

      var created := CreateWorkLoop(o.workLoop);
      if !created {
        return false;
      }

      var status := ConfigureDevice(o.configStatus);
      if status != kIOReturnSuccess {
        return false;
      }

      status := OpenPipes();
      if status != kIOReturnSuccess {
        return false;
      }

      started := true;
      return true;
    }

    /** stop: close the pipes only on a started driver, then hand over to the
        superclass; the flags are left as they were. */
    method Stop()
      modifies this`calls
      ensures State() == old(State())
      ensures calls == old(calls) + EventCalls(old(State()), Event.Stop)
      ensures Call.ClosePipes in calls[|old(calls)|..] <==> started
    {
      if started {
        var _ := ClosePipes();
      }
      calls := calls + [SuperStop];
    }

    /** createWorkLoop: keep whatever IOWorkLoop::workLoop returned, and report
        whether it was non-NULL. */
    method CreateWorkLoop(newWorkLoop: Option<Ref>) returns (ok: bool)
      modifies this`workLoop, this`calls
      ensures workLoop == newWorkLoop
      ensures ok <==> newWorkLoop.Some?
      ensures calls == old(calls) + [NewWorkLoop]
    {
      calls := calls + [NewWorkLoop];
      workLoop := newWorkLoop;
      ok := workLoop.Some?;
    }

    /** getWorkLoop: the work loop start created, NULL before that. */
    function GetWorkLoop(): Option<Ref>
      reads this
    {
      workLoop
    }

    /** enable: refused with kIOReturnNotReady, changing nothing, unless started;
        otherwise set the enabled flag and succeed.  Never touches started. */
    method Enable() returns (status: IOReturn)
      modifies this`enabled
      ensures status == EnableStatus(old(State()))
      ensures status == kIOReturnNotReady <==> !started
      ensures enabled == (old(enabled) || started)
      ensures State() == Apply(old(State()), Event.Enable)
    {
      if !started {
        return kIOReturnNotReady;
      }
      enabled := true;
      return kIOReturnSuccess;
    }

    /** disable: clear the enabled flag whatever the state, and succeed. */
    method Disable() returns (status: IOReturn)
      modifies this`enabled
      ensures status == kIOReturnSuccess
      ensures !enabled
      ensures State() == Apply(old(State()), Event.Disable)
    {
      enabled := false;
      return kIOReturnSuccess;
    }

    /** configureDevice: select configuration USB_CONFIG_VALUE on the interface and
        pass on the status SetConfiguration reports. */
    method ConfigureDevice(setConfigurationStatus: IOReturn) returns (status: IOReturn)
      modifies this`calls
      ensures status == setConfigurationStatus
      ensures calls == old(calls) + [SetConfiguration(USB_CONFIG_VALUE)]
    {
      calls := calls + [SetConfiguration(USB_CONFIG_VALUE)];
      return setConfigurationStatus;
    }

    /** openPipes: a stub that always succeeds. */
    method OpenPipes() returns (status: IOReturn)
      modifies this`calls
      ensures status == kIOReturnSuccess
      ensures calls == old(calls) + [Call.OpenPipes]
    {
      calls := calls + [Call.OpenPipes];
      return kIOReturnSuccess;
    }

    /** closePipes: a stub that always succeeds. */
    method ClosePipes() returns (status: IOReturn)
      modifies this`calls
      ensures status == kIOReturnSuccess
      ensures calls == old(calls) + [Call.ClosePipes]
    {
      calls := calls + [Call.ClosePipes];
      return kIOReturnSuccess;
    }

    /** getDriverName: the driver's class name. */
    function GetDriverName(): (name: string)
      ensures name == DRIVER_NAME
    {
      "RTL88xxAU"
    }

    /** getDriverVersion: DRIVER_VERSION. */
    function GetDriverVersion(): (version: string)
      ensures version == DRIVER_VERSION
    {
      "1.0.0"
    }
  }
}
