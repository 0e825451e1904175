/** The parts of the IOKit / libkern interface that the RTL88xxAU driver touches,
    reduced to values: integer widths, status codes, nullable pointers to kernel
    objects, and the log of calls the driver makes on its way through start/stop. */
module IOKit {

  /** UInt16, as used for USB vendor and product IDs. */
  newtype uint16 = x: int | 0 <= x < 0x1_0000

  /** IOReturn (a kern_return_t), kept as its 32-bit pattern. */
  newtype IOReturn = x: int | 0 <= x < 0x1_0000_0000

  /** kIOReturnSuccess. */
  const kIOReturnSuccess: IOReturn := 0
  /** kIOReturnNotReady: iokit_common_err(0x2d8) = sys_iokit | sub_iokit_common | 0x2d8. */
  const kIOReturnNotReady: IOReturn := 0xE000_02D8

  /** The identity of a kernel object (an IOUSBInterface, IOUSBDevice or IOWorkLoop);
      the objects themselves are outside the model. */
  type Ref = nat

  /** A pointer that may be NULL. */
  datatype Option<T> = None | Some(value: T)

  /** The steps of the driver that reach into IOKit or the USB stack, in the order
      the driver issues them.  OpenPipes and ClosePipes are the driver's own stubs. */
  datatype Call =
    | SuperInit            // IOEthernetController::init
    | SuperStart           // IOEthernetController::start
    | CastToUSBInterface   // OSDynamicCast(IOUSBInterface, provider)
    | GetDevice            // IOUSBInterface::GetDevice
    | GetVendorID          // IOUSBDevice::GetVendorID
    | GetProductID         // IOUSBDevice::GetProductID
    | NewWorkLoop          // IOWorkLoop::workLoop
    | SetConfiguration(configValue: nat)  // IOUSBInterface::SetConfiguration
    | OpenPipes
    | ClosePipes
    | SuperStop            // IOEthernetController::stop
}
