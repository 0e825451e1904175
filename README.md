# RTL88xxAU driver core, modelled in Dafny

The repository ships a macOS kernel extension for Realtek RTL8812AU/RTL8821AU USB
WiFi adapters (`src/RTL88xxAU.cpp`, an `IOEthernetController` subclass) together with a
Python installer GUI. This project models the kernel extension's own logic:

- **which USB devices the driver binds to** — `isDeviceSupported`, as a pure function
  over 16-bit vendor and product IDs (module `DeviceIds`, file `device_ids.dfy`);
- **the driver's lifecycle** — `init`, `start`, `stop`, `enable`, `disable` and the
  helpers `start` calls (`createWorkLoop`, `configureDevice`, `openPipes`,
  `closePipes`), as a class `Driver.RTL88xxAU` whose methods update the same fields the
  C++ object updates in place (`driver.dfy`).

Every IOKit call the driver makes (`super::init`, `super::start`, `OSDynamicCast`,
`GetDevice`/`GetVendorID`/`GetProductID`, `IOWorkLoop::workLoop`, `SetConfiguration`)
is replaced by its outcome, passed in as a parameter (for `start`, gathered in the record
`Lifecycle.StartOutcome`). A ghost log `calls` in the class records which of those calls
— and of the driver's own pipe stubs — each method reaches, in order, so that the
early-exit order of `start` and the guard in `stop` can be stated.

Each class method is proved against a pure state machine (module `Lifecycle`,
`lifecycle.dfy`): `Apply` gives the three status flags (`fStarted`, `fEnabled`,
`fLinkUp`) after one lifecycle call, `EventCalls` the calls it makes, and `Run` /
`RunCalls` extend both to any sequence of lifecycle calls. The lemmas there state what
holds after every such sequence: the interface is only ever enabled on a started driver,
the link is never reported up, only `init` clears the started flag, and `closePipes` is
only ever reached after `openPipes`. Shared IOKit abstractions (`uint16`, `IOReturn` with
`kIOReturnSuccess` and `kIOReturnNotReady` = `0xE00002D8`, NULL-able references, the call
log's alphabet) live in module `IOKit` (`iokit.dfy`).

The repository's written description covers only the installer GUI; the model follows
the kernel-extension code, which is where the repository's logic is.

## Model

| member | source | states |
|---|---|---|
| DeviceIds.IsDeviceSupported | src/RTL88xxAU.cpp:137-140 | a device is supported exactly when its vendor is Realtek 0x0BDA and its product is one of 0x8812, 0x881A, 0x8821, 0x0821; every supported product ID is one the header declares |
| DeviceIds.OtherVendorRejected | src/RTL88xxAU.cpp:138 | any vendor other than 0x0BDA is refused, whatever the product ID |
| DeviceIds.DeclaredButRejected | src/RTL88xxAU.h:26-44 | of the ten declared product IDs exactly four are accepted; 0x8822, 0x0823, 0x8813, 0x8814, 0x8021 and 0x8022 are refused even with the Realtek vendor ID |
| Lifecycle.StartCalls | src/RTL88xxAU.cpp:30-65 | the calls `start` makes are always a non-empty prefix of the fixed chain super::start, cast, GetDevice, GetVendorID, GetProductID, workLoop, SetConfiguration(1), openPipes, beginning with super::start and never closing pipes |
| Lifecycle.StartSucceedsIffWholeChain | src/RTL88xxAU.cpp:30-65 | `start` succeeds (every check passes) if and only if it runs the whole chain to openPipes |
| Lifecycle.UnsupportedDeviceStopsAtCheck | src/RTL88xxAU.cpp:44-53 | for a USB interface whose device is unsupported, start fails after reading the vendor and product IDs and never creates the work loop, configures the device or opens the pipes |
| Lifecycle.EnableGuardedByStarted | src/RTL88xxAU.cpp:86-93 | enable answers kIOReturnNotReady exactly when not started and then changes nothing; on a started driver it succeeds and sets only the enabled flag |
| Lifecycle.DisableIdempotent | src/RTL88xxAU.cpp:95-99 | disable clears the enabled flag in every state, leaves started and linkUp alone, and a second disable changes nothing |
| Lifecycle.ApplyKeepsConsistent | src/RTL88xxAU.cpp:12-99 | each of init, start, stop, enable, disable keeps "enabled implies started, link down" |
| Lifecycle.RunKeepsConsistent | src/RTL88xxAU.cpp:12-99 | every sequence of lifecycle calls keeps "enabled implies started, link down" |
| Lifecycle.ReachableFlags | src/RTL88xxAU.cpp:17-19 | from a freshly allocated driver, after any sequence of calls the link is down and the interface is enabled only if started |
| Lifecycle.StartedPersistsWithoutInit | src/RTL88xxAU.cpp:61-99 | once started, the driver stays started through any sequence of calls without init: a failed start, enable, disable and stop never clear the flag |
| Lifecycle.ApplyKeepsPipesInvariant | src/RTL88xxAU.cpp:58-75 | one lifecycle call keeps the log invariant "each closePipes follows an openPipes, and a started driver has opened its pipes" |
| Lifecycle.RunKeepsPipesInvariant | src/RTL88xxAU.cpp:58-75 | every sequence of lifecycle calls keeps that log invariant |
| Lifecycle.ClosePipesOnlyAfterOpenPipes | src/RTL88xxAU.cpp:67-75 | from a freshly allocated driver, every closePipes that stop makes comes after an openPipes |
| Driver.RTL88xxAU.constructor | src/RTL88xxAU.cpp:10 | a new driver object has all flags false, NULL pointers, zero IDs and an empty call log |
| Driver.RTL88xxAU.Init | src/RTL88xxAU.cpp:12-23 | returns what the superclass init returned; on success clears the three flags, on failure writes no flag |
| Driver.RTL88xxAU.Start | src/RTL88xxAU.cpp:30-65 | returns true exactly when every step succeeds, sets started only then and leaves it unchanged otherwise; records the interface after super::start, the device and IDs before the support check, the work loop only for a supported device; makes exactly the calls of `StartCalls` |
| Driver.RTL88xxAU.Stop | src/RTL88xxAU.cpp:67-75 | calls closePipes exactly when started, then super::stop; changes no flag |
| Driver.RTL88xxAU.CreateWorkLoop | src/RTL88xxAU.cpp:77-80 | stores what IOWorkLoop::workLoop returned and reports whether it is non-NULL |
| Driver.RTL88xxAU.Enable | src/RTL88xxAU.cpp:86-93 | kIOReturnNotReady with nothing changed when not started; otherwise sets enabled and returns kIOReturnSuccess; never changes started |
| Driver.RTL88xxAU.Disable | src/RTL88xxAU.cpp:95-99 | clears enabled and returns kIOReturnSuccess in every state |
| Driver.RTL88xxAU.ConfigureDevice | src/RTL88xxAU.cpp:101-105 | selects configuration USB_CONFIG_VALUE (1) and returns SetConfiguration's status unchanged |
| Driver.RTL88xxAU.OpenPipes | src/RTL88xxAU.cpp:107-114 | always returns kIOReturnSuccess |
| Driver.RTL88xxAU.ClosePipes | src/RTL88xxAU.cpp:116-123 | always returns kIOReturnSuccess |
| Driver.RTL88xxAU.GetDriverName | src/RTL88xxAU.cpp:125-127 | the driver name is "RTL88xxAU" |
| Driver.RTL88xxAU.GetDriverVersion | src/RTL88xxAU.cpp:129-131 | the version is DRIVER_VERSION, "1.0.0" |

## Left out

- installer_gui.py: Qt widgets, dialogs, `subprocess`/`osascript` launches of external scripts and a background thread; no logic of its own beyond a substring test on `system_profiler` output, which is left out with it.
- The IOKit and libkern calls themselves (`super::init/start/stop/free`, `OSDynamicCast`, `GetDevice`, `GetVendorID`, `GetProductID`, `IOWorkLoop::workLoop`, `SetConfiguration`): each is an outcome parameter. `IOLog` output is not modelled.
- `GetDevice` returning NULL: the source dereferences the device without a check; the model takes the device as always present once the interface cast succeeds.
- `free`: it only logs and defers to the superclass.
- `getChipType`: it returns `fChipType`, which nothing assigns.
- `getWorkLoop` is modelled as `Driver.RTL88xxAU.GetWorkLoop`, a plain accessor of the stored work loop, with no contract of its own.
- Methods the header declares but the source does not define (`message`, `outputStart`, `initHardware`, `resetDevice`, `powerOn`, `powerOff`, `handleReceiveComplete`, `handleTransmitComplete`) and the fields only they would use (command gate, network interface, pipes, buffers).
- Concurrency: IOKit may call the driver from several threads; the model runs one lifecycle call at a time.
- Observation, not a finding: `stop` does not clear `fStarted`, so a stopped driver still answers `enable` with success until `init` runs again; the model keeps this behaviour (`StartedPersistsWithoutInit`).
