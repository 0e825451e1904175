/** The driver's lifecycle as a state machine over its three status flags
    (fStarted, fEnabled, fLinkUp), with every IOKit call abstracted to the outcome
    it reported.  The class in module Driver is proved to follow these functions;
    the lemmas here say what every sequence of lifecycle calls guarantees. */
module Lifecycle {
  import opened IOKit
  import opened DeviceIds

  /** USB_CONFIG_VALUE: the configuration start selects on the interface. */
  const USB_CONFIG_VALUE: nat := 1

  datatype Flags = Flags(started: bool, enabled: bool, linkUp: bool)

  /** The flags of a freshly allocated driver object (OSObject storage is zero-filled). */
  const Zeroed := Flags(false, false, false)

  /** What each IOKit call made by start reported. */
  datatype StartOutcome = StartOutcome(
    superStarted: bool,         // super::start(provider)
    usbInterface: Option<Ref>,  // OSDynamicCast(IOUSBInterface, provider)
    device: Ref,                // fInterface->GetDevice()
    vendorID: uint16,           // fDevice->GetVendorID()
    productID: uint16,          // fDevice->GetProductID()
    workLoop: Option<Ref>,      // IOWorkLoop::workLoop()
    configStatus: IOReturn)     // fInterface->SetConfiguration(this, USB_CONFIG_VALUE)

  /** The calls start makes when every step succeeds, in order. */
  const FullStartChain: seq<Call> :=
    [SuperStart, CastToUSBInterface, GetDevice, GetVendorID, GetProductID,
     NewWorkLoop, SetConfiguration(USB_CONFIG_VALUE), OpenPipes]

  /** start succeeds exactly when every check of its chain passes (openPipes always
      returns kIOReturnSuccess). */
  predicate StartSucceeds(o: StartOutcome) {
    o.superStarted && o.usbInterface.Some? &&
    IsDeviceSupported(o.vendorID, o.productID) &&
    o.workLoop.Some? && o.configStatus == kIOReturnSuccess
  }

  /** How many steps of FullStartChain start performs before it returns. */
  function StartStepsTaken(o: StartOutcome): nat {
    if !o.superStarted then 1
    else if o.usbInterface.None? then 2
    else if !IsDeviceSupported(o.vendorID, o.productID) then 5
    else if o.workLoop.None? then 6
    else if o.configStatus != kIOReturnSuccess then 7
    else 8
  }

  /** The calls start makes: always a non-empty prefix of the full chain, which
      begins with super::start. */
  function StartCalls(o: StartOutcome): (calls: seq<Call>)
    ensures 1 <= |calls| <= |FullStartChain| && calls == FullStartChain[..|calls|]
    ensures calls[0] == SuperStart
    ensures ClosePipes !in calls
  {
    FullStartChain[..StartStepsTaken(o)]
  }

  /** start performs the whole chain if and only if it succeeds. */
  lemma StartSucceedsIffWholeChain(o: StartOutcome)
    ensures StartSucceeds(o) <==> StartCalls(o) == FullStartChain
  {
  }

  /** The vendor and product IDs are read before the support check, but a device
      that fails the check never reaches work-loop creation, configuration or the
      pipes. */
  lemma UnsupportedDeviceStopsAtCheck(o: StartOutcome)
    requires o.superStarted && o.usbInterface.Some?
    requires !IsDeviceSupported(o.vendorID, o.productID)
    ensures !StartSucceeds(o)
    ensures GetVendorID in StartCalls(o) && GetProductID in StartCalls(o)
    ensures forall c :: c in StartCalls(o) ==> c != NewWorkLoop && !c.SetConfiguration? && c != OpenPipes
  {
    assert StartCalls(o) == [SuperStart, CastToUSBInterface, GetDevice, GetVendorID, GetProductID];
  }

  /** A lifecycle call, with the outcomes of the IOKit calls it depends on. */
  datatype Event =
    | Init(superInitOk: bool)
    | Start(outcome: StartOutcome)
    | Enable
    | Disable
    | Stop

  /** The flags after one lifecycle call. */
  function Apply(f: Flags, e: Event): Flags {
    match e
    case Init(ok) => if ok then Flags(false, false, false) else f
    case Start(o) => if StartSucceeds(o) then f.(started := true) else f
    case Enable => if f.started then f.(enabled := true) else f
    case Disable => f.(enabled := false)
    case Stop => f
  }

  /** The calls one lifecycle call makes; stop closes the pipes only when started. */
  function EventCalls(f: Flags, e: Event): seq<Call> {
    match e
    case Init(_) => [SuperInit]
    case Start(o) => StartCalls(o)
    case Enable => []
    case Disable => []
    case Stop => (if f.started then [ClosePipes] else []) + [SuperStop]
  }

  /** The status enable returns. */
  function EnableStatus(f: Flags): IOReturn {
    if f.started then kIOReturnSuccess else kIOReturnNotReady
  }

  /** The flags after a sequence of lifecycle calls. */
  function Run(f: Flags, es: seq<Event>): Flags
    decreases |es|
  {
    if es == [] then f else Run(Apply(f, es[0]), es[1..])
  }

  /** The calls made during a sequence of lifecycle calls. */
  function RunCalls(f: Flags, es: seq<Event>): seq<Call>
    decreases |es|
  {
    if es == [] then [] else EventCalls(f, es[0]) + RunCalls(Apply(f, es[0]), es[1..])
  }

  /** The flag invariant: the interface is enabled only on a started driver, and the
      link is never reported up. */
  predicate Consistent(f: Flags) {
    (f.enabled ==> f.started) && !f.linkUp
  }

  /** enable answers kIOReturnNotReady and changes nothing unless started; on a
      started driver it succeeds and sets only the enabled flag. */
  lemma EnableGuardedByStarted(f: Flags)
    ensures EnableStatus(f) == kIOReturnNotReady <==> !f.started
    ensures EnableStatus(f) == kIOReturnSuccess <==> f.started
    ensures !f.started ==> Apply(f, Enable) == f
    ensures f.started ==> Apply(f, Enable) == Flags(true, true, f.linkUp)
  {
  }

  /** disable clears the enabled flag whatever the state, touches nothing else, and
      a second disable changes nothing. */
  lemma DisableIdempotent(f: Flags)
    ensures !Apply(f, Disable).enabled
    ensures Apply(f, Disable).started == f.started && Apply(f, Disable).linkUp == f.linkUp
    ensures Apply(Apply(f, Disable), Disable) == Apply(f, Disable)
  {
  }

  /** Every lifecycle call keeps the flag invariant. */
  lemma ApplyKeepsConsistent(f: Flags, e: Event)
    requires Consistent(f)
    ensures Consistent(Apply(f, e))
  {
  }

  /** Every sequence of lifecycle calls keeps the flag invariant. */
  lemma {:induction false} RunKeepsConsistent(f: Flags, es: seq<Event>)
    requires Consistent(f)
    ensures Consistent(Run(f, es))
    decreases |es|
  {
    if es != [] {
      ApplyKeepsConsistent(f, es[0]);
      RunKeepsConsistent(Apply(f, es[0]), es[1..]);
    }
  }

  /** From a freshly allocated driver, whatever sequence of calls follows, the link
      is never up and the interface is never enabled on a driver that is not started. */
  lemma ReachableFlags(es: seq<Event>)
    ensures !Run(Zeroed, es).linkUp
    ensures Run(Zeroed, es).enabled ==> Run(Zeroed, es).started
  {
    RunKeepsConsistent(Zeroed, es);
  }

  /** Only init clears the started flag: neither a failed start, nor enable, disable
      or stop ever does. */
  lemma {:induction false} StartedPersistsWithoutInit(f: Flags, es: seq<Event>)
    requires f.started
    requires forall i :: 0 <= i < |es| ==> !es[i].Init?
    ensures Run(f, es).started
    decreases |es|
  {
    if es != [] {
      StartedPersistsWithoutInit(Apply(f, es[0]), es[1..]);
    }
  }

  /** Every ClosePipes in a call log comes after some OpenPipes. */
  predicate ClosesFollowOpens(calls: seq<Call>) {
    forall i :: 0 <= i < |calls| && calls[i] == ClosePipes ==> OpenPipes in calls[..i]
  }

  /** The log invariant: closes follow opens, and a started driver has opened its pipes. */
  predicate PipesInvariant(f: Flags, calls: seq<Call>) {
    ClosesFollowOpens(calls) && (f.started ==> OpenPipes in calls)
  }

  /** Appending calls with no ClosePipes among them keeps closes after opens. */
  lemma AppendWithoutClose(calls: seq<Call>, more: seq<Call>)
    requires ClosesFollowOpens(calls)
    requires ClosePipes !in more
    ensures ClosesFollowOpens(calls + more)
  {
    var all := calls + more;
    forall i | 0 <= i < |all| && all[i] == ClosePipes
      ensures OpenPipes in all[..i]
    {
      if i < |calls| {
        assert all[..i] == calls[..i];
      }
    }
  }

  /** One lifecycle call keeps the log invariant. */
  lemma ApplyKeepsPipesInvariant(f: Flags, calls: seq<Call>, e: Event)
    requires PipesInvariant(f, calls)
    ensures PipesInvariant(Apply(f, e), calls + EventCalls(f, e))
  {
    var more := EventCalls(f, e);
    var all := calls + more;
    match e
    case Stop =>
      AppendWithoutClose(calls, []);
      if f.started {
        forall i | 0 <= i < |all| && all[i] == ClosePipes
          ensures OpenPipes in all[..i]
        {
          if i < |calls| {
            assert all[..i] == calls[..i];
          } else if i == |calls| {
            assert all[..i] == calls;
          }
        }
      } else {
        assert more == [SuperStop];
        AppendWithoutClose(calls, more);
      }
    case Start(o) =>
      AppendWithoutClose(calls, more);
      if StartSucceeds(o) {
        StartSucceedsIffWholeChain(o);
        assert all[|calls| + 7] == OpenPipes;
      }
    case _ =>
      AppendWithoutClose(calls, more);
  }

  /** Whatever sequence of lifecycle calls is made, the log keeps its invariant. */
  lemma {:induction false} RunKeepsPipesInvariant(f: Flags, calls: seq<Call>, es: seq<Event>)
    requires PipesInvariant(f, calls)
    ensures PipesInvariant(Run(f, es), calls + RunCalls(f, es))
    decreases |es|
  {
    if es == [] {
      assert calls + RunCalls(f, es) == calls;
    } else {
      var g := Apply(f, es[0]);
      var mid := calls + EventCalls(f, es[0]);
      ApplyKeepsPipesInvariant(f, calls, es[0]);
      RunKeepsPipesInvariant(g, mid, es[1..]);
      assert mid + RunCalls(g, es[1..]) == calls + RunCalls(f, es);
    }
  }

  /** stop closes the pipes only on a driver whose pipes start has opened: from a
      freshly allocated driver, every closePipes is preceded by an openPipes. */
  lemma ClosePipesOnlyAfterOpenPipes(es: seq<Event>)
    ensures ClosesFollowOpens(RunCalls(Zeroed, es))
  {
    RunKeepsPipesInvariant(Zeroed, [], es);
    assert [] + RunCalls(Zeroed, es) == RunCalls(Zeroed, es);
  }
}
