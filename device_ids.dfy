/** USB identities the driver header declares, and the check that decides which
    devices the driver binds to. */
module DeviceIds {
  import opened IOKit

  const REALTEK_VENDOR_ID: uint16 := 0x0BDA

  const RTL8812AU_PID_1: uint16 := 0x8812
  const RTL8812AU_PID_2: uint16 := 0x881A
  const RTL8812AU_PID_3: uint16 := 0x8822

  const RTL8821AU_PID_1: uint16 := 0x8821
  const RTL8821AU_PID_2: uint16 := 0x0821
  const RTL8821AU_PID_3: uint16 := 0x0823

  const RTL8814AU_PID_1: uint16 := 0x8813
  const RTL8814AU_PID_2: uint16 := 0x8814

  const ALFA_AWUS1900_PID: uint16 := 0x8021
  const ALFA_AWUS036ACS_PID: uint16 := 0x8022

  /** Every product ID the header declares. */
  const DeclaredProducts: set<uint16> :=
    {RTL8812AU_PID_1, RTL8812AU_PID_2, RTL8812AU_PID_3,
     RTL8821AU_PID_1, RTL8821AU_PID_2, RTL8821AU_PID_3,
     RTL8814AU_PID_1, RTL8814AU_PID_2,
     ALFA_AWUS1900_PID, ALFA_AWUS036ACS_PID}

  /** The product IDs the driver actually binds to (with the Realtek vendor ID). */
  const AcceptedProducts: set<uint16> :=
    {RTL8812AU_PID_1, RTL8812AU_PID_2, RTL8821AU_PID_1, RTL8821AU_PID_2}

  /** isDeviceSupported: the Realtek vendor ID and one of four product IDs. */
  function IsDeviceSupported(vendorID: uint16, productID: uint16): (supported: bool)
    ensures supported <==> vendorID == REALTEK_VENDOR_ID && productID in AcceptedProducts
    ensures supported ==> productID in DeclaredProducts
  {
    vendorID == REALTEK_VENDOR_ID &&
    (productID == RTL8812AU_PID_1 || productID == RTL8812AU_PID_2 ||
     productID == RTL8821AU_PID_1 || productID == RTL8821AU_PID_2)
  }

  /** A device from any other vendor is refused, whatever its product ID. */
  lemma OtherVendorRejected(vendorID: uint16, productID: uint16)
    requires vendorID != REALTEK_VENDOR_ID
    ensures !IsDeviceSupported(vendorID, productID)
  {
  }

  /** Of the ten product IDs the header declares, exactly four are accepted; the six
      others (RTL8812AU_PID_3, RTL8821AU_PID_3, both RTL8814AU IDs and both Alfa IDs)
      are refused even with the Realtek vendor ID. */
  lemma DeclaredButRejected()
    ensures AcceptedProducts < DeclaredProducts
    ensures |AcceptedProducts| == 4
    ensures (set p | p in DeclaredProducts && IsDeviceSupported(REALTEK_VENDOR_ID, p)) == AcceptedProducts
    ensures DeclaredProducts - AcceptedProducts ==
            {RTL8812AU_PID_3, RTL8821AU_PID_3, RTL8814AU_PID_1, RTL8814AU_PID_2,
             ALFA_AWUS1900_PID, ALFA_AWUS036ACS_PID}
    ensures forall p :: p in DeclaredProducts - AcceptedProducts ==> !IsDeviceSupported(REALTEK_VENDOR_ID, p)
  {
  }
}
