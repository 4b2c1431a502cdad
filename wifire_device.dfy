/**
 * A WiFire board as the device list sees it: a Device Server client whose name is the
 * device's name, ordered, compared and hashed by that name alone.
 */
module Wifire {
  import opened JavaLang
  import DS = DeviceServer

  /** A board: the Device Server client it wraps. */
  datatype WifireDevice = WifireDevice(client: DS.Client)

  /** `getName` and `toString`: the client's name. */
  function Name(d: WifireDevice): string
  {
    d.client.name
  }

  /** `setName`: the client is renamed; its links stay. */
  function SetName(d: WifireDevice, name: string): (r: WifireDevice)
    ensures Name(r) == name
    ensures r.client.links == d.client.links
  {
    WifireDevice(d.client.(name := name))
  }

  /** Renaming back to the old name restores the device. */
  lemma SetNameRoundTrip(d: WifireDevice, name: string)
    ensures SetName(SetName(d, name), Name(d)) == d
  {
  }

  /** `compareTo`: the names' `String.compareTo`, zero exactly for devices of the same name. */
  function CompareDevices(a: WifireDevice, b: WifireDevice): (r: int)
    ensures r == 0 <==> Name(a) == Name(b)
  {
    CompareToZero(Name(a), Name(b));
    CompareTo(Name(a), Name(b))
  }

  /** `COMPARATOR` compares devices by this key under `String.compareTo`. */
  function DeviceKey(d: WifireDevice): string
  {
    Name(d)
  }

  /** What `equals` may be handed: a device, some other object, or null. */
  datatype JavaObject = DeviceObject(device: WifireDevice) | OtherObject | Null

  /** `equals`: another device with an equal name, so exactly the devices `compareTo` ranks even. */
  predicate Equals(d: WifireDevice, rhs: JavaObject)
    ensures Equals(d, rhs) <==> rhs.DeviceObject? && CompareDevices(d, rhs.device) == 0
  {
    rhs.DeviceObject? && Name(d) == Name(rhs.device)
  }

  /** `hashCode`: the name's hash, a Java `int`. */
  function DeviceHashCode(d: WifireDevice): (h: int)
    ensures -0x8000_0000 <= h < 0x8000_0000
  {
    HashCode(Name(d))
  }

  /** The comparator and `compareTo` agree on every pair, and neither tells apart devices `equals` calls equal. */
  lemma ComparatorAgreesWithCompareTo(a: WifireDevice, b: WifireDevice)
    ensures CompareTo(DeviceKey(a), DeviceKey(b)) == CompareDevices(a, b)
    ensures CompareDevices(a, b) == 0 <==> Equals(a, DeviceObject(b))
  {
  }

  /** `compareTo` is antisymmetric, so `a < b` and `b < a` never hold together. */
  lemma CompareDevicesAntisymmetric(a: WifireDevice, b: WifireDevice)
    ensures CompareDevices(b, a) == -CompareDevices(a, b)
  {
    CompareToAntisymmetric(Name(a), Name(b));
  }

  /** `equals` is an equivalence on devices, never holds for other objects, and equal devices hash equally. */
  lemma EqualsIsConsistent(a: WifireDevice, b: WifireDevice, c: WifireDevice)
    ensures Equals(a, DeviceObject(a))
    ensures Equals(a, DeviceObject(b)) ==> Equals(b, DeviceObject(a))
    ensures Equals(a, DeviceObject(b)) && Equals(b, DeviceObject(c)) ==> Equals(a, DeviceObject(c))
    ensures !Equals(a, OtherObject) && !Equals(a, Null)
    ensures Equals(a, DeviceObject(b)) ==> DeviceHashCode(a) == DeviceHashCode(b)
  {
  }

  /** A rename changes equality with the old self exactly when the name changes. */
  lemma RenamedEqualsOriginal(d: WifireDevice, name: string)
    ensures Equals(SetName(d, name), DeviceObject(d)) <==> name == Name(d)
    ensures CompareDevices(SetName(d, name), d) == 0 <==> name == Name(d)
  {
  }
}
