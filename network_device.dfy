/**
 * `NetworkDevice`: the name, ports and address a device announces itself
 * with. Two devices are the same device when name and address agree; the
 * ports are ignored. `handle` stands for the Java object's identity, which
 * some callers compare with `==` instead of `equals`.
 */
module Devices {
  import opened Common

  /** The address placeholder of a device whose address is not known yet. */
  const InvalidAddress: string := "invalid"

  datatype NetworkDevice = NetworkDevice(
    handle: nat,
    name: string,
    discoveryPort: int,
    commandPort: int,
    dataPort: int,
    address: string)

  /** The five-argument constructor, for the object `handle`. */
  function NewDevice(handle: nat, name: string, discoveryPort: int, commandPort: int, dataPort: int, address: string): (d: NetworkDevice)
    ensures d.handle == handle && d.name == name && d.address == address
    ensures d.discoveryPort == discoveryPort && d.commandPort == commandPort && d.dataPort == dataPort
  {
    NetworkDevice(handle, name, discoveryPort, commandPort, dataPort, address)
  }

  /** The three-argument constructor: no discovery port and no address yet. */
  function NewLocalDevice(handle: nat, name: string, commandPort: int, dataPort: int): (d: NetworkDevice)
    ensures d.discoveryPort == -1 && d.address == InvalidAddress
    ensures d.name == name && d.commandPort == commandPort && d.dataPort == dataPort
    ensures GetInetAddress(d) == Err(UnknownHost)
  {
    NewDevice(handle, name, -1, commandPort, dataPort, InvalidAddress)
  }

  /** The one-argument constructor: only the name is known. */
  function NewNamedDevice(handle: nat, name: string): (d: NetworkDevice)
    ensures d.discoveryPort == -1 && d.commandPort == -1 && d.dataPort == -1
    ensures d.address == InvalidAddress && d.name == name
    ensures GetInetAddress(d) == Err(UnknownHost)
  {
    NewDevice(handle, name, -1, -1, -1, InvalidAddress)
  }

  /** `equals`: same address and same name; ports and identity are ignored. */
  predicate Equals(a: NetworkDevice, b: NetworkDevice) {
    a.address == b.address && a.name == b.name
  }

  /** Java's `String.hashCode`: s[0]*31^(n-1) + ... + s[n-1], in 32-bit arithmetic. */
  function StringHash(s: string): (h: int)
    ensures IsInt32(h)
  {
    if s == [] then 0 else WrapInt32(31 * StringHash(s[..|s| - 1]) + s[|s| - 1] as int)
  }

  /** `hashCode`: hash of the address plus hash of the name, wrapping like Java's `int`. */
  function HashCode(d: NetworkDevice): (h: int)
    ensures IsInt32(h)
  {
    WrapInt32(StringHash(d.address) + StringHash(d.name))
  }

  /** `toString`: name, " at ", address. */
  function ToString(d: NetworkDevice): (s: string)
    ensures |s| == |d.name| + 4 + |d.address|
    ensures s[..|d.name|] == d.name && s[|d.name| + 4..] == d.address
    ensures s[|d.name|..|d.name| + 4] == " at "
  {
    d.name + " at " + d.address
  }

  /**
   * `getInetAddress`: `UnknownHostException` for the placeholder address;
   * otherwise the address text (name resolution is not modelled).
   */
  function GetInetAddress(d: NetworkDevice): (r: Result<string>)
    ensures r.Err? <==> d.address == InvalidAddress
    ensures r.Err? ==> r.error == UnknownHost
    ensures r.Ok? ==> r.value == d.address
  {
    if d.address == InvalidAddress then Err(UnknownHost) else Ok(d.address)
  }

  /** `equals` is reflexive, symmetric and transitive. */
  lemma EqualsIsEquivalence(a: NetworkDevice, b: NetworkDevice, c: NetworkDevice)
    ensures Equals(a, a)
    ensures Equals(a, b) ==> Equals(b, a)
    ensures Equals(a, b) && Equals(b, c) ==> Equals(a, c)
  {
  }

  /** `equals` holds exactly when address and name agree, whatever the ports and identities. */
  lemma EqualsIgnoresPorts(a: NetworkDevice, b: NetworkDevice)
    ensures Equals(a, b) <==> a.address == b.address && a.name == b.name
    ensures Equals(a, b) <==> Equals(a.(discoveryPort := 0, commandPort := 0, dataPort := 0, handle := 0), b)
  {
  }

  /** Equal devices have equal hash codes, so `HashMap` lookups by `equals` work. */
  lemma HashConsistent(a: NetworkDevice, b: NetworkDevice)
    requires Equals(a, b)
    ensures HashCode(a) == HashCode(b)
  {
  }

  /** The string hash is the polynomial value of the characters, reduced to 32 bits. */
  lemma {:induction false} StringHashPolynomial(s: string) returns (k: int)
    ensures StringHash(s) == Poly(s) + k * 0x1_0000_0000
  {
    if s == [] {
      k := 0;
    } else {
      var p := s[..|s| - 1];
      var k0 := StringHashPolynomial(p);
      var x := 31 * StringHash(p) + s[|s| - 1] as int;
      assert x == Poly(s) + (31 * k0) * 0x1_0000_0000;
      var d := StringHash(s) - x;
      assert d % 0x1_0000_0000 == 0;
      var j := d / 0x1_0000_0000;
      assert d == j * 0x1_0000_0000;
      k := 31 * k0 + j;
    }
  }

  /** s[0]*31^(n-1) + ... + s[n-1] without wrap-around. */
  function Poly(s: string): int {
    if s == [] then 0 else 31 * Poly(s[..|s| - 1]) + s[|s| - 1] as int
  }
}
