/** Assembly of the intermediate DID document (src/did-btc1.ts:118-143): fixed contexts,
    four relationships that reference the one initial key, and three beacon services. */
module Document {
  import opened Types
  import opened Library

  const InitialKeyId := "#initialKey"
  const Contexts := ["https://www.w3.org/ns/did/v1", "https://github.com/dcdpr/did-btc1"]
  const BeaconType := "SingletonBeacon"
  const EndpointScheme := "bitcoin:"

  /** The three address encodings a beacon service is built on. */
  datatype AddressType = P2pkh | P2wpkh | P2tr {
    function ServiceId(): string {
      match this
      case P2pkh => "#initial_p2pkh"
      case P2wpkh => "#initial_p2wpkh"
      case P2tr => "#initial_p2tr"
    }
  }

  const BeaconOrder := [P2pkh, P2wpkh, P2tr]

  /** The x-only key: bytes 1 to 32 of the compressed key, with JavaScript's clamping of
      slice bounds to the length. */
  function XOnlyKey(publicKey: Bytes): (k: Bytes)
    ensures |publicKey| >= 33 ==> k == publicKey[1..33]
  {
    var lo := if |publicKey| < 1 then |publicKey| else 1;
    var hi := if |publicKey| < 33 then |publicKey| else 33;
    publicKey[lo..hi]
  }

  /** The address a library encoder gives for the public key on the network. */
  function Address(lib: Lib, t: AddressType, publicKey: Bytes, network: BitcoinNetwork): string {
    match t
    case P2pkh => lib.p2pkh(publicKey, network)
    case P2wpkh => lib.p2wpkh(publicKey, network)
    case P2tr => lib.p2tr(XOnlyKey(publicKey), network)
  }

  /** A singleton beacon service whose `bitcoin:` endpoint names the address of type `t`. */
  function BeaconService(lib: Lib, t: AddressType, publicKey: Bytes, network: BitcoinNetwork): (s: Service)
    ensures s.id == t.ServiceId() && s.serviceType == BeaconType
    ensures EndpointAddress(s.serviceEndpoint) == Some(Address(lib, t, publicKey, network))
  {
    EndpointAddressOf(Address(lib, t, publicKey, network));
    Service(t.ServiceId(), BeaconType, EndpointScheme + Address(lib, t, publicKey, network))
  }

  /** The address a `bitcoin:` endpoint names, or None for any other endpoint. */
  function EndpointAddress(endpoint: string): Option<string> {
    if |endpoint| >= |EndpointScheme| && endpoint[..|EndpointScheme|] == EndpointScheme
    then Some(endpoint[|EndpointScheme|..])
    else None
  }

  /** Reading the address back out of a `bitcoin:` endpoint gives the address it was built from. */
  lemma EndpointAddressOf(address: string)
    ensures EndpointAddress(EndpointScheme + address) == Some(address)
  {
    assert (EndpointScheme + address)[..|EndpointScheme|] == EndpointScheme;
    assert (EndpointScheme + address)[|EndpointScheme|..] == address;
  }

  /** Every relationship lists exactly the initial key. */
  predicate ReferencesInitialKeyOnly(d: IntermediateDocument) {
    && d.authentication == [InitialKeyId]
    && d.assertionMethod == [InitialKeyId]
    && d.capabilityInvocation == [InitialKeyId]
    && d.capabilityDelegation == [InitialKeyId]
  }

  /** The intermediate document for a public key on a network. */
  function IntermediateDoc(lib: Lib, publicKey: Bytes, network: BitcoinNetwork): (d: IntermediateDocument)
    ensures d.context == Contexts
    ensures ReferencesInitialKeyOnly(d)
    ensures |d.service| == |BeaconOrder| == 3
    ensures forall i, j | 0 <= i < j < |d.service| :: d.service[i].id != d.service[j].id
    ensures forall i | 0 <= i < |d.service| ::
      && d.service[i].id == BeaconOrder[i].ServiceId()
      && d.service[i].serviceType == BeaconType
      && EndpointAddress(d.service[i].serviceEndpoint) == Some(Address(lib, BeaconOrder[i], publicKey, network))
  {
    var services := [BeaconService(lib, P2pkh, publicKey, network),
                     BeaconService(lib, P2wpkh, publicKey, network),
                     BeaconService(lib, P2tr, publicKey, network)];
    EndpointAddressOf(Address(lib, P2pkh, publicKey, network));
    EndpointAddressOf(Address(lib, P2wpkh, publicKey, network));
    EndpointAddressOf(Address(lib, P2tr, publicKey, network));
    IntermediateDocument(Contexts, [InitialKeyId], [InitialKeyId], [InitialKeyId], [InitialKeyId], services)
  }
}
