/** The values the did:btc1 creation flow and signing-method selection pass around:
    the records of src/types.ts and the DID document shapes they build on. */
module Types {

  /** An optional value: `None` stands for JavaScript's `undefined`. */
  datatype Option<+T> = None | Some(value: T) {
    /** JavaScript's nullish-coalescing `this ?? default`. */
    function GetOr(default: T): T {
      if Some? then value else default
    }
  }

  /** A call that either returns a value or throws an error. */
  datatype Result<+R, +E> = Ok(value: R) | Err(error: E)

  type uint8 = b: int | 0 <= b < 256
  type Bytes = seq<uint8>

  /** A JSON Web Key for a secp256k1 key pair; `d` is the private scalar. */
  datatype Jwk = Jwk(kty: string, crv: string, x: string, y: string, d: Option<string>)

  datatype Service = Service(id: string, serviceType: string, serviceEndpoint: string)

  datatype VerificationMethod =
    VerificationMethod(id: string, methodType: string, controller: string, publicKeyJwk: Option<Jwk>)

  /** A DID document without `id` and `verificationMethod` (src/types.ts:93). */
  datatype IntermediateDocument = IntermediateDocument(
    context: seq<string>,
    authentication: seq<string>,
    assertionMethod: seq<string>,
    capabilityInvocation: seq<string>,
    capabilityDelegation: seq<string>,
    service: seq<Service>)

  /** A DID document. An absent array is represented by the empty sequence. */
  datatype DidDocument = DidDocument(
    context: seq<string>,
    id: string,
    verificationMethod: seq<VerificationMethod>,
    authentication: seq<string>,
    assertionMethod: seq<string>,
    capabilityInvocation: seq<string>,
    capabilityDelegation: seq<string>,
    service: seq<Service>)
  {
    /** The part of the document that an intermediate document describes. */
    function Intermediate(): IntermediateDocument {
      IntermediateDocument(context, authentication, assertionMethod,
                           capabilityInvocation, capabilityDelegation, service)
    }
  }

  /** The intermediate document extended with an id and verification methods. */
  function Complete(d: IntermediateDocument, id: string, methods: seq<VerificationMethod>): (r: DidDocument)
    ensures r.Intermediate() == d && r.id == id && r.verificationMethod == methods
  {
    DidDocument(d.context, id, methods, d.authentication, d.assertionMethod,
                d.capabilityInvocation, d.capabilityDelegation, d.service)
  }

  /** DidBtc1CreateResponse (src/types.ts:87-91). */
  datatype CreateResponse = CreateResponse(did: string, didDocument: DidDocument, mnemonic: Option<string>)

  /** The DidBtc1Network string enum (src/types.ts:12-17). */
  datatype Network = Mainnet | Testnet | Signet | Regtest {
    function Value(): string {
      match this
      case Mainnet => "mainnet"
      case Testnet => "testnet"
      case Signet => "signet"
      case Regtest => "regtest"
    }
  }

  /** The bitcoinjs-lib network parameter sets the creation flow chooses from. */
  datatype BitcoinNetwork = Bitcoin | BitcoinTestnet | BitcoinRegtest

  /** Every error the core throws. The first five are plain `Error`s thrown by `create`;
      the last two are `DidError`s, named after their error code, thrown by `getSigningMethod`. */
  datatype Error =
    | UnsupportedAlgorithm
    | DuplicateMethodId
    | IncompleteService
    | InvalidNetwork(network: string)
    | KeyDerivationFailure
    | MethodNotSupported(methodName: string)
    | InternalError
  {
    /** True for the four errors of the validation gate. */
    predicate IsValidation() {
      UnsupportedAlgorithm? || DuplicateMethodId? || IncompleteService? || InvalidNetwork?
    }

    function Message(): string {
      match this
      case UnsupportedAlgorithm => "One or more verification method " + "algorithms are not supported"
      case DuplicateMethodId => "One or more verification method " + "IDs are not unique"
      case IncompleteService => "One or more " + "services are missing required properties"
      case InvalidNetwork(n) => "Invalid network: " + n
      case KeyDerivationFailure => "Failed to derive hd keypair"
      case MethodNotSupported(m) => "Method not supported: " + m
      case InternalError =>
        "A verification method intended for signing " + "could not be determined from the DID Document"
    }

    /** The thrown message identifies the error, including the network or method name it
        reports. */
    lemma MessageIdentifiesError(other: Error)
      requires Message() == other.Message()
      ensures this == other
    {
      var m, o := Message(), other.Message();
      other.MessageStart();
      MessageStart();
      if InvalidNetwork? && other.InvalidNetwork? {
        assert m[|"Invalid network: "|..] == network;
        assert o[|"Invalid network: "|..] == other.network;
      } else if MethodNotSupported? && other.MethodNotSupported? {
        assert m[|"Method not supported: "|..] == methodName;
        assert o[|"Method not supported: "|..] == other.methodName;
      }
    }

    /** The first character of the message, and for the three messages that share their
        start, the characters where they part. */
    lemma MessageStart()
      ensures |Message()| > 0
      ensures Message()[0] ==
        match this
        case InvalidNetwork(_) => 'I'
        case KeyDerivationFailure => 'F'
        case MethodNotSupported(_) => 'M'
        case InternalError => 'A'
        case _ => 'O'
      ensures UnsupportedAlgorithm? ==> |Message()| > 32 && Message()[12] == 'v' && Message()[32] == 'a'
      ensures DuplicateMethodId? ==> |Message()| > 32 && Message()[12] == 'v' && Message()[32] == 'I'
      ensures IncompleteService? ==> |Message()| > 12 && Message()[12] == 's'
    {
      match this
      case InvalidNetwork(n) =>
        var prefix := "Invalid network: ";
        assert Message() == prefix + n && (prefix + n)[0] == prefix[0];
      case MethodNotSupported(n) =>
        var prefix := "Method not supported: ";
        assert Message() == prefix + n && (prefix + n)[0] == prefix[0];
      case UnsupportedAlgorithm =>
        assert Message() == "One or more verification method " + "algorithms are not supported";
      case DuplicateMethodId =>
        assert Message() == "One or more verification method " + "IDs are not unique";
      case IncompleteService =>
        assert Message() == "One or more " + "services are missing required properties";
      case KeyDerivationFailure =>
      case InternalError =>
        assert Message() == "A verification method intended for signing "
          + "could not be determined from the DID Document";
    }
  }
}
