/** The library primitives the core calls and does not implement: entropy-derived keys,
    elliptic-curve point decompression, base64url, Bitcoin address encodings, the bech32
    data part, JSON encoding, SHA-256, CID construction, DID parsing and fragment extraction.
    They are fields of a `Lib` value, so the model says nothing about them beyond their types. */
module Library {
  import opened Types

  /** The 32 characters of the bech32 data part (BIP 173). */
  const Bech32Charset := "qpzry9x8gf2tvdw0s3jn54khce6mua7l"

  type Bech32Data = s: string | forall i | 0 <= i < |s| :: s[i] in Bech32Charset

  /** The keys of an HD key derived from a master seed along a path: either may be missing. */
  datatype HdKey = HdKey(publicKey: Option<Bytes>, privateKey: Option<Bytes>)

  datatype Lib = Lib(
    /** bip39 `mnemonicToSeed`. */
    mnemonicToSeed: string -> Bytes,
    /** bip32 master key from a seed, derived along a path. */
    deriveKey: (Bytes, string) -> HdKey,
    /** Big-endian bytes of the affine x and y coordinates of a compressed public key. */
    affineX: Bytes -> Bytes,
    affineY: Bytes -> Bytes,
    base64url: Bytes -> string,
    /** `payments.p2pkh`, `payments.p2wpkh` (from a public key) and `payments.p2tr`
        (from an x-only key) addresses on a network. */
    p2pkh: (Bytes, BitcoinNetwork) -> string,
    p2wpkh: (Bytes, BitcoinNetwork) -> string,
    p2tr: (Bytes, BitcoinNetwork) -> string,
    /** The data part (payload words and checksum) of a bech32 string with a given
        human-readable part. */
    bech32Data: (string, Bytes) -> Bech32Data,
    /** `json.encode` of an intermediate document. */
    jsonEncode: IntermediateDocument -> Bytes,
    /** `sha256.digest`. */
    sha256: Bytes -> Bytes,
    /** The bytes of a version-1 CID with the JSON codec over a digest. */
    cidV1Json: Bytes -> Bytes,
    /** The method name `Did.parse` finds in a DID string, or None when it cannot parse it. */
    parseDidMethod: string -> Option<string>,
    /** `extractDidFragment`: the fragment of a DID URL, or None (its argument may be undefined). */
    extractFragment: Option<string> -> Option<string>)

  /** Bech32 encoding of bytes under a human-readable part: that part, the separator `1`,
      then the data part (section "Bech32" of BIP 173). */
  function Bech32Encode(lib: Lib, hrp: string, data: Bytes): (s: string)
    requires ':' !in hrp
    ensures ':' !in s
    ensures |s| > |hrp| && s[..|hrp| + 1] == hrp + "1"
  {
    var tail := lib.bech32Data(hrp, data);
    assert ':' !in Bech32Charset;
    hrp + "1" + tail
  }

  predicate LowerAlphanumeric(s: string) {
    forall i | 0 <= i < |s| :: 'a' <= s[i] <= 'z' || '0' <= s[i] <= '9'
  }

  /** Bech32 output is lower-case letters and digits when its human-readable part is. */
  lemma Bech32LowerAlphanumeric(lib: Lib, hrp: string, data: Bytes)
    requires ':' !in hrp && LowerAlphanumeric(hrp)
    ensures LowerAlphanumeric(Bech32Encode(lib, hrp, data))
  {
    var tail := lib.bech32Data(hrp, data);
    assert LowerAlphanumeric(Bech32Charset);
    assert LowerAlphanumeric(tail) by {
      forall i | 0 <= i < |tail| ensures 'a' <= tail[i] <= 'z' || '0' <= tail[i] <= '9' {
        assert tail[i] in Bech32Charset;
      }
    }
    var s := hrp + "1" + tail;
    forall i | 0 <= i < |s| ensures 'a' <= s[i] <= 'z' || '0' <= s[i] <= '9' {
      if i < |hrp| {
        assert s[i] == hrp[i];
      } else if i > |hrp| {
        assert s[i] == tail[i - |hrp| - 1];
      }
    }
  }
}
