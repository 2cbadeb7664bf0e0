/** The binary members of the WebAuthn ceremonies as they cross between the JSON wire format
    (arrays of numbers) and the platform API (byte buffers). The records follow the option
    dictionaries of W3C Web Authentication Level 2, section 5.4 (PublicKeyCredentialCreationOptions)
    and section 5.5 (PublicKeyCredentialRequestOptions); members the front end passes through
    untouched are kept together in `others`. */
module WebAuthnWire {
  import opened Common

  /** `ToUint8` of an integer: reduction modulo 2^8 into 0..255 (what `new Uint8Array(array)` does
      to each element). Dafny's `%` is Euclidean, as `ToUint8` is for negative numbers. */
  function ToUint8(n: int): Byte {
    n % 256
  }

  /** `new Uint8Array(numbers)`. */
  function ToBytes(ns: seq<int>): (r: seq<Byte>)
    ensures |r| == |ns|
    ensures forall i :: 0 <= i < |ns| ==> r[i] == ToUint8(ns[i])
  {
    seq(|ns|, i requires 0 <= i < |ns| => ToUint8(ns[i]))
  }

  /** `Array.from(new Uint8Array(buffer))`. */
  function FromBytes(bs: seq<Byte>): (r: seq<int>)
    ensures |r| == |bs|
    ensures forall i :: 0 <= i < |bs| ==> r[i] == bs[i] as int
  {
    seq(|bs|, i requires 0 <= i < |bs| => bs[i] as int)
  }

  /** Every element is already an octet value. */
  predicate AllOctets(ns: seq<int>) {
    forall i :: 0 <= i < |ns| ==> 0 <= ns[i] < 256
  }

  /** Array -> bytes -> array gives the array back exactly when every element is an octet value,
      and bytes -> array -> bytes always gives the bytes back. */
  lemma BytesRoundTrip(ns: seq<int>, bs: seq<Byte>)
    ensures FromBytes(ToBytes(ns)) == ns <==> AllOctets(ns)
    ensures ToBytes(FromBytes(bs)) == bs
  {
    if FromBytes(ToBytes(ns)) == ns {
      forall i | 0 <= i < |ns| ensures 0 <= ns[i] < 256 {
        assert FromBytes(ToBytes(ns))[i] == ns[i];
      }
    }
  }

  datatype DescriptorWire = DescriptorWire(id: seq<int>, kind: string, others: map<string, string>)
  datatype Descriptor = Descriptor(id: seq<Byte>, kind: string, others: map<string, string>)

  datatype UserEntityWire = UserEntityWire(id: seq<int>, others: map<string, string>)
  datatype UserEntity = UserEntity(id: seq<Byte>, others: map<string, string>)

  /** Registration options as the back end sends them. */
  datatype CreationOptionsWire = CreationOptionsWire(
    challenge: seq<int>, user: UserEntityWire,
    excludeCredentials: Option<seq<DescriptorWire>>, others: map<string, string>)

  /** The `publicKey` argument of `navigator.credentials.create`. The spread `...options` copies
      `excludeCredentials` without converting its ids, so they stay numeric arrays. */
  datatype CreationOptions = CreationOptions(
    challenge: seq<Byte>, user: UserEntity,
    excludeCredentials: Option<seq<DescriptorWire>>, others: map<string, string>)

  datatype RequestOptionsWire = RequestOptionsWire(
    challenge: seq<int>, allowCredentials: Option<seq<DescriptorWire>>, others: map<string, string>)

  /** The `publicKey` argument of `navigator.credentials.get`. */
  datatype RequestOptions = RequestOptions(
    challenge: seq<Byte>, allowCredentials: Option<seq<Descriptor>>, others: map<string, string>)

  /** What `navigator.credentials.create` resolves to (the members the front end reads). */
  datatype PlatformCredential = PlatformCredential(
    id: string, rawId: seq<Byte>, attestationObject: seq<Byte>, clientDataJSON: seq<Byte>, kind: string)

  /** The registration credential as the front end sends it back. */
  datatype CredentialData = CredentialData(
    id: string, rawId: seq<int>, attestationObject: seq<int>, clientDataJSON: seq<int>, kind: string)

  /** What `navigator.credentials.get` resolves to (the members the front end reads). */
  datatype PlatformAssertion = PlatformAssertion(
    id: string, rawId: seq<Byte>, authenticatorData: seq<Byte>, clientDataJSON: seq<Byte>,
    signature: seq<Byte>, userHandle: Option<seq<Byte>>, kind: string)

  /** The assertion as the front end sends it back. */
  datatype AssertionData = AssertionData(
    id: string, rawId: seq<int>, authenticatorData: seq<int>, clientDataJSON: seq<int>,
    signature: seq<int>, userHandle: Option<seq<int>>, kind: string)

  predicate CreationWireIsOctets(o: CreationOptionsWire) {
    AllOctets(o.challenge) && AllOctets(o.user.id)
  }

  /** The conversion before `navigator.credentials.create`: the challenge and the user handle become
      bytes; whatever else the options hold is passed on unchanged. */
  function CreationOptionsFromWire(o: CreationOptionsWire): (r: CreationOptions)
    ensures r.challenge == ToBytes(o.challenge) && r.user.id == ToBytes(o.user.id)
    ensures r.excludeCredentials == o.excludeCredentials && r.others == o.others && r.user.others == o.user.others
    ensures FromBytes(r.challenge) == o.challenge && FromBytes(r.user.id) == o.user.id <==> CreationWireIsOctets(o)
  {
    BytesRoundTrip(o.challenge, []);
    BytesRoundTrip(o.user.id, []);
    CreationOptions(ToBytes(o.challenge), UserEntity(ToBytes(o.user.id), o.user.others), o.excludeCredentials, o.others)
  }

  function DescriptorFromWire(d: DescriptorWire): Descriptor {
    Descriptor(ToBytes(d.id), d.kind, d.others)
  }

  predicate RequestWireIsOctets(o: RequestOptionsWire) {
    AllOctets(o.challenge)
    && (o.allowCredentials.Some? ==> forall i :: 0 <= i < |o.allowCredentials.value| ==> AllOctets(o.allowCredentials.value[i].id))
  }

  /** The conversion before `navigator.credentials.get`: the challenge and every allowed credential
      id become bytes (`allowCredentials?.map(...)` keeps a missing list missing). */
  function RequestOptionsFromWire(o: RequestOptionsWire): (r: RequestOptions)
    ensures r.others == o.others
    ensures r.allowCredentials.Some? <==> o.allowCredentials.Some?
    ensures r.allowCredentials.Some? ==>
      |r.allowCredentials.value| == |o.allowCredentials.value|
      && forall i :: 0 <= i < |o.allowCredentials.value| ==>
           var (w, d) := (o.allowCredentials.value[i], r.allowCredentials.value[i]);
           d.id == ToBytes(w.id) && d.kind == w.kind && d.others == w.others
           && (FromBytes(d.id) == w.id <==> AllOctets(w.id))
    ensures r.challenge == ToBytes(o.challenge)
    ensures FromBytes(r.challenge) == o.challenge <==> AllOctets(o.challenge)
  {
    BytesRoundTrip(o.challenge, []);
    if o.allowCredentials.Some? then
      var ds := o.allowCredentials.value;
      assert forall i :: 0 <= i < |ds| ==> (FromBytes(ToBytes(ds[i].id)) == ds[i].id <==> AllOctets(ds[i].id)) by {
        forall i | 0 <= i < |ds| { BytesRoundTrip(ds[i].id, []); }
      }
      RequestOptions(ToBytes(o.challenge), Some(seq(|ds|, i requires 0 <= i < |ds| => DescriptorFromWire(ds[i]))), o.others)
    else
      RequestOptions(ToBytes(o.challenge), None, o.others)
  }

  /** The registration credential sent back: every buffer becomes a numeric array from which the
      original bytes are recovered exactly. */
  function CredentialToWire(c: PlatformCredential): (r: CredentialData)
    ensures r.id == c.id && r.kind == c.kind
    ensures ToBytes(r.rawId) == c.rawId && ToBytes(r.attestationObject) == c.attestationObject
    ensures ToBytes(r.clientDataJSON) == c.clientDataJSON
    ensures AllOctets(r.rawId) && AllOctets(r.attestationObject) && AllOctets(r.clientDataJSON)
  {
    BytesRoundTrip([], c.rawId);
    BytesRoundTrip([], c.attestationObject);
    BytesRoundTrip([], c.clientDataJSON);
    CredentialData(c.id, FromBytes(c.rawId), FromBytes(c.attestationObject), FromBytes(c.clientDataJSON), c.kind)
  }

  /** The assertion sent back: every buffer becomes a numeric array from which the original bytes
      are recovered exactly, and a null user handle stays null. */
  function AssertionToWire(a: PlatformAssertion): (r: AssertionData)
    ensures r.id == a.id && r.kind == a.kind
    ensures ToBytes(r.rawId) == a.rawId && ToBytes(r.authenticatorData) == a.authenticatorData
    ensures ToBytes(r.clientDataJSON) == a.clientDataJSON && ToBytes(r.signature) == a.signature
    ensures r.userHandle.None? <==> a.userHandle.None?
    ensures r.userHandle.Some? ==> ToBytes(r.userHandle.value) == a.userHandle.value
  {
    BytesRoundTrip([], a.rawId);
    BytesRoundTrip([], a.authenticatorData);
    BytesRoundTrip([], a.clientDataJSON);
    BytesRoundTrip([], a.signature);
    if a.userHandle.Some? then
      BytesRoundTrip([], a.userHandle.value);
      AssertionData(a.id, FromBytes(a.rawId), FromBytes(a.authenticatorData), FromBytes(a.clientDataJSON),
                    FromBytes(a.signature), Some(FromBytes(a.userHandle.value)), a.kind)
    else
      AssertionData(a.id, FromBytes(a.rawId), FromBytes(a.authenticatorData), FromBytes(a.clientDataJSON),
                    FromBytes(a.signature), None, a.kind)
  }
}
