/**
 * Signature-verification input handling of the ECDSA verifier: the extraction of the two
 * integers R and S from a DER `Ecdsa-Sig-Value` (section 2.2.3 of RFC 3279, encoded per
 * ITU-T X.690), and the choice between that and the plain two-integer encoding.
 */
module DerPoints {
  import opened Wrappers
  import opened GoInts
  import opened GoErrors

  /** `big.Int.SetBytes`: the bytes as an unsigned big-endian number. */
  function BigEndian(bytes: seq<byte>): nat
  {
    if bytes == [] then 0 else BigEndian(bytes[..|bytes| - 1]) * 256 + bytes[|bytes| - 1]
  }

  function Pow256(k: nat): nat
  {
    if k == 0 then 1 else 256 * Pow256(k - 1)
  }

  /** `k` bytes hold numbers below 256^k, which is positive. */
  lemma {:induction false} BigEndianBound(bytes: seq<byte>)
    ensures 1 <= Pow256(|bytes|)
    ensures BigEndian(bytes) < Pow256(|bytes|)
    decreases |bytes|
  {
    if bytes != [] {
      var init := bytes[..|bytes| - 1];
      BigEndianBound(init);
      assert BigEndian(bytes) <= (Pow256(|init|) - 1) * 256 + 255;
    }
  }

  /** A leading zero byte (DER's sign padding of a high R or S) does not change the number. */
  lemma {:induction false} BigEndianLeadingZero(bytes: seq<byte>)
    ensures BigEndian([0] + bytes) == BigEndian(bytes)
    decreases |bytes|
  {
    if bytes != [] {
      var init := bytes[..|bytes| - 1];
      assert ([0] + bytes)[..|[0] + bytes| - 1] == [0] + init;
      BigEndianLeadingZero(init);
    }
  }

  const UnmarshalMessage: string := "[ PointsFromDER ] Unmarshal der error: "

  /**
   * The slices `PointsFromDER` takes stay inside the content. `rLen+2` and `rLen+4` are
   * computed on the length byte, so they wrap modulo 256.
   */
  predicate SlicesInBounds(content: seq<byte>)
  {
    |content| >= 2 && 2 <= AddByte(content[1], 2) <= |content| && AddByte(content[1], 4) <= |content|
  }

  /**
   * `PointsFromDER`, given what `asn1.Unmarshal` made of the input: on failure zero points and
   * the wrapped error; otherwise R from content bytes [2, 2+rLen) and S from byte rLen+4 to the
   * end, the second tag and length byte skipped unchecked.
   */
  function PointsFromDER(unmarshalled: Result<seq<byte>, Error>): (r: (nat, nat, Option<Error>))
    requires unmarshalled.Success? ==> SlicesInBounds(unmarshalled.value)
    ensures unmarshalled.Failure? ==> r == (0, 0, Some(Wrap(unmarshalled.error, UnmarshalMessage)))
    ensures unmarshalled.Success? ==> r.2 == None
  {
    match unmarshalled
    case Failure(e) => (0, 0, Some(Wrap(e, UnmarshalMessage)))
    case Success(content) =>
      var rLen := content[1];
      (BigEndian(content[2..AddByte(rLen, 2)]), BigEndian(content[AddByte(rLen, 4)..]), None)
  }

  /** The DER content of an `Ecdsa-Sig-Value`: two INTEGERs (tag 2), each with a one-byte length. */
  function SigValueContent(r: seq<byte>, s: seq<byte>): seq<byte>
    requires |r| < 256 && |s| < 256
  {
    [2, |r|] + r + [2, |s|] + s
  }

  /** On a well-formed content with R shorter than 252 bytes the two integers come back. */
  lemma PointsOfSigValue(r: seq<byte>, s: seq<byte>)
    requires |r| < 252 && |s| < 256
    ensures SlicesInBounds(SigValueContent(r, s))
    ensures PointsFromDER(Success(SigValueContent(r, s))) == (BigEndian(r), BigEndian(s), None)
  {
    var c := SigValueContent(r, s);
    assert c[1] == |r|;
    assert c[2..|r| + 2] == r;
    assert c[|r| + 4..] == s;
  }

  /** The length byte is not checked against anything: with R's length 252, `rLen+4` wraps to 0 and S is read from the start. */
  lemma WrappedOffsetReadsFromStart(content: seq<byte>)
    requires |content| >= 254 && content[1] == 252
    ensures SlicesInBounds(content)
    ensures PointsFromDER(Success(content)).1 == BigEndian(content)
  {
    assert content[0..] == content;
  }

  const NilSignature: Error := Error("[ Verify ] signature bytes = nil")

  /**
   * `Verify`'s handling of its input: a nil signature is refused; "DER" signatures are read
   * with `PointsFromDER`, any other type with the two-integer deserialiser; the points then
   * go to the ECDSA check, whose verdict is returned with no error.
   */
  function Verify(signType: string, signature: Option<seq<byte>>,
                  unmarshal: seq<byte> -> Result<seq<byte>, Error>,
                  deserialize: seq<byte> -> Result<(nat, nat), Error>,
                  ecdsaVerify: (nat, nat) -> bool): (r: (bool, Option<Error>))
    requires signature.Some? && signType == "DER" && unmarshal(signature.value).Success? ==>
      SlicesInBounds(unmarshal(signature.value).value)
    ensures signature.None? ==> r == (false, Some(NilSignature))
    ensures r.1.Some? ==> !r.0
  {
    if signature.None? then (false, Some(NilSignature))
    else if signType == "DER" then
      var points := PointsFromDER(unmarshal(signature.value));
      if points.2.Some? then (false, Some(Wrap(points.2.value, "[ Verify ] could't get points from DER")))
      else (ecdsaVerify(points.0, points.1), None)
    else
      match deserialize(signature.value)
      case Failure(e) => (false, Some(Wrap(e, "[ Verify ] could't deserialize signature")))
      case Success((r, s)) => (ecdsaVerify(r, s), None)
  }

  /**
   * Only "DER" goes through `PointsFromDER`, whose unmarshal error comes back wrapped twice;
   * every other type name uses the deserialiser.
   */
  lemma VerifyDispatch(signType: string, sig: seq<byte>,
                       unmarshal: seq<byte> -> Result<seq<byte>, Error>,
                       deserialize: seq<byte> -> Result<(nat, nat), Error>,
                       ecdsaVerify: (nat, nat) -> bool)
    requires signType == "DER" && unmarshal(sig).Success? ==> SlicesInBounds(unmarshal(sig).value)
    ensures signType == "DER" && unmarshal(sig).Success? ==>
      var p := PointsFromDER(unmarshal(sig));
      Verify(signType, Some(sig), unmarshal, deserialize, ecdsaVerify) == (ecdsaVerify(p.0, p.1), None)
    ensures signType == "DER" && unmarshal(sig).Failure? ==>
      Verify(signType, Some(sig), unmarshal, deserialize, ecdsaVerify)
        == (false, Some(Wrap(Wrap(unmarshal(sig).error, UnmarshalMessage), "[ Verify ] could't get points from DER")))
    ensures signType != "DER" && deserialize(sig).Success? ==>
      var p := deserialize(sig).value;
      Verify(signType, Some(sig), unmarshal, deserialize, ecdsaVerify) == (ecdsaVerify(p.0, p.1), None)
    ensures signType != "DER" && deserialize(sig).Failure? ==>
      Verify(signType, Some(sig), unmarshal, deserialize, ecdsaVerify)
        == (false, Some(Wrap(deserialize(sig).error, "[ Verify ] could't deserialize signature")))
  {
  }
}
