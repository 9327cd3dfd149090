/** Conversion between ledger keys and the ids shown to clients. */
module DocflowFuncs {
  import opened GoInts
  import opened GoErrors
  import opened Base64
  import opened DocflowCom

  /** `KeyToId`: the key's bytes in padded base 64. */
  function KeyToId(key: seq<byte>): (id: string)
    ensures |id| == 4 * ((|key| + 2) / 3)
  {
    Encode(key)
  }

  /** The error `DecodeString` reports; its offset is not modelled. */
  const CorruptInput: Error := Error("illegal base64 data at input byte")

  /**
   * `IdToKey`: the decoded bytes with a success response. A decoding failure builds a
   * `DecodeError` response that is dropped, so the caller receives the bytes decoded before the
   * corrupt group and success all the same. The call path is as it was.
   */
  method IdToKey(fpath: FuncPath, id: string) returns (key: seq<byte>, response: Response)
    modifies fpath
    ensures fpath.path == old(fpath.path)
    ensures key == Decode(id).0
    ensures response == SuccessMessageResponse("String was decrypted successfully.") && !IsFailure(response)
  {
    var element := fpath.PushBack("IdToKey");
    var decoded := Decode(id);
    if !decoded.1 {
      var dropped := DecodeError(CorruptInput, "Data: " + id);
    }
    key := decoded.0;
    response := SuccessMessageResponse("String was decrypted successfully.");
    assert fpath.path[..element] == old(fpath.path) && fpath.path[element + 1..] == [];
    fpath.Remove(element);
  }

  /** An id made from a key converts back to that key. */
  lemma IdToKeyOfKeyToId(key: seq<byte>)
    ensures Decode(KeyToId(key)) == (key, true)
  {
    DecodeEncode(key);
  }

  /** An id that is not base 64 still gives success, with the key decoded up to the bad character. */
  lemma CorruptIdStillSucceeds(key: seq<byte>)
    requires |key| % 3 == 0
    ensures Decode(KeyToId(key) + "!") == (key, false)
  {
    CorruptTailKeepsPrefix(key, "!");
  }
}
