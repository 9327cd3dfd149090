/**
 * The docflow chaincode's common layer: the peer response it returns, the error-code table,
 * the error-response formatter and its constructors, the argument-list and call-path texts.
 */
module DocflowCom {
  import opened Wrappers
  import opened GoErrors
  import opened Decimal
  import opened GoInts

  /** Response statuses: below the threshold the endorser endorses, at or above it rejects. */
  const OK: int := 200
  const ErrorThreshold: int := 400
  const ErrorStatus: int := 500

  /** Error codes, which appear only in the response message. */
  const InvalidFunctionNameCode: nat := 510
  const IncorrectInvokeNumberOfArgsCode: nat := 511
  const IncorrectInvokeArgsCode: nat := 512
  const IncorrectNumberOfArgsCode: nat := 512
  const MarshalCode: nat := 520
  const ResponseMarshalCode: nat := 521
  const UnmarshalCode: nat := 530
  const GetStateCode: nat := 540
  const GetStateByPartialCompositeKeyCode: nat := 541
  const PutStateCode: nat := 550
  const PutStateOnExistKeyCode: nat := 551
  const EditStateOnNotExistKeyCode: nat := 552
  const CreateCompositeKeyCode: nat := 560
  const SplitCompositeKeyCode: nat := 561
  const IteratorNextCode: nat := 570
  const EncryptCode: nat := 580
  const DecryptCode: nat := 590
  const DecodeCode: nat := 591
  const GetAttributeCode: nat := 600
  const NotPossessAttributeCode: nat := 601
  const GetMspIdCode: nat := 610
  const IncorrectNumberOfFieldsCode: nat := 620
  const NoSuchCaseOfEntityCode: nat := 630
  const IncorrectArrayParseArgsCode: nat := 640
  const EntityValidationCode: nat := 650
  const EventCode: nat := 660
  const GetTxTimestampCode: nat := 670

  /** `peer.Response`. */
  datatype Response = Response(status: int, message: string, payload: seq<byte>)

  /** What every caller tests: `Status >= ERRORTHRESHOLD`. */
  predicate IsFailure(r: Response)
  {
    r.status >= ErrorThreshold
  }

  /** `CCError`: an error value whose `Error()` text is its name. */
  function CCError(name: string): (e: Error)
    ensures e.message == name
  {
    Error(name)
  }

  const ErrorCodePrefix: string := " Error code: "

  /** `ErrorMessageResponse`: status 500 whatever the code; the code, the error and the message go into the text. */
  function ErrorMessageResponse(err: Error, status: int, message: string): (r: Response)
    ensures r.status == ErrorStatus && IsFailure(r) && r.payload == []
  {
    Response(ErrorStatus, ErrorCodePrefix + IntToString(status) + ": " + err.message + ". Message: " + message, [])
  }

  /** `SuccessMessageResponse`: status 200 and the message. */
  function SuccessMessageResponse(message: string): (r: Response)
    ensures r.status == OK && !IsFailure(r) && r.message == message && r.payload == []
  {
    Response(OK, message, [])
  }

  /**
   * `SuccessPayloadResponse`, given what marshalling the data gave: status 200 even when
   * marshalling failed (the error response is built and dropped), with no payload then.
   */
  function SuccessPayloadResponse(marshalled: Result<seq<byte>, Error>): (r: Response)
    ensures r.status == OK && !IsFailure(r) && r.message == ""
    ensures r.payload == if marshalled.Success? then marshalled.value else []
  {
    match marshalled
    case Success(json) => Response(OK, "", json)
    case Failure(_) => Response(OK, "", [])
  }

  /** The longest prefix of decimal digits. */
  function LeadingDigits(s: string): (d: string)
    ensures AllDigits(d) && d <= s
    ensures |d| < |s| ==> !IsDigit(s[|d|])
  {
    if s == [] || !IsDigit(s[0]) then [] else [s[0]] + LeadingDigits(s[1..])
  }

  /** The code an error-response message carries, read back from its text. */
  function CodeOf(message: string): (c: Option<nat>)
  {
    if |message| < |ErrorCodePrefix| || message[..|ErrorCodePrefix|] != ErrorCodePrefix then None
    else
      var digits := LeadingDigits(message[|ErrorCodePrefix|..]);
      if digits == [] then None else Some(DecimalValue(digits))
  }

  lemma {:induction false} LeadingDigitsOf(d: string, rest: string)
    requires AllDigits(d) && (rest == [] || !IsDigit(rest[0]))
    ensures LeadingDigits(d + rest) == d
    decreases |d|
  {
    if d != [] {
      assert (d + rest)[1..] == d[1..] + rest;
      LeadingDigitsOf(d[1..], rest);
    } else {
      assert d + rest == rest;
    }
  }

  /** The code of an error response can be read back from its message, whatever the error and message. */
  lemma ErrorCodeReadBack(err: Error, code: nat, message: string)
    ensures CodeOf(ErrorMessageResponse(err, code, message).message) == Some(code)
  {
    var m := ErrorMessageResponse(err, code, message).message;
    var rest := ": " + err.message + ". Message: " + message;
    assert m == ErrorCodePrefix + (NatToString(code) + rest);
    assert m[|ErrorCodePrefix|..] == NatToString(code) + rest;
    LeadingDigitsOf(NatToString(code), rest);
    DecimalRoundTrip(code);
  }

  /** The message of an error response ends with the message it was given. */
  lemma ErrorMessageEndsWith(err: Error, code: int, message: string)
    ensures var m := ErrorMessageResponse(err, code, message).message;
      |m| >= |message| + 11 && m[|m| - |message| - 11..] == ". Message: " + message
  {
    var head := ErrorCodePrefix + IntToString(code) + ": " + err.message;
    EndsWith(ErrorMessageResponse(err, code, message).message, head, ". Message: ", message);
  }

  lemma EndsWith(s: string, head: string, sep: string, tail: string)
    requires s == head + sep + tail
    ensures |s| >= |sep| + |tail| && s[|s| - |tail| - |sep|..] == sep + tail
  {
    assert s == head + (sep + tail);
  }

  /** One `ConcatArrStr` entry. */
  function Entry(index: nat, element: string): string
  {
    "Index " + NatToString(index) + ", Value " + element + ";"
  }

  /** The entries of a list in order, each with its position. */
  function Entries(arr: seq<string>): string
  {
    if arr == [] then "" else Entries(arr[..|arr| - 1]) + Entry(|arr| - 1, arr[|arr| - 1])
  }

  /** The text `ConcatArrStr` builds. */
  function ArrayText(arr: seq<string>): string
  {
    "[" + Entries(arr) + "]"
  }

  /** Entries come in list order: the text of a prefix of the list is a prefix of the text. */
  lemma {:induction false} EntriesPrefix(arr: seq<string>, k: nat)
    requires k <= |arr|
    ensures Entries(arr[..k]) <= Entries(arr)
    decreases |arr|
  {
    if k < |arr| {
      assert arr[..|arr| - 1][..k] == arr[..k];
      EntriesPrefix(arr[..|arr| - 1], k);
    } else {
      assert arr[..k] == arr;
    }
  }

  /** An empty list prints as "[]"; otherwise the first entry comes first, at position 0. */
  lemma {:induction false} ArrayTextShape(arr: seq<string>)
    ensures arr == [] ==> ArrayText(arr) == "[]"
    ensures arr != [] ==> Entry(0, arr[0]) <= ArrayText(arr)[1..]
  {
    if arr != [] {
      EntriesPrefix(arr, 1);
      EntriesOfOne(arr[..1]);
      TextAfterBracket(ArrayText(arr), Entries(arr));
    }
  }

  lemma EntriesOfOne(arr: seq<string>)
    requires |arr| == 1
    ensures Entries(arr) == Entry(0, arr[0])
  {
    assert arr[..0] == [];
  }

  lemma TextAfterBracket(text: string, entries: string)
    requires text == "[" + entries + "]"
    ensures text[1..] == entries + "]"
  {
  }

  lemma EntriesStep(arr: seq<string>, i: nat, text: string, entry: string)
    requires i < |arr| && text == "[" + Entries(arr[..i]) && entry == Entry(i, arr[i])
    ensures text + entry == "[" + Entries(arr[..i + 1])
  {
    assert arr[..i + 1][..i] == arr[..i];
  }

  /** `ConcatArrStr`. */
  method ConcatArrStr(arr: seq<string>) returns (result: string)
    ensures result == ArrayText(arr)
  {
    result := "[";
    for i := 0 to |arr|
      invariant result == "[" + Entries(arr[..i])
    {
      var entry := "Index " + NatToString(i) + ", Value " + arr[i] + ";";
      EntriesStep(arr, i, result, entry);
      result := result + entry;
    }
    assert arr[..|arr|] == arr;
    result := result + "]";
  }

  /** The call path written with a slash before each function name. */
  function PathText(path: seq<string>): string
  {
    if path == [] then "" else PathText(path[..|path| - 1]) + "/" + path[|path| - 1]
  }

  /** The text of a longer path extends the text of the shorter one. */
  lemma {:induction false} PathTextConcat(a: seq<string>, b: seq<string>)
    ensures PathText(a + b) == PathText(a) + PathText(b)
    decreases |b|
  {
    if b == [] {
      assert a + b == a;
    } else {
      var init := b[..|b| - 1];
      assert (a + b)[..|a + b| - 1] == a + init;
      PathTextConcat(a, init);
    }
  }

  /** `getPath`: "" for a nil list, otherwise the names between " '" and "': ". */
  method GetPath(path: Option<seq<string>>) returns (result: string)
    ensures path.None? ==> result == ""
    ensures path.Some? ==> result == " '" + PathText(path.value) + "': "
  {
    if path.None? {
      return "";
    }
    var names := path.value;
    result := " '";
    for i := 0 to |names|
      invariant result == " '" + PathText(names[..i])
    {
      assert names[..i + 1][..i] == names[..i];
      result := result + "/" + names[i];
    }
    assert names[..|names|] == names;
    result := result + "': ";
  }

  /** The global `FPath`: the names of the functions being executed, innermost last. */
  class FuncPath {
    var path: seq<string>

    constructor ()
      ensures path == []
    {
      path := [];
    }

    /** `PushBack`: the name goes to the end; its position is the element handle. */
    method PushBack(name: string) returns (element: nat)
      modifies this
      ensures path == old(path) + [name] && element == |old(path)|
    {
      element := |path|;
      path := path + [name];
    }

    /** `Remove`: the element at the handle goes, the others keep their order. */
    method Remove(element: nat)
      requires element < |path|
      modifies this
      ensures path == old(path)[..element] + old(path)[element + 1..]
    {
      path := path[..element] + path[element + 1..];
    }
  }

  // The error constructors of `com/error.go`; their shared promises are `ErrorConstructors`.

  function InvalidFunctionNameForRoleError(functionName: string, role: string): Response
  {
    ErrorMessageResponse(CCError("InvalidFunctionNameForRoleError"), InvalidFunctionNameCode,
      "Invalid Smart Contract function name: '" + functionName + "' for role: '" + role + "'")
  }

  function IncorrectInvokeNumberOfArgsError(args: seq<string>, narg: nat): Response
  {
    ErrorMessageResponse(CCError("IncorrectInvokeNumberOfArgsError"), IncorrectInvokeNumberOfArgsCode,
      "Incorrect invoke arguments: " + ArrayText(args) + ". Actual number of args: " + NatToString(|args|)
        + " Expecting number of args: " + NatToString(narg))
  }

  function IncorrectInvokeArgsError(args: seq<string>): Response
  {
    ErrorMessageResponse(CCError("IncorrectInvokeArgsError"), IncorrectInvokeArgsCode,
      "Incorrect invoke arguments: " + ArrayText(args))
  }

  function IncorrectNumberOfArgsError(narg: int): Response
  {
    ErrorMessageResponse(CCError("IncorrectNumberOfArgsError"), IncorrectNumberOfArgsCode,
      "Incorrect number of arguments. Expecting " + IntToString(narg))
  }

  function MarshalError(err: Error): Response
  {
    ErrorMessageResponse(err, MarshalCode, "Error on Marshal data")
  }

  function ResponseMarshalError(err: Error): Response
  {
    ErrorMessageResponse(err, ResponseMarshalCode, "Error on Marshal response")
  }

  function UnmarshalError(err: Error, data: string): Response
  {
    ErrorMessageResponse(err, UnmarshalCode, "Error on Unmarshal data: " + data)
  }

  function GetStateError(err: Error, data: string): Response
  {
    ErrorMessageResponse(err, GetStateCode, "Error on GetState: " + data)
  }

  function DecodeError(err: Error, data: string): Response
  {
    ErrorMessageResponse(err, DecodeCode, "Error on decode: " + data)
  }

  function GetAttributeError(err: Error, data: string): Response
  {
    ErrorMessageResponse(err, GetAttributeCode, "Error on get attribute: " + data)
  }

  function NotPossessAttributeError(data: string): Response
  {
    ErrorMessageResponse(CCError("NotPossessAttributeError"), NotPossessAttributeCode,
      "Error on getting attribute. Not possess attribute: " + data)
  }

  function NoSuchCaseOfEntityError(entityName: string): Response
  {
    ErrorMessageResponse(CCError("NoSuchCaseOfEntityError"), NoSuchCaseOfEntityCode,
      "No such case of entity. Entity name: " + entityName)
  }

  /** Reuses the name "NoSuchCaseOfEntityError" under its own code 640. */
  function IncorrectArrayParseArgsError(): Response
  {
    ErrorMessageResponse(CCError("NoSuchCaseOfEntityError"), IncorrectArrayParseArgsCode,
      "Incorrect array parse arguments.")
  }

  function EntityValidationError(): Response
  {
    ErrorMessageResponse(CCError("EntityValidationError"), EntityValidationCode,
      "Cann't edit entity because no permission for editing some field. ")
  }

  function EventError(err: Error, eventName: string): Response
  {
    ErrorMessageResponse(err, EventCode, "Event " + eventName + " error.")
  }

  /**
   * The modelled error constructors for arguments, unmarshalling, attributes and decoding: each
   * fails with status 500 and its own code in the text.
   */
  lemma ErrorConstructors(functionName: string, role: string, args: seq<string>, narg: nat, err: Error, data: string)
    ensures var r := InvalidFunctionNameForRoleError(functionName, role); IsFailure(r) && CodeOf(r.message) == Some(510)
    ensures var r := IncorrectInvokeNumberOfArgsError(args, narg); IsFailure(r) && CodeOf(r.message) == Some(511)
    ensures var r := IncorrectInvokeArgsError(args); IsFailure(r) && CodeOf(r.message) == Some(512)
    ensures var r := IncorrectNumberOfArgsError(narg); IsFailure(r) && CodeOf(r.message) == Some(512)
    ensures var r := UnmarshalError(err, data); IsFailure(r) && CodeOf(r.message) == Some(530)
    ensures var r := GetAttributeError(err, data); IsFailure(r) && CodeOf(r.message) == Some(600)
    ensures var r := NotPossessAttributeError(data); IsFailure(r) && CodeOf(r.message) == Some(601)
    ensures var r := DecodeError(err, data); IsFailure(r) && CodeOf(r.message) == Some(591)
    ensures var r := IncorrectArrayParseArgsError();
      IsFailure(r) && CodeOf(r.message) == Some(640) && r == ErrorMessageResponse(CCError("NoSuchCaseOfEntityError"), 640, "Incorrect array parse arguments.")
  {
    ErrorCodeReadBack(CCError("InvalidFunctionNameForRoleError"), 510,
      "Invalid Smart Contract function name: '" + functionName + "' for role: '" + role + "'");
    ErrorCodeReadBack(CCError("IncorrectInvokeNumberOfArgsError"), 511,
      "Incorrect invoke arguments: " + ArrayText(args) + ". Actual number of args: " + NatToString(|args|)
        + " Expecting number of args: " + NatToString(narg));
    ErrorCodeReadBack(CCError("IncorrectInvokeArgsError"), 512, "Incorrect invoke arguments: " + ArrayText(args));
    ErrorCodeReadBack(CCError("IncorrectNumberOfArgsError"), 512,
      "Incorrect number of arguments. Expecting " + IntToString(narg));
    ErrorCodeReadBack(err, 530, "Error on Unmarshal data: " + data);
    ErrorCodeReadBack(err, 600, "Error on get attribute: " + data);
    ErrorCodeReadBack(CCError("NotPossessAttributeError"), 601,
      "Error on getting attribute. Not possess attribute: " + data);
    ErrorCodeReadBack(err, 591, "Error on decode: " + data);
    ErrorCodeReadBack(CCError("NoSuchCaseOfEntityError"), 640, "Incorrect array parse arguments.");
  }

  /**
   * The modelled error constructors for marshalling, state reads, entities and events: each
   * fails with status 500 and its own code in the text.
   */
  lemma MarshalStateEventErrors(err: Error, data: string)
    ensures var r := MarshalError(err); IsFailure(r) && CodeOf(r.message) == Some(520)
    ensures var r := ResponseMarshalError(err); IsFailure(r) && CodeOf(r.message) == Some(521)
    ensures var r := GetStateError(err, data); IsFailure(r) && CodeOf(r.message) == Some(540)
    ensures var r := NoSuchCaseOfEntityError(data); IsFailure(r) && CodeOf(r.message) == Some(630)
    ensures var r := EntityValidationError(); IsFailure(r) && CodeOf(r.message) == Some(650)
    ensures var r := EventError(err, data); IsFailure(r) && CodeOf(r.message) == Some(660)
  {
    ErrorCodeReadBack(err, 520, "Error on Marshal data");
    ErrorCodeReadBack(err, 521, "Error on Marshal response");
    ErrorCodeReadBack(err, 540, "Error on GetState: " + data);
    ErrorCodeReadBack(CCError("NoSuchCaseOfEntityError"), 630, "No such case of entity. Entity name: " + data);
    ErrorCodeReadBack(CCError("EntityValidationError"), 650,
      "Cann't edit entity because no permission for editing some field. ");
    ErrorCodeReadBack(err, 660, "Event " + data + " error.");
  }
}
