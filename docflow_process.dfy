/**
 * The docflow business contract: function routing, argument checks, process creation,
 * history paging, attachments and versions, and responses to process elements. Storage reads
 * are inputs and storage writes are outputs; the MSP id and the transaction time come from the
 * fixed values the chaincode is built with.
 */
module DocflowProcess {
  import opened Wrappers
  import opened GoErrors
  import opened GoInts
  import opened DocflowCom
  import opened DocflowErr

  /** The caller's MSP id and the transaction time, as the built-in `GetMSPID` and `GetTime` give them. */
  const MspId: string := "Org1MSP"
  const Timestamp: int := 1549620261

  /** An approval mark; `Undecided` is the `NONE` mark. */
  datatype Approve = Undecided | Approved | Disapproved

  /** The kind of a response to a process element. */
  datatype ResponseType = ApproveType | FileType | OtherType(name: string)

  datatype VersionSignature = VersionSignature(versionReference: string, signature: string)

  /** A response to a process element, as it is kept in the element's history. */
  datatype ElementResponse = ElementResponse(kind: ResponseType, approve: Approve, dateTime: int,
                                             participantReference: string, processReference: string,
                                             versionSignatures: seq<VersionSignature>)

  /** A process (template) element: who must approve it, whether it is active, and its responses, newest first. */
  datatype Element = Element(name: string, approves: map<string, Approve>, active: bool, history: seq<ElementResponse>)

  // ---------------------------------------------------------------- routing

  /** The business functions `CallBusinessFunc` routes. */
  datatype BusinessFunction =
    | CreateParticipant | EditParticipant | GetMyParticipants | GetAllParticipants | HcCreateTemplateOfChat
    | CreateProcess | GetAttachmentsByProcessReference | GetProcessElementHistory | GetAllProcesses
    | CreateAttachment | CreatePart | SendResponse | CreateAttachmentVersion | GetPartsByVersionReference
    | GetPartByReference

  /** The name each business function is invoked by. */
  function NameOf(f: BusinessFunction): string
  {
    match f
    case CreateParticipant => "createParticipant"
    case EditParticipant => "editParticipant"
    case GetMyParticipants => "getMyParticipants"
    case GetAllParticipants => "getAllParticipants"
    case HcCreateTemplateOfChat => "hcCreateTemplateOfChat"
    case CreateProcess => "createProcess"
    case GetAttachmentsByProcessReference => "getAttachmentsByProcessReference"
    case GetProcessElementHistory => "getProcessElementHistory"
    case GetAllProcesses => "getAllProcesses"
    case CreateAttachment => "createAttachment"
    case CreatePart => "createPart"
    case SendResponse => "sendResponse"
    case CreateAttachmentVersion => "createAttachmentVersion"
    case GetPartsByVersionReference => "getPartsByVersionReference"
    case GetPartByReference => "getPartByReference"
  }

  /** The switch of `CallBusinessFunc`. */
  function Route(name: string): (f: Option<BusinessFunction>)
    ensures f.Some? ==> name == NameOf(f.value)
  {
    match name
    case "createParticipant" => Some(CreateParticipant)
    case "editParticipant" => Some(EditParticipant)
    case "getMyParticipants" => Some(GetMyParticipants)
    case "getAllParticipants" => Some(GetAllParticipants)
    case "hcCreateTemplateOfChat" => Some(HcCreateTemplateOfChat)
    case "createProcess" => Some(CreateProcess)
    case "getAttachmentsByProcessReference" => Some(GetAttachmentsByProcessReference)
    case "getProcessElementHistory" => Some(GetProcessElementHistory)
    case "getAllProcesses" => Some(GetAllProcesses)
    case "createAttachment" => Some(CreateAttachment)
    case "createPart" => Some(CreatePart)
    case "sendResponse" => Some(SendResponse)
    case "createAttachmentVersion" => Some(CreateAttachmentVersion)
    case "getPartsByVersionReference" => Some(GetPartsByVersionReference)
    case "getPartByReference" => Some(GetPartByReference)
    case _ => None
  }

  /** Every business function is routed by its name; with `Route`'s own contract, routing inverts naming. */
  lemma RouteInvertsNameOf(f: BusinessFunction)
    ensures Route(NameOf(f)) == Some(f)
  {
    match f
    case CreateParticipant | EditParticipant | GetMyParticipants =>
      RoutesParticipantFunctions(f);
    case GetAllParticipants | HcCreateTemplateOfChat | CreateProcess =>
      RoutesListingFunctions(f);
    case GetAttachmentsByProcessReference | GetProcessElementHistory | GetAllProcesses =>
      RoutesProcessFunctions(f);
    case CreateAttachment | CreatePart | SendResponse =>
      RoutesAttachmentFunctions(f);
    case _ =>
      RoutesVersionFunctions(f);
  }

  lemma RoutesParticipantFunctions(f: BusinessFunction)
    requires f.CreateParticipant? || f.EditParticipant? || f.GetMyParticipants?
    ensures Route(NameOf(f)) == Some(f)
  {
  }

  lemma RoutesListingFunctions(f: BusinessFunction)
    requires f.GetAllParticipants? || f.HcCreateTemplateOfChat? || f.CreateProcess?
    ensures Route(NameOf(f)) == Some(f)
  {
  }

  lemma RoutesProcessFunctions(f: BusinessFunction)
    requires f.GetAttachmentsByProcessReference? || f.GetProcessElementHistory? || f.GetAllProcesses?
    ensures Route(NameOf(f)) == Some(f)
  {
  }

  lemma RoutesAttachmentFunctions(f: BusinessFunction)
    requires f.CreateAttachment? || f.CreatePart? || f.SendResponse?
    ensures Route(NameOf(f)) == Some(f)
  {
  }

  lemma RoutesVersionFunctions(f: BusinessFunction)
    requires f.CreateAttachmentVersion? || f.GetPartsByVersionReference? || f.GetPartByReference?
    ensures Route(NameOf(f)) == Some(f)
  {
  }

  /** `createProcTemplate` is defined but not routed. */
  lemma ProcTemplateCreationNotRouted()
    ensures Route("createProcTemplate") == None
  {
  }

  /**
   * `CallBusinessFunc`, given what each handler would return for the arguments and the
   * simulate flag: a routed name runs its handler; any other name gets
   * `InvalidFunctionNameForRoleError` with an empty role.
   */
  function CallBusinessFunc(functionName: string, args: seq<string>, simulate: string,
                            handler: (BusinessFunction, seq<string>, string) -> Response): (r: Response)
    ensures Route(functionName).Some? ==> r == handler(Route(functionName).value, args, simulate)
    ensures Route(functionName).None? ==> r == InvalidFunctionNameForRoleError(functionName, "") && IsFailure(r)
  {
    match Route(functionName)
    case Some(f) => handler(f, args, simulate)
    case None => InvalidFunctionNameForRoleError(functionName, "")
  }

  /** The check every argument-taking handler opens with: exactly one (JSON) argument. */
  function CheckOneArg(args: seq<string>): (r: Option<Response>)
    ensures r.None? <==> |args| == 1
    ensures r.Some? ==> r.value == IncorrectInvokeNumberOfArgsError(args, 1) && IsFailure(r.value)
  {
    if |args| != 1 then Some(IncorrectInvokeNumberOfArgsError(args, 1)) else None
  }

  /**
   * `getExecutorFirstParticipantRef`, given the ids of the participants stored under the
   * caller's MSP id: the first of them, or `NoParticipantForExecutor` when there is none.
   */
  function ExecutorFirstParticipantRef(participantIds: seq<string>): (r: Result<string, Response>)
    ensures r.Success? <==> participantIds != []
    ensures r.Success? ==> r.value == participantIds[0]
    ensures r.Failure? ==> r.error == NoParticipantForExecutor(MspId) && IsFailure(r.error)
  {
    if participantIds == [] then Failure(NoParticipantForExecutor(MspId))
    else Success(participantIds[0])
  }

  // ---------------------------------------------------------------- storage

  /** What `data.Put` gives back: its response and the id it gave the stored object. */
  datatype Stored = Stored(response: Response, id: string)

  /** A process: a copy of a template's elements, with its name, creator and creation time. */
  datatype Process = Process(id: string, name: string, creator: string, creationTime: int, elements: seq<Element>)

  // ---------------------------------------------------------------- createProcess

  datatype CreateProcessRequest = CreateProcessRequest(name: string, procTemplateReference: string, participants: seq<string>)

  /** The payload `createProcess` answers with. */
  datatype CreationOutput = CreationOutput(creationDate: int, processReference: string)

  /**
   * The elements of a new process, given the template's: every requested participant is in
   * element 2's approvals as `Undecided`, element 0 is inactive, element 2 is active, and
   * nothing else differs.
   */
  ghost predicate IsSetUp(before: seq<Element>, participants: seq<string>, after: seq<Element>)
    requires |before| >= 3
  {
    && |after| == |before|
    && (forall i :: 0 <= i < |before| && i != 0 && i != 2 ==> after[i] == before[i])
    && after[0] == before[0].(active := false)
    && after[2].name == before[2].name && after[2].history == before[2].history && after[2].active
    && after[2].approves.Keys == before[2].approves.Keys + (set p | p in participants)
    && (forall p :: p in after[2].approves ==>
          after[2].approves[p] == if p in participants then Undecided else before[2].approves[p])
  }

  /** The element set-up of `createProcess`. */
  method SetUpElements(before: seq<Element>, participants: seq<string>) returns (after: seq<Element>)
    requires |before| >= 3
    ensures IsSetUp(before, participants, after)
  {
    after := before;
    var j := 0;
    while j < |participants|
      invariant 0 <= j <= |participants|
      invariant |after| == |before|
      invariant forall i :: 0 <= i < |before| && i != 2 ==> after[i] == before[i]
      invariant after[2] == before[2].(approves := after[2].approves)
      invariant after[2].approves.Keys == before[2].approves.Keys + (set p | p in participants[..j])
      invariant forall p :: p in after[2].approves ==>
                  after[2].approves[p] == if p in participants[..j] then Undecided else before[2].approves[p]
    {
      assert participants[..j + 1] == participants[..j] + [participants[j]];
      after := after[2 := after[2].(approves := after[2].approves[participants[j] := Undecided])];
      j := j + 1;
    }
    assert participants[..j] == participants;
    after := after[0 := after[0].(active := false)];
    after := after[2 := after[2].(active := true)];
  }

  /** The set-up is determined by the template and the participants. */
  lemma {:induction false} SetUpIsUnique(before: seq<Element>, participants: seq<string>, a: seq<Element>, b: seq<Element>)
    requires |before| >= 3
    requires IsSetUp(before, participants, a) && IsSetUp(before, participants, b)
    ensures a == b
  {
    assert a[2].approves == b[2].approves;
    assert a[2] == b[2];
    assert a[0] == b[0];
    assert forall i :: 0 <= i < |a| ==> a[i] == b[i];
  }

  /** After set-up every requested participant may respond to the active element 2. */
  lemma SetUpAdmitsParticipants(before: seq<Element>, participants: seq<string>, after: seq<Element>, p: string)
    requires |before| >= 3 && IsSetUp(before, participants, after)
    requires p in participants
    ensures p in after[2].approves && after[2].approves[p] == Undecided && after[2].active && !after[0].active
  {
  }

  /**
   * `createProcess`, given the decoded request, the template read, the participants under the
   * caller's MSP id, and what storing, attaching participants and marshalling the event give.
   * `stored` is the process handed to `data.Put`.
   */
  method HandleCreateProcess(args: seq<string>, request: Result<CreateProcessRequest, Error>,
                       template: Result<seq<Element>, Response>, participantIds: seq<string>,
                       put: Process -> Stored, loadParticipants: Process -> Response,
                       eventMarshalError: Option<Error>, json: CreationOutput -> seq<byte>)
    returns (r: Response, stored: Option<Process>)
    ensures |args| != 1 ==> r == IncorrectInvokeNumberOfArgsError(args, 1) && stored.None?
    ensures |args| == 1 && request.Failure? ==> r == UnmarshalError(request.error, args[0]) && stored.None?
    ensures |args| == 1 && request.Success? && template.Failure? ==> r == template.error && stored.None?
    ensures |args| == 1 && request.Success? && template.Success? && participantIds == [] ==>
              r == NoParticipantForExecutor(MspId) && stored.None?
    ensures |args| == 1 && request.Success? && template.Success? && participantIds != [] && |template.value| < 3 ==>
              r == EmptyProcTemplateElementsError() && stored.None?
    ensures stored.Some? <==> |args| == 1 && request.Success? && template.Success? && participantIds != [] && |template.value| >= 3
    ensures stored.Some? ==>
              var p := stored.value;
              && p.name == request.value.name && p.creator == participantIds[0] && p.creationTime == Timestamp
              && IsSetUp(template.value, request.value.participants, p.elements)
              && r == (if IsFailure(put(p).response) then put(p).response
                       else if IsFailure(loadParticipants(p.(id := put(p).id))) then loadParticipants(p.(id := put(p).id))
                       else if eventMarshalError.Some? then MarshalError(eventMarshalError.value)
                       else SuccessPayloadResponse(Success(json(CreationOutput(Timestamp, put(p).id)))))
  {
    stored := None;
    if CheckOneArg(args).Some? {
      return CheckOneArg(args).value, None;
    }
    if request.Failure? {
      return UnmarshalError(request.error, args[0]), None;
    }
    if template.Failure? {
      return template.error, None;
    }
    var executor := ExecutorFirstParticipantRef(participantIds);
    if executor.Failure? {
      return executor.error, None;
    }
    if |template.value| < 3 {
      return EmptyProcTemplateElementsError(), None;
    }
    var elements := SetUpElements(template.value, request.value.participants);
    var process := Process("", request.value.name, executor.value, Timestamp, elements);
    stored := Some(process);
    var outcome := put(process);
    if IsFailure(outcome.response) {
      return outcome.response, stored;
    }
    process := process.(id := outcome.id);
    r := loadParticipants(process);
    if IsFailure(r) {
      return;
    }
    // The event's send error is not looked at: the check after `SetEvent` tests the marshalling error.
    if eventMarshalError.Some? {
      return MarshalError(eventMarshalError.value), stored;
    }
    r := SuccessPayloadResponse(Success(json(CreationOutput(process.creationTime, process.id))));
  }

  // ---------------------------------------------------------------- getProcessElementHistory

  datatype HistoryRequest = HistoryRequest(processReference: string, elementNumber: int, sinceResponseDate: int, responsesCount: int)

  /** The index of the first response older than `since`, or the length when there is none. */
  function FirstBefore(history: seq<ElementResponse>, since: int): (k: nat)
    ensures k <= |history|
    ensures forall i :: 0 <= i < k ==> history[i].dateTime >= since
    ensures k < |history| ==> history[k].dateTime < since
  {
    if history == [] then 0
    else if history[0].dateTime < since then 0
    else 1 + FirstBefore(history[1..], since)
  }

  /**
   * The page of a history (newest first): all of it for a negative count; otherwise from the
   * first response older than `since`, at most `count` consecutive responses.
   */
  function Page(history: seq<ElementResponse>, since: int, count: int): (page: seq<ElementResponse>)
    ensures count >= 0 ==> |page| <= count
    ensures count >= 0 && page != [] ==> page[0].dateTime < since
    ensures count < 0 ==> page == history
    ensures count >= 0 ==>
              var k := FirstBefore(history, since);
              && k + |page| <= |history| && page == history[k..k + |page|]
              && (|page| < count ==> k + |page| == |history|)
  {
    if count < 0 then
      history
    else
      var k := FirstBefore(history, since);
      var end := if k + count < |history| then k + count else |history|;
      history[k..end]
  }

  /** The paging loop of `getProcessElementHistory`. */
  method PageHistory(history: seq<ElementResponse>, since: int, count: int) returns (page: seq<ElementResponse>)
    ensures page == Page(history, since, count)
  {
    if count < 0 {
      return history;
    }
    page := [];
    var startCount := 0;
    var i := 0;
    ghost var k := FirstBefore(history, since);
    while i < |history|
      invariant 0 <= i <= |history|
      invariant startCount == |page| <= count
      invariant startCount == 0 ==> page == [] && i <= k
      invariant startCount > 0 ==> k < i && page == history[k..i] && i - k == startCount
    {
      var resp := history[i];
      if startCount == 0 {
        if resp.dateTime < since {
          if startCount < count {
            page := page + [resp];
            startCount := startCount + 1;
          } else {
            break;
          }
        }
      } else {
        if startCount < count {
          assert history[k..i + 1] == history[k..i] + [resp];
          page := page + [resp];
          startCount := startCount + 1;
        } else {
          break;
        }
      }
      i := i + 1;
    }
  }

  /** A sequence in the opposite order. */
  function Reversed<T>(s: seq<T>): (r: seq<T>)
    ensures |r| == |s|
    ensures forall i :: 0 <= i < |s| ==> r[i] == s[|s| - 1 - i]
  {
    if s == [] then [] else Reversed(s[1..]) + [s[0]]
  }

  /** Reversing twice gives the sequence back. */
  lemma ReversedTwice<T>(s: seq<T>)
    ensures Reversed(Reversed(s)) == s
  {
    assert forall i :: 0 <= i < |s| ==> Reversed(Reversed(s))[i] == s[i];
  }

  /** The in-place swap loop `getProcessElementHistory` reverses its page with. */
  method Reverse<T>(a: array<T>)
    modifies a
    ensures a[..] == Reversed(old(a[..]))
  {
    var i := 0;
    while i < a.Length / 2
      invariant 0 <= i <= a.Length / 2
      invariant forall k :: 0 <= k < i ==> a[k] == old(a[a.Length - 1 - k]) && a[a.Length - 1 - k] == old(a[k])
      invariant forall k :: i <= k < a.Length - i ==> a[k] == old(a[k])
    {
      var j := a.Length - i - 1;
      a[i], a[j] := a[j], a[i];
      i := i + 1;
    }
  }

  /**
   * `getProcessElementHistory`, given the decoded request, the process read and the JSON
   * encoding of a list of responses: the page of the element's history, oldest first.
   */
  method HandleGetProcessElementHistory(args: seq<string>, request: Result<HistoryRequest, Error>,
                                        process: Result<Process, Response>, json: seq<ElementResponse> -> seq<byte>)
    returns (r: Response)
    requires |args| == 1 && request.Success? && process.Success? ==>
               0 <= request.value.elementNumber + 2 < |process.value.elements|
    ensures |args| != 1 ==> r == IncorrectInvokeNumberOfArgsError(args, 1)
    ensures |args| == 1 && request.Failure? ==> r == UnmarshalError(request.error, args[0])
    ensures |args| == 1 && request.Success? && process.Failure? ==> r == process.error
    ensures |args| == 1 && request.Success? && process.Success? ==>
              var q := request.value;
              var history := process.value.elements[q.elementNumber + 2].history;
              r == SuccessPayloadResponse(Success(json(Reversed(Page(history, q.sinceResponseDate, q.responsesCount)))))
  {
    if CheckOneArg(args).Some? {
      return CheckOneArg(args).value;
    }
    if request.Failure? {
      return UnmarshalError(request.error, args[0]);
    }
    if process.Failure? {
      return process.error;
    }
    var q := request.value;
    var page := ReversedPage(process.value.elements[q.elementNumber + 2].history, q.sinceResponseDate, q.responsesCount);
    r := SuccessPayloadResponse(Success(json(page)));
  }

  /** The page of a history, reversed in place in a fresh list. */
  method ReversedPage(history: seq<ElementResponse>, since: int, count: int) returns (page: seq<ElementResponse>)
    ensures page == Reversed(Page(history, since, count))
  {
    var limited := PageHistory(history, since, count);
    var list := new ElementResponse[|limited|](i requires 0 <= i < |limited| => limited[i]);
    assert list[..] == limited;
    Reverse(list);
    page := list[..];
  }

  // ---------------------------------------------------------------- getAllProcesses

  /** Whether a participant is among the approvers of some element of a process. */
  predicate Involves(p: Process, ref: string)
  {
    exists i :: 0 <= i < |p.elements| && ref in p.elements[i].approves
  }

  /** The processes, in order, that involve a participant. */
  function InvolvedIn(processes: seq<Process>, ref: string): (mine: seq<Process>)
    ensures |mine| <= |processes|
  {
    if processes == [] then []
    else
      var last := processes[|processes| - 1];
      InvolvedIn(processes[..|processes| - 1], ref) + (if Involves(last, ref) then [last] else [])
  }

  /** A process is kept iff it is one of the processes and it involves the participant. */
  lemma {:induction false} InvolvedInKeepsExactly(processes: seq<Process>, ref: string, p: Process)
    ensures p in InvolvedIn(processes, ref) <==> p in processes && Involves(p, ref)
    decreases |processes|
  {
    if processes != [] {
      var init := processes[..|processes| - 1];
      InvolvedInKeepsExactly(init, ref, p);
      assert processes == init + [processes[|processes| - 1]];
    }
  }

  /** The membership search of `getAllProcesses` over the elements of one process. */
  method IsInvolved(p: Process, ref: string) returns (found: bool)
    ensures found <==> Involves(p, ref)
  {
    found := false;
    var i := 0;
    while i < |p.elements|
      invariant 0 <= i <= |p.elements|
      invariant !found ==> forall j :: 0 <= j < i ==> ref !in p.elements[j].approves
      invariant found ==> Involves(p, ref)
    {
      if ref in p.elements[i].approves {
        found := true;
        break;
      }
      i := i + 1;
    }
  }

  /**
   * `getAllProcesses`, given all stored processes, the participants under the caller's MSP id,
   * what attaching participants gives for each process, and the JSON encoding of a list of
   * processes: the processes the caller takes part in, unless attaching participants fails for
   * some process, in which case the first such failure.
   */
  method HandleGetAllProcesses(processes: Result<seq<Process>, Response>, participantIds: seq<string>,
                               loadParticipants: Process -> Response, json: seq<Process> -> seq<byte>)
    returns (r: Response)
    ensures processes.Failure? ==> r == processes.error
    ensures processes.Success? && participantIds == [] ==> r == NoParticipantForExecutor(MspId)
    ensures processes.Success? && participantIds != [] ==>
              var ps := processes.value;
              && ((forall i :: 0 <= i < |ps| ==> !IsFailure(loadParticipants(ps[i]))) ==>
                    r == SuccessPayloadResponse(Success(json(InvolvedIn(ps, participantIds[0])))))
              && ((exists i :: 0 <= i < |ps| && IsFailure(loadParticipants(ps[i]))) ==>
                    exists k :: 0 <= k < |ps| && r == loadParticipants(ps[k]) && IsFailure(r)
                                && forall j :: 0 <= j < k ==> !IsFailure(loadParticipants(ps[j])))
  {
    if processes.Failure? {
      return processes.error;
    }
    var executor := ExecutorFirstParticipantRef(participantIds);
    if executor.Failure? {
      return executor.error;
    }
    var ps := processes.value;
    var mine: seq<Process> := [];
    var i := 0;
    while i < |ps|
      invariant 0 <= i <= |ps|
      invariant mine == InvolvedIn(ps[..i], executor.value)
      invariant forall j :: 0 <= j < i ==> !IsFailure(loadParticipants(ps[j]))
    {
      assert ps[..i + 1][..i] == ps[..i];
      var found := IsInvolved(ps[i], executor.value);
      if found {
        mine := mine + [ps[i]];
      }
      r := loadParticipants(ps[i]);
      if IsFailure(r) {
        return;
      }
      i := i + 1;
    }
    assert ps[..i] == ps;
    r := SuccessPayloadResponse(Success(json(mine)));
  }

  // ---------------------------------------------------------------- createAttachment

  datatype Attachment = Attachment(id: string, name: string, processId: string, lastVersion: string)

  datatype AttachmentRequest = AttachmentRequest(processReference: string, name: string)

  /** The position of the first attachment with a name, if any has it. */
  function IndexOfName(attachments: seq<Attachment>, name: string): (k: Option<nat>)
    ensures k.Some? ==> k.value < |attachments| && attachments[k.value].name == name
                        && forall j :: 0 <= j < k.value ==> attachments[j].name != name
    ensures k.None? ==> forall j :: 0 <= j < |attachments| ==> attachments[j].name != name
  {
    if attachments == [] then None
    else if attachments[0].name == name then Some(0)
    else match IndexOfName(attachments[1..], name)
      case None => None
      case Some(k) => Some(k + 1)
  }

  /**
   * `createAttachment`, given the decoded request, the attachments of the process, what storing
   * an attachment gives and the JSON encoding of a reference: the reference of the first
   * attachment that already has the name, storing nothing; otherwise the new attachment is stored.
   */
  method HandleCreateAttachment(args: seq<string>, request: Result<AttachmentRequest, Error>,
                                attachments: Result<seq<Attachment>, Response>, put: Attachment -> Response,
                                json: string -> seq<byte>)
    returns (r: Response, stored: Option<Attachment>)
    ensures |args| != 1 ==> r == IncorrectInvokeNumberOfArgsError(args, 1) && stored.None?
    ensures |args| == 1 && request.Failure? ==> r == UnmarshalError(request.error, args[0]) && stored.None?
    ensures |args| == 1 && request.Success? && attachments.Failure? ==> r == attachments.error && stored.None?
    ensures |args| == 1 && request.Success? && attachments.Success? ==>
              var q := request.value;
              match IndexOfName(attachments.value, q.name)
              case Some(k) => r == SuccessPayloadResponse(Success(json(attachments.value[k].id))) && stored.None?
              case None => stored == Some(Attachment("", q.name, q.processReference, "")) && r == put(stored.value)
  {
    stored := None;
    if CheckOneArg(args).Some? {
      return CheckOneArg(args).value, None;
    }
    if request.Failure? {
      return UnmarshalError(request.error, args[0]), None;
    }
    if attachments.Failure? {
      return attachments.error, None;
    }
    var q := request.value;
    var atts := attachments.value;
    var i := 0;
    while i < |atts|
      invariant 0 <= i <= |atts|
      invariant forall j :: 0 <= j < i ==> atts[j].name != q.name
    {
      if atts[i].name == q.name {
        return SuccessPayloadResponse(Success(json(atts[i].id))), None;
      }
      i := i + 1;
    }
    stored := Some(Attachment("", q.name, q.processReference, ""));
    r := put(stored.value);
  }

  // ---------------------------------------------------------------- sendResponse

  datatype Version = Version(id: string, attachmentId: string, hash: string, creationTime: int, creator: string,
                             signatures: map<string, string>)

  datatype SendRequest = SendRequest(processReference: string, elementNumber: int, response: ElementResponse)

  /** Whether every approval of an element is the given mark. */
  predicate AllMarked(approves: map<string, Approve>, mark: Approve)
  {
    forall r :: r in approves ==> approves[r] == mark
  }

  /** An element is finished once its approvals are all `Approved` or all `Disapproved`. */
  predicate Finishes(approves: map<string, Approve>)
  {
    AllMarked(approves, Approved) || AllMarked(approves, Disapproved)
  }

  /** Whether a participant has signed every one of the versions. */
  predicate AllSigned(versions: seq<Version>, ref: string)
  {
    forall i :: 0 <= i < |versions| ==> ref in versions[i].signatures
  }

  /** The approvals with every mark reset to `Undecided`. */
  function ResetAll(approves: map<string, Approve>): (reset: map<string, Approve>)
    ensures reset.Keys == approves.Keys && AllMarked(reset, Undecided)
  {
    map r | r in approves :: Undecided
  }

  /**
   * The approvals after a response from `ref`: an approving response sets `ref`'s mark when it
   * disapproves, or when it approves and `ref` has signed all last versions; a file response
   * resets every mark; any other response changes nothing.
   */
  function ApprovesAfter(approves: map<string, Approve>, ref: string, kind: ResponseType, mark: Approve, allSigned: bool)
    : map<string, Approve>
  {
    match kind
    case ApproveType =>
      if mark == Disapproved || (mark == Approved && allSigned) then approves[ref := mark] else approves
    case FileType => ResetAll(approves)
    case OtherType(_) => approves
  }

  /** The elements after a response to element `index`, whose approvals become `approves`. */
  function ElementsAfter(elements: seq<Element>, index: nat, response: ElementResponse, approves: map<string, Approve>)
    : (after: seq<Element>)
    requires index < |elements| && (Finishes(approves) ==> 1 < |elements|)
    ensures |after| == |elements|
  {
    var responded := elements[index := elements[index].(approves := approves, history := [response] + elements[index].history)];
    if Finishes(approves) then
      var closed := responded[index := responded[index].(active := false)];
      closed[1 := closed[1].(active := true)]
    else responded
  }

  /** A response neither adds nor removes an approver of the element it answers. */
  lemma ApproversKept(approves: map<string, Approve>, ref: string, kind: ResponseType, mark: Approve, allSigned: bool)
    requires ref in approves
    ensures ApprovesAfter(approves, ref, kind, mark, allSigned).Keys == approves.Keys
  {
  }

  /** A file response never finishes an element. */
  lemma FileResponseNeverFinishes(approves: map<string, Approve>, ref: string, mark: Approve, allSigned: bool)
    requires ref in approves
    ensures !Finishes(ApprovesAfter(approves, ref, FileType, mark, allSigned))
  {
    var reset := ApprovesAfter(approves, ref, FileType, mark, allSigned);
    assert reset[ref] == Undecided;
  }

  /** Only the responder's own mark can change, unless the response is a file response. */
  lemma OthersMarksKept(approves: map<string, Approve>, ref: string, kind: ResponseType, mark: Approve, allSigned: bool, other: string)
    requires kind != FileType && other in approves && other != ref
    ensures ApprovesAfter(approves, ref, kind, mark, allSigned)[other] == approves[other]
  {
  }

  /** An approval without signatures on all last versions leaves every mark as it was. */
  lemma UnsignedApprovalChangesNothing(approves: map<string, Approve>, ref: string)
    ensures ApprovesAfter(approves, ref, ApproveType, Approved, false) == approves
  {
  }

  /** The last of the approvers to approve finishes the element, and so does a sole approver's disapproval. */
  lemma {:induction false} LastApprovalFinishes(approves: map<string, Approve>, ref: string, mark: Approve)
    requires ref in approves && (mark == Approved || mark == Disapproved)
    requires forall r :: r in approves && r != ref ==> approves[r] == mark
    ensures Finishes(ApprovesAfter(approves, ref, ApproveType, mark, true))
  {
    var after := ApprovesAfter(approves, ref, ApproveType, mark, true);
    assert after == approves[ref := mark];
    assert AllMarked(after, mark);
  }

  /** Finishing an element deactivates it and activates element 1; otherwise activity is unchanged. */
  lemma {:induction false} FinishMovesActivity(elements: seq<Element>, index: nat, response: ElementResponse,
                                               approves: map<string, Approve>)
    requires 1 < |elements| && index < |elements| && index != 1
    ensures var after := ElementsAfter(elements, index, response, approves);
            && after[index].approves == approves && after[index].history == [response] + elements[index].history
            && (Finishes(approves) ==> !after[index].active && after[1].active)
            && (!Finishes(approves) ==> forall i :: 0 <= i < |elements| ==> after[i].active == elements[i].active)
  {
  }

  /** The signing loop: each version signature is written until one write fails. */
  method SignVersions(signatures: seq<VersionSignature>, sign: VersionSignature -> Response)
    returns (failure: Option<Response>, signed: seq<VersionSignature>)
    ensures failure.None? <==> forall i :: 0 <= i < |signatures| ==> !IsFailure(sign(signatures[i]))
    ensures failure.None? ==> signed == signatures
    ensures failure.Some? ==> |signed| < |signatures| && signed == signatures[..|signed|]
                              && failure.value == sign(signatures[|signed|]) && IsFailure(failure.value)
                              && forall i :: 0 <= i < |signed| ==> !IsFailure(sign(signatures[i]))
  {
    signed := [];
    var i := 0;
    while i < |signatures|
      invariant 0 <= i <= |signatures| && signed == signatures[..i]
      invariant forall j :: 0 <= j < i ==> !IsFailure(sign(signatures[j]))
    {
      var response := sign(signatures[i]);
      if IsFailure(response) {
        return Some(response), signed;
      }
      signed := signed + [signatures[i]];
      i := i + 1;
    }
    assert signatures[..i] == signatures;
    failure := None;
  }

  /** The loop that checks the executor has signed every last version. */
  method CheckAllSigned(versions: seq<Version>, ref: string) returns (all: bool)
    ensures all <==> AllSigned(versions, ref)
  {
    all := true;
    var i := 0;
    while i < |versions|
      invariant 0 <= i <= |versions|
      invariant all <==> forall j :: 0 <= j < i ==> ref in versions[j].signatures
    {
      if ref !in versions[i].signatures {
        all := false;
        break;
      }
      i := i + 1;
    }
  }

  /** The reset loop of a file response, over the approvals in any order. */
  method ResetApprovals(approves: map<string, Approve>) returns (reset: map<string, Approve>)
    ensures reset == ResetAll(approves)
  {
    reset := approves;
    var todo := approves.Keys;
    while todo != {}
      invariant todo <= approves.Keys && reset.Keys == approves.Keys
      invariant forall r :: r in reset ==> reset[r] == if r in todo then approves[r] else Undecided
      decreases todo
    {
      var r :| r in todo;
      reset := reset[r := Undecided];
      todo := todo - {r};
    }
    assert reset == ResetAll(approves);
  }

  /** A loop over the approvals, in any order, that tests whether all of them are one mark. */
  method CheckAllMarked(approves: map<string, Approve>, mark: Approve) returns (all: bool)
    ensures all <==> AllMarked(approves, mark)
  {
    all := true;
    var todo := approves.Keys;
    while todo != {}
      invariant todo <= approves.Keys
      invariant all <==> forall r :: r in approves && r !in todo ==> approves[r] == mark
      decreases todo
    {
      var r :| r in todo;
      if approves[r] != mark {
        all := false;
      }
      todo := todo - {r};
    }
  }

  /** The request's response as it is recorded: from the executor, at the transaction time, for the process. */
  function Stamped(q: SendRequest, ref: string): ElementResponse
  {
    q.response.(participantReference := ref, dateTime := Timestamp, processReference := q.processReference)
  }

  /** Whether `sendResponse` gets as far as the element it answers. */
  predicate ReachesElement(args: seq<string>, request: Result<SendRequest, Error>, participantIds: seq<string>,
                           process: Result<Process, Response>)
  {
    |args| == 1 && request.Success? && participantIds != [] && process.Success?
  }

  /**
   * The marks part of `sendResponse`, for an executor among the element's approvers: the
   * version signatures of an approving response are written first, and the first failing write,
   * or a failing read of the last versions, stops it; otherwise the new approvals.
   */
  method RespondTo(approves: map<string, Approve>, ref: string, response: ElementResponse,
                   sign: VersionSignature -> Response, lastVersions: Result<seq<Version>, Response>)
    returns (failure: Option<Response>, signed: seq<VersionSignature>, after: map<string, Approve>)
    ensures var signatures := response.versionSignatures;
            if SigningFails(response, sign) then
              failure.Some? && |signed| < |signatures| && signed == signatures[..|signed|]
              && failure.value == sign(signatures[|signed|]) && IsFailure(failure.value)
            else if response.kind == ApproveType && response.approve == Approved && lastVersions.Failure? then
              failure == Some(lastVersions.error) && signed == signatures
            else
              && failure.None?
              && signed == (if response.kind == ApproveType then signatures else [])
              && after == ApprovesAfter(approves, ref, response.kind, response.approve,
                                        lastVersions.Success? && AllSigned(lastVersions.value, ref))
  {
    signed, after := [], approves;
    if response.kind == ApproveType {
      failure, signed := SignVersions(response.versionSignatures, sign);
      if failure.Some? {
        return;
      }
      if response.approve == Approved {
        if lastVersions.Failure? {
          return Some(lastVersions.error), signed, after;
        }
        var all := CheckAllSigned(lastVersions.value, ref);
        if all {
          after := after[ref := response.approve];
        }
      }
      if response.approve == Disapproved {
        after := after[ref := response.approve];
      }
    }
    if response.kind == FileType {
      after := ResetApprovals(after);
    }
    failure := None;
  }

  /**
   * The end of `sendResponse`: the response goes first in the element's history, the element
   * finishes when its marks say so, and the process is written unless attaching participants
   * (only when finishing) or marshalling the event fails.
   */
  method Conclude(process: Process, index: nat, response: ElementResponse, approves: map<string, Approve>,
                  loadParticipants: Process -> Response, eventMarshalError: Option<Error>, editAll: Process -> Response)
    returns (r: Response, edited: Option<Process>)
    requires index < |process.elements| && 1 < |process.elements|
    ensures var after := process.(elements := ElementsAfter(process.elements, index, response, approves));
            if Finishes(approves) && IsFailure(loadParticipants(after)) then
              r == loadParticipants(after) && edited.None?
            else if eventMarshalError.Some? then
              r == MarshalError(eventMarshalError.value) && edited.None?
            else
              r == editAll(after) && edited == Some(after)
  {
    var elements := process.elements;
    elements := elements[index := elements[index].(approves := approves, history := [response] + elements[index].history)];
    var finish := CheckAllMarked(approves, Approved);
    if !finish {
      finish := CheckAllMarked(approves, Disapproved);
    }
    if finish {
      elements := elements[index := elements[index].(active := false)];
      elements := elements[1 := elements[1].(active := true)];
    }
    var after := process.(elements := elements);
    assert after.elements == ElementsAfter(process.elements, index, response, approves);
    edited := None;
    if finish {
      r := loadParticipants(after);
      if IsFailure(r) {
        return;
      }
    }
    // As in `createProcess`, an event's send error is never looked at.
    if eventMarshalError.Some? {
      return MarshalError(eventMarshalError.value), None;
    }
    edited := Some(after);
    r := editAll(after);
  }

  /** Whether writing some version signature of an approving response fails. */
  predicate SigningFails(response: ElementResponse, sign: VersionSignature -> Response)
  {
    response.kind == ApproveType
    && exists i :: 0 <= i < |response.versionSignatures| && IsFailure(sign(response.versionSignatures[i]))
  }

  /** What `sendResponse` does once the executor is known to be one of the element's approvers. */
  ghost predicate AdmittedOutcome(process: Process, index: nat, ref: string, response: ElementResponse,
                                  sign: VersionSignature -> Response, lastVersions: Result<seq<Version>, Response>,
                                  loadParticipants: Process -> Response, eventMarshalError: Option<Error>,
                                  editAll: Process -> Response,
                                  r: Response, signed: seq<VersionSignature>, edited: Option<Process>)
    requires index < |process.elements| && 1 < |process.elements|
  {
    var signatures := response.versionSignatures;
    if SigningFails(response, sign) then
      |signed| < |signatures| && signed == signatures[..|signed|] && r == sign(signatures[|signed|])
      && IsFailure(r) && edited.None?
    else if response.kind == ApproveType && response.approve == Approved && lastVersions.Failure? then
      r == lastVersions.error && signed == signatures && edited.None?
    else
      var allSigned := lastVersions.Success? && AllSigned(lastVersions.value, ref);
      var approves := ApprovesAfter(process.elements[index].approves, ref, response.kind, response.approve, allSigned);
      var after := process.(elements := ElementsAfter(process.elements, index, response, approves));
      && signed == (if response.kind == ApproveType then signatures else [])
      && (if Finishes(approves) && IsFailure(loadParticipants(after)) then
            r == loadParticipants(after) && edited.None?
          else if eventMarshalError.Some? then
            r == MarshalError(eventMarshalError.value) && edited.None?
          else
            r == editAll(after) && edited == Some(after))
  }

  /** `sendResponse` from the membership check on: the marks, then the conclusion. */
  method Admitted(process: Process, index: nat, ref: string, response: ElementResponse,
                  sign: VersionSignature -> Response, lastVersions: Result<seq<Version>, Response>,
                  loadParticipants: Process -> Response, eventMarshalError: Option<Error>, editAll: Process -> Response)
    returns (r: Response, signed: seq<VersionSignature>, edited: Option<Process>)
    requires index < |process.elements| && 1 < |process.elements|
    ensures AdmittedOutcome(process, index, ref, response, sign, lastVersions, loadParticipants, eventMarshalError, editAll,
                            r, signed, edited)
  {
    var failure, approves;
    failure, signed, approves := RespondTo(process.elements[index].approves, ref, response, sign, lastVersions);
    if failure.Some? {
      return failure.value, signed, None;
    }
    r, edited := Conclude(process, index, response, approves, loadParticipants, eventMarshalError, editAll);
  }

  /**
   * `sendResponse`, given the decoded request, the participants under the caller's MSP id, the
   * process read, what reading and re-writing each signed version gives, the last versions of
   * the process's attachments, what attaching participants gives, whether marshalling the event
   * fails, and what writing the process gives. `signed` are the version signatures written and
   * `edited` the process handed to `data.EditAll`.
   */
  method HandleSendResponse(args: seq<string>, request: Result<SendRequest, Error>, participantIds: seq<string>,
                            process: Result<Process, Response>, sign: VersionSignature -> Response,
                            lastVersions: Result<seq<Version>, Response>, loadParticipants: Process -> Response,
                            eventMarshalError: Option<Error>, editAll: Process -> Response)
    returns (r: Response, signed: seq<VersionSignature>, edited: Option<Process>)
    requires ReachesElement(args, request, participantIds, process) ==>
               0 <= request.value.elementNumber + 2 < |process.value.elements| && 1 < |process.value.elements|
    ensures |args| != 1 ==> r == IncorrectInvokeNumberOfArgsError(args, 1) && edited.None?
    ensures |args| == 1 && request.Failure? ==> r == UnmarshalError(request.error, args[0]) && edited.None?
    ensures |args| == 1 && request.Success? && participantIds == [] ==> r == NoParticipantForExecutor(MspId) && edited.None?
    ensures |args| == 1 && request.Success? && participantIds != [] && process.Failure? ==> r == process.error && edited.None?
    ensures !ReachesElement(args, request, participantIds, process) ==> signed == []
    ensures ReachesElement(args, request, participantIds, process) ==>
              var q, ref := request.value, participantIds[0];
              var index := q.elementNumber + 2;
              if ref !in process.value.elements[index].approves then
                r == NoPermissionForWorkWithProcessError(ref) && signed == [] && edited.None?
              else
                AdmittedOutcome(process.value, index, ref, Stamped(q, ref), sign, lastVersions, loadParticipants,
                                eventMarshalError, editAll, r, signed, edited)
  {
    signed, edited := [], None;
    if CheckOneArg(args).Some? {
      return CheckOneArg(args).value, [], None;
    }
    if request.Failure? {
      return UnmarshalError(request.error, args[0]), [], None;
    }
    var executor := ExecutorFirstParticipantRef(participantIds);
    if executor.Failure? {
      return executor.error, [], None;
    }
    var q, ref := request.value, executor.value;
    var response := Stamped(q, ref);
    if process.Failure? {
      return process.error, [], None;
    }
    var index := q.elementNumber + 2;
    if ref !in process.value.elements[index].approves {
      return NoPermissionForWorkWithProcessError(ref), [], None;
    }
    r, signed, edited := Admitted(process.value, index, ref, response, sign, lastVersions, loadParticipants,
                                  eventMarshalError, editAll);
  }

  // ---------------------------------------------------------------- getLastAttachmentsVersions

  /** The ids of the last versions of the attachments that have one, in attachment order. */
  function LastVersionIds(attachments: seq<Attachment>): seq<string>
  {
    if attachments == [] then []
    else (if attachments[0].lastVersion != "" then [attachments[0].lastVersion] else []) + LastVersionIds(attachments[1..])
  }

  /** Exactly the non-empty last versions are read. */
  lemma {:induction false} LastVersionIdsExact(attachments: seq<Attachment>)
    ensures forall k :: 0 <= k < |LastVersionIds(attachments)| ==> LastVersionIds(attachments)[k] != ""
    ensures forall a :: a in attachments && a.lastVersion != "" ==> a.lastVersion in LastVersionIds(attachments)
    ensures forall id :: id in LastVersionIds(attachments) ==> exists a :: a in attachments && a.lastVersion == id
    decreases |attachments|
  {
    if attachments != [] {
      LastVersionIdsExact(attachments[1..]);
      assert attachments == [attachments[0]] + attachments[1..];
    }
  }

  /** Reading versions by id in order, stopping at the first read that fails. */
  function ReadVersions(ids: seq<string>, queryVersion: string -> Result<Version, Response>): Result<seq<Version>, Response>
  {
    if ids == [] then Success([])
    else match queryVersion(ids[0])
      case Failure(e) => Failure(e)
      case Success(v) =>
        var rest := ReadVersions(ids[1..], queryVersion);
        if rest.Failure? then rest else Success([v] + rest.value)
  }

  /**
   * The reads succeed iff every read does, and then give one version per id, in order;
   * otherwise the failure is that of the first read that fails.
   */
  lemma {:induction false} ReadVersionsSound(ids: seq<string>, queryVersion: string -> Result<Version, Response>)
    ensures ReadVersions(ids, queryVersion).Success? <==> forall i :: 0 <= i < |ids| ==> queryVersion(ids[i]).Success?
    ensures ReadVersions(ids, queryVersion).Success? ==>
      var vs := ReadVersions(ids, queryVersion).value;
      |vs| == |ids| && forall i :: 0 <= i < |ids| ==> vs[i] == queryVersion(ids[i]).value
    ensures ReadVersions(ids, queryVersion).Failure? ==>
      exists k :: 0 <= k < |ids| && queryVersion(ids[k]).Failure?
        && ReadVersions(ids, queryVersion).error == queryVersion(ids[k]).error
        && forall j :: 0 <= j < k ==> queryVersion(ids[j]).Success?
    decreases |ids|
  {
    if ids != [] {
      ReadVersionsSound(ids[1..], queryVersion);
      assert forall i :: 1 <= i < |ids| ==> ids[i] == ids[1..][i - 1];
      if queryVersion(ids[0]).Success? && ReadVersions(ids[1..], queryVersion).Failure? {
        var k :| 0 <= k < |ids[1..]| && queryVersion(ids[1..][k]).Failure?
          && ReadVersions(ids[1..], queryVersion).error == queryVersion(ids[1..][k]).error
          && forall j :: 0 <= j < k ==> queryVersion(ids[1..][j]).Success?;
        assert queryVersion(ids[k + 1]).Failure?;
        assert forall j :: 1 <= j < k + 1 ==> queryVersion(ids[j]).Success?;
      }
    }
  }

  /** The versions already read, followed by those still to be read, unless a read fails. */
  function Joined(found: seq<Version>, rest: Result<seq<Version>, Response>): Result<seq<Version>, Response>
  {
    if rest.Failure? then rest else Success(found + rest.value)
  }

  /** Reading a first id, then the rest. */
  lemma ReadFirst(id: string, ids: seq<string>, found: seq<Version>, queryVersion: string -> Result<Version, Response>)
    ensures var here := Joined(found, ReadVersions([id] + ids, queryVersion));
            if queryVersion(id).Failure? then here == Failure(queryVersion(id).error)
            else here == Joined(found + [queryVersion(id).value], ReadVersions(ids, queryVersion))
  {
    assert ([id] + ids)[1..] == ids;
    var rest := ReadVersions(ids, queryVersion);
    if queryVersion(id).Success? && rest.Success? {
      assert found + ([queryVersion(id).value] + rest.value) == (found + [queryVersion(id).value]) + rest.value;
    }
  }

  /** One attachment read: skipped without a last version, otherwise its version is read or the read fails. */
  lemma ReadStep(attachments: seq<Attachment>, i: nat, found: seq<Version>,
                 queryVersion: string -> Result<Version, Response>)
    requires i < |attachments|
    ensures var here := Joined(found, ReadVersions(LastVersionIds(attachments[i..]), queryVersion));
            var id := attachments[i].lastVersion;
            if id == "" then here == Joined(found, ReadVersions(LastVersionIds(attachments[i + 1..]), queryVersion))
            else if queryVersion(id).Failure? then here == Failure(queryVersion(id).error)
            else here == Joined(found + [queryVersion(id).value], ReadVersions(LastVersionIds(attachments[i + 1..]), queryVersion))
  {
    assert attachments[i..][1..] == attachments[i + 1..];
    var id := attachments[i].lastVersion;
    var ids := LastVersionIds(attachments[i + 1..]);
    if id == "" {
      assert LastVersionIds(attachments[i..]) == [] + ids;
      assert [] + ids == ids;
    } else {
      assert LastVersionIds(attachments[i..]) == [id] + ids;
      ReadFirst(id, ids, found, queryVersion);
    }
  }

  /**
   * `getLastAttachmentsVersions`, given the attachments of the process and what reading a version
   * by id gives: the last version of each attachment that has one, in order, or the first
   * failed read.
   */
  method GetLastAttachmentsVersions(attachments: Result<seq<Attachment>, Response>,
                                    queryVersion: string -> Result<Version, Response>)
    returns (versions: Result<seq<Version>, Response>)
    ensures attachments.Failure? ==> versions == Failure(attachments.error)
    ensures attachments.Success? ==> versions == ReadVersions(LastVersionIds(attachments.value), queryVersion)
  {
    if attachments.Failure? {
      return Failure(attachments.error);
    }
    var atts := attachments.value;
    var found: seq<Version> := [];
    assert atts[0..] == atts;
    var all := ReadVersions(LastVersionIds(atts), queryVersion);
    if all.Success? {
      assert found + all.value == all.value;
    }
    for i := 0 to |atts|
      invariant all == Joined(found, ReadVersions(LastVersionIds(atts[i..]), queryVersion))
    {
      ReadStep(atts, i, found, queryVersion);
      if atts[i].lastVersion != "" {
        var v := queryVersion(atts[i].lastVersion);
        if v.Failure? {
          return Failure(v.error);
        }
        found := found + [v.value];
      }
    }
    assert atts[|atts|..] == [];
    assert found + [] == found;
    versions := Success(found);
  }

  // ---------------------------------------------------------------- createAttachmentVersion

  datatype VersionRequest = VersionRequest(attachmentReference: string, version: Version)

  const SameHashMessage: string := "Hash of new version is equal to hash of current version. Version won't be edited."

  /** The response of the built-in `GetTime`, a success. */
  const TimeResponse: Response := SuccessMessageResponse("Mock timestamp <<1549620261>> was gotten.")

  /** The version stored: the request's own, tied to the attachment, stamped with the time and its creator, unsigned. */
  function NewVersion(q: VersionRequest, creator: string): Version
  {
    q.version.(attachmentId := q.attachmentReference, creationTime := Timestamp, creator := creator, signatures := map[])
  }

  /**
   * The end of `createAttachmentVersion` as written: the status checked after `data.Put` is that
   * of the `GetTime` response, a success, so the put's own status is never looked at and the
   * attachment is pointed at the version's id in any case. Gives the response and the attachment
   * handed to `data.EditAll`.
   */
  function StoreVersionAsWritten(a: Attachment, v: Version, put: Version -> Stored,
                                 editAll: Attachment -> Response): (Response, Option<Attachment>)
  {
    var result := put(v);
    if IsFailure(TimeResponse) then (TimeResponse, None)
    else
      var edited := a.(lastVersion := result.id);
      (if IsFailure(editAll(edited)) then editAll(edited) else result.response, Some(edited))
  }

  /**
   * The end of `createAttachmentVersion` testing the put's own status: an attachment only ever
   * points at a version that was stored, and a failed put is what the caller sees.
   */
  function StoreVersion(a: Attachment, v: Version, put: Version -> Stored,
                        editAll: Attachment -> Response): (out: (Response, Option<Attachment>))
    ensures out.1.Some? <==> !IsFailure(put(v).response)
    ensures out.1.Some? ==> out.1.value == a.(lastVersion := put(v).id)
    ensures IsFailure(put(v).response) ==> out.0 == put(v).response
    ensures !IsFailure(out.0) ==> out.0 == put(v).response && out.1.Some? && !IsFailure(editAll(out.1.value))
  {
    var result := put(v);
    if IsFailure(result.response) then (result.response, None)
    else
      var edited := a.(lastVersion := result.id);
      (if IsFailure(editAll(edited)) then editAll(edited) else result.response, Some(edited))
  }

  /**
   * As written, a put that fails still moves the attachment to the version's id and, when that
   * edit succeeds, returns the put's failure after the edit; testing the put's status edits nothing.
   * When the put succeeds the two agree.
   */
  lemma FailedPutStillEditsAttachment(a: Attachment, v: Version, put: Version -> Stored, editAll: Attachment -> Response)
    ensures IsFailure(put(v).response) ==>
      StoreVersionAsWritten(a, v, put, editAll).1 == Some(a.(lastVersion := put(v).id))
      && StoreVersion(a, v, put, editAll) == (put(v).response, None)
    ensures IsFailure(put(v).response) && !IsFailure(editAll(a.(lastVersion := put(v).id))) ==>
      StoreVersionAsWritten(a, v, put, editAll).0 == put(v).response
    ensures !IsFailure(put(v).response) ==> StoreVersionAsWritten(a, v, put, editAll) == StoreVersion(a, v, put, editAll)
  {
    assert !IsFailure(TimeResponse);
  }

  /**
   * `createAttachmentVersion`, given the decoded request, the attachment read, what reading a
   * version by id gives, the participants under the caller's MSP id, what storing a version gives
   * and what writing the attachment gives. A version whose hash equals the current version's is
   * not stored. `stored` is the version handed to `data.Put` and `edited` the attachment handed to
   * `data.EditAll`.
   */
  method HandleCreateAttachmentVersion(args: seq<string>, request: Result<VersionRequest, Error>,
                                       attachment: Result<Attachment, Response>,
                                       queryVersion: string -> Result<Version, Response>, participantIds: seq<string>,
                                       put: Version -> Stored, editAll: Attachment -> Response)
    returns (r: Response, stored: Option<Version>, edited: Option<Attachment>)
    ensures |args| != 1 ==> r == IncorrectInvokeNumberOfArgsError(args, 1) && stored.None? && edited.None?
    ensures |args| == 1 && request.Failure? ==> r == UnmarshalError(request.error, args[0]) && stored.None? && edited.None?
    ensures |args| == 1 && request.Success? && attachment.Failure? ==> r == attachment.error && stored.None? && edited.None?
    ensures |args| == 1 && request.Success? && attachment.Success? ==>
              var q, a := request.value, attachment.value;
              var current := queryVersion(a.lastVersion);
              if a.lastVersion != "" && current.Failure? then r == current.error && stored.None? && edited.None?
              else if a.lastVersion != "" && current.value.hash == q.version.hash then
                r == SuccessMessageResponse(SameHashMessage) && !IsFailure(r) && stored.None? && edited.None?
              else if participantIds == [] then r == NoParticipantForExecutor(MspId) && stored.None? && edited.None?
              else stored == Some(NewVersion(q, participantIds[0])) && (r, edited) == StoreVersion(a, stored.value, put, editAll)
    ensures stored.Some? ==>
              var a := attachment.value;
              a.lastVersion == "" || queryVersion(a.lastVersion).value.hash != stored.value.hash
    ensures edited.Some? ==> stored.Some? && !IsFailure(put(stored.value).response)
                             && edited.value.lastVersion == put(stored.value).id
  {
    stored, edited := None, None;
    if CheckOneArg(args).Some? {
      return CheckOneArg(args).value, None, None;
    }
    if request.Failure? {
      return UnmarshalError(request.error, args[0]), None, None;
    }
    if attachment.Failure? {
      return attachment.error, None, None;
    }
    var q, a := request.value, attachment.value;
    if a.lastVersion != "" {
      var current := queryVersion(a.lastVersion);
      if current.Failure? {
        return current.error, None, None;
      }
      if current.value.hash == q.version.hash {
        return SuccessMessageResponse(SameHashMessage), None, None;
      }
    }
    var executor := ExecutorFirstParticipantRef(participantIds);
    if executor.Failure? {
      return executor.error, None, None;
    }
    var v := NewVersion(q, executor.value);
    stored := Some(v);
    r, edited := StoreVersion(a, v, put, editAll).0, StoreVersion(a, v, put, editAll).1;
  }
}
