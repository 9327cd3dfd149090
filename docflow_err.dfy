/** The docflow-specific error responses and their codes. */
module DocflowErr {
  import opened Wrappers
  import opened DocflowCom

  const NoPermissionForWorkWithChatCode: nat := 1010
  const NoParticipantForExecutorCode: nat := 1020
  const EmptyProcTemplateElementsCode: nat := 1030
  /** Both the hash and the attachment-name errors use 1040. */
  const HashIsAlreadySetCode: nat := 1040
  const AttachmentWithThisNameAlreadyExistsCode: nat := 1040

  /** The MSP id is only logged. */
  function NoParticipantForExecutor(executorMspId: string): Response
  {
    ErrorMessageResponse(CCError("NoParticipantForExecutor"), NoParticipantForExecutorCode, "No permission for work in flow.")
  }

  /** The participant reference is only logged. */
  function NoPermissionForWorkWithProcessError(executorParticipantReference: string): Response
  {
    ErrorMessageResponse(CCError("NoPermissionForWorkWithProcessError"), NoPermissionForWorkWithChatCode,
      "No permission for work with process.")
  }

  function EmptyProcTemplateElementsError(): Response
  {
    ErrorMessageResponse(CCError("EmptyProcTemplateElementsError"), EmptyProcTemplateElementsCode,
      "Process template elements count is less than 3.")
  }

  function HashIsAlreadySetError(): Response
  {
    ErrorMessageResponse(CCError("HashIsAlreadySetError"), HashIsAlreadySetCode, "Hash is already set.")
  }

  function AttachmentMessage(name: string): string
  {
    "Attachment with name <<" + name + ">> already exists."
  }

  function AttachmentWithThisNameAlreadyExistsError(name: string): Response
  {
    ErrorMessageResponse(CCError("AttachmentWithThisNameAlreadyExistsError"), AttachmentWithThisNameAlreadyExistsCode,
      AttachmentMessage(name))
  }

  /** Each docflow error fails with status 500 and carries its code; the caller's identity never reaches the text. */
  lemma DocflowErrors(mspId: string, otherMspId: string, participant: string, otherParticipant: string, name: string)
    ensures var r := NoParticipantForExecutor(mspId);
      IsFailure(r) && CodeOf(r.message) == Some(1020) && r == NoParticipantForExecutor(otherMspId)
    ensures var r := NoPermissionForWorkWithProcessError(participant);
      IsFailure(r) && CodeOf(r.message) == Some(1010) && r == NoPermissionForWorkWithProcessError(otherParticipant)
    ensures var r := EmptyProcTemplateElementsError(); IsFailure(r) && CodeOf(r.message) == Some(1030)
    ensures var r := HashIsAlreadySetError(); IsFailure(r) && CodeOf(r.message) == Some(1040)
    ensures var r := AttachmentWithThisNameAlreadyExistsError(name); IsFailure(r) && CodeOf(r.message) == Some(1040)
  {
    ErrorCodeReadBack(CCError("NoParticipantForExecutor"), 1020, "No permission for work in flow.");
    ErrorCodeReadBack(CCError("NoPermissionForWorkWithProcessError"), 1010, "No permission for work with process.");
    ErrorCodeReadBack(CCError("EmptyProcTemplateElementsError"), 1030, "Process template elements count is less than 3.");
    ErrorCodeReadBack(CCError("HashIsAlreadySetError"), 1040, "Hash is already set.");
    ErrorCodeReadBack(CCError("AttachmentWithThisNameAlreadyExistsError"), 1040, AttachmentMessage(name));
  }

  /** The attachment name appears between "<<" and ">>", and can be cut back out of the message. */
  lemma AttachmentNameQuoted(name: string)
    ensures var m := AttachmentMessage(name);
      m[..23] == "Attachment with name <<" && m[23 + |name|..] == ">> already exists." && m[23..23 + |name|] == name
  {
  }
}
