/** The participant entity of the docflow ledger and its output projection. */
module Participant {
  /** The object type under which participants are stored. */
  const Key: string := "PARTICIPANT"
  /** Name of the entity in logs. */
  const EntityName: string := "ParticipantReference"
  /** JSON tag of participant lists. */
  const JsonTag: string := "participants"

  /** `ParticipantOut`: the fields shown to clients. */
  datatype ParticipantOut = ParticipantOut(email: string, mspId: string, organizationName: string,
                                           personName: string, position: string, publicKey: string)

  /** `record.Record` around an output object. */
  datatype Record = Record(parentReference: string, reference: string, obj: ParticipantOut)

  class Participant {
    var relationTxId: string
    var key: string
    var id: string
    var personName: string
    var organizationName: string
    var position: string
    var mspId: string
    var publicKey: string
    var email: string

    constructor (personName: string, organizationName: string, position: string, mspId: string, publicKey: string, email: string)
      ensures relationTxId == "" && key == "" && id == ""
      ensures this.personName == personName && this.organizationName == organizationName && this.position == position
      ensures this.mspId == mspId && this.publicKey == publicKey && this.email == email
    {
      relationTxId, key, id := "", "", "";
      this.personName, this.organizationName, this.position := personName, organizationName, position;
      this.mspId, this.publicKey, this.email := mspId, publicKey, email;
    }

    /**
     * `ToOut`: the record for clients, referenced by the participant's id with no parent; the
     * transaction id and storage key are not shown.
     */
    function ToOut(): (r: Record)
      reads this
      ensures r.reference == id && r.parentReference == ""
      ensures r.obj == ParticipantOut(email, mspId, organizationName, personName, position, publicKey)
    {
      Record("", id, ParticipantOut(email, mspId, organizationName, personName, position, publicKey))
    }

    /** `CreateValidation`: every participant may be created. */
    function CreateValidation(): (ok: bool)
      ensures ok
    {
      true
    }

    /** `ChangeValidation`: every change is allowed; the argument must be a participant (the type assertion). */
    function ChangeValidation(newParticipant: Participant): (ok: bool)
      ensures ok
    {
      true
    }

    function GetKeyObjectType(): (t: string)
      ensures t == "PARTICIPANT"
    {
      Key
    }

    /** Participants are indexed by their MSP id alone. */
    function GetIndexes(): (ix: seq<seq<string>>)
      ensures ix == [["MspId"]]
    {
      [["MspId"]]
    }

    function GetEntityName(): string
    {
      EntityName
    }

    function GetTagName(): string
    {
      JsonTag
    }

    function GetTxId(): string
      reads this
    {
      relationTxId
    }

    function GetId(): string
      reads this
    {
      id
    }

    function GetKey(): string
      reads this
    {
      key
    }

    method SetTxId(relationTxId: string)
      modifies this`relationTxId
      ensures GetTxId() == relationTxId
    {
      this.relationTxId := relationTxId;
    }

    method SetId(id: string)
      modifies this`id
      ensures GetId() == id
    {
      this.id := id;
    }

    method SetKey(key: string)
      modifies this`key
      ensures GetKey() == key
    {
      this.key := key;
    }
  }

  /** A setter changes its own field and no other: the projection moves only with the id. */
  method SettersKeepOtherFields(p: Participant, id: string, key: string, txId: string)
    modifies p
    ensures p.GetId() == id && p.GetKey() == key && p.GetTxId() == txId
    ensures p.personName == old(p.personName) && p.organizationName == old(p.organizationName)
      && p.position == old(p.position) && p.mspId == old(p.mspId)
      && p.publicKey == old(p.publicKey) && p.email == old(p.email)
    ensures p.ToOut() == old(p.ToOut()).(reference := id)
  {
    p.SetId(id);
    p.SetKey(key);
    p.SetTxId(txId);
  }

  /** Two participants that differ only in transaction id and storage key project to the same record. */
  lemma ToOutIgnoresTxIdAndKey(p: Participant, q: Participant)
    requires p.id == q.id && p.personName == q.personName && p.organizationName == q.organizationName
    requires p.position == q.position && p.mspId == q.mspId && p.publicKey == q.publicKey && p.email == q.email
    ensures p.ToOut() == q.ToOut()
  {
  }
}
