/**
  Marking a case as transferred away. The service resolves the case type the
  source case lives in, opens a transfer event on the case, stamps three
  fields of the case's own data object (where it went, its position and the
  reason), and submits that same object.
 */
module SingleTransfer {
  import opened EcmModel
  import opened CcdClients
  import opened JavaStrings

  const TransferredPrefix := "Transferred to "

  /** The note left on a case moved to the office `caseTypeIdCT`. */
  function TransferredTo(caseTypeIdCT: Value): (marker: string)
    ensures |marker| == |TransferredPrefix| + |Text(caseTypeIdCT)|
    ensures marker[..|TransferredPrefix|] == TransferredPrefix
    ensures marker[|TransferredPrefix|..] == Text(caseTypeIdCT)
  {
    TransferredPrefix + Text(caseTypeIdCT)
  }

  /** The note names the destination: equal notes, equal destination offices. */
  lemma TransferredToDeterminesOffice(caseTypeIdCT1: Value, caseTypeIdCT2: Value)
    requires TransferredTo(caseTypeIdCT1) == TransferredTo(caseTypeIdCT2)
    ensures Text(caseTypeIdCT1) == Text(caseTypeIdCT2)
  {
  }

  /** The fields generateCaseData writes. */
  predicate IsStampField(f: Field) {
    f.LinkedCaseCT? || f.PositionTypeCT? || f.ReasonForCT?
  }

  /**
    What generateCaseData makes of a case's data: the three transfer fields
    are set, and every other field, named or not, keeps its value.
   */
  function Stamp(r: CaseRecord, caseTypeIdCT: Value, positionTypeCT: Value, reasonForCT: Value): (s: CaseRecord)
    ensures s.linkedCaseCT == Str(TransferredTo(caseTypeIdCT))
    ensures s.positionTypeCT == positionTypeCT
    ensures s.reasonForCT == reasonForCT
    ensures forall f :: !IsStampField(f) ==> FieldValue(s, f) == FieldValue(r, f)
  {
    r.(linkedCaseCT := Str(TransferredTo(caseTypeIdCT)), positionTypeCT := positionTypeCT, reasonForCT := reasonForCT)
  }

  /**
    Stamping again overrides the earlier stamp completely: a redelivered
    message leaves the case as one delivery does, and a later transfer
    leaves no trace of an earlier one.
   */
  lemma StampOverrides(r: CaseRecord, a1: Value, p1: Value, q1: Value, a2: Value, p2: Value, q2: Value)
    ensures Stamp(Stamp(r, a1, p1, q1), a2, p2, q2) == Stamp(r, a2, p2, q2)
  {
  }

  class SingleTransferService {
    const ccdClient: CcdClient
    /** The marker `multipleRef` carries when the case is a single case, not part of a multiple. */
    const singleCaseType: string
    /** The helper that derives the case type of a single case from a multiple's case type. */
    const caseTypeIdOf: Value -> Value

    constructor (ccdClient: CcdClient, singleCaseType: string, caseTypeIdOf: Value -> Value)
      ensures this.ccdClient == ccdClient
      ensures this.singleCaseType == singleCaseType && this.caseTypeIdOf == caseTypeIdOf
    {
      this.ccdClient := ccdClient;
      this.singleCaseType := singleCaseType;
      this.caseTypeIdOf := caseTypeIdOf;
    }

    /**
      The case type the source case lives in: the message's own case type when
      it names a single case, the derived single case type otherwise. A
      missing `multipleRef` fails the comparison with a null pointer.
     */
    function ResolvedCaseTypeId(updateCaseMsg: UpdateCaseMsg): (r: Result<Value>)
      ensures r.Failure? <==> updateCaseMsg.multipleRef.Null?
      ensures r.Failure? ==> r.error == NullPointerException
      ensures updateCaseMsg.multipleRef == Str(singleCaseType) ==> r == Success(updateCaseMsg.caseTypeId)
      ensures updateCaseMsg.multipleRef.Str? && updateCaseMsg.multipleRef != Str(singleCaseType) ==>
                r == Success(caseTypeIdOf(updateCaseMsg.caseTypeId))
    {
      match updateCaseMsg.multipleRef
      case Null => Failure(NullPointerException)
      case Str(ref) =>
        if ref == singleCaseType then Success(updateCaseMsg.caseTypeId)
        else Success(caseTypeIdOf(updateCaseMsg.caseTypeId))
    }

    /**
      Marks the case as transferred to the office the message names. After
      the message has been read without error, exactly two calls are made:
      the transfer event is opened on the resolved case type, and the case's
      own, stamped data object is submitted with the request that came back.
      Nothing is searched for and nothing is created.
     */
    method SendTransferred(submitEvent: SubmitEvent, accessToken: string, updateCaseMsg: UpdateCaseMsg)
      returns (outcome: Outcome)
      modifies ccdClient, submitEvent.caseData
      ensures CreationSingleModel(updateCaseMsg.dataModelParent).Failure? ==>
        && outcome == Threw(CreationSingleModel(updateCaseMsg.dataModelParent).error)
        && ccdClient.calls == old(ccdClient.calls)
        && submitEvent.caseData.data == old(submitEvent.caseData.data)
      ensures CreationSingleModel(updateCaseMsg.dataModelParent).Success? &&
              ResolvedCaseTypeId(updateCaseMsg).Failure? ==>
        && outcome == Threw(NullPointerException)
        && ccdClient.calls == old(ccdClient.calls)
        && submitEvent.caseData.data == old(submitEvent.caseData.data)
      ensures CreationSingleModel(updateCaseMsg.dataModelParent).Success? &&
              ResolvedCaseTypeId(updateCaseMsg).Success? ==>
        var model := updateCaseMsg.dataModelParent.model;
        var caseTypeId := ResolvedCaseTypeId(updateCaseMsg).value;
        var caseId := LongToString(submitEvent.caseId);
        && outcome == Completed
        && ccdClient.calls == old(ccdClient.calls) + [
             Call.StartCaseTransfer(accessToken, caseTypeId, updateCaseMsg.jurisdiction, caseId),
             Call.SubmitEventForCase(accessToken, submitEvent.caseData, submitEvent.caseData.data, caseTypeId,
                                     updateCaseMsg.jurisdiction, ccdClient.Issue(|old(ccdClient.calls)|), caseId)]
        && submitEvent.caseData.data
           == Stamp(old(submitEvent.caseData.data), model.officeCT, model.positionTypeCT, model.reasonForCT)
    {
      var parent := CreationSingleModel(updateCaseMsg.dataModelParent);
      if parent.Failure? {
        return Threw(parent.error);
      }
      var creationSingleDataModel := parent.value;
      var positionTypeCT := creationSingleDataModel.positionTypeCT;
      var caseTypeIdCT := creationSingleDataModel.officeCT;
      var reasonForCT := creationSingleDataModel.reasonForCT;

      var jurisdiction := updateCaseMsg.jurisdiction;
      var caseTypeId := caseTypeIdOf(updateCaseMsg.caseTypeId);
      if updateCaseMsg.multipleRef.Null? {
        return Threw(NullPointerException);
      }
      if updateCaseMsg.multipleRef.s == singleCaseType {
        caseTypeId := updateCaseMsg.caseTypeId;
      }

      UpdateTransferredCase(submitEvent, caseTypeId, caseTypeIdCT, jurisdiction, accessToken, positionTypeCT,
                            reasonForCT);
      outcome := Completed;
    }

    /**
      Opens the transfer event on the case, stamps the case's data in place
      between the two calls, and submits that same object.
     */
    method UpdateTransferredCase(submitEvent: SubmitEvent, caseTypeId: Value, caseTypeIdCT: Value,
                                 jurisdiction: Value, accessToken: string, positionTypeCT: Value,
                                 reasonForCT: Value)
      modifies ccdClient, submitEvent.caseData
      ensures ccdClient.calls == old(ccdClient.calls) + [
        Call.StartCaseTransfer(accessToken, caseTypeId, jurisdiction, LongToString(submitEvent.caseId)),
        Call.SubmitEventForCase(accessToken, submitEvent.caseData, submitEvent.caseData.data, caseTypeId,
                                jurisdiction, ccdClient.Issue(|old(ccdClient.calls)|),
                                LongToString(submitEvent.caseId))]
      ensures submitEvent.caseData.data == Stamp(old(submitEvent.caseData.data), caseTypeIdCT, positionTypeCT, reasonForCT)
    {
      var returnedRequest := ccdClient.StartCaseTransfer(accessToken, caseTypeId, jurisdiction,
                                                         LongToString(submitEvent.caseId));
      GenerateCaseData(submitEvent.caseData, caseTypeIdCT, positionTypeCT, reasonForCT);
      ccdClient.SubmitEventForCase(accessToken, submitEvent.caseData, caseTypeId, jurisdiction, returnedRequest,
                                   LongToString(submitEvent.caseId));
    }

    /** Sets the three transfer fields of `caseData` in place. */
    method GenerateCaseData(caseData: CaseData, caseTypeIdCT: Value, positionTypeCT: Value, reasonForCT: Value)
      modifies caseData
      ensures caseData.data == Stamp(old(caseData.data), caseTypeIdCT, positionTypeCT, reasonForCT)
    {
      caseData.data := caseData.data.(linkedCaseCT := Str(TransferredTo(caseTypeIdCT)));
      caseData.data := caseData.data.(positionTypeCT := positionTypeCT);
      caseData.data := caseData.data.(reasonForCT := reasonForCT);
    }
  }
}
