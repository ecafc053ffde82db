/**
  Moving a case to another office. The service searches the destination
  office's case type for a case with the same ethos reference. If one is found
  (a case that comes back), it copies the source case's data onto that case's
  own data object and submits an event. Otherwise it copies the data onto a
  new, empty case and creates it there. Either way, the destination carries an
  HTML link back to the source case.
 */
module SingleCreation {
  import opened EcmModel
  import opened CcdClients
  import opened JavaStrings

  /** The fields copyCaseData takes over unchanged from the source case. */
  predicate CopiedFromSource(f: Field) {
    !(f.PositionType? || f.PositionTypeCT? || f.ReasonForCT? || f.LinkedCaseCT? || f.OtherField?)
  }

  /**
    The value field `f` of `target` holds after copyCaseData from `source`:
    a copied field takes the source's value; the position type takes the
    source's transfer position type; the linked case becomes `link`; every
    other field keeps the target's value.
   */
  function CopiedValue(source: CaseRecord, target: CaseRecord, link: string, f: Field): Value {
    if CopiedFromSource(f) then FieldValue(source, f)
    else if f.PositionType? then source.positionTypeCT
    else if f.LinkedCaseCT? then Str(link)
    else FieldValue(target, f)
  }

  /** `result` is what copyCaseData makes of `target` when copying from `source`. */
  ghost predicate IsCopy(result: CaseRecord, source: CaseRecord, target: CaseRecord, link: string) {
    forall f :: FieldValue(result, f) == CopiedValue(source, target, link, f)
  }

  /**
    The record copyCaseData produces, written out field by field: the source's
    values, the source's transfer position type as position type, the link,
    and the target's own transfer fields and other fields.
   */
  function CopyResult(source: CaseRecord, target: CaseRecord, link: string): (r: CaseRecord)
    ensures IsCopy(r, source, target, link)
  {
    CaseRecord(
      source.ethosCaseReference, source.positionTypeCT, source.caseType, source.claimantTypeOfClaimant,
      source.claimantCompany, source.claimantIndType, source.claimantType, source.claimantOtherType,
      source.preAcceptCase, source.receiptDate, source.feeGroupReference, source.claimantWorkAddressQuestion,
      source.claimantWorkAddressQRespondent, source.representativeClaimantType, source.respondentCollection,
      source.repCollection, target.positionTypeCT, source.dateToPosition, source.currentPosition,
      source.depositCollection, source.judgementCollection, source.jurCodesCollection, source.bfActions,
      source.userLocation, source.documentCollection, source.additionalCaseInfoType, source.caseNotes,
      source.claimantWorkAddress, source.claimantRepresentedQuestion, source.caseSource,
      source.et3Received, source.conciliationTrack, source.counterClaim, source.restrictedReporting,
      source.respondent, source.claimant, source.caseRefECC, source.ccdID, source.flagsImageAltText,
      source.companyPremises, Str(link), target.reasonForCT, target.otherFields)
  }

  /**
    What a copy guarantees about the fields that identify the case and its
    transfer: the reference is the source's, the position type is the
    source's transfer position type (whatever the request said), the link is
    the one stamped, and the target keeps its own transfer fields and every
    field outside the copied list.
   */
  lemma CopyKeepsIdentity(result: CaseRecord, source: CaseRecord, target: CaseRecord, link: string)
    requires IsCopy(result, source, target, link)
    ensures result.ethosCaseReference == source.ethosCaseReference
    ensures result.positionType == source.positionTypeCT
    ensures result.linkedCaseCT == Str(link)
    ensures result.positionTypeCT == target.positionTypeCT && result.reasonForCT == target.reasonForCT
    ensures forall name :: FieldValue(result, OtherField(name)) == FieldValue(target, OtherField(name))
  {
    assert FieldValue(result, EthosCaseReference) == CopiedValue(source, target, link, EthosCaseReference);
    assert FieldValue(result, PositionType) == CopiedValue(source, target, link, PositionType);
    assert FieldValue(result, LinkedCaseCT) == CopiedValue(source, target, link, LinkedCaseCT);
    assert FieldValue(result, PositionTypeCT) == CopiedValue(source, target, link, PositionTypeCT);
    assert FieldValue(result, ReasonForCT) == CopiedValue(source, target, link, ReasonForCT);
    forall name ensures FieldValue(result, OtherField(name)) == FieldValue(target, OtherField(name)) {
      assert FieldValue(result, OtherField(name)) == CopiedValue(source, target, link, OtherField(name));
    }
  }

  const AnchorOpen := "<a target=\"_blank\" href=\""
  const CaseDetailsPath := "/cases/case-details/"
  const AnchorClose := "</a>"

  /** The page of case `caseId` behind the gateway. */
  function CaseDetailsUrl(ccdGatewayBaseUrl: Value, caseId: string): (url: string)
    ensures |url| == |Text(ccdGatewayBaseUrl)| + |CaseDetailsPath| + |caseId|
    ensures url[..|Text(ccdGatewayBaseUrl)|] == Text(ccdGatewayBaseUrl)
    ensures url[|Text(ccdGatewayBaseUrl)|..|url| - |caseId|] == CaseDetailsPath
    ensures url[|url| - |caseId|..] == caseId
  {
    Text(ccdGatewayBaseUrl) + CaseDetailsPath + caseId
  }

  /**
    The cross-reference link: an anchor opening in a new tab, pointing at the
    source case's page and labelled with its ethos reference.
   */
  function GenerateMarkUp(ccdGatewayBaseUrl: Value, caseId: string, ethosCaseRef: Value): (markUp: string)
    ensures |markUp| == |AnchorOpen| + |CaseDetailsUrl(ccdGatewayBaseUrl, caseId)| + 2 + |Text(ethosCaseRef)| + |AnchorClose|
    ensures markUp[..|AnchorOpen|] == AnchorOpen
    ensures markUp[|AnchorOpen|..|AnchorOpen| + |CaseDetailsUrl(ccdGatewayBaseUrl, caseId)|]
            == CaseDetailsUrl(ccdGatewayBaseUrl, caseId)
    ensures markUp[|markUp| - |AnchorClose| - |Text(ethosCaseRef)| - 2..|markUp| - |AnchorClose|]
            == "\">" + Text(ethosCaseRef)
    ensures markUp[|markUp| - |AnchorClose|..] == AnchorClose
  {
    var url := CaseDetailsUrl(ccdGatewayBaseUrl, caseId);
    AnchorOpen + url + "\">" + Text(ethosCaseRef) + AnchorClose
  }

  /** The link names the source case's reference: equal links, equal references. */
  lemma MarkUpDeterminesReference(ccdGatewayBaseUrl: Value, caseId: string, ref1: Value, ref2: Value)
    requires GenerateMarkUp(ccdGatewayBaseUrl, caseId, ref1) == GenerateMarkUp(ccdGatewayBaseUrl, caseId, ref2)
    ensures Text(ref1) == Text(ref2)
  {
    var m := GenerateMarkUp(ccdGatewayBaseUrl, caseId, ref1);
    var t1, t2 := Text(ref1), Text(ref2);
    assert |t1| == |t2|;
    assert m[|m| - |AnchorClose| - |t1| - 2..|m| - |AnchorClose|] == "\">" + t1;
    assert m[|m| - |AnchorClose| - |t2| - 2..|m| - |AnchorClose|] == "\">" + t2;
    assert t1 == ("\">" + t1)[2..];
    assert t2 == ("\">" + t2)[2..];
  }

  /** The link names the source case: with the same gateway, equal links mean equal case ids. */
  lemma MarkUpDeterminesCaseId(ccdGatewayBaseUrl: Value, caseId1: string, caseId2: string, ethosCaseRef: Value)
    requires GenerateMarkUp(ccdGatewayBaseUrl, caseId1, ethosCaseRef) == GenerateMarkUp(ccdGatewayBaseUrl, caseId2, ethosCaseRef)
    ensures caseId1 == caseId2
  {
  }

  /** The first case of the search answer, if any (`null` in the source). */
  function FirstOrNull(submitEvents: seq<SubmitEvent>): (r: Option<SubmitEvent>)
    ensures r.Some? <==> |submitEvents| > 0
    ensures r.Some? ==> r.value == submitEvents[0]
  {
    if |submitEvents| > 0 then Some(submitEvents[0]) else None
  }

  /** The data object of the case the search finds, which the update path changes. */
  function DestinationData(submitEvents: seq<SubmitEvent>): set<CaseData> {
    if FirstOrNull(submitEvents).Some? then {FirstOrNull(submitEvents).value.caseData} else {}
  }

  class SingleCreationService {
    const ccdClient: CcdClient

    constructor (ccdClient: CcdClient)
      ensures this.ccdClient == ccdClient
    {
      this.ccdClient := ccdClient;
    }

    /**
      Transfers the source case to the office the message names. After the
      message's data model has been read, exactly three calls are made: the
      search, then either the update pair (the destination exists) or the
      creation pair (it does not).
     */
    method SendCreation(oldSubmitEvent: SubmitEvent, accessToken: string, updateCaseMsg: UpdateCaseMsg)
      returns (outcome: Outcome)
      modifies ccdClient, DestinationData(ccdClient.searchAnswer)
      ensures CreationSingleModel(updateCaseMsg.dataModelParent).Failure? ==>
        && outcome == Threw(CreationSingleModel(updateCaseMsg.dataModelParent).error)
        && ccdClient.calls == old(ccdClient.calls)
        && forall cd :: cd in DestinationData(ccdClient.searchAnswer) ==> unchanged(cd)
      ensures CreationSingleModel(updateCaseMsg.dataModelParent).Success? ==>
        var model := updateCaseMsg.dataModelParent.model;
        var n := |old(ccdClient.calls)|;
        var link := GenerateMarkUp(model.ccdGatewayBaseUrl, LongToString(oldSubmitEvent.caseId),
                                   old(oldSubmitEvent.caseData.data.ethosCaseReference));
        && outcome == Completed
        && |ccdClient.calls| == n + 3
        && ccdClient.calls[..n] == old(ccdClient.calls)
        && ccdClient.calls[n] == Call.RetrieveCasesElasticSearch(accessToken, model.officeCT,
                                                                 [old(oldSubmitEvent.caseData.data.ethosCaseReference)])
        && (|ccdClient.searchAnswer| > 0 ==>
              var destination := ccdClient.searchAnswer[0].caseData;
              && ccdClient.calls[n + 1] == Call.ReturnCaseCreationTransfer(accessToken, model.officeCT,
                                                                           updateCaseMsg.jurisdiction)
              && ccdClient.calls[n + 2] == Call.SubmitEventForCase(accessToken, destination, destination.data,
                                                                   model.officeCT, updateCaseMsg.jurisdiction,
                                                                   ccdClient.Issue(n + 1),
                                                                   LongToString(oldSubmitEvent.caseId))
              && IsCopy(destination.data, old(oldSubmitEvent.caseData.data), old(destination.data), link))
        && (|ccdClient.searchAnswer| == 0 ==>
              && ccdClient.calls[n + 1].StartCaseCreationTransfer?
              && var details := ccdClient.calls[n + 1].caseDetails;
              && ccdClient.calls[n + 1] == Call.StartCaseCreationTransfer(accessToken, details, details.caseData.data)
              && ccdClient.calls[n + 2] == Call.SubmitCaseCreation(accessToken, details, details.caseData.data,
                                                                   ccdClient.Issue(n + 1))
              && fresh(details.caseData)
              && details.caseTypeId == model.officeCT
              && details.jurisdiction == updateCaseMsg.jurisdiction
              && IsCopy(details.caseData.data, old(oldSubmitEvent.caseData.data), EmptyRecord, link))
      ensures oldSubmitEvent.caseData !in DestinationData(ccdClient.searchAnswer) ==> unchanged(oldSubmitEvent.caseData)
    {
      var parent := CreationSingleModel(updateCaseMsg.dataModelParent);
      if parent.Failure? {
        return Threw(parent.error);
      }
      var creationSingleDataModel := parent.value;
      var caseTypeId := creationSingleDataModel.officeCT;
      var positionTypeCT := creationSingleDataModel.positionTypeCT;
      var ccdGatewayBaseUrl := creationSingleDataModel.ccdGatewayBaseUrl;
      var jurisdiction := updateCaseMsg.jurisdiction;
      var caseId := LongToString(oldSubmitEvent.caseId);

      var caseDestinationOffice :=
        ExistCaseDestinationOffice(accessToken, oldSubmitEvent.caseData.data.ethosCaseReference, caseTypeId);

      if caseDestinationOffice.Some? {
        UpdateExistingCase(caseDestinationOffice.value, oldSubmitEvent, caseId, caseTypeId, jurisdiction,
                           accessToken, ccdGatewayBaseUrl, positionTypeCT);
      } else {
        TransferNewCase(oldSubmitEvent, caseId, caseTypeId, ccdGatewayBaseUrl, positionTypeCT,
                        jurisdiction, accessToken);
      }
      outcome := Completed;
    }

    /**
      The case comes back to an office that already holds it: open an event on
      the destination case type, copy the source's data onto the destination's
      own data object, and submit that object, quoting the source case's id.
     */
    method UpdateExistingCase(caseDestinationOffice: SubmitEvent, oldSubmitEvent: SubmitEvent, caseId: string,
                              caseTypeId: Value, jurisdiction: Value, accessToken: string,
                              ccdGatewayBaseUrl: Value, positionTypeCT: Value)
      modifies ccdClient, caseDestinationOffice.caseData
      ensures ccdClient.calls == old(ccdClient.calls) + [
        Call.ReturnCaseCreationTransfer(accessToken, caseTypeId, jurisdiction),
        Call.SubmitEventForCase(accessToken, caseDestinationOffice.caseData, caseDestinationOffice.caseData.data,
                                caseTypeId, jurisdiction, ccdClient.Issue(|old(ccdClient.calls)|), caseId)]
      ensures IsCopy(caseDestinationOffice.caseData.data, old(oldSubmitEvent.caseData.data),
                     old(caseDestinationOffice.caseData.data),
                     GenerateMarkUp(ccdGatewayBaseUrl, caseId, old(oldSubmitEvent.caseData.data.ethosCaseReference)))
    {
      var returnedRequest := ccdClient.ReturnCaseCreationTransfer(accessToken, caseTypeId, jurisdiction);
      var caseData := GenerateCaseDataCaseTransfer(caseDestinationOffice.caseData, oldSubmitEvent.caseData,
                                                   caseId, ccdGatewayBaseUrl, positionTypeCT);
      ccdClient.SubmitEventForCase(accessToken, caseData, caseTypeId, jurisdiction, returnedRequest, caseId);
    }

    /**
      No case with this reference in the destination office: build a new case
      there from the source's data, open a creation transaction for it and
      submit the creation.
     */
    method TransferNewCase(oldSubmitEvent: SubmitEvent, caseId: string, caseTypeId: Value, ccdGatewayBaseUrl: Value,
                           positionTypeCT: Value, jurisdiction: Value, accessToken: string)
      modifies ccdClient
      ensures |ccdClient.calls| == |old(ccdClient.calls)| + 2
      ensures ccdClient.calls[..|old(ccdClient.calls)|] == old(ccdClient.calls)
      ensures ccdClient.calls[|old(ccdClient.calls)|].StartCaseCreationTransfer?
      ensures var n := |old(ccdClient.calls)|;
              var details := ccdClient.calls[n].caseDetails;
              && ccdClient.calls[n] == Call.StartCaseCreationTransfer(accessToken, details, details.caseData.data)
              && ccdClient.calls[n + 1] == Call.SubmitCaseCreation(accessToken, details, details.caseData.data,
                                                                   ccdClient.Issue(n))
              && fresh(details.caseData)
              && details.caseTypeId == caseTypeId
              && details.jurisdiction == jurisdiction
              && IsCopy(details.caseData.data, oldSubmitEvent.caseData.data, EmptyRecord,
                        GenerateMarkUp(ccdGatewayBaseUrl, caseId, oldSubmitEvent.caseData.data.ethosCaseReference))
    {
      var newCaseDetailsCT := CreateCaseDetailsCaseTransfer(oldSubmitEvent.caseData, caseId, caseTypeId,
                                                            ccdGatewayBaseUrl, positionTypeCT, jurisdiction);
      var returnedRequest := ccdClient.StartCaseCreationTransfer(accessToken, newCaseDetailsCT);
      ccdClient.SubmitCaseCreation(accessToken, newCaseDetailsCT, returnedRequest);
    }

    /** Searches the destination office for the source's reference and keeps the first hit. */
    method ExistCaseDestinationOffice(accessToken: string, ethosCaseReference: Value, destinationCaseTypeId: Value)
      returns (caseDestinationOffice: Option<SubmitEvent>)
      modifies ccdClient
      ensures ccdClient.calls == old(ccdClient.calls)
                                 + [Call.RetrieveCasesElasticSearch(accessToken, destinationCaseTypeId, [ethosCaseReference])]
      ensures caseDestinationOffice == FirstOrNull(ccdClient.searchAnswer)
    {
      var submitEvents := RetrieveDestinationCase(accessToken, ethosCaseReference, destinationCaseTypeId);
      caseDestinationOffice := FirstOrNull(submitEvents);
    }

    /** One search of the destination case type, for exactly the one reference. */
    method RetrieveDestinationCase(authToken: string, ethosCaseReference: Value, destinationCaseTypeId: Value)
      returns (submitEvents: seq<SubmitEvent>)
      modifies ccdClient
      ensures ccdClient.calls == old(ccdClient.calls)
                                 + [Call.RetrieveCasesElasticSearch(authToken, destinationCaseTypeId, [ethosCaseReference])]
      ensures submitEvents == ccdClient.searchAnswer
    {
      submitEvents := ccdClient.RetrieveCasesElasticSearch(authToken, destinationCaseTypeId, [ethosCaseReference]);
    }

    /** The details of the case to create: destination case type, jurisdiction, and a copy of the source's data. */
    method CreateCaseDetailsCaseTransfer(oldCaseData: CaseData, caseId: string, caseTypeId: Value,
                                         ccdGatewayBaseUrl: Value, positionTypeCT: Value, jurisdiction: Value)
      returns (newCaseTransferCaseDetails: CaseDetails)
      ensures fresh(newCaseTransferCaseDetails.caseData)
      ensures newCaseTransferCaseDetails.caseTypeId == caseTypeId
      ensures newCaseTransferCaseDetails.jurisdiction == jurisdiction
      ensures IsCopy(newCaseTransferCaseDetails.caseData.data, oldCaseData.data, EmptyRecord,
                     GenerateMarkUp(ccdGatewayBaseUrl, caseId, oldCaseData.data.ethosCaseReference))
    {
      var caseData := GenerateNewCaseDataCaseTransfer(oldCaseData, caseId, ccdGatewayBaseUrl, positionTypeCT);
      newCaseTransferCaseDetails := CaseDetails(caseTypeId, jurisdiction, caseData);
    }

    /** The source's data copied onto a new, empty case's data. */
    method GenerateNewCaseDataCaseTransfer(oldCaseData: CaseData, caseId: string, ccdGatewayBaseUrl: Value,
                                           positionTypeCT: Value)
      returns (newCaseData: CaseData)
      ensures fresh(newCaseData)
      ensures IsCopy(newCaseData.data, oldCaseData.data, EmptyRecord,
                     GenerateMarkUp(ccdGatewayBaseUrl, caseId, oldCaseData.data.ethosCaseReference))
    {
      var empty := new CaseData();
      newCaseData := CopyCaseData(oldCaseData, empty, caseId, ccdGatewayBaseUrl, positionTypeCT);
    }

    /** The source's data copied onto the destination case's existing data object. */
    method GenerateCaseDataCaseTransfer(newCaseData: CaseData, oldCaseData: CaseData, caseId: string,
                                        ccdGatewayBaseUrl: Value, positionTypeCT: Value)
      returns (caseData: CaseData)
      modifies newCaseData
      ensures caseData == newCaseData
      ensures IsCopy(newCaseData.data, old(oldCaseData.data), old(newCaseData.data),
                     GenerateMarkUp(ccdGatewayBaseUrl, caseId, old(oldCaseData.data.ethosCaseReference)))
    {
      caseData := CopyCaseData(oldCaseData, newCaseData, caseId, ccdGatewayBaseUrl, positionTypeCT);
    }

    /**
      Copies the transferred fields from `oldCaseData` onto `newCaseData` in
      place and stamps the link back to the source case. The position type is
      first set from the request and then overwritten with the source's
      transfer position type, so the request's value does not survive.
     */
    method CopyCaseData(oldCaseData: CaseData, newCaseData: CaseData, caseId: string, ccdGatewayBaseUrl: Value,
                        positionTypeCT: Value)
      returns (caseData: CaseData)
      modifies newCaseData
      ensures caseData == newCaseData
      ensures IsCopy(newCaseData.data, old(oldCaseData.data), old(newCaseData.data),
                     GenerateMarkUp(ccdGatewayBaseUrl, caseId, old(oldCaseData.data.ethosCaseReference)))
    {
      ghost var source, target := oldCaseData.data, newCaseData.data;
      ghost var link := GenerateMarkUp(ccdGatewayBaseUrl, caseId, oldCaseData.data.ethosCaseReference);
      newCaseData.data := newCaseData.data.(ethosCaseReference := oldCaseData.data.ethosCaseReference);
      newCaseData.data := newCaseData.data.(positionType := positionTypeCT);
      newCaseData.data := newCaseData.data.(caseType := oldCaseData.data.caseType);
      newCaseData.data := newCaseData.data.(claimantTypeOfClaimant := oldCaseData.data.claimantTypeOfClaimant);
      newCaseData.data := newCaseData.data.(claimantCompany := oldCaseData.data.claimantCompany);
      newCaseData.data := newCaseData.data.(claimantIndType := oldCaseData.data.claimantIndType);
      newCaseData.data := newCaseData.data.(claimantType := oldCaseData.data.claimantType);
      newCaseData.data := newCaseData.data.(claimantOtherType := oldCaseData.data.claimantOtherType);
      newCaseData.data := newCaseData.data.(preAcceptCase := oldCaseData.data.preAcceptCase);
      newCaseData.data := newCaseData.data.(receiptDate := oldCaseData.data.receiptDate);
      newCaseData.data := newCaseData.data.(feeGroupReference := oldCaseData.data.feeGroupReference);
      newCaseData.data := newCaseData.data.(claimantWorkAddressQuestion := oldCaseData.data.claimantWorkAddressQuestion);
      newCaseData.data := newCaseData.data.(claimantWorkAddressQRespondent := oldCaseData.data.claimantWorkAddressQRespondent);
      newCaseData.data := newCaseData.data.(representativeClaimantType := oldCaseData.data.representativeClaimantType);
      newCaseData.data := newCaseData.data.(respondentCollection := oldCaseData.data.respondentCollection);
      newCaseData.data := newCaseData.data.(repCollection := oldCaseData.data.repCollection);
      newCaseData.data := newCaseData.data.(positionType := oldCaseData.data.positionTypeCT);
      newCaseData.data := newCaseData.data.(dateToPosition := oldCaseData.data.dateToPosition);
      newCaseData.data := newCaseData.data.(currentPosition := oldCaseData.data.currentPosition);
      newCaseData.data := newCaseData.data.(depositCollection := oldCaseData.data.depositCollection);
      newCaseData.data := newCaseData.data.(judgementCollection := oldCaseData.data.judgementCollection);
      newCaseData.data := newCaseData.data.(jurCodesCollection := oldCaseData.data.jurCodesCollection);
      newCaseData.data := newCaseData.data.(bfActions := oldCaseData.data.bfActions);
      newCaseData.data := newCaseData.data.(userLocation := oldCaseData.data.userLocation);
      newCaseData.data := newCaseData.data.(documentCollection := oldCaseData.data.documentCollection);
      newCaseData.data := newCaseData.data.(additionalCaseInfoType := oldCaseData.data.additionalCaseInfoType);
      newCaseData.data := newCaseData.data.(caseNotes := oldCaseData.data.caseNotes);
      newCaseData.data := newCaseData.data.(claimantWorkAddress := oldCaseData.data.claimantWorkAddress);
      newCaseData.data := newCaseData.data.(claimantRepresentedQuestion := oldCaseData.data.claimantRepresentedQuestion);
      newCaseData.data := newCaseData.data.(caseSource := oldCaseData.data.caseSource);
      newCaseData.data := newCaseData.data.(et3Received := oldCaseData.data.et3Received);
      newCaseData.data := newCaseData.data.(conciliationTrack := oldCaseData.data.conciliationTrack);
      newCaseData.data := newCaseData.data.(counterClaim := oldCaseData.data.counterClaim);
      newCaseData.data := newCaseData.data.(restrictedReporting := oldCaseData.data.restrictedReporting);
      newCaseData.data := newCaseData.data.(respondent := oldCaseData.data.respondent);
      newCaseData.data := newCaseData.data.(claimant := oldCaseData.data.claimant);
      newCaseData.data := newCaseData.data.(caseRefECC := oldCaseData.data.caseRefECC);
      newCaseData.data := newCaseData.data.(ccdID := oldCaseData.data.ccdID);
      newCaseData.data := newCaseData.data.(flagsImageAltText := oldCaseData.data.flagsImageAltText);
      newCaseData.data := newCaseData.data.(companyPremises := oldCaseData.data.companyPremises);

      newCaseData.data := newCaseData.data.(
        linkedCaseCT := Str(GenerateMarkUp(ccdGatewayBaseUrl, caseId, oldCaseData.data.ethosCaseReference)));
      caseData := newCaseData;
      assert newCaseData.data == CopyResult(source, target, link);
    }
  }
}
