/**
  The client of the case-data platform, as the services see it: every call is
  recorded, in order, with its arguments; the search answers with a scripted
  list of cases, and every start call hands out a new request. What goes over
  the wire is not modelled.
 */
module CcdClients {
  import opened EcmModel

  /** One recorded call. Calls that send case data keep a snapshot of it as sent. */
  datatype Call =
    | RetrieveCasesElasticSearch(authToken: string, caseTypeId: Value, references: seq<Value>)
    | ReturnCaseCreationTransfer(authToken: string, caseTypeId: Value, jurisdiction: Value)
    | StartCaseCreationTransfer(authToken: string, caseDetails: CaseDetails, data: CaseRecord)
    | SubmitCaseCreation(authToken: string, caseDetails: CaseDetails, data: CaseRecord, request: CCDRequest)
    | StartCaseTransfer(authToken: string, caseTypeId: Value, jurisdiction: Value, caseId: string)
    | SubmitEventForCase(authToken: string, caseData: CaseData, data: CaseRecord, caseTypeId: Value,
                         jurisdiction: Value, request: CCDRequest, caseId: string)

  /** Calls that create a case. */
  predicate IsCreation(c: Call) {
    c.StartCaseCreationTransfer? || c.SubmitCaseCreation?
  }

  /** Calls that open or submit an event on an existing case. */
  predicate IsUpdate(c: Call) {
    c.ReturnCaseCreationTransfer? || c.StartCaseTransfer? || c.SubmitEventForCase?
  }

  class CcdClient {
    /** What the case search returns. */
    const searchAnswer: seq<SubmitEvent>
    /** The event id and token of the n-th request the platform hands out. */
    const eventIdFor: nat -> string
    const tokenFor: nat -> string
    /** Every call made so far, oldest first. */
    var calls: seq<Call>

    constructor (searchAnswer: seq<SubmitEvent>, eventIdFor: nat -> string, tokenFor: nat -> string)
      ensures this.searchAnswer == searchAnswer && calls == []
      ensures this.eventIdFor == eventIdFor && this.tokenFor == tokenFor
    {
      this.searchAnswer := searchAnswer;
      this.eventIdFor := eventIdFor;
      this.tokenFor := tokenFor;
      calls := [];
    }

    /** The request handed out by the start call recorded at position `n`. */
    function Issue(n: nat): (req: CCDRequest)
      ensures req.serial == n
    {
      CCDRequest(n, eventIdFor(n), tokenFor(n))
    }

    method RetrieveCasesElasticSearch(authToken: string, caseTypeId: Value, references: seq<Value>)
      returns (submitEvents: seq<SubmitEvent>)
      modifies this
      ensures calls == old(calls) + [Call.RetrieveCasesElasticSearch(authToken, caseTypeId, references)]
      ensures submitEvents == searchAnswer
    {
      calls := calls + [Call.RetrieveCasesElasticSearch(authToken, caseTypeId, references)];
      submitEvents := searchAnswer;
    }

    method ReturnCaseCreationTransfer(authToken: string, caseTypeId: Value, jurisdiction: Value)
      returns (req: CCDRequest)
      modifies this
      ensures calls == old(calls) + [Call.ReturnCaseCreationTransfer(authToken, caseTypeId, jurisdiction)]
      ensures req == Issue(|old(calls)|)
    {
      req := Issue(|calls|);
      calls := calls + [Call.ReturnCaseCreationTransfer(authToken, caseTypeId, jurisdiction)];
    }

    method StartCaseCreationTransfer(authToken: string, caseDetails: CaseDetails)
      returns (req: CCDRequest)
      modifies this
      ensures calls == old(calls) + [Call.StartCaseCreationTransfer(authToken, caseDetails, caseDetails.caseData.data)]
      ensures req == Issue(|old(calls)|)
    {
      req := Issue(|calls|);
      calls := calls + [Call.StartCaseCreationTransfer(authToken, caseDetails, caseDetails.caseData.data)];
    }

    method SubmitCaseCreation(authToken: string, caseDetails: CaseDetails, req: CCDRequest)
      modifies this
      ensures calls == old(calls) + [Call.SubmitCaseCreation(authToken, caseDetails, caseDetails.caseData.data, req)]
    {
      calls := calls + [Call.SubmitCaseCreation(authToken, caseDetails, caseDetails.caseData.data, req)];
    }

    method StartCaseTransfer(authToken: string, caseTypeId: Value, jurisdiction: Value, caseId: string)
      returns (req: CCDRequest)
      modifies this
      ensures calls == old(calls) + [Call.StartCaseTransfer(authToken, caseTypeId, jurisdiction, caseId)]
      ensures req == Issue(|old(calls)|)
    {
      req := Issue(|calls|);
      calls := calls + [Call.StartCaseTransfer(authToken, caseTypeId, jurisdiction, caseId)];
    }

    method SubmitEventForCase(authToken: string, caseData: CaseData, caseTypeId: Value, jurisdiction: Value,
                              req: CCDRequest, caseId: string)
      modifies this
      ensures calls == old(calls) + [Call.SubmitEventForCase(authToken, caseData, caseData.data, caseTypeId,
                                                             jurisdiction, req, caseId)]
    {
      calls := calls + [Call.SubmitEventForCase(authToken, caseData, caseData.data, caseTypeId,
                                                jurisdiction, req, caseId)];
    }
  }
}
