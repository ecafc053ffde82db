/**
  The envelope the case-data platform expects with every submitted event: the
  event (its id, from the request, and a summary), the case's data converted
  to a JSON object, the request's concurrency token, and the flag that says
  warnings must not be ignored.
 */
module CaseDataBuilding {
  import opened EcmModel

  /** One JSON value, in its serialised form. */
  type JsonNode = string

  /** The data of a multiple (bulk) case, as the converter sees it. */
  datatype BulkData = BulkData(fields: map<string, Value>)

  /** The records the converter is applied to. */
  datatype Convertible = CaseDataValue(caseData: CaseRecord) | BulkDataValue(bulkData: BulkData)

  /**
    The JSON mapper, reduced to its conversion of a record to a JSON object;
    how it maps fields to names and values is not modelled.
   */
  datatype ObjectMapper = ObjectMapper(convertValue: Convertible -> map<string, JsonNode>)

  datatype Event = Event(eventId: string, summary: string)

  datatype CaseDataContent =
    CaseDataContent(event: Event, data: map<string, JsonNode>, token: string, ignoreWarning: bool)

  /** The platform's warnings are never ignored. */
  const IgnoreWarning := false

  /** The envelope around already converted data. */
  function GetCaseDataContent(req: CCDRequest, data: map<string, JsonNode>, eventSummary: string)
    : (content: CaseDataContent)
    ensures content.event.eventId == req.eventId
    ensures content.event.summary == eventSummary
    ensures content.data == data
    ensures content.token == req.token
    ensures !content.ignoreWarning
  {
    CaseDataContent(Event(req.eventId, eventSummary), data, req.token, IgnoreWarning)
  }

  /** The envelope for a single case: its data object, converted as it is now. */
  function BuildCaseDataContent(objectMapper: ObjectMapper, caseData: CaseData, req: CCDRequest,
                                eventSummary: string): (content: CaseDataContent)
    reads caseData
    ensures content.event == Event(req.eventId, eventSummary)
    ensures content.data == objectMapper.convertValue(CaseDataValue(caseData.data))
    ensures content.token == req.token
    ensures !content.ignoreWarning
  {
    GetCaseDataContent(req, objectMapper.convertValue(CaseDataValue(caseData.data)), eventSummary)
  }

  /** The envelope for a multiple: its bulk data, converted. */
  function BuildBulkDataContent(objectMapper: ObjectMapper, bulkData: BulkData, req: CCDRequest,
                                eventSummary: string): (content: CaseDataContent)
    ensures content.event == Event(req.eventId, eventSummary)
    ensures content.data == objectMapper.convertValue(BulkDataValue(bulkData))
    ensures content.token == req.token
    ensures !content.ignoreWarning
  {
    GetCaseDataContent(req, objectMapper.convertValue(BulkDataValue(bulkData)), eventSummary)
  }

  /**
    The envelope carries everything it was built from: two envelopes are equal
    exactly when their event ids, tokens, summaries and data are.
   */
  lemma EnvelopeDeterminedByInputs(req1: CCDRequest, data1: map<string, JsonNode>, summary1: string,
                                  req2: CCDRequest, data2: map<string, JsonNode>, summary2: string)
    ensures GetCaseDataContent(req1, data1, summary1) == GetCaseDataContent(req2, data2, summary2)
            <==> req1.eventId == req2.eventId && req1.token == req2.token && summary1 == summary2 && data1 == data2
  {
  }

  /**
    The single-case and the bulk envelopes built from the same request and
    summary differ only in their data, and not at all when the two records
    convert to the same object.
   */
  lemma CaseAndBulkEnvelopesAgree(objectMapper: ObjectMapper, caseData: CaseData, bulkData: BulkData,
                                  req: CCDRequest, eventSummary: string)
    ensures BuildCaseDataContent(objectMapper, caseData, req, eventSummary).(data := map[])
            == BuildBulkDataContent(objectMapper, bulkData, req, eventSummary).(data := map[])
    ensures objectMapper.convertValue(CaseDataValue(caseData.data)) == objectMapper.convertValue(BulkDataValue(bulkData))
            ==> BuildCaseDataContent(objectMapper, caseData, req, eventSummary)
                == BuildBulkDataContent(objectMapper, bulkData, req, eventSummary)
  {
  }
}
