# Case transfer between employment-tribunal offices, in Dafny

This project models the part of the ECM consumer that moves a single case from one
tribunal office to another. It covers the code that runs once a transfer message has
been read and the source case fetched:

- **Creation at the destination** (`SingleCreationService`).
  - The service searches the destination office's case type for a case with the
    source's ethos reference. It takes the first hit, if there is one.
  - On a hit, the case is coming back to that office. The service opens an update
    event there, copies the source's data onto the destination case's own data object
    in place, and submits it.
  - Otherwise it copies the source's data onto a new, empty case and creates that
    case in the destination office.
  - Either way the copied data carries an HTML link back to the source case.
- **Stamping the source** (`SingleTransferService`). The service resolves the source
  case's case type, opens a transfer event on the case, and sets three fields of its
  data in place: where it went, its position and the reason. It then submits that
  same object.
- **The event envelope** (`CaseDataBuilder`). This is the record sent with every
  event: the event id and token from the platform's request, the summary, the
  converted data, and a flag saying warnings are never ignored.

The project has these modules:

- `EcmModel` (`ecm_model.dfy`) holds the records.
  - A case's data is a class `CaseData` with one field, `data`. That field is a
    `CaseRecord` holding the value of every field the services touch, plus the other
    fields by name.
  - A setter call replaces `data` with a copy that differs in one field.
  - Java `null` strings are `Value.Null`.
- `CcdClients` (`ccd_client.dfy`) is a recording stand-in for the case-data platform
  client.
  - Each call appends its name and arguments to `calls`, including a snapshot of any
    case data it sends.
  - The search answers with a fixed list.
  - Start calls hand out the request `Issue(n)`, numbered by their position in the
    call log.
- `JavaStrings` (`java_strings.dfy`) renders a `long` case id as `String.valueOf`
  does, and proves that reading the string back gives the id, so distinct ids give
  distinct strings.
- `SingleCreation`, `SingleTransfer` and `CaseDataBuilding` are the three services.
- `Scenarios` replays three cases on concrete inputs:
  - the reference `4150001/2020` moved to an office that has never held it;
  - the same reference moved to an office that does hold it;
  - a case stamped as transferred.

Two behaviours of the code are kept exactly as written:

- **Position type.** `copyCaseData` first sets `positionType` from the request (line
  148), then overwrites it with the source case's own `positionTypeCT` (line 163). The
  request's value therefore never survives. `CopyKeepsIdentity` states this, and the
  scenario `CaseReturnsToDestination` shows it.
- **Case id on the update path.** The submit quotes the source case's id (lines 35 and
  81), not the id of the destination case being updated. The model records the source
  id in the submit call.

## Model

| member | source | states |
|---|---|---|
| JavaStrings.Digits | src/main/java/uk/gov/hmcts/reform/ethos/ecm/consumer/service/SingleCreationService.java:35 | The decimal rendering of a case id is non-empty and all digits, has no leading zero (it starts with `0` exactly when the id is zero), and is one character long exactly when the id is below ten |
| JavaStrings.LongToString | src/main/java/uk/gov/hmcts/reform/ethos/ecm/consumer/service/SingleCreationService.java:35 | `String.valueOf(long)` starts with a minus sign exactly when the id is negative; the rest is the decimal digits of the id's magnitude |
| JavaStrings.DigitsRoundTrip | src/main/java/uk/gov/hmcts/reform/ethos/ecm/consumer/service/SingleCreationService.java:35 | Reading the decimal digits of a natural back as a number gives that natural |
| JavaStrings.LongToStringRoundTrip | src/main/java/uk/gov/hmcts/reform/ethos/ecm/consumer/service/SingleCreationService.java:35 | Parsing the rendering of any case id gives the id back |
| JavaStrings.DigitsInjective | src/main/java/uk/gov/hmcts/reform/ethos/ecm/consumer/service/SingleCreationService.java:35 | Two naturals with the same decimal digits are equal, as a consequence of the round trip |
| JavaStrings.LongToStringInjective | src/main/java/uk/gov/hmcts/reform/ethos/ecm/consumer/service/SingleCreationService.java:35 | Two case ids render to the same string if and only if they are equal, so the id quoted in a call identifies the case |
| EcmModel.Text | src/main/java/uk/gov/hmcts/reform/ethos/ecm/consumer/service/SingleCreationService.java:194-196 | String concatenation renders a present string as itself and a null one as "null" |
| EcmModel.CreationSingleModel | src/main/java/uk/gov/hmcts/reform/ethos/ecm/consumer/service/SingleCreationService.java:29-33 | Reading the transfer parameters succeeds exactly when the message carries a single-case creation model and yields that model; another model class gives a ClassCastException, a missing one a NullPointerException |
| EcmModel.CaseData.constructor | src/main/java/uk/gov/hmcts/reform/ethos/ecm/consumer/service/SingleCreationService.java:134 | A new case's data has every field null |
| SingleCreation.CopyResult | src/main/java/uk/gov/hmcts/reform/ethos/ecm/consumer/service/SingleCreationService.java:145-190 | The record written out field by field is a copy: every listed field is the source's, the position type is the source's transfer position type, the link is the one stamped, and every other field is the target's |
| SingleCreation.CopyKeepsIdentity | src/main/java/uk/gov/hmcts/reform/ethos/ecm/consumer/service/SingleCreationService.java:147-188 | After a copy the reference is the source's, the position type is the source's `positionTypeCT` rather than the request's, the link is the stamped one, and the target's own transfer fields and unlisted fields are kept |
| SingleCreation.CaseDetailsUrl | src/main/java/uk/gov/hmcts/reform/ethos/ecm/consumer/service/SingleCreationService.java:194 | The source case's page is made of three consecutive parts: the gateway (or "null"), then `/cases/case-details/`, then the case id, and nothing else |
| SingleCreation.GenerateMarkUp | src/main/java/uk/gov/hmcts/reform/ethos/ecm/consumer/service/SingleCreationService.java:192-198 | The link is an anchor opening in a new tab, pointing at the case's page and labelled with the ethos reference; its length and each of its parts are stated |
| SingleCreation.MarkUpDeterminesReference | src/main/java/uk/gov/hmcts/reform/ethos/ecm/consumer/service/SingleCreationService.java:196 | With the same gateway and case id, equal links mean equal reference labels |
| SingleCreation.MarkUpDeterminesCaseId | src/main/java/uk/gov/hmcts/reform/ethos/ecm/consumer/service/SingleCreationService.java:194-196 | With the same gateway and reference, equal links mean equal case ids, so the link identifies the source case |
| SingleCreation.FirstOrNull | src/main/java/uk/gov/hmcts/reform/ethos/ecm/consumer/service/SingleCreationService.java:104 | The destination is present exactly when the search found something, and it is the first case found |
| SingleCreation.SingleCreationService.SendCreation | src/main/java/uk/gov/hmcts/reform/ethos/ecm/consumer/service/SingleCreationService.java:26-58 | A bad data model throws before any call and changes nothing. Otherwise there are exactly three new calls. First comes one search of `officeCT` for exactly the source's reference. Then, on a hit, an update event and a submit of the destination's own data object, copied in place, with the source's case id and no creation call. With no hit, a creation start and a submit of the same fresh details (`officeCT`, the message's jurisdiction, a copy onto an empty case) and no update call. The source's data is left alone unless it is the destination object itself |
| SingleCreation.SingleCreationService.UpdateExistingCase | src/main/java/uk/gov/hmcts/reform/ethos/ecm/consumer/service/SingleCreationService.java:60-83 | The update event is opened on the given case type and jurisdiction. Then the destination's data object, copied in place, is submitted with the same case type and jurisdiction, the returned request and the source's case id |
| SingleCreation.SingleCreationService.TransferNewCase | src/main/java/uk/gov/hmcts/reform/ethos/ecm/consumer/service/SingleCreationService.java:85-96 | Exactly a creation start and a creation submit are made, with the same fresh details and the returned request |
| SingleCreation.SingleCreationService.ExistCaseDestinationOffice | src/main/java/uk/gov/hmcts/reform/ethos/ecm/consumer/service/SingleCreationService.java:98-106 | One search is made, and the result is the first case of its answer or none |
| SingleCreation.SingleCreationService.RetrieveDestinationCase | src/main/java/uk/gov/hmcts/reform/ethos/ecm/consumer/service/SingleCreationService.java:108-116 | Exactly one search of the destination case type is made, for a one-element list holding the reference, and its answer is returned |
| SingleCreation.SingleCreationService.CreateCaseDetailsCaseTransfer | src/main/java/uk/gov/hmcts/reform/ethos/ecm/consumer/service/SingleCreationService.java:118-129 | New details carry the destination case type and jurisdiction, and fresh data that is a copy of the source onto an empty case |
| SingleCreation.SingleCreationService.GenerateNewCaseDataCaseTransfer | src/main/java/uk/gov/hmcts/reform/ethos/ecm/consumer/service/SingleCreationService.java:131-136 | The result is a fresh data object holding the copy of the source onto an empty case |
| SingleCreation.SingleCreationService.GenerateCaseDataCaseTransfer | src/main/java/uk/gov/hmcts/reform/ethos/ecm/consumer/service/SingleCreationService.java:138-143 | The destination's own data object is returned, now holding the copy of the source onto its previous content |
| SingleCreation.SingleCreationService.CopyCaseData | src/main/java/uk/gov/hmcts/reform/ethos/ecm/consumer/service/SingleCreationService.java:145-190 | The target object is changed in place and returned; its new content is the copy of the source's old content onto the target's old content, with the link to the source case |
| SingleTransfer.TransferredTo | src/main/java/uk/gov/hmcts/reform/ethos/ecm/consumer/service/SingleTransferService.java:64 | The note is `Transferred to ` followed by the destination office (or "null") |
| SingleTransfer.TransferredToDeterminesOffice | src/main/java/uk/gov/hmcts/reform/ethos/ecm/consumer/service/SingleTransferService.java:64 | Equal notes name the same destination office |
| SingleTransfer.Stamp | src/main/java/uk/gov/hmcts/reform/ethos/ecm/consumer/service/SingleTransferService.java:62-68 | The stamp sets the link note, position type and reason, and every other field keeps its value |
| SingleTransfer.StampOverrides | src/main/java/uk/gov/hmcts/reform/ethos/ecm/consumer/service/SingleTransferService.java:62-68 | A second stamp erases every trace of the first, so a redelivered message leaves the case as one delivery does |
| SingleTransfer.SingleTransferService.ResolvedCaseTypeId | src/main/java/uk/gov/hmcts/reform/ethos/ecm/consumer/service/SingleTransferService.java:34-37 | If `multipleRef` is the single-case marker, the case type is the message's own; if it is another value, it is derived by the helper; if it is missing, the comparison throws a NullPointerException |
| SingleTransfer.SingleTransferService.SendTransferred | src/main/java/uk/gov/hmcts/reform/ethos/ecm/consumer/service/SingleTransferService.java:24-42 | A bad data model or a missing `multipleRef` throws before any call and changes nothing. Otherwise exactly two calls are made, with no search and no creation. First comes a transfer start on the resolved case type, jurisdiction and the case's own id. Then a submit of the case's same, stamped data object with the returned request |
| SingleTransfer.SingleTransferService.UpdateTransferredCase | src/main/java/uk/gov/hmcts/reform/ethos/ecm/consumer/service/SingleTransferService.java:44-60 | A start and then a submit are made on the same case type, jurisdiction and case id. The submit carries the case's own data object with the stamp applied between the two calls |
| SingleTransfer.SingleTransferService.GenerateCaseData | src/main/java/uk/gov/hmcts/reform/ethos/ecm/consumer/service/SingleTransferService.java:62-68 | The case's data is stamped in place and nothing else in it changes |
| CaseDataBuilding.GetCaseDataContent | src/main/java/uk/gov/hmcts/reform/ethos/ecm/consumer/config/CaseDataBuilder.java:32-39 | The envelope's event id and token are the request's, its summary is the argument, its data is the given map, and warnings are never ignored |
| CaseDataBuilding.BuildCaseDataContent | src/main/java/uk/gov/hmcts/reform/ethos/ecm/consumer/config/CaseDataBuilder.java:24-26 | The single-case envelope carries the request's event and token, and the converted current content of the case's data |
| CaseDataBuilding.BuildBulkDataContent | src/main/java/uk/gov/hmcts/reform/ethos/ecm/consumer/config/CaseDataBuilder.java:28-30 | The bulk envelope carries the request's event and token, and the converted bulk data |
| CaseDataBuilding.EnvelopeDeterminedByInputs | src/main/java/uk/gov/hmcts/reform/ethos/ecm/consumer/config/CaseDataBuilder.java:32-39 | Two envelopes are equal if and only if their event ids, tokens, summaries and data are equal |
| CaseDataBuilding.CaseAndBulkEnvelopesAgree | src/main/java/uk/gov/hmcts/reform/ethos/ecm/consumer/config/CaseDataBuilder.java:24-30 | The case and bulk envelopes for one request and summary differ only in their data, and are equal when the two records convert alike |

## Left out

- Failures of the platform client (`IOException`) are not modelled: the client never fails. The HTTP calls, the Elasticsearch query and the client's own use of the envelope builder are not part of this model. The client is a recording stand-in whose search answer and request tokens are given up front.
- The search answer does not depend on the reference or case type searched for. The model states which search was made, and the answer is a parameter.
- `UtilHelper.getCaseTypeId` and the `SINGLE_CASE_TYPE` constant are not part of this model. They are parameters of `SingleTransferService` (`caseTypeIdOf` and `singleCaseType`), and the helper is taken to be total.
- The JSON conversion (`ObjectMapper.convertValue`) is a parameter of the envelope builder. The JSON shapes of `CaseData` and `BulkData` are not modelled.
- Logging, Spring and Lombok wiring, and the message receiver that calls these services are left out. The receiver only deserialises, dispatches and acknowledges messages.
- A null `SubmitEvent` or a null `getCaseData()` is not modelled; the services dereference both without checks. The message's jurisdiction and the case-type id may be null, and such a null is passed on as is.
- List-valued fields of a case (respondents, documents, ...) are opaque values. The services copy them by reference and never look inside, so copying one shares it between source and destination.
- The case id is an unbounded integer. Every `long` value is covered, but the 64-bit range is not enforced.
- Setters on `CaseData` are not separate members. Each setter call replaces the record held by the data object with one that differs in that field.
