/**
  The case-management records the consumer reads and writes: a case's data
  (a mutable object whose fields are Java strings, lists and flags), the
  submit events and case details that carry it, the request tokens the
  case-data platform hands out, and the inbound update message.
 */
module EcmModel {

  datatype Option<T> = None | Some(value: T)

  /** The Java exceptions the services can raise before any remote call. */
  datatype Exception = NullPointerException | ClassCastException

  datatype Result<T> = Success(value: T) | Failure(error: Exception)

  /** How a `void` service method ends: normally, or with an exception. */
  datatype Outcome = Completed | Threw(exception: Exception)

  /**
    The value of one field of a case: Java `null`, or its content. String
    fields hold their text; list-valued fields (collections of respondents,
    documents, ...) are represented by an opaque text standing for their
    content, which the services never inspect.
   */
  datatype Value = Null | Str(s: string)

  /** What Java's string concatenation makes of a nullable string. */
  function Text(v: Value): (t: string)
    ensures v.Str? ==> t == v.s
    ensures v.Null? ==> t == "null"
  {
    match v
    case Null => "null"
    case Str(s) => s
  }

  /** The fields of a case's data that the services read or write, and any other, by name. */
  datatype Field =
    | EthosCaseReference | PositionType | CaseType | ClaimantTypeOfClaimant | ClaimantCompany
    | ClaimantIndType | ClaimantType | ClaimantOtherType | PreAcceptCase | ReceiptDate
    | FeeGroupReference | ClaimantWorkAddressQuestion | ClaimantWorkAddressQRespondent
    | RepresentativeClaimantType | RespondentCollection | RepCollection | PositionTypeCT
    | DateToPosition | CurrentPosition | DepositCollection | JudgementCollection
    | JurCodesCollection | BfActions | UserLocation | DocumentCollection
    | AdditionalCaseInfoType | CaseNotes | ClaimantWorkAddress | ClaimantRepresentedQuestion
    | CaseSource | Et3Received | ConciliationTrack | CounterClaim | RestrictedReporting
    | Respondent | Claimant | CaseRefECC | CcdID | FlagsImageAltText | CompanyPremises
    | LinkedCaseCT | ReasonForCT | OtherField(name: string)

  /**
    The content of a case's data at one moment: the value of every field the
    services touch, and the values of all other fields by name (a name
    missing from `otherFields` is `null`).
   */
  datatype CaseRecord = CaseRecord(
    ethosCaseReference: Value,
    positionType: Value,
    caseType: Value,
    claimantTypeOfClaimant: Value,
    claimantCompany: Value,
    claimantIndType: Value,
    claimantType: Value,
    claimantOtherType: Value,
    preAcceptCase: Value,
    receiptDate: Value,
    feeGroupReference: Value,
    claimantWorkAddressQuestion: Value,
    claimantWorkAddressQRespondent: Value,
    representativeClaimantType: Value,
    respondentCollection: Value,
    repCollection: Value,
    positionTypeCT: Value,
    dateToPosition: Value,
    currentPosition: Value,
    depositCollection: Value,
    judgementCollection: Value,
    jurCodesCollection: Value,
    bfActions: Value,
    userLocation: Value,
    documentCollection: Value,
    additionalCaseInfoType: Value,
    caseNotes: Value,
    claimantWorkAddress: Value,
    claimantRepresentedQuestion: Value,
    caseSource: Value,
    et3Received: Value,
    conciliationTrack: Value,
    counterClaim: Value,
    restrictedReporting: Value,
    respondent: Value,
    claimant: Value,
    caseRefECC: Value,
    ccdID: Value,
    flagsImageAltText: Value,
    companyPremises: Value,
    linkedCaseCT: Value,
    reasonForCT: Value,
    otherFields: map<string, Value>)

  /** The getter of field `f`. */
  function FieldValue(r: CaseRecord, f: Field): Value {
    match f
    case EthosCaseReference => r.ethosCaseReference
    case PositionType => r.positionType
    case CaseType => r.caseType
    case ClaimantTypeOfClaimant => r.claimantTypeOfClaimant
    case ClaimantCompany => r.claimantCompany
    case ClaimantIndType => r.claimantIndType
    case ClaimantType => r.claimantType
    case ClaimantOtherType => r.claimantOtherType
    case PreAcceptCase => r.preAcceptCase
    case ReceiptDate => r.receiptDate
    case FeeGroupReference => r.feeGroupReference
    case ClaimantWorkAddressQuestion => r.claimantWorkAddressQuestion
    case ClaimantWorkAddressQRespondent => r.claimantWorkAddressQRespondent
    case RepresentativeClaimantType => r.representativeClaimantType
    case RespondentCollection => r.respondentCollection
    case RepCollection => r.repCollection
    case PositionTypeCT => r.positionTypeCT
    case DateToPosition => r.dateToPosition
    case CurrentPosition => r.currentPosition
    case DepositCollection => r.depositCollection
    case JudgementCollection => r.judgementCollection
    case JurCodesCollection => r.jurCodesCollection
    case BfActions => r.bfActions
    case UserLocation => r.userLocation
    case DocumentCollection => r.documentCollection
    case AdditionalCaseInfoType => r.additionalCaseInfoType
    case CaseNotes => r.caseNotes
    case ClaimantWorkAddress => r.claimantWorkAddress
    case ClaimantRepresentedQuestion => r.claimantRepresentedQuestion
    case CaseSource => r.caseSource
    case Et3Received => r.et3Received
    case ConciliationTrack => r.conciliationTrack
    case CounterClaim => r.counterClaim
    case RestrictedReporting => r.restrictedReporting
    case Respondent => r.respondent
    case Claimant => r.claimant
    case CaseRefECC => r.caseRefECC
    case CcdID => r.ccdID
    case FlagsImageAltText => r.flagsImageAltText
    case CompanyPremises => r.companyPremises
    case LinkedCaseCT => r.linkedCaseCT
    case ReasonForCT => r.reasonForCT
    case OtherField(name) => if name in r.otherFields then r.otherFields[name] else Null
  }

  /** The content of `new CaseData()`: every field `null`. */
  const EmptyRecord := CaseRecord(
    Null, Null, Null, Null, Null, Null, Null, Null, Null, Null,
    Null, Null, Null, Null, Null, Null, Null, Null, Null, Null,
    Null, Null, Null, Null, Null, Null, Null, Null, Null, Null,
    Null, Null, Null, Null, Null, Null, Null, Null, Null, Null,
    Null, Null,
    map[])

  /**
    A case's data: a mutable object, updated in place one field at a time
    through its setters. `data` is its current content.
   */
  class CaseData {
    var data: CaseRecord

    /** `new CaseData()`: every field is `null`. */
    constructor ()
      ensures data == EmptyRecord
    {
      data := EmptyRecord;
    }
  }

  /** A case as the platform returns it: its numeric id and its data. */
  datatype SubmitEvent = SubmitEvent(caseId: int, caseData: CaseData)

  /** The description of a case to create: where it goes and what it holds. */
  datatype CaseDetails = CaseDetails(caseTypeId: Value, jurisdiction: Value, caseData: CaseData)

  /**
    The request a start call returns: the event id and concurrency token the
    submit must quote. `serial` numbers the transactions a client opened.
   */
  datatype CCDRequest = CCDRequest(serial: nat, eventId: string, token: string)

  /** The transfer parameters carried by a single-case creation message. */
  datatype CreationSingleDataModel =
    CreationSingleDataModel(officeCT: Value, positionTypeCT: Value, reasonForCT: Value, ccdGatewayBaseUrl: Value)

  /** The message's data model, which the services cast to a single-case creation model. */
  datatype DataModelParent =
    | CreationSingle(model: CreationSingleDataModel)
    | OtherDataModel
    | NoDataModel

  /** The inbound update message, reduced to the parts the services read. */
  datatype UpdateCaseMsg =
    UpdateCaseMsg(jurisdiction: Value, caseTypeId: Value, multipleRef: Value, dataModelParent: DataModelParent)

  /**
    `(CreationSingleDataModel) msg.getDataModelParent()` followed by a getter:
    a data model of another class fails the cast, and a missing one fails the
    first getter call.
   */
  function CreationSingleModel(parent: DataModelParent): (r: Result<CreationSingleDataModel>)
    ensures r.Success? <==> parent.CreationSingle?
    ensures r.Success? ==> r.value == parent.model
    ensures parent.OtherDataModel? ==> r == Failure(ClassCastException)
    ensures parent.NoDataModel? ==> r == Failure(NullPointerException)
  {
    match parent
    case CreationSingle(m) => Success(m)
    case OtherDataModel => Failure(ClassCastException)
    case NoDataModel => Failure(NullPointerException)
  }
}
