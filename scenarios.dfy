/**
  Worked examples: a case with reference 4150001/2020 is moved to the England
  and Wales office, once when that office has never held it and once when it
  comes back there; and a case is marked as transferred away.
 */
module Scenarios {
  import opened EcmModel
  import opened CcdClients
  import opened JavaStrings
  import opened SingleCreation
  import opened SingleTransfer

  const Reference := Str("4150001/2020")
  const Destination := Str("ET_EnglandWales")
  const Gateway := Str("https://gateway")

  function TransferModel(): CreationSingleDataModel {
    CreationSingleDataModel(Destination, Str("Awaiting ET3"), Str("Moved office"), Gateway)
  }

  function Message(multipleRef: Value): UpdateCaseMsg {
    UpdateCaseMsg(Str("EMPLOYMENT"), Str("ET_Scotland"), multipleRef, CreationSingle(TransferModel()))
  }

  /** The destination office has no case with the reference: one creation, no update. */
  method NewCaseInDestination() {
    var source := new CaseData();
    source.data := source.data.(ethosCaseReference := Reference);
    var client := new CcdClient([], n => "event", n => "token");
    var service := new SingleCreationService(client);
    var outcome := service.SendCreation(SubmitEvent(15, source), "auth", Message(Str("Single")));
    assert outcome == Completed;
    assert |client.calls| == 3;
    assert client.calls[0] == Call.RetrieveCasesElasticSearch("auth", Destination, [Reference]);
    assert client.calls[1].StartCaseCreationTransfer? && client.calls[2].SubmitCaseCreation?;
    assert forall i :: 0 <= i < |client.calls| ==> !IsUpdate(client.calls[i]);
    var created := client.calls[2].data;
    CopyKeepsIdentity(created, source.data, EmptyRecord,
                      GenerateMarkUp(Gateway, LongToString(15), Reference));
    assert created.ethosCaseReference == Reference;
  }

  /** The case comes back to an office that holds it: the held case is updated in place, nothing is created. */
  method CaseReturnsToDestination() {
    var source := new CaseData();
    source.data := source.data.(ethosCaseReference := Reference, positionTypeCT := Str("Transferred"));
    var held := new CaseData();
    held.data := held.data.(ethosCaseReference := Reference, positionType := Str("Old position"));
    var client := new CcdClient([SubmitEvent(7, held)], n => "event", n => "token");
    var service := new SingleCreationService(client);
    ghost var sourceBefore, heldBefore := source.data, held.data;
    var outcome := service.SendCreation(SubmitEvent(42, source), "auth", Message(Str("Single")));
    assert outcome == Completed;
    assert |client.calls| == 3;
    assert client.calls[1] == Call.ReturnCaseCreationTransfer("auth", Destination, Str("EMPLOYMENT"));
    assert client.calls[2].SubmitEventForCase? && client.calls[2].caseData == held;
    assert client.calls[2].caseId == LongToString(42);
    assert forall i :: 0 <= i < |client.calls| ==> !IsCreation(client.calls[i]);
    CopyKeepsIdentity(held.data, sourceBefore, heldBefore,
                      GenerateMarkUp(Gateway, LongToString(42), Reference));
    assert held.data.positionType == Str("Transferred");
  }

  /** A case leaves for another office: two calls on the resolved case type, three fields stamped. */
  method CaseMarkedTransferred() {
    var caseData := new CaseData();
    caseData.data := caseData.data.(ethosCaseReference := Reference);
    var client := new CcdClient([], n => "event", n => "token");
    var service := new SingleTransferService(client, "Single", ct => Str("derived"));
    var outcome := service.SendTransferred(SubmitEvent(9, caseData), "auth", Message(Str("Single")));
    assert outcome == Completed;
    assert client.calls[0] == Call.StartCaseTransfer("auth", Str("ET_Scotland"), Str("EMPLOYMENT"), LongToString(9));
    assert caseData.data.linkedCaseCT == Str("Transferred to ET_EnglandWales");
    assert caseData.data.ethosCaseReference == Reference;

    var missing := service.SendTransferred(SubmitEvent(9, caseData), "auth", Message(Null));
    assert missing == Threw(NullPointerException);
  }
}
