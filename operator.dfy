/**
 * The operator session (webapp/app/page.tsx): scan an order number, answer
 * the exigence's checklist sample by sample, and archive one operation
 * record once the required number of samples is reached.
 */
module Operator {
  import opened Wrappers
  import opened Types
  import opened Text
  import opened Registry
  import opened Sampling

  /** The order being controlled, its exigence, the sample quota, and when the session began. */
  datatype ActiveSession = ActiveSession(order: OrderConfig, exigence: Exigence, requiredSamples: int, startedAt: Timestamp)

  /** Answers recorded so far for the current sample, by checklist item id. */
  type ResponseState = map<Id, ResponseValue>

  // ---------------------------------------------------------------------------
  // Checklist answers
  // ---------------------------------------------------------------------------

  /** The answer used for an item nobody answered: `false` for pass/fail, `""` for text. */
  function DefaultValue(t: ItemType): ResponseValue {
    match t
    case PassFail => BoolValue(false)
    case Text => StringValue("")
  }

  /**
   * `buildChecklistResponses`: one response per checklist item, in checklist
   * order, carrying the recorded answer or the item type's default.
   */
  function BuildChecklistResponses(checklist: seq<ChecklistItem>, state: ResponseState): (r: seq<ChecklistResponse>)
    ensures |r| == |checklist|
    ensures forall i :: 0 <= i < |checklist| ==> r[i].itemId == checklist[i].id
    ensures forall i :: 0 <= i < |checklist| && checklist[i].id in state ==> r[i].value == state[checklist[i].id]
    ensures forall i :: 0 <= i < |checklist| && checklist[i].id !in state && checklist[i].itemType == PassFail ==>
              r[i].value == BoolValue(false)
    ensures forall i :: 0 <= i < |checklist| && checklist[i].id !in state && checklist[i].itemType == Text ==>
              r[i].value == StringValue("")
  {
    if checklist == [] then []
    else
      var item := checklist[0];
      var value := if item.id in state then state[item.id] else DefaultValue(item.itemType);
      [ChecklistResponse(item.id, value)] + BuildChecklistResponses(checklist[1..], state)
  }

  /** The `checklistReady` gate: a session is open and every pass/fail item has a boolean answer. */
  predicate ChecklistReady(session: Option<ActiveSession>, state: ResponseState) {
    session.Some? &&
    forall item :: item in session.value.exigence.checklist && item.itemType == PassFail ==>
      item.id in state && state[item.id].BoolValue?
  }

  /** A saved sample answers the checklist: one response per item, in order, boolean for every pass/fail item. */
  ghost predicate FollowsChecklist(responses: seq<ChecklistResponse>, checklist: seq<ChecklistItem>) {
    |responses| == |checklist| &&
    forall i :: 0 <= i < |checklist| ==>
      responses[i].itemId == checklist[i].id &&
      (checklist[i].itemType == PassFail ==> responses[i].value.BoolValue?)
  }

  /** Once the gate is open, every pass/fail response is the operator's own boolean: the `false` default is never used. */
  lemma ReadyResponsesFollowChecklist(session: ActiveSession, state: ResponseState)
    requires ChecklistReady(Some(session), state)
    ensures FollowsChecklist(BuildChecklistResponses(session.exigence.checklist, state), session.exigence.checklist)
    ensures var r := BuildChecklistResponses(session.exigence.checklist, state);
            forall i :: 0 <= i < |r| && session.exigence.checklist[i].itemType == PassFail ==>
              r[i].value == state[session.exigence.checklist[i].id]
  {
    var checklist := session.exigence.checklist;
    forall i | 0 <= i < |checklist| && checklist[i].itemType == PassFail
      ensures checklist[i].id in state && state[checklist[i].id].BoolValue?
    {
      assert checklist[i] in checklist;
    }
  }

  /** Without a session the gate is closed; answers to anything but a pass/fail item never move it. */
  lemma ChecklistReadyIgnoresText(session: Option<ActiveSession>, state: ResponseState, id: Id, value: ResponseValue)
    requires session.Some? ==> forall item :: item in session.value.exigence.checklist && item.id == id ==> item.itemType == Text
    ensures !ChecklistReady(None, state)
    ensures ChecklistReady(session, state[id := value]) == ChecklistReady(session, state)
  {
  }

  /** Answering every pass/fail item with a boolean opens the gate, whatever the text items hold. */
  lemma AnsweringAllOpensGate(session: ActiveSession, state: ResponseState)
    requires forall i :: 0 <= i < |session.exigence.checklist| && session.exigence.checklist[i].itemType == PassFail ==>
               session.exigence.checklist[i].id in state && state[session.exigence.checklist[i].id].BoolValue?
    ensures ChecklistReady(Some(session), state)
  {
    var checklist := session.exigence.checklist;
    forall item | item in checklist && item.itemType == PassFail
      ensures item.id in state && state[item.id].BoolValue?
    {
      var i :| 0 <= i < |checklist| && checklist[i] == item;
    }
  }

  /** `remainingSamples`: how many samples the open session still needs (0 without a session). */
  function RemainingSamples(session: Option<ActiveSession>, samples: seq<SampleScan>): (r: int)
    ensures r >= 0
    ensures session.None? ==> r == 0
    ensures session.Some? && |samples| <= session.value.requiredSamples ==> r + |samples| == session.value.requiredSamples
    ensures session.Some? && |samples| >= session.value.requiredSamples ==> r == 0
  {
    var required := if session.Some? then session.value.requiredSamples else 0;
    Max(required - |samples|, 0)
  }

  // ---------------------------------------------------------------------------
  // Scanning an order number
  // ---------------------------------------------------------------------------

  /** `order.orderNumber.toLowerCase() === scanned.toLowerCase()`. */
  predicate SameOrderNumber(order: OrderConfig, scanned: string) {
    ToLower(order.orderNumber) == ToLower(scanned)
  }

  /** `orders.find(...)`: the position of the first order whose number matches, ignoring case. */
  function FindOrderIndex(orders: seq<OrderConfig>, scanned: string): (r: Option<nat>)
    ensures r.Some? ==> r.value < |orders| && SameOrderNumber(orders[r.value], scanned)
    ensures r.Some? ==> forall j :: 0 <= j < r.value ==> !SameOrderNumber(orders[j], scanned)
    ensures r.None? ==> forall j :: 0 <= j < |orders| ==> !SameOrderNumber(orders[j], scanned)
  {
    if orders == [] then None
    else if SameOrderNumber(orders[0], scanned) then Some(0)
    else
      match FindOrderIndex(orders[1..], scanned)
      case None => None
      case Some(k) => Some(k + 1)
  }

  /** `exigences.find(...)`: the position of the first exigence with the given id. */
  function FindExigenceIndex(exigences: seq<Exigence>, id: Id): (r: Option<nat>)
    ensures r.Some? ==> r.value < |exigences| && exigences[r.value].id == id
    ensures r.Some? ==> forall j :: 0 <= j < r.value ==> exigences[j].id != id
    ensures r.None? ==> id !in ExigenceIds(exigences)
  {
    if exigences == [] then None
    else if exigences[0].id == id then Some(0)
    else
      match FindExigenceIndex(exigences[1..], id)
      case None => None
      case Some(k) => Some(k + 1)
  }

  /** What a scan submission resolves to. */
  datatype ScanOutcome =
    | Started(order: OrderConfig, exigence: Exigence)
    | EmptyScan
    | NoMatchingOrder(scanned: string)
    | MissingExigence

  /** Order `orders[i]` is the first whose number matches `scanned`. */
  ghost predicate IsFirstMatch(orders: seq<OrderConfig>, scanned: string, i: int) {
    0 <= i < |orders| && SameOrderNumber(orders[i], scanned) &&
    forall j :: 0 <= j < i ==> !SameOrderNumber(orders[j], scanned)
  }

  /**
   * The lookup of `handleScanSubmit`: trim the input, find the first order
   * whose number matches it without regard to case, then that order's
   * exigence. Each failure is reported by its own outcome.
   */
  function ResolveScan(orders: seq<OrderConfig>, exigences: seq<Exigence>, scanValue: string): (r: ScanOutcome)
    ensures r == EmptyScan <==> AllWhitespace(scanValue)
    ensures r.NoMatchingOrder? ==>
              r.scanned == Trim(scanValue) && r.scanned != [] &&
              forall j :: 0 <= j < |orders| ==> !SameOrderNumber(orders[j], r.scanned)
    ensures r.MissingExigence? ==>
              exists i :: IsFirstMatch(orders, Trim(scanValue), i) && orders[i].exigenceId !in ExigenceIds(exigences)
    ensures r.Started? ==>
              (exists i :: IsFirstMatch(orders, Trim(scanValue), i) && r.order == orders[i]) &&
              r.exigence.id == r.order.exigenceId &&
              exists k :: 0 <= k < |exigences| && r.exigence == exigences[k] &&
                          forall j :: 0 <= j < k ==> exigences[j].id != r.order.exigenceId
  {
    var cleaned := Trim(scanValue);
    if cleaned == [] then EmptyScan
    else
      match FindOrderIndex(orders, cleaned)
      case None => NoMatchingOrder(cleaned)
      case Some(i) =>
        assert IsFirstMatch(orders, cleaned, i);
        match FindExigenceIndex(exigences, orders[i].exigenceId)
        case None => MissingExigence
        case Some(k) => Started(orders[i], exigences[k])
  }

  /** The order lookup sees only the lower-cased scan. */
  lemma {:induction false} FindOrderIgnoresCase(orders: seq<OrderConfig>, a: string, b: string)
    requires ToLower(a) == ToLower(b)
    ensures FindOrderIndex(orders, a) == FindOrderIndex(orders, b)
  {
    if orders != [] {
      FindOrderIgnoresCase(orders[1..], a, b);
    }
  }

  /** Two scans that trim to the same number up to letter case start the same session. */
  lemma ScanIgnoresCase(orders: seq<OrderConfig>, exigences: seq<Exigence>, a: string, b: string)
    requires ToLower(Trim(a)) == ToLower(Trim(b))
    requires ResolveScan(orders, exigences, a).Started?
    ensures ResolveScan(orders, exigences, b) == ResolveScan(orders, exigences, a)
  {
    FindOrderIgnoresCase(orders, Trim(a), Trim(b));
  }

  /** What saving a sample did. */
  datatype SaveOutcome =
    | NoSession
    | MissingLabel
    | ChecklistIncomplete
    | SampleSaved
    | ControlCompleted(record: OperationRecord)

  /** The sample a successful save records. */
  function NewSample(id: Id, enteredLabel: string, session: ActiveSession, state: ResponseState): SampleScan {
    SampleScan(id, Trim(enteredLabel), BuildChecklistResponses(session.exigence.checklist, state))
  }

  /** The record archived when `samples` completes `session`. */
  function CompletedRecord(id: Id, session: ActiveSession, samples: seq<SampleScan>, completedAt: Timestamp): OperationRecord {
    OperationRecord(id, session.order.id, session.exigence.id, session.order.orderNumber, session.order.pieceCount,
                    session.requiredSamples, samples, session.startedAt, completedAt)
  }

  // ---------------------------------------------------------------------------
  // The session state machine
  // ---------------------------------------------------------------------------

  /** The operator page's state: the scan input, the open session, the saved samples and the current sample's label and answers. */
  class OperatorWorkflow {
    const data: DataStore
    var scanValue: string
    var session: Option<ActiveSession>
    var samples: seq<SampleScan>
    var responseState: ResponseState
    var sampleLabel: string

    /**
     * Idle means no samples; an open session's quota is the rule's count for
     * its order and has not been reached yet; every saved sample answers the
     * session's checklist.
     */
    ghost predicate Valid()
      reads this
    {
      && (session.None? ==> samples == [])
      && (session.Some? ==> session.value.requiredSamples == SampleCount(session.value.order.pieceCount, session.value.exigence.sampleRule))
      && (session.Some? ==> |samples| < session.value.requiredSamples)
      && (session.Some? ==> forall s :: s in samples ==> FollowsChecklist(s.responses, session.value.exigence.checklist))
    }

    constructor (data: DataStore)
      ensures Valid() && this.data == data
      ensures scanValue == "" && session == None && samples == [] && responseState == map[] && sampleLabel == ""
    {
      this.data := data;
      scanValue, session, samples, responseState, sampleLabel := "", None, [], map[], "";
    }

    /** The scan input's `onChange`. */
    method EnterScan(value: string)
      requires Valid()
      modifies this
      ensures Valid()
      ensures scanValue == value
      ensures session == old(session) && samples == old(samples) && responseState == old(responseState) && sampleLabel == old(sampleLabel)
    {
      scanValue := value;
    }

    /**
     * `handleScanSubmit`: any failure leaves the page as it was; a resolved
     * order opens a fresh session (discarding any unsaved progress) whose
     * quota is the sampling rule's count for the order.
     */
    method SubmitScan(startedAt: Timestamp) returns (outcome: ScanOutcome)
      requires Valid()
      modifies this
      ensures Valid()
      ensures outcome == ResolveScan(data.orders, data.exigences, old(scanValue))
      ensures !outcome.Started? ==> unchanged(this)
      ensures outcome.Started? ==>
                && session == Some(ActiveSession(outcome.order, outcome.exigence,
                                                 SampleCount(outcome.order.pieceCount, outcome.exigence.sampleRule), startedAt))
                && samples == [] && sampleLabel == "" && responseState == map[]
                && scanValue == old(scanValue)
    {
      outcome := ResolveScan(data.orders, data.exigences, scanValue);
      if outcome.Started? {
        OpenSession(outcome.order, outcome.exigence, startedAt);
      }
    }

    /** The state updates of a successful scan: a new session on `order` and an empty sample in progress. */
    method OpenSession(order: OrderConfig, exigence: Exigence, startedAt: Timestamp)
      modifies this
      ensures Valid()
      ensures session == Some(ActiveSession(order, exigence, SampleCount(order.pieceCount, exigence.sampleRule), startedAt))
      ensures samples == [] && sampleLabel == "" && responseState == map[] && scanValue == old(scanValue)
    {
      var required := SampleCount(order.pieceCount, exigence.sampleRule);
      session := Some(ActiveSession(order, exigence, required, startedAt));
      samples, sampleLabel, responseState := [], "", map[];
    }

    /** `handleChecklistValue`: the last answer given for an item wins. */
    method SetChecklistValue(id: Id, value: ResponseValue)
      requires Valid()
      modifies this
      ensures Valid()
      ensures responseState == old(responseState)[id := value]
      ensures scanValue == old(scanValue) && session == old(session) && samples == old(samples) && sampleLabel == old(sampleLabel)
    {
      responseState := responseState[id := value];
    }

    /** The sample label input's `onChange`. */
    method EnterSampleLabel(value: string)
      requires Valid()
      modifies this
      ensures Valid()
      ensures sampleLabel == value
      ensures scanValue == old(scanValue) && session == old(session) && samples == old(samples) && responseState == old(responseState)
    {
      sampleLabel := value;
    }

    /**
     * `handleSaveSample`: without a session, a label or a ready checklist
     * nothing changes. Otherwise one sample is appended and the label and
     * answers are cleared; if that reaches the quota, one record holding all
     * the samples is logged in front of the operation log and the page goes
     * back to idle.
     */
    method SaveSample(sampleId: Id, recordId: Id, completedAt: Timestamp) returns (outcome: SaveOutcome)
      requires Valid()
      modifies this, data
      ensures Valid()
      ensures old(session).None? ==> outcome == NoSession
      ensures old(session).Some? && AllWhitespace(old(sampleLabel)) ==> outcome == MissingLabel
      ensures old(session).Some? && !AllWhitespace(old(sampleLabel)) && !old(ChecklistReady(session, responseState)) ==>
                outcome == ChecklistIncomplete
      ensures old(session).Some? && !AllWhitespace(old(sampleLabel)) && old(ChecklistReady(session, responseState)) ==>
                if old(|samples|) + 1 < old(session).value.requiredSamples then outcome == SampleSaved
                else outcome.ControlCompleted?
      ensures outcome.NoSession? || outcome.MissingLabel? || outcome.ChecklistIncomplete? ==>
                unchanged(this) && unchanged(data)
      ensures outcome.SampleSaved? || outcome.ControlCompleted? ==>
                old(session).Some? && !AllWhitespace(old(sampleLabel)) && old(ChecklistReady(session, responseState))
      ensures outcome.SampleSaved? ==>
                && old(|samples|) + 1 < old(session).value.requiredSamples
                && samples == old(samples) + [NewSample(sampleId, old(sampleLabel), old(session).value, old(responseState))]
                && sampleLabel == "" && responseState == map[]
                && session == old(session) && scanValue == old(scanValue)
                && unchanged(data)
      ensures outcome.ControlCompleted? ==>
                && old(|samples|) + 1 == old(session).value.requiredSamples
                && outcome.record == CompletedRecord(recordId, old(session).value,
                     old(samples) + [NewSample(sampleId, old(sampleLabel), old(session).value, old(responseState))], completedAt)
                && |outcome.record.samples| == outcome.record.requiredSamples
                && data.operations == [outcome.record] + old(data.operations)
                && data.exigences == old(data.exigences) && data.orders == old(data.orders)
                && session == None && samples == [] && sampleLabel == "" && responseState == map[] && scanValue == ""
    {
      if session.None? {
        return NoSession;
      }
      var s := session.value;
      if Trim(sampleLabel) == [] {
        return MissingLabel;
      }
      if !ChecklistReady(session, responseState) {
        return ChecklistIncomplete;
      }
      ReadyResponsesFollowChecklist(s, responseState);
      var newSample := NewSample(sampleId, sampleLabel, s, responseState);
      var nextSamples := samples + [newSample];
      samples, sampleLabel, responseState := nextSamples, "", map[];
      if |nextSamples| >= s.requiredSamples {
        var record := CompletedRecord(recordId, s, nextSamples, completedAt);
        data.LogOperation(record);
        session, samples, sampleLabel, responseState, scanValue := None, [], "", map[], "";
        outcome := ControlCompleted(record);
      } else {
        outcome := SampleSaved;
      }
    }

    /** The "resume the last controlled order" button, shown while idle with a non-empty log: it refills the scan input. */
    method ResumeLastOrder()
      requires Valid()
      modifies this
      ensures Valid()
      ensures session.None? && |data.operations| > 0 ==> scanValue == data.operations[0].orderNumber
      ensures !(old(session).None? && |data.operations| > 0) ==> scanValue == old(scanValue)
      ensures session == old(session) && samples == old(samples) && responseState == old(responseState) && sampleLabel == old(sampleLabel)
    {
      if session.None? && |data.operations| > 0 {
        scanValue := data.operations[0].orderNumber;
      }
    }
  }

  // ---------------------------------------------------------------------------
  // A complete control of the seed order
  // ---------------------------------------------------------------------------

  /** The seed order number typed in lower case is already trimmed and folds to the stored number. */
  lemma SeedNumberInLowerCase()
    ensures Trim("cmd-1001") == "cmd-1001"
    ensures ToLower("CMD-1001") == ToLower("cmd-1001")
  {
    var scanned: string := "cmd-1001";
    var stored: string := "CMD-1001";
    assert !IsWhitespace(scanned[0]) && !IsWhitespace(scanned[|scanned| - 1]);
    TrimOfTrimmed(scanned);
    assert forall i :: 0 <= i < |scanned| ==> stored[i] == scanned[i] || LowerChar(stored[i]) == scanned[i];
    ToLowerIgnoresCase(stored, scanned);
  }

  /** The seed order is found by its number typed in lower case, and resolves to the seed exigence. */
  lemma SeedScanStarts(exigenceId: Id, visualId: Id, dimensionsId: Id, remarkId: Id, orderId: Id)
    ensures ResolveScan(DefaultOrders(orderId, exigenceId), DefaultExigences(exigenceId, visualId, dimensionsId, remarkId), "cmd-1001")
            == Started(DefaultOrders(orderId, exigenceId)[0], DefaultExigences(exigenceId, visualId, dimensionsId, remarkId)[0])
  {
    var orders := DefaultOrders(orderId, exigenceId);
    var exigences := DefaultExigences(exigenceId, visualId, dimensionsId, remarkId);
    SeedNumberInLowerCase();
    assert FindOrderIndex(orders, "cmd-1001") == Some(0);
    assert FindExigenceIndex(exigences, exigenceId) == Some(0);
  }

  /** A fresh store holds the seed; scanning its order number in lower case opens a session with a quota of 4. */
  method OpenSeedSession() returns (store: DataStore, page: OperatorWorkflow)
    ensures fresh(store) && fresh(page) && page.data == store && page.Valid()
    ensures store.operations == []
    ensures page.session.Some? && page.samples == []
    ensures page.session.value.requiredSamples == 4
    ensures page.session.value.order == DefaultOrders("order", "exigence")[0]
    ensures page.session.value.exigence == DefaultExigences("exigence", "visual", "dimensions", "remark")[0]
  {
    store := new DataStore(None, None, None, "exigence", "visual", "dimensions", "remark", "order");
    page := new OperatorWorkflow(store);
    page.EnterScan("cmd-1001");
    SeedScanStarts("exigence", "visual", "dimensions", "remark", "order");
    var scan := page.SubmitScan("started");
    SeedIsConsistent("exigence", "visual", "dimensions", "remark", "order");
  }

  /** The operator answers both pass/fail controls of the seed checklist, enters a label and saves the sample. */
  method SaveSeedSample(page: OperatorWorkflow, ghost session: ActiveSession) returns (outcome: SaveOutcome)
    requires page.Valid() && page.session == Some(session)
    requires session.exigence == DefaultExigences("exigence", "visual", "dimensions", "remark")[0]
    modifies page, page.data
    ensures page.Valid()
    ensures |old(page.samples)| + 1 < session.requiredSamples ==>
              && outcome == SampleSaved && page.session == Some(session)
              && |page.samples| == |old(page.samples)| + 1
              && page.data.operations == old(page.data.operations)
    ensures |old(page.samples)| + 1 >= session.requiredSamples ==>
              && outcome.ControlCompleted?
              && page.data.operations == [outcome.record] + old(page.data.operations)
              && outcome.record.requiredSamples == session.requiredSamples
              && |outcome.record.samples| == session.requiredSamples
              && outcome.record.orderNumber == session.order.orderNumber
              && outcome.record.pieceCount == session.order.pieceCount
  {
    page.SetChecklistValue("visual", BoolValue(true));
    page.SetChecklistValue("dimensions", BoolValue(true));
    page.EnterSampleLabel("S");
    AnsweringAllOpensGate(session, page.responseState);
    TrimOfTrimmed("S");
    assert !AllWhitespace(page.sampleLabel);
    outcome := page.SaveSample("sample", "record", "completed");
  }

  /**
   * Four complete samples finish the control of the seed order: exactly one
   * record, holding the four samples, is archived.
   */
  method ControlSeedOrder() returns (record: OperationRecord, log: seq<OperationRecord>)
    ensures log == [record]
    ensures record.orderNumber == "CMD-1001" && record.pieceCount == 120
    ensures record.requiredSamples == 4 && |record.samples| == 4
  {
    var store, page := OpenSeedSession();
    var session := page.session.value;
    var i := 0;
    var outcome := SampleSaved;
    while i < 4
      invariant 0 <= i <= 4
      invariant page.Valid() && page.data == store
      invariant i < 4 ==> page.session == Some(session) && |page.samples| == i && store.operations == []
      invariant i == 4 ==> outcome.ControlCompleted? && store.operations == [outcome.record]
      invariant i == 4 ==> outcome.record.requiredSamples == 4 && |outcome.record.samples| == 4
      invariant i == 4 ==> outcome.record.orderNumber == "CMD-1001" && outcome.record.pieceCount == 120
    {
      outcome := SaveSeedSample(page, session);
      i := i + 1;
    }
    record, log := outcome.record, store.operations;
  }
}
