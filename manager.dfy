/**
 * The manager page (webapp/app/manager/page.tsx): the exigence and order
 * forms, their checklist-draft edits, and the validation and normalisation
 * that run before the registry is called.
 */
module Manager {
  import opened Wrappers
  import opened Types
  import opened Text
  import opened SeqOps
  import opened Registry
  import Sampling

  /** `ExigenceFormState`; a checklist draft has the shape of a checklist item. */
  datatype ExigenceForm = ExigenceForm(
    id: Option<Id>,
    name: string,
    code: string,
    description: string,
    sampleRule: SampleRule,
    checklist: seq<ChecklistItem>)

  /** `OrderFormState`. */
  datatype OrderForm = OrderForm(
    id: Option<Id>,
    orderNumber: string,
    pieceCount: int,
    exigenceId: Id,
    notes: string)

  /** `createEmptyExigence`: the template with the default rule and one pass/fail control. */
  function EmptyExigenceForm(itemId: Id): ExigenceForm {
    ExigenceForm(None, "", "", "", SampleRule(30, Some(1), Some(10)),
                 [ChecklistItem(itemId, "Contrôle visuel", PassFail, None)])
  }

  /** `createEmptyOrder`. */
  const EmptyOrderForm := OrderForm(None, "", 0, "", "")

  // ---------------------------------------------------------------------------
  // Checklist drafts
  // ---------------------------------------------------------------------------

  /** The field `handleChecklistChange` sets, with its new value. */
  datatype DraftEdit = SetCaption(caption: string) | SetType(itemType: ItemType) | SetGuidance(guidance: string)

  /** `{ ...item, [field]: value }`: only the named field changes. */
  function ApplyEdit(item: ChecklistItem, edit: DraftEdit): (r: ChecklistItem)
    ensures r.id == item.id
    ensures r.caption == (if edit.SetCaption? then edit.caption else item.caption)
    ensures r.itemType == (if edit.SetType? then edit.itemType else item.itemType)
    ensures r.guidance == (if edit.SetGuidance? then Some(edit.guidance) else item.guidance)
  {
    match edit
    case SetCaption(c) => item.(caption := c)
    case SetType(t) => item.(itemType := t)
    case SetGuidance(g) => item.(guidance := Some(g))
  }

  /** The checklist after `handleAddChecklistItem`: one blank pass/fail item appended. */
  function WithNewItem(items: seq<ChecklistItem>, freshId: Id): (r: seq<ChecklistItem>)
    ensures |r| == |items| + 1 && r[..|items|] == items
    ensures r[|items|].id == freshId && r[|items|].caption == "" && r[|items|].itemType == PassFail && r[|items|].guidance.None?
  {
    items + [ChecklistItem(freshId, "", PassFail, None)]
  }

  /** The checklist after `handleChecklistChange(id, edit)`: the items with that id are edited, the others kept. */
  function ItemsEdited(items: seq<ChecklistItem>, id: Id, edit: DraftEdit): (r: seq<ChecklistItem>)
    ensures |r| == |items|
    ensures forall i :: 0 <= i < |items| ==> r[i] == if items[i].id == id then ApplyEdit(items[i], edit) else items[i]
  {
    ReplaceWhere(items, (it: ChecklistItem) => it.id == id, (it: ChecklistItem) => ApplyEdit(it, edit))
  }

  /** The checklist after `handleChecklistRemoval(id)`: exactly the items with that id are gone. */
  function ItemsWithout(items: seq<ChecklistItem>, id: Id): (r: seq<ChecklistItem>)
    ensures forall x :: x in r <==> x in items && x.id != id
    ensures forall x :: x in items && x.id != id ==> multiset(r)[x] == multiset(items)[x]
  {
    Filter(items, (it: ChecklistItem) => it.id != id)
  }

  /** Removal keeps the surviving items in their original order. */
  lemma RemovalKeepsOrder(a: seq<ChecklistItem>, b: seq<ChecklistItem>, id: Id)
    ensures ItemsWithout(a + b, id) == ItemsWithout(a, id) + ItemsWithout(b, id)
  {
    FilterConcat(a, b, (it: ChecklistItem) => it.id != id);
  }

  // ---------------------------------------------------------------------------
  // Normalisation of a submitted exigence
  // ---------------------------------------------------------------------------

  /**
   * The sample rule `handleExigenceSubmit` sends: `piecesPerSample` at least
   * 1; a truthy `minSamples` raised to at least 1, a falsy one dropped; a
   * truthy `maxSamples` raised to the raw `minSamples ?? 1`, a falsy one dropped.
   */
  function NormaliseRule(rule: SampleRule): (r: SampleRule)
    ensures r.piecesPerSample >= 1
    ensures rule.piecesPerSample >= 1 ==> r.piecesPerSample == rule.piecesPerSample
    ensures rule.piecesPerSample < 1 ==> r.piecesPerSample == 1
    ensures r.minSamples.None? <==> !Truthy(rule.minSamples)
    ensures r.minSamples.Some? ==> r.minSamples.value >= 1
    ensures r.minSamples.Some? && rule.minSamples.value >= 1 ==> r.minSamples.value == rule.minSamples.value
    ensures Truthy(rule.minSamples) && rule.minSamples.value < 1 ==> r.minSamples == Some(1)
    ensures r.maxSamples.None? <==> !Truthy(rule.maxSamples)
    ensures r.maxSamples.Some? ==>
              && r.maxSamples.value >= rule.minSamples.GetOr(1)
              && r.maxSamples.value >= rule.maxSamples.value
              && (r.maxSamples.value == rule.minSamples.GetOr(1) || r.maxSamples.value == rule.maxSamples.value)
  {
    SampleRule(
      Max(1, if rule.piecesPerSample != 0 then rule.piecesPerSample else 1),
      if Truthy(rule.minSamples) then Some(Max(1, rule.minSamples.value)) else None,
      if Truthy(rule.maxSamples) then Some(Max(rule.minSamples.GetOr(1), rule.maxSamples.value)) else None)
  }

  /** A checklist draft as submitted: caption trimmed, guidance trimmed and dropped when blank. */
  function NormaliseItem(item: ChecklistItem): (r: ChecklistItem)
    ensures r.id == item.id && r.itemType == item.itemType
    ensures r.caption == Trim(item.caption)
    ensures r.guidance.None? <==> item.guidance.None? || AllWhitespace(item.guidance.value)
    ensures r.guidance.Some? ==> r.guidance.value == Trim(item.guidance.value)
  {
    var guidance := if item.guidance.Some? && Trim(item.guidance.value) != [] then Some(Trim(item.guidance.value)) else None;
    ChecklistItem(item.id, Trim(item.caption), item.itemType, guidance)
  }

  /** The submitted checklist: the same items, in the same order, each normalised. */
  function NormaliseChecklist(items: seq<ChecklistItem>): (r: seq<ChecklistItem>)
    ensures |r| == |items|
    ensures forall i :: 0 <= i < |items| ==> r[i] == NormaliseItem(items[i])
  {
    if items == [] then [] else [NormaliseItem(items[0])] + NormaliseChecklist(items[1..])
  }

  /** The payload `handleExigenceSubmit` passes to the registry. */
  function ExigencePayloadOf(form: ExigenceForm): ExigencePayload {
    ExigencePayload(form.id, Trim(form.name), Trim(form.code), Some(Trim(form.description)),
                    NormaliseRule(form.sampleRule), NormaliseChecklist(form.checklist))
  }

  datatype ExigenceFormError = MissingNameOrCode | EmptyChecklist

  /**
   * The checks of `handleExigenceSubmit`: a blank name or code, then an
   * empty checklist, reject the form; otherwise the normalised payload goes
   * to the registry.
   */
  function CheckExigenceForm(form: ExigenceForm): (r: Result<ExigencePayload, ExigenceFormError>)
    ensures r == Failure(MissingNameOrCode) <==> AllWhitespace(form.name) || AllWhitespace(form.code)
    ensures r == Failure(EmptyChecklist) <==>
              !AllWhitespace(form.name) && !AllWhitespace(form.code) && form.checklist == []
    ensures r.Success? ==> r.value == ExigencePayloadOf(form)
    ensures r.Success? ==>
              && r.value.name != [] && r.value.code != []
              && |r.value.checklist| == |form.checklist| >= 1
              && r.value.sampleRule.piecesPerSample >= 1
  {
    if Trim(form.name) == [] || Trim(form.code) == [] then Failure(MissingNameOrCode)
    else if |form.checklist| == 0 then Failure(EmptyChecklist)
    else Success(ExigencePayloadOf(form))
  }

  /**
   * The limits the number inputs declare (`min={1}`): a form within them
   * holds no negative sample bound.
   */
  predicate WithinInputLimits(rule: SampleRule) {
    (rule.minSamples.None? || rule.minSamples.value >= 0) &&
    (rule.maxSamples.None? || rule.maxSamples.value >= 0)
  }

  /**
   * A rule saved through the form, from a minimum that is not negative, keeps
   * every count between its bounds: at least `minSamples ?? 1`, and at most a
   * truthy `maxSamples`.
   */
  lemma NormalisedRuleBoundsCount(raw: SampleRule, pieces: int)
    requires raw.minSamples.None? || raw.minSamples.value >= 0
    ensures var r := NormaliseRule(raw);
            Sampling.SampleCount(pieces, r) >= r.minSamples.GetOr(1)
    ensures var r := NormaliseRule(raw);
            Truthy(r.maxSamples) ==> Sampling.SampleCount(pieces, r) <= r.maxSamples.value
  {
    var r := NormaliseRule(raw);
    if Truthy(r.minSamples) {
      Sampling.SampleCountAtLeastMin(pieces, r);
    }
    if Truthy(r.maxSamples) {
      Sampling.SampleCountCapped(pieces, r);
    }
  }

  /** Normalising a normalised rule (from inputs within their limits) changes nothing. */
  lemma NormaliseRuleIdempotent(rule: SampleRule)
    requires WithinInputLimits(rule)
    ensures NormaliseRule(NormaliseRule(rule)) == NormaliseRule(rule)
  {
  }

  /** Normalising a normalised checklist changes nothing. */
  lemma NormaliseChecklistIdempotent(items: seq<ChecklistItem>)
    ensures NormaliseChecklist(NormaliseChecklist(items)) == NormaliseChecklist(items)
  {
    var once := NormaliseChecklist(items);
    forall i | 0 <= i < |items| ensures NormaliseItem(once[i]) == once[i] {
      TrimIdempotent(items[i].caption);
      if items[i].guidance.Some? {
        TrimIdempotent(items[i].guidance.value);
      }
    }
  }

  /** `handleEditExigence`: the form loaded with a stored exigence. */
  function EditFormOf(e: Exigence): ExigenceForm {
    ExigenceForm(Some(e.id), e.name, e.code, e.description.GetOr(""), e.sampleRule, e.checklist)
  }

  /**
   * Editing a saved exigence and submitting it unchanged sends the same
   * payload again, now addressed to the stored id: the form round-trips.
   */
  lemma ResubmitIsIdentity(form: ExigenceForm, id: Id)
    requires WithinInputLimits(form.sampleRule)
    requires CheckExigenceForm(form).Success?
    ensures var p := CheckExigenceForm(form).value;
            CheckExigenceForm(EditFormOf(ExigenceFrom(id, p))) == Success(p.(id := Some(id)))
  {
    var p := CheckExigenceForm(form).value;
    TrimIdempotent(form.name);
    TrimIdempotent(form.code);
    TrimIdempotent(form.description);
    NormaliseRuleIdempotent(form.sampleRule);
    NormaliseChecklistIdempotent(form.checklist);
  }

  // ---------------------------------------------------------------------------
  // Validation of a submitted order
  // ---------------------------------------------------------------------------

  /** The payload `handleOrderSubmit` passes to the registry. */
  function OrderPayloadOf(form: OrderForm): OrderPayload {
    OrderPayload(form.id, Trim(form.orderNumber), form.exigenceId, form.pieceCount, Some(Trim(form.notes)))
  }

  datatype OrderFormError = MissingOrderNumber | NoExigenceSelected | NonPositivePieceCount

  /** The checks of `handleOrderSubmit`, in the source's order. */
  function CheckOrderForm(form: OrderForm): (r: Result<OrderPayload, OrderFormError>)
    ensures r == Failure(MissingOrderNumber) <==> AllWhitespace(form.orderNumber)
    ensures r == Failure(NoExigenceSelected) <==> !AllWhitespace(form.orderNumber) && form.exigenceId == ""
    ensures r == Failure(NonPositivePieceCount) <==>
              !AllWhitespace(form.orderNumber) && form.exigenceId != "" && form.pieceCount <= 0
    ensures r.Success? ==> r.value == OrderPayloadOf(form)
    ensures r.Success? ==> r.value.orderNumber != [] && r.value.exigenceId != "" && r.value.pieceCount >= 1
  {
    if Trim(form.orderNumber) == [] then Failure(MissingOrderNumber)
    else if form.exigenceId == "" then Failure(NoExigenceSelected)
    else if form.pieceCount <= 0 then Failure(NonPositivePieceCount)
    else Success(OrderPayloadOf(form))
  }

  /** `handleEditOrder`: the form loaded with a stored order. */
  function OrderEditFormOf(o: OrderConfig): OrderForm {
    OrderForm(Some(o.id), o.orderNumber, o.pieceCount, o.exigenceId, o.notes.GetOr(""))
  }

  /** Editing a saved order and submitting it unchanged sends the same payload again, addressed to the stored id. */
  lemma ResubmitOrderIsIdentity(form: OrderForm, id: Id)
    requires CheckOrderForm(form).Success?
    ensures var p := CheckOrderForm(form).value;
            CheckOrderForm(OrderEditFormOf(OrderFrom(id, p))) == Success(p.(id := Some(id)))
  {
    TrimIdempotent(form.orderNumber);
    TrimIdempotent(form.notes);
  }

  // ---------------------------------------------------------------------------
  // The page
  // ---------------------------------------------------------------------------

  /** The manager page's two forms, over the shared registry. */
  class ManagerPage {
    const data: DataStore
    var exigenceForm: ExigenceForm
    var orderForm: OrderForm

    constructor (data: DataStore, itemId: Id)
      ensures this.data == data
      ensures exigenceForm == EmptyExigenceForm(itemId) && orderForm == EmptyOrderForm
    {
      this.data := data;
      exigenceForm := EmptyExigenceForm(itemId);
      orderForm := EmptyOrderForm;
    }

    method AddChecklistItem(freshId: Id)
      modifies this
      ensures exigenceForm == old(exigenceForm).(checklist := WithNewItem(old(exigenceForm).checklist, freshId))
      ensures orderForm == old(orderForm)
    {
      exigenceForm := exigenceForm.(checklist := WithNewItem(exigenceForm.checklist, freshId));
    }

    method ChangeChecklistItem(id: Id, edit: DraftEdit)
      modifies this
      ensures exigenceForm == old(exigenceForm).(checklist := ItemsEdited(old(exigenceForm).checklist, id, edit))
      ensures orderForm == old(orderForm)
    {
      exigenceForm := exigenceForm.(checklist := ItemsEdited(exigenceForm.checklist, id, edit));
    }

    method RemoveChecklistItem(id: Id)
      modifies this
      ensures exigenceForm == old(exigenceForm).(checklist := ItemsWithout(old(exigenceForm).checklist, id))
      ensures orderForm == old(orderForm)
    {
      exigenceForm := exigenceForm.(checklist := ItemsWithout(exigenceForm.checklist, id));
    }

    method ResetExigenceForm(freshItemId: Id)
      modifies this
      ensures exigenceForm == EmptyExigenceForm(freshItemId) && orderForm == old(orderForm)
    {
      exigenceForm := EmptyExigenceForm(freshItemId);
    }

    method ResetOrderForm()
      modifies this
      ensures orderForm == EmptyOrderForm && exigenceForm == old(exigenceForm)
    {
      orderForm := EmptyOrderForm;
    }

    /**
     * `handleExigenceSubmit`: a rejected form touches nothing; an accepted one
     * is upserted in normalised form and the form goes back to the template.
     */
    method SubmitExigence(freshExigenceId: Id, freshItemId: Id) returns (r: Result<ExigencePayload, ExigenceFormError>)
      modifies this, data
      ensures r == CheckExigenceForm(old(exigenceForm))
      ensures r.Failure? ==> unchanged(this) && unchanged(data)
      ensures r.Success? ==>
                && data.exigences == UpsertedExigences(old(data.exigences), r.value, freshExigenceId)
                && data.orders == old(data.orders) && data.operations == old(data.operations)
                && exigenceForm == EmptyExigenceForm(freshItemId) && orderForm == old(orderForm)
    {
      r := CheckExigenceForm(exigenceForm);
      if r.Success? {
        data.UpsertExigence(r.value, freshExigenceId);
        ResetExigenceForm(freshItemId);
      }
    }

    /**
     * `handleOrderSubmit`: a rejected form touches nothing; an accepted one
     * is upserted with its number and notes trimmed and the form is cleared.
     */
    method SubmitOrder(freshOrderId: Id) returns (r: Result<OrderPayload, OrderFormError>)
      modifies this, data
      ensures r == CheckOrderForm(old(orderForm))
      ensures r.Failure? ==> unchanged(this) && unchanged(data)
      ensures r.Success? ==>
                && data.orders == UpsertedOrders(old(data.orders), r.value, freshOrderId)
                && data.exigences == old(data.exigences) && data.operations == old(data.operations)
                && orderForm == EmptyOrderForm && exigenceForm == old(exigenceForm)
    {
      r := CheckOrderForm(orderForm);
      if r.Success? {
        data.UpsertOrder(r.value, freshOrderId);
        ResetOrderForm();
      }
    }

    method EditExigence(e: Exigence)
      modifies this
      ensures exigenceForm == EditFormOf(e) && orderForm == old(orderForm)
    {
      exigenceForm := EditFormOf(e);
    }

    method EditOrder(o: OrderConfig)
      modifies this
      ensures orderForm == OrderEditFormOf(o) && exigenceForm == old(exigenceForm)
    {
      orderForm := OrderEditFormOf(o);
    }

    /**
     * `handleDeleteExigence`, after the operator's answer to the confirmation:
     * the exigence and its orders go, and a form editing it is reset.
     */
    method DeleteExigence(id: Id, confirmed: bool, freshItemId: Id)
      modifies this, data
      ensures !confirmed ==> unchanged(this) && unchanged(data)
      ensures confirmed ==>
                && data.exigences == WithoutExigence(old(data.exigences), id)
                && data.orders == WithoutOrdersOf(old(data.orders), id)
                && data.operations == old(data.operations)
                && exigenceForm == (if old(exigenceForm).id == Some(id) then EmptyExigenceForm(freshItemId) else old(exigenceForm))
                && orderForm == old(orderForm)
    {
      if !confirmed {
        return;
      }
      data.DeleteExigence(id);
      if exigenceForm.id == Some(id) {
        ResetExigenceForm(freshItemId);
      }
    }

    /** `handleDeleteOrder`, after the confirmation: the order goes, and a form editing it is cleared. */
    method DeleteOrder(id: Id, confirmed: bool)
      modifies this, data
      ensures !confirmed ==> unchanged(this) && unchanged(data)
      ensures confirmed ==>
                && data.orders == WithoutOrder(old(data.orders), id)
                && data.exigences == old(data.exigences) && data.operations == old(data.operations)
                && orderForm == (if old(orderForm).id == Some(id) then EmptyOrderForm else old(orderForm))
                && exigenceForm == old(exigenceForm)
    {
      if !confirmed {
        return;
      }
      data.DeleteOrder(id);
      if orderForm.id == Some(id) {
        ResetOrderForm();
      }
    }
  }
}
