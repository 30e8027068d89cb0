/**
 * The configuration registry and the operation log (webapp/context/DataContext.tsx):
 * exigences and orders, upserted by optional id and deleted by id (deleting
 * an exigence cascades to its orders), and a newest-first log of completed
 * control sessions.
 */
module Registry {
  import opened Wrappers
  import opened Types
  import opened SeqOps
  import Sampling

  /** An exigence without its id, plus the optional id of the record to update. */
  datatype ExigencePayload = ExigencePayload(
    id: Option<Id>,
    name: string,
    code: string,
    description: Option<string>,
    sampleRule: SampleRule,
    checklist: seq<ChecklistItem>)

  /** An order without its id, plus the optional id of the record to update. */
  datatype OrderPayload = OrderPayload(
    id: Option<Id>,
    orderNumber: string,
    exigenceId: Id,
    pieceCount: int,
    notes: Option<string>)

  /** The stored exigence with identity `id` and every other field taken from `p`. */
  function ExigenceFrom(id: Id, p: ExigencePayload): Exigence {
    Exigence(id, p.name, p.code, p.description, p.sampleRule, p.checklist)
  }

  /** The stored order with identity `id` and every other field taken from `p`. */
  function OrderFrom(id: Id, p: OrderPayload): OrderConfig {
    OrderConfig(id, p.orderNumber, p.exigenceId, p.pieceCount, p.notes)
  }

  function ExigenceIds(exigences: seq<Exigence>): set<Id> {
    set e | e in exigences :: e.id
  }

  /** Referential integrity: every order names an exigence that exists. */
  ghost predicate ReferencesResolve(exigences: seq<Exigence>, orders: seq<OrderConfig>) {
    forall o :: o in orders ==> o.exigenceId in ExigenceIds(exigences)
  }

  // ---------------------------------------------------------------------------
  // The new value of each collection, as a function of the previous one
  // ---------------------------------------------------------------------------

  /**
   * `upsertExigence`: with a (truthy) id, every exigence carrying that id is
   * replaced by the payload and keeps its id; without one, a new exigence
   * with the fresh id is appended.
   */
  function UpsertedExigences(prev: seq<Exigence>, p: ExigencePayload, freshId: Id): (r: seq<Exigence>)
    ensures !TruthyText(p.id) ==>
              |r| == |prev| + 1 && r[..|prev|] == prev && r[|prev|] == ExigenceFrom(freshId, p)
    ensures TruthyText(p.id) ==> |r| == |prev|
    ensures TruthyText(p.id) ==> forall i :: 0 <= i < |prev| ==>
              r[i] == if prev[i].id == p.id.value then ExigenceFrom(prev[i].id, p) else prev[i]
  {
    if TruthyText(p.id) then
      ReplaceWhere(prev, (e: Exigence) => e.id == p.id.value, (e: Exigence) => ExigenceFrom(e.id, p))
    else
      prev + [ExigenceFrom(freshId, p)]
  }

  /** `upsertOrder`: the same append-or-merge-by-id rule as `UpsertedExigences`. */
  function UpsertedOrders(prev: seq<OrderConfig>, p: OrderPayload, freshId: Id): (r: seq<OrderConfig>)
    ensures !TruthyText(p.id) ==>
              |r| == |prev| + 1 && r[..|prev|] == prev && r[|prev|] == OrderFrom(freshId, p)
    ensures TruthyText(p.id) ==> |r| == |prev|
    ensures TruthyText(p.id) ==> forall i :: 0 <= i < |prev| ==>
              r[i] == if prev[i].id == p.id.value then OrderFrom(prev[i].id, p) else prev[i]
  {
    if TruthyText(p.id) then
      ReplaceWhere(prev, (o: OrderConfig) => o.id == p.id.value, (o: OrderConfig) => OrderFrom(o.id, p))
    else
      prev + [OrderFrom(freshId, p)]
  }

  /** The exigences left by `deleteExigence(id)`. */
  function WithoutExigence(prev: seq<Exigence>, id: Id): (r: seq<Exigence>)
    ensures forall e :: e in r <==> e in prev && e.id != id
    ensures forall e :: e in prev && e.id != id ==> multiset(r)[e] == multiset(prev)[e]
  {
    Filter(prev, (e: Exigence) => e.id != id)
  }

  /** The orders left by `deleteExigence(id)`: those that do not reference it. */
  function WithoutOrdersOf(prev: seq<OrderConfig>, exigenceId: Id): (r: seq<OrderConfig>)
    ensures forall o :: o in r <==> o in prev && o.exigenceId != exigenceId
    ensures forall o :: o in prev && o.exigenceId != exigenceId ==> multiset(r)[o] == multiset(prev)[o]
  {
    Filter(prev, (o: OrderConfig) => o.exigenceId != exigenceId)
  }

  /** The orders left by `deleteOrder(id)`. */
  function WithoutOrder(prev: seq<OrderConfig>, id: Id): (r: seq<OrderConfig>)
    ensures forall o :: o in r <==> o in prev && o.id != id
    ensures forall o :: o in prev && o.id != id ==> multiset(r)[o] == multiset(prev)[o]
  {
    Filter(prev, (o: OrderConfig) => o.id != id)
  }

  // ---------------------------------------------------------------------------
  // Properties of the registry operations
  // ---------------------------------------------------------------------------

  /** An update whose id matches no exigence leaves the list as it was. */
  lemma UpsertExigenceUnknownId(prev: seq<Exigence>, p: ExigencePayload, freshId: Id)
    requires TruthyText(p.id)
    requires forall i :: 0 <= i < |prev| ==> prev[i].id != p.id.value
    ensures UpsertedExigences(prev, p, freshId) == prev
  {
    ReplaceWhereNoMatch(prev, (e: Exigence) => e.id == p.id.value, (e: Exigence) => ExigenceFrom(e.id, p));
  }

  /** An update whose id matches no order leaves the list as it was. */
  lemma UpsertOrderUnknownId(prev: seq<OrderConfig>, p: OrderPayload, freshId: Id)
    requires TruthyText(p.id)
    requires forall i :: 0 <= i < |prev| ==> prev[i].id != p.id.value
    ensures UpsertedOrders(prev, p, freshId) == prev
  {
    ReplaceWhereNoMatch(prev, (o: OrderConfig) => o.id == p.id.value, (o: OrderConfig) => OrderFrom(o.id, p));
  }

  /** Upserting an exigence never loses an id: an update keeps the id set, an insert adds the fresh id. */
  lemma UpsertExigenceIds(prev: seq<Exigence>, p: ExigencePayload, freshId: Id)
    ensures ExigenceIds(UpsertedExigences(prev, p, freshId))
            == ExigenceIds(prev) + (if TruthyText(p.id) then {} else {freshId})
  {
    var r := UpsertedExigences(prev, p, freshId);
    if TruthyText(p.id) {
      forall x | x in ExigenceIds(prev) ensures x in ExigenceIds(r) {
        var i :| 0 <= i < |prev| && prev[i].id == x;
        assert r[i].id == x;
      }
      forall x | x in ExigenceIds(r) ensures x in ExigenceIds(prev) {
        var i :| 0 <= i < |r| && r[i].id == x;
        assert prev[i].id == x;
      }
    } else {
      assert r == prev + [r[|prev|]];
      assert r[|prev|].id == freshId;
    }
  }

  /** Upserting an exigence keeps every order's reference resolvable. */
  lemma UpsertExigenceKeepsReferences(exigences: seq<Exigence>, orders: seq<OrderConfig>, p: ExigencePayload, freshId: Id)
    ensures ReferencesResolve(exigences, orders) ==> ReferencesResolve(UpsertedExigences(exigences, p, freshId), orders)
  {
    UpsertExigenceIds(exigences, p, freshId);
  }

  /**
   * `deleteExigence(id)` cascades: afterwards no exigence has the id, no
   * order references it, and every order that was resolvable still is.
   */
  lemma DeleteExigenceCascade(exigences: seq<Exigence>, orders: seq<OrderConfig>, id: Id)
    ensures forall e :: e in WithoutExigence(exigences, id) ==> e.id != id
    ensures forall o :: o in WithoutOrdersOf(orders, id) ==> o.exigenceId != id
    ensures ReferencesResolve(exigences, orders) ==>
              ReferencesResolve(WithoutExigence(exigences, id), WithoutOrdersOf(orders, id))
  {
    var es, os := WithoutExigence(exigences, id), WithoutOrdersOf(orders, id);
    if ReferencesResolve(exigences, orders) {
      forall o | o in os ensures o.exigenceId in ExigenceIds(es) {
        assert o.exigenceId in ExigenceIds(exigences);
        var e :| e in exigences && e.id == o.exigenceId;
        assert e in es;
      }
    }
  }

  /** Deleting orders keeps the remaining ones resolvable. */
  lemma DeleteOrderKeepsReferences(exigences: seq<Exigence>, orders: seq<OrderConfig>, id: Id)
    requires ReferencesResolve(exigences, orders)
    ensures ReferencesResolve(exigences, WithoutOrder(orders, id))
  {
  }

  /** Upserting an order keeps references resolvable exactly when its payload names an existing exigence. */
  lemma UpsertOrderKeepsReferences(exigences: seq<Exigence>, orders: seq<OrderConfig>, p: OrderPayload, freshId: Id)
    requires ReferencesResolve(exigences, orders)
    requires p.exigenceId in ExigenceIds(exigences)
    ensures ReferencesResolve(exigences, UpsertedOrders(orders, p, freshId))
  {
    var r := UpsertedOrders(orders, p, freshId);
    forall o | o in r ensures o.exigenceId in ExigenceIds(exigences) {
      var i :| 0 <= i < |r| && r[i] == o;
      if i < |orders| {
        assert orders[i] in orders;
      }
    }
  }

  /** Deletions keep the survivors in their original relative order. */
  lemma DeletionKeepsOrder(a: seq<Exigence>, b: seq<Exigence>, id: Id)
    ensures WithoutExigence(a + b, id) == WithoutExigence(a, id) + WithoutExigence(b, id)
  {
    FilterConcat(a, b, (e: Exigence) => e.id != id);
  }

  /** The cascade keeps the surviving orders in their original relative order. */
  lemma CascadeKeepsOrder(a: seq<OrderConfig>, b: seq<OrderConfig>, exigenceId: Id)
    ensures WithoutOrdersOf(a + b, exigenceId) == WithoutOrdersOf(a, exigenceId) + WithoutOrdersOf(b, exigenceId)
  {
    FilterConcat(a, b, (o: OrderConfig) => o.exigenceId != exigenceId);
  }

  /** Deleting an order keeps the other orders in their original relative order. */
  lemma OrderDeletionKeepsOrder(a: seq<OrderConfig>, b: seq<OrderConfig>, id: Id)
    ensures WithoutOrder(a + b, id) == WithoutOrder(a, id) + WithoutOrder(b, id)
  {
    FilterConcat(a, b, (o: OrderConfig) => o.id != id);
  }

  /** Deleting an id no exigence carries changes nothing. */
  lemma DeleteUnknownExigence(exigences: seq<Exigence>, orders: seq<OrderConfig>, id: Id)
    requires forall i :: 0 <= i < |exigences| ==> exigences[i].id != id
    requires forall i :: 0 <= i < |orders| ==> orders[i].exigenceId != id
    ensures WithoutExigence(exigences, id) == exigences
    ensures WithoutOrdersOf(orders, id) == orders
  {
    FilterKeepsAll(exigences, (e: Exigence) => e.id != id);
    FilterKeepsAll(orders, (o: OrderConfig) => o.exigenceId != id);
  }

  // ---------------------------------------------------------------------------
  // Seed data, used when the store holds nothing yet
  // ---------------------------------------------------------------------------

  const DefaultSampleRule := SampleRule(30, Some(1), Some(10))

  /** `DEFAULT_EXIGENCES`, with the generated ids passed in. */
  function DefaultExigences(exigenceId: Id, visualId: Id, dimensionsId: Id, remarkId: Id): seq<Exigence> {
    [Exigence(
      exigenceId,
      "Control Qualité Standard",
      "STD-CTRL",
      Some("Checklist générique pour les ordres standards."),
      DefaultSampleRule,
      [ ChecklistItem(visualId, "État visuel conforme", PassFail, None),
        ChecklistItem(dimensionsId, "Dimensions vérifiées", PassFail, None),
        ChecklistItem(remarkId, "Observation / Remarque", Text, None) ])]
  }

  /** `DEFAULT_ORDERS`: one order of 120 pieces referencing the seed exigence. */
  function DefaultOrders(orderId: Id, exigenceId: Id): seq<OrderConfig> {
    [OrderConfig(orderId, "CMD-1001", exigenceId, 120, Some("Commande test pour démonstration."))]
  }

  /** The seed is consistent: its order references its exigence, whose checklist has two pass/fail items and one text item, and the order needs 4 samples. */
  lemma SeedIsConsistent(exigenceId: Id, visualId: Id, dimensionsId: Id, remarkId: Id, orderId: Id)
    ensures ReferencesResolve(DefaultExigences(exigenceId, visualId, dimensionsId, remarkId), DefaultOrders(orderId, exigenceId))
    ensures var e := DefaultExigences(exigenceId, visualId, dimensionsId, remarkId)[0];
            |e.checklist| == 3 && e.checklist[0].itemType == PassFail
            && e.checklist[1].itemType == PassFail && e.checklist[2].itemType == Text
    ensures Sampling.SampleCount(DefaultOrders(orderId, exigenceId)[0].pieceCount, DefaultSampleRule) == 4
  {
    var es := DefaultExigences(exigenceId, visualId, dimensionsId, remarkId);
    assert es[0] in es;
  }

  // ---------------------------------------------------------------------------
  // The store
  // ---------------------------------------------------------------------------

  /** The three persisted collections and the operations that replace them. */
  class DataStore {
    var exigences: seq<Exigence>
    var orders: seq<OrderConfig>
    /** Completed sessions, newest first. */
    var operations: seq<OperationRecord>

    /** Each collection starts from its stored value, or from the seed when nothing is stored. */
    constructor (storedExigences: Option<seq<Exigence>>, storedOrders: Option<seq<OrderConfig>>,
                 storedOperations: Option<seq<OperationRecord>>,
                 exigenceId: Id, visualId: Id, dimensionsId: Id, remarkId: Id, orderId: Id)
      ensures exigences == storedExigences.GetOr(DefaultExigences(exigenceId, visualId, dimensionsId, remarkId))
      ensures orders == storedOrders.GetOr(DefaultOrders(orderId, exigenceId))
      ensures operations == storedOperations.GetOr([])
    {
      exigences := storedExigences.GetOr(DefaultExigences(exigenceId, visualId, dimensionsId, remarkId));
      orders := storedOrders.GetOr(DefaultOrders(orderId, exigenceId));
      operations := storedOperations.GetOr([]);
    }

    method UpsertExigence(payload: ExigencePayload, freshId: Id)
      modifies this
      ensures exigences == UpsertedExigences(old(exigences), payload, freshId)
      ensures orders == old(orders) && operations == old(operations)
      ensures old(ReferencesResolve(exigences, orders)) ==> ReferencesResolve(exigences, orders)
    {
      UpsertExigenceKeepsReferences(exigences, orders, payload, freshId);
      exigences := UpsertedExigences(exigences, payload, freshId);
    }

    /** Both collections change in one step, so no dangling order is ever observable. */
    method DeleteExigence(id: Id)
      modifies this
      ensures exigences == WithoutExigence(old(exigences), id)
      ensures orders == WithoutOrdersOf(old(orders), id)
      ensures operations == old(operations)
      ensures old(ReferencesResolve(exigences, orders)) ==> ReferencesResolve(exigences, orders)
    {
      DeleteExigenceCascade(exigences, orders, id);
      exigences, orders := WithoutExigence(exigences, id), WithoutOrdersOf(orders, id);
    }

    method UpsertOrder(payload: OrderPayload, freshId: Id)
      modifies this
      ensures orders == UpsertedOrders(old(orders), payload, freshId)
      ensures exigences == old(exigences) && operations == old(operations)
      ensures old(ReferencesResolve(exigences, orders)) && payload.exigenceId in ExigenceIds(exigences)
              ==> ReferencesResolve(exigences, orders)
    {
      if ReferencesResolve(exigences, orders) && payload.exigenceId in ExigenceIds(exigences) {
        UpsertOrderKeepsReferences(exigences, orders, payload, freshId);
      }
      orders := UpsertedOrders(orders, payload, freshId);
    }

    method DeleteOrder(id: Id)
      modifies this
      ensures orders == WithoutOrder(old(orders), id)
      ensures exigences == old(exigences) && operations == old(operations)
      ensures old(ReferencesResolve(exigences, orders)) ==> ReferencesResolve(exigences, orders)
    {
      orders := WithoutOrder(orders, id);
    }

    /** The new record goes in front: index 0 is always the most recent session. */
    method LogOperation(record: OperationRecord)
      modifies this
      ensures operations == [record] + old(operations)
      ensures |operations| == |old(operations)| + 1 && operations[0] == record
      ensures exigences == old(exigences) && orders == old(orders)
    {
      operations := [record] + operations;
    }

    method ClearOperations()
      modifies this
      ensures operations == []
      ensures exigences == old(exigences) && orders == old(orders)
    {
      operations := [];
    }
  }
}
