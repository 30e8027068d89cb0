/**
 * The records of the quality-control workflow (webapp/types/index.ts) and
 * the JavaScript value conventions the code relies on.
 */
module Types {
  import opened Wrappers

  /** Identifiers are opaque strings handed out by an external generator. */
  type Id = string

  /** ISO-8601 instants, supplied by the caller. */
  type Timestamp = string

  /** `"passFail" | "text"`. */
  datatype ItemType = PassFail | Text

  /** One control of a checklist (`caption` is the source's `label`, a reserved word in Dafny). */
  datatype ChecklistItem = ChecklistItem(id: Id, caption: string, itemType: ItemType, guidance: Option<string>)

  /** How many samples an order needs: one per `piecesPerSample` pieces, optionally clamped. */
  datatype SampleRule = SampleRule(piecesPerSample: int, minSamples: Option<int>, maxSamples: Option<int>)

  /** A quality requirement: a sampling rule and an ordered checklist. */
  datatype Exigence = Exigence(
    id: Id,
    name: string,
    code: string,
    description: Option<string>,
    sampleRule: SampleRule,
    checklist: seq<ChecklistItem>)

  /** A production order, looked up by `orderNumber` and tied to one exigence. */
  datatype OrderConfig = OrderConfig(
    id: Id,
    orderNumber: string,
    exigenceId: Id,
    pieceCount: int,
    notes: Option<string>)

  /** `boolean | string`: the answer to a pass/fail or a free-text control. */
  datatype ResponseValue = BoolValue(b: bool) | StringValue(s: string)

  datatype ChecklistResponse = ChecklistResponse(itemId: Id, value: ResponseValue)

  /** One inspected sample with the answers to every control. */
  datatype SampleScan = SampleScan(id: Id, sampleLabel: string, responses: seq<ChecklistResponse>)

  /** The archived result of one completed control session. */
  datatype OperationRecord = OperationRecord(
    id: Id,
    orderId: Id,
    exigenceId: Id,
    orderNumber: string,
    pieceCount: int,
    requiredSamples: int,
    samples: seq<SampleScan>,
    startedAt: Timestamp,
    completedAt: Timestamp)

  /** JavaScript truthiness of an optional number: `undefined` and `0` are falsy. */
  predicate Truthy(o: Option<int>) {
    o.Some? && o.value != 0
  }

  /** JavaScript truthiness of an optional string: `undefined` and `""` are falsy. */
  predicate TruthyText(o: Option<string>) {
    o.Some? && o.value != ""
  }

  function Max(a: int, b: int): int {
    if a >= b then a else b
  }

  function Min(a: int, b: int): int {
    if a <= b then a else b
  }
}
