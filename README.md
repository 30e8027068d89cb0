# Quality-control checklist: a Dafny model

The application is a small quality-control web app. A manager configures
*exigences*: a named control standard with a sampling rule and a checklist of
pass/fail and free-text items. The manager also configures production *orders*,
each of which references an exigence. On the shop floor, an operator scans an
order number. The app then computes how many samples the order needs, and the
operator answers the checklist once per sample. When the quota is reached, one
*operation record* is archived at the front of a newest-first log.

The model covers three parts:

- the sampling rule;
- the operator's session state machine;
- the configuration registry with its operation log, and the manager's form
  validation and normalisation.

Modules, one per file:

- `Wrappers` (`wrappers.dfy`): `Option` and `Result`.
- `Text` (`text.dfy`): ECMAScript `trim` over the full WhiteSpace/LineTerminator
  set, and ASCII `toLowerCase`.
- `SeqOps` (`seq_ops.dfy`): `filter` and update-by-predicate `map`.
- `Types` (`types.dfy`): the records of `webapp/types/index.ts`, plus
  JavaScript truthiness of optional numbers and strings.
- `Sampling` (`sampling.dfy`): `computeSampleCount`.
- `Registry` (`registry.dfy`): `DataContext`. It holds pure functions giving each
  collection's new value, and the class `DataStore`, whose three fields are
  replaced by its methods.
- `Operator` (`operator.dfy`): the operator page. It holds the pure parts and the
  class `OperatorWorkflow`, with the invariant `Valid()`.
- `Manager` (`manager.dfy`): the manager page. It holds the pure normalisation
  and validation, and the class `ManagerPage`.

Modelling conventions:

- Ids and timestamps are strings, so the source's truthiness tests on ids are
  modelled: `""` is falsy.
- Fresh ids (`createId`) and clock readings (`new Date()`) are method
  parameters.
- `minSamples` and `maxSamples` are `Option<int>`. A test such as
  `if (rule.minSamples)` is `Truthy`: `Some(v)` with `v != 0`. The operator `??`
  is `GetOr`, so `Some(0)` stays `0`.
- Alerts and feedback messages become outcome values (`ScanOutcome`,
  `SaveOutcome`, `ExigenceFormError`, `OrderFormError`).
- `window.confirm` becomes a `confirmed: bool` parameter.

## Model

| member | source | states |
|---|---|---|
| Text.Trim | webapp/app/page.tsx:87-88 | the trimmed string is a slice of the input with only whitespace cut from each end; it is empty exactly when the input is all whitespace, and otherwise starts and ends with a non-whitespace character |
| Text.TrimIdempotent | webapp/app/manager/page.tsx:147-149 | trimming an already trimmed value changes nothing |
| Text.TrimOfTrimmed | webapp/app/page.tsx:87 | a string with non-whitespace ends is its own trim |
| Text.LeadingSpace | webapp/app/page.tsx:87 | the cut prefix is all whitespace and is maximal |
| Text.TrailingSpace | webapp/app/page.tsx:87 | the cut suffix is all whitespace and is maximal |
| Text.LowerChar | webapp/app/page.tsx:95 | ASCII capitals move to lower case, every other character is kept, and no capital is left |
| Text.ToLower | webapp/app/page.tsx:95 | same length, lower-cased character by character |
| Text.ToLowerIdempotent | webapp/app/page.tsx:95 | lower-casing twice equals lower-casing once |
| Text.ToLowerIgnoresCase | webapp/app/page.tsx:93-96 | two strings that differ only in the case of letters compare equal after lower-casing |
| SeqOps.Filter | webapp/context/DataContext.tsx:109-110 | the result keeps exactly the elements satisfying the predicate, each as often as in the input |
| SeqOps.FilterConcat | webapp/context/DataContext.tsx:109-110 | filtering distributes over concatenation, so kept elements stay in their relative order |
| SeqOps.FilterKeepsAll | webapp/context/DataContext.tsx:125 | a filter that rejects nothing returns its input |
| SeqOps.ReplaceWhere | webapp/context/DataContext.tsx:101-103 | same length; matching elements are updated, the others kept at their positions |
| SeqOps.ReplaceWhereNoMatch | webapp/context/DataContext.tsx:101-103 | when nothing matches, the list is unchanged |
| Sampling.CeilDiv | webapp/app/page.tsx:39 | for a positive divisor, the result is the least `q` with `q * b >= a` |
| Sampling.SampleCount | webapp/app/page.tsx:34-49 | the count is always at least 1 |
| Sampling.SampleCountFallback | webapp/app/page.tsx:35-37 | without a positive `piecesPerSample` the count is `max(minSamples ?? 1, 1)`, independent of the piece count and of `maxSamples` |
| Sampling.SampleCountCapped | webapp/app/page.tsx:44-48 | with a positive `piecesPerSample`, a truthy `maxSamples` caps the count at `max(maxSamples, 1)` |
| Sampling.SampleCountAtLeastMin | webapp/app/page.tsx:40-46 | a truthy `minSamples` is a floor unless a smaller cap is set |
| Sampling.SampleCountCoversOrder | webapp/app/page.tsx:39-48 | without a cap, `count * piecesPerSample >= pieces` |
| Sampling.SampleCountLeastCover | webapp/app/page.tsx:39-48 | without `minSamples` and `maxSamples`, the count is the least positive number of samples covering every piece |
| Sampling.SampleCountClamped | webapp/app/page.tsx:39-48 | with a positive `piecesPerSample` and bounds 1 <= min <= max, the count lies in [min, max], covers every piece when below the cap, and one sample fewer would not cover when above the floor: the least cover clamped into the bounds |
| Sampling.SampleCountRaised | webapp/app/page.tsx:39-48 | with a positive `piecesPerSample` and only `minSamples >= 1`, the count covers every piece, is at least the floor, and above the floor one sample fewer would not cover |
| Sampling.SampleCountCut | webapp/app/page.tsx:39-48 | with a positive `piecesPerSample` and only `maxSamples >= 1`, the count lies in [1, max], covers every piece when below the cap, and above 1 one sample fewer would not cover |
| Sampling.SampleCountMonotone | webapp/app/page.tsx:34-49 | more pieces never need fewer samples |
| Sampling.SampleCountExamples | webapp/app/page.tsx:34-49 | worked values: 90 and 91 pieces per 30 give 3 and 4; 90 pieces per 30 with a floor of 2 give 3; the min floor, the max cap, the fallback; 120 pieces under {30, 1, 10} give 4 |
| Registry.UpsertedExigences | webapp/context/DataContext.tsx:98-107 | without a truthy id, exactly one exigence with the fresh id and the payload's fields is appended after the unchanged old list; with one, the length is kept, and every exigence with that id takes the payload's fields and keeps its id while the others are untouched |
| Registry.UpsertedOrders | webapp/context/DataContext.tsx:114-123 | the same append-or-merge rule for orders |
| Registry.WithoutExigence | webapp/context/DataContext.tsx:109 | exactly the exigences with other ids remain, each with its multiplicity |
| Registry.WithoutOrdersOf | webapp/context/DataContext.tsx:110 | exactly the orders referencing other exigences remain, each with its multiplicity |
| Registry.WithoutOrder | webapp/context/DataContext.tsx:124-126 | exactly the orders with other ids remain, each with its multiplicity |
| Registry.UpsertExigenceUnknownId | webapp/context/DataContext.tsx:100-103 | an update whose id matches no exigence leaves the list unchanged |
| Registry.UpsertOrderUnknownId | webapp/context/DataContext.tsx:116-119 | an update whose id matches no order leaves the list unchanged |
| Registry.UpsertExigenceIds | webapp/context/DataContext.tsx:98-107 | an update keeps the set of exigence ids; an insert adds exactly the fresh id |
| Registry.UpsertExigenceKeepsReferences | webapp/context/DataContext.tsx:98-107 | upserting an exigence never leaves an order pointing to a missing exigence |
| Registry.DeleteExigenceCascade | webapp/context/DataContext.tsx:108-111 | after the delete no exigence has the id and no order references it, and referential integrity is preserved |
| Registry.DeleteOrderKeepsReferences | webapp/context/DataContext.tsx:124-126 | removing orders keeps referential integrity |
| Registry.UpsertOrderKeepsReferences | webapp/context/DataContext.tsx:114-123 | an order upsert naming an existing exigence keeps referential integrity |
| Registry.DeletionKeepsOrder | webapp/context/DataContext.tsx:109 | the surviving exigences keep their original order |
| Registry.CascadeKeepsOrder | webapp/context/DataContext.tsx:110 | the orders surviving the cascade keep their original relative order |
| Registry.OrderDeletionKeepsOrder | webapp/context/DataContext.tsx:124-126 | the orders surviving a delete keep their original relative order |
| Registry.DeleteUnknownExigence | webapp/context/DataContext.tsx:108-111 | deleting an id nobody uses changes neither list |
| Registry.SeedIsConsistent | webapp/context/DataContext.tsx:38-79 | the seed order references the seed exigence; its checklist is pass/fail, pass/fail, text; the seed order needs 4 samples |
| Registry.DataStore.constructor | webapp/context/DataContext.tsx:81-93 | each collection is its stored value, or the seed when nothing is stored (an empty log for operations) |
| Registry.DataStore.UpsertExigence | webapp/context/DataContext.tsx:98-107 | the exigences become the upserted list; orders and operations are unchanged; integrity is preserved |
| Registry.DataStore.DeleteExigence | webapp/context/DataContext.tsx:108-111 | exigences and dependent orders are removed together; operations are unchanged; integrity is preserved |
| Registry.DataStore.UpsertOrder | webapp/context/DataContext.tsx:114-123 | the orders become the upserted list; exigences and operations are unchanged |
| Registry.DataStore.DeleteOrder | webapp/context/DataContext.tsx:124-126 | the order is removed; exigences and operations are unchanged; integrity is preserved |
| Registry.DataStore.LogOperation | webapp/context/DataContext.tsx:129-131 | the record is prepended: the log grows by one and index 0 is the new record |
| Registry.DataStore.ClearOperations | webapp/context/DataContext.tsx:132-134 | the log becomes empty; the other collections are unchanged |
| Operator.BuildChecklistResponses | webapp/app/page.tsx:51-63 | one response per item, in order, with the item's id; the recorded answer, or `false` for an unanswered pass/fail item and `""` for an unanswered text item |
| Operator.ReadyResponsesFollowChecklist | webapp/app/page.tsx:137-142 | once the gate is open, every pass/fail response is the operator's own boolean and never the default |
| Operator.ChecklistReadyIgnoresText | webapp/app/page.tsx:137-142 | the gate is closed without a session, and answers to text items never move it |
| Operator.AnsweringAllOpensGate | webapp/app/page.tsx:137-142 | a boolean answer for every pass/fail item opens the gate, whatever the text items hold |
| Operator.RemainingSamples | webapp/app/page.tsx:144-148 | never negative; 0 without a session; otherwise the quota minus the samples saved, floored at 0 |
| Operator.FindOrderIndex | webapp/app/page.tsx:93-96 | the first order whose number matches without regard to case, or none when no order matches |
| Operator.FindExigenceIndex | webapp/app/page.tsx:105-107 | the first exigence with the id, or none when the id is absent |
| Operator.ResolveScan | webapp/app/page.tsx:85-114 | an all-whitespace scan is rejected; otherwise a scan matching no order is reported; the first matching order without an existing exigence is reported; otherwise the first matching order and the first exigence carrying its exigence id start the session |
| Operator.FindOrderIgnoresCase | webapp/app/page.tsx:93-96 | the lookup depends only on the lower-cased scan |
| Operator.ScanIgnoresCase | webapp/app/page.tsx:85-131 | two scans that trim to the same number up to case open the same session |
| Operator.OperatorWorkflow.constructor | webapp/app/page.tsx:73-77 | the page starts idle: empty scan, no session, no samples, no answers, empty label |
| Operator.OperatorWorkflow.EnterScan | webapp/app/page.tsx:278 | only the scan input changes |
| Operator.OperatorWorkflow.SubmitScan | webapp/app/page.tsx:85-131 | every failure leaves the page unchanged; a resolved order opens a session whose quota is the sampling rule's count, with samples, label and answers emptied |
| Operator.OperatorWorkflow.OpenSession | webapp/app/page.tsx:116-129 | a successful scan's updates: the session on the order with its rule's quota and the start time, no samples, label and answers emptied, the invariant re-established |
| Operator.OperatorWorkflow.SetChecklistValue | webapp/app/page.tsx:133-135 | the answer map is updated at the item's id (last write wins); nothing else changes |
| Operator.OperatorWorkflow.EnterSampleLabel | webapp/app/page.tsx:341 | only the sample label changes |
| Operator.OperatorWorkflow.SaveSample | webapp/app/page.tsx:150-199 | no session, a blank label or an unready checklist change nothing; below the quota, exactly one sample with the trimmed label is appended and the label and answers are cleared; at the quota, one record holding every sample and the quota snapshot is prepended to the log and the page returns to idle; `Valid()` is kept throughout |
| Operator.OperatorWorkflow.ResumeLastOrder | webapp/app/page.tsx:468-479 | while idle with a non-empty log, the scan input takes the newest record's order number; otherwise it is unchanged |
| Operator.SeedNumberInLowerCase | webapp/app/page.tsx:87-96 | `cmd-1001` is already trimmed and lower-cases like `CMD-1001` |
| Operator.SeedScanStarts | webapp/app/page.tsx:85-114 | scanning `cmd-1001` against the seed starts a session on the seed order and exigence |
| Operator.OpenSeedSession | webapp/app/page.tsx:116-130 | a fresh seeded store and page, after that scan, hold a valid session with a quota of 4 and no samples |
| Operator.SaveSeedSample | webapp/app/page.tsx:150-199 | answering both pass/fail items and labelling the sample saves it, or completes the control when it is the last one |
| Operator.ControlSeedOrder | webapp/app/page.tsx:150-199 | four saved samples on the seed order leave exactly one record in the log, for `CMD-1001` with 120 pieces, holding 4 samples for a quota of 4 |
| Manager.ApplyEdit | webapp/app/manager/page.tsx:104-115 | only the named field changes, and the id is kept |
| Manager.WithNewItem | webapp/app/manager/page.tsx:90-102 | one item is appended after the unchanged drafts: the fresh id, an empty caption, pass/fail, no guidance |
| Manager.ItemsEdited | webapp/app/manager/page.tsx:104-115 | same length; items with the id are edited, all others are untouched |
| Manager.ItemsWithout | webapp/app/manager/page.tsx:117-122 | exactly the items with other ids remain, each with its multiplicity |
| Manager.RemovalKeepsOrder | webapp/app/manager/page.tsx:117-122 | removal keeps the surviving items in their order |
| Manager.NormaliseRule | webapp/app/manager/page.tsx:150-164 | the submitted `piecesPerSample` keeps a value of at least 1 and is exactly 1 otherwise; a truthy `minSamples` below 1 becomes exactly 1; `minSamples` is absent exactly when the form value is falsy, otherwise at least 1; `maxSamples` is absent exactly when the form value is falsy, otherwise the larger of the form's raw `minSamples ?? 1` and its own value |
| Manager.NormaliseItem | webapp/app/manager/page.tsx:165-170 | same id and type; the caption is trimmed; guidance is trimmed, and dropped when it was absent or blank |
| Manager.NormaliseChecklist | webapp/app/manager/page.tsx:165-170 | same length, with each item normalised in place, so ids, types and order are kept |
| Manager.CheckExigenceForm | webapp/app/manager/page.tsx:132-171 | a rejection for a blank name or code, exactly then; a rejection for an empty checklist, exactly then; an accepted payload has a non-blank name and code, a non-empty checklist and `piecesPerSample >= 1` |
| Manager.NormalisedRuleBoundsCount | webapp/app/manager/page.tsx:150-164 | a rule saved from a non-negative minimum keeps every sample count between `minSamples ?? 1` and a truthy `maxSamples` |
| Manager.NormaliseRuleIdempotent | webapp/app/manager/page.tsx:150-164 | within the inputs' `min` limits, normalising a normalised rule changes nothing |
| Manager.NormaliseChecklistIdempotent | webapp/app/manager/page.tsx:165-170 | normalising a normalised checklist changes nothing |
| Manager.ResubmitIsIdentity | webapp/app/manager/page.tsx:205-223 | editing a saved exigence and submitting it unchanged sends the same payload, now addressed to its id |
| Manager.CheckOrderForm | webapp/app/manager/page.tsx:176-200 | each of the three rejections (blank number, no exigence, piece count not positive) happens exactly when its condition is the first to fail; an accepted payload has a non-blank number, an exigence and a positive piece count |
| Manager.ResubmitOrderIsIdentity | webapp/app/manager/page.tsx:225-233 | editing a saved order and submitting it unchanged sends the same payload, now addressed to its id |
| Manager.ManagerPage.constructor | webapp/app/manager/page.tsx:74-79 | both forms start from their empty templates |
| Manager.ManagerPage.AddChecklistItem | webapp/app/manager/page.tsx:90-102 | only the exigence form's checklist changes, by one appended blank item |
| Manager.ManagerPage.ChangeChecklistItem | webapp/app/manager/page.tsx:104-115 | only the exigence form's checklist changes, by the edit of the items with the id |
| Manager.ManagerPage.RemoveChecklistItem | webapp/app/manager/page.tsx:117-122 | only the exigence form's checklist changes, losing the items with the id |
| Manager.ManagerPage.ResetExigenceForm | webapp/app/manager/page.tsx:124-126 | the exigence form becomes the template; the order form is unchanged |
| Manager.ManagerPage.ResetOrderForm | webapp/app/manager/page.tsx:128-130 | the order form becomes the template; the exigence form is unchanged |
| Manager.ManagerPage.SubmitExigence | webapp/app/manager/page.tsx:132-174 | a rejected form changes neither the page nor the store; an accepted one is upserted in normalised form, with orders and log unchanged, and the form is reset |
| Manager.ManagerPage.SubmitOrder | webapp/app/manager/page.tsx:176-203 | a rejected form changes neither the page nor the store; an accepted one is upserted, with exigences and log unchanged, and the form is reset |
| Manager.ManagerPage.EditExigence | webapp/app/manager/page.tsx:205-223 | the exigence form is loaded from the stored exigence |
| Manager.ManagerPage.EditOrder | webapp/app/manager/page.tsx:225-233 | the order form is loaded from the stored order |
| Manager.ManagerPage.DeleteExigence | webapp/app/manager/page.tsx:235-243 | without confirmation nothing changes; with it the exigence and its orders are deleted, and a form editing that exigence is reset |
| Manager.ManagerPage.DeleteOrder | webapp/app/manager/page.tsx:245-251 | without confirmation nothing changes; with it the order is deleted, and a form editing it is cleared |
| Operator.ChecklistReady | webapp/app/page.tsx:137-142 | definition: a session is open and every pass/fail item of its checklist has a boolean answer |
| Operator.DefaultValue | webapp/app/page.tsx:60-62 | definition: `false` for a pass/fail item, `""` for a text item |
| Operator.SameOrderNumber | webapp/app/page.tsx:95 | definition: the order number and the scan are equal after lower-casing |
| Operator.NewSample | webapp/app/page.tsx:164-171 | definition: the sample with the fresh id, the trimmed label and the built checklist responses |
| Operator.CompletedRecord | webapp/app/page.tsx:180-190 | definition: the operation record built from the session, the samples and the completion time |
| Registry.ExigenceFrom | webapp/context/DataContext.tsx:102-105 | definition: the stored exigence with the given id and the payload's other fields (merge and insert) |
| Registry.OrderFrom | webapp/context/DataContext.tsx:118-121 | definition: the stored order with the given id and the payload's other fields (merge and insert) |
| Registry.DefaultExigences | webapp/context/DataContext.tsx:38-69 | definition: the seed exigence with its default rule and three checklist items |
| Registry.DefaultOrders | webapp/context/DataContext.tsx:71-79 | definition: the seed order `CMD-1001` of 120 pieces |
| Manager.EmptyExigenceForm | webapp/app/manager/page.tsx:39-55 | definition: the empty exigence template with the rule {30, 1, 10} and one pass/fail item |
| Manager.EmptyOrderForm | webapp/app/manager/page.tsx:57-62 | definition: the empty order template |
| Manager.ExigencePayloadOf | webapp/app/manager/page.tsx:145-171 | definition: the normalised exigence payload sent to the registry |
| Manager.OrderPayloadOf | webapp/app/manager/page.tsx:194-200 | definition: the trimmed order payload sent to the registry |
| Manager.EditFormOf | webapp/app/manager/page.tsx:205-223 | definition: the exigence form loaded from a stored exigence |
| Manager.OrderEditFormOf | webapp/app/manager/page.tsx:225-233 | definition: the order form loaded from a stored order |

## Left out

- All JSX rendering, the `Shell` navigation component, `formatDateTime`, and the text of alerts and feedback messages. Failures are outcome values instead.
- `window.confirm` is a boolean parameter, and `alert` is not modelled.
- Persistence through `usePersistentState`/localStorage, the React context, `useMemo` and render batching. Each handler is one atomic method, and the two setter calls of `deleteExigence` are a single step.
- `createId` and `new Date()`: fresh ids and timestamps are parameters. No uniqueness of ids is assumed. The property "`completedAt` is not before `startedAt`" would need a monotonic clock and is not stated.
- Floating-point numbers: counts are unbounded integers, and `Number(...)` coercion and `NaN` are not modelled.
- `Math.floor` of a fractional piece count (manager page line 197) is the identity on integers.
- `Math.ceil` of a quotient is integer ceiling division for a positive divisor.
- `toLowerCase` is modelled for ASCII letters only. Unicode case mapping is not modelled.
- The per-field `onChange` setters of the manager's two forms (name, code, description, sample rule fields, order fields) are not modelled. Each replaces one field of a form. The submit methods take whatever form state they find.
- The `min={1}` limits of the manager's number inputs appear only as the hypothesis `WithinInputLimits` (or a non-negative minimum) of `Manager.NormalisedRuleBoundsCount`, `Manager.NormaliseRuleIdempotent` and `Manager.ResubmitIsIdentity`. The submit methods accept any form.
- Payloads always carry every key, as both manager handlers send. The spread `{ ...item, ...payload }` is then the payload's fields, with the item's id kept.
- Sampling.SampleCount: its own contract states only the lower bound 1. The exact value is pinned by `SampleCountFallback` (no positive `piecesPerSample`), `SampleCountLeastCover` (no bounds), `SampleCountRaised`, `SampleCountCut` and `SampleCountClamped` (positive bounds, min <= max). The rarer rules (a negative bound, or a minimum above the maximum) are only bounded, by `SampleCountCapped` and `SampleCount`'s own floor.
- `webapp/types/index.ts` supplies only the datatypes in `types.dfy`.
