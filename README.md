# point-service in Dafny

A model of the point-decrement core of point-service. The service listens for
"order succeeded" events. For each event it looks up the ordered product and
picks a point level from the product's price: bronze, silver or gold. It then
takes one point from that level's counter and publishes
`{"order_id":N,"point_level":"<level>"}` to the result topic.

Taking a point uses optimistic locking. The repository reads the level's row.
It refuses when no points remain. Otherwise it writes `remaining - 1` back,
guarded by the row's `updated_at` as it was read. When a competing worker has
changed the row in between, the write affects no row. The repository then
tries again, up to `maxAttempt` attempts in all.

Files, one module each:

- `wrappers.dfy` (`Wrappers`): the `Option` type.
- `model.dfy` (`Model`): the records `SuccessOrder`, `DecreasePointSuccess` and `Product`, and the three levels with their names.
- `payload.dfy` (`Payload`): the JSON text of a `DecreasePointSuccess`, and a reference decoder for that exact shape.
- `repository.dfy` (`PointRepository`): the counter table, the conditional write, and the retry loop. The loop appears twice: as the spec function `Decrease` and as the method `PointRepository.DecreasePoint`, which is proved equal to it.
- `service.dfy` (`PointService`): the price bands, the spec function `Process` for one service call, the producer, and the `PointService.DecreasePoint` method.
- `handler.dfy` (`PointHandler`): the message handler that always acknowledges.

Modelling choices:

- The row's `updated_at` timestamp is a version number. Every successful conditional write advances it by one.
- Competing workers are not threads. Each round of the retry loop draws a `Round` from an oracle sequence `env`. A round says three things: whether the read fails, whether a rival commits its own decrement between our read and our write, and whether our write fails.
- A rival read the same row as we did, so its own conditional write always succeeds. Rounds beyond the end of `env` are quiet.
- The transaction that `decreasePoint` begins is recorded as `Open`, `Committed` or `RolledBack`. The read goes through that transaction; the conditional write goes through the store directly, outside it. When the attempts run out, the call returns with the transaction still `Open`: there is no rollback on that path.
- Product lookup is a map from product identifier to product. An absent key stands for every way the lookup can fail.
- The producer is a log of delivered messages. Whether a send is delivered is an input.
- The point-level constants are not part of this model. Their strings "bronze", "silver" and "gold" come from the repository and service tests.

Four behaviours of the code are kept as they are, though a reader might expect otherwise:

- The price bands are not exhaustive. Prices strictly between 100 and 101, or strictly between 1000 and 1001, match no band. They return "unexpected price category": nothing is decremented and nothing is published (`Classify`, `Process`).
- `maxAttempt` may be 0. The exit test `attempt == maxAttempt` then never fires. With finitely much contention the call still ends, but never with "maximum attempts reached" (`Decrease`).
- A publish failure leaves the decrement committed. The handler swallows every error and acknowledges every message.
- A negative price is bronze. The service test for product 5 at -289.2 (app/internal/service/point_test.go:91-100) expects an error, but the switch sends any price up to 100 down the bronze path (app/internal/service/point.go:63). The model follows the code (`ClassifyExamples`, `Process`): such an order takes a bronze point and publishes its result.

## Model

| member | source | states |
|---|---|---|
| `Model.LevelName` | app/internal/repository/point.go:33-43 | each level's name is a non-empty word of lower-case ASCII letters, none of which encoding/json escapes |
| `Model.LevelNamesDistinct` | app/internal/repository/point.go:33-43 | the three levels name three different rows, so a decrement of one level never touches another level's counter |
| `Payload.Encode` | app/internal/service/point.go:76-79 | the fixed two-field JSON text: the order_id key first, then the identifier as a decimal numeral without leading zeros whose value is the order identifier, then the point_level key with the level's name in quotes and the closing brace |
| `Payload.DecodeEncode` | app/internal/model/order.go:9-12 | the published JSON text of any decrement result decodes back to that result: order identifier and level |
| `Payload.EncodeDecode` | app/internal/model/order.go:9-12 | every text the reference decoder accepts is exactly the encoding of what it decodes to, so each result has only one spelling (decimal without leading zeros) |
| `Payload.EncodeInjective` | app/internal/service/point.go:76-87 | two results with the same payload are the same result: the payload determines order and level |
| `PointRepository.Cas` | app/internal/repository/point.go:75-77 | the conditional update affects at most one row. It affects one exactly when the level's row still has the expected version, and then sets that row's remaining and advances its version. With a stale version it affects 0 rows and changes nothing |
| `PointRepository.Step` | app/internal/repository/point.go:57-88 | one round of the loop. A failed read or a missing row is a read error. Remaining <= 0 is "not enough points", with no write issued. Otherwise one conditional write of remaining - 1 is issued. The round succeeds exactly when that write affects one row, which happens exactly when no rival committed first. Whoever wins leaves the row at observed remaining - 1 with the next version |
| `PointRepository.Decrease` | app/internal/repository/point.go:45-97 | the whole call. A read error or empty counter in the first round ends the call at once, with no write and the transaction rolled back. Every round but the last is a lost race. A write error is reported only after a write. It succeeds exactly when committed, and gives up exactly when the transaction is left open, which happens after exactly maxAttempt reads. With maxAttempt >= 1 it never makes more than maxAttempt reads; with maxAttempt = 0 it never gives up. Only the level's row changes. Remaining never rises and never goes below 0 from >= 0. remaining + version is unchanged. A success lowers the counter. No lost update: the points taken are exactly the call's own success (0 or 1) plus the rivals' commits during the call |
| `PointRepository.DecreaseEndsAsLastRound` | app/internal/repository/point.go:56-95 | each call ends exactly as its last round ends, with that round met on the table the earlier lost rounds left. A read error, empty counter or write error there is the call's error, with the transaction rolled back. A won race, where the write affects one row, is the call's success. A lost race is "maximum attempts reached". The table is the one that round leaves. The rivals' commits are one per earlier round plus one if the last round wrote against a rival |
| `PointRepository.CallEndsOnLastRound` | app/internal/repository/point.go:60-95 | a success means the last round had no failure and no rival. A failed read in the last round is a read error, rolled back. A failed write there is a write error, rolled back. Giving up follows a lost race. An empty counter is the starting counter less the earlier rounds' rival decrements |
| `PointRepository.UncontendedDecrement` | app/internal/repository/point.go:72-88 | with points left and nobody competing, the call commits on its first attempt. It sets the row to remaining - 1 (1000 becomes 999) and the next version, with one read and one write |
| `PointRepository.LoseEveryRace` | app/internal/repository/point.go:90-95 | a caller that loses every race with maxAttempt = k performs exactly k reads and k writes. It then returns "maximum attempts reached" with the transaction left open, and the rivals' k decrements, counted as k rival commits, are in the row |
| `PointRepository.ReplayKeepsNonNegative` | app/internal/repository/point.go:67-77 | starting from counters that are all >= 0, no sequence of calls drives any counter below 0 |
| `PointRepository.ReplayLosesNoUpdate` | app/internal/repository/point.go:75-77 | across any sequence of calls, each version advance of a row is exactly one point taken from it. The points a level lost are exactly its successful calls plus the rivals' commits on it, so no update is lost or counted twice |
| `PointRepository.NoOversell` | app/internal/repository/point.go:67-88 | from non-negative counters, the successful calls on a level and the rivals' commits on it together never exceed the points it started with |
| `PointRepository.PointStore.First` | app/internal/repository/point.go:60 | the select returns the level's row when there is one and nothing otherwise |
| `PointRepository.PointStore.ConditionalSet` | app/internal/repository/point.go:75-77 | the store's conditional update returns the affected-row count and changes the table as `Cas` says |
| `PointRepository.PointRepository.constructor` | app/internal/repository/point.go:25-31 | a repository over the given store with the given retry bound |
| `PointRepository.PointRepository.DecreasePoint` | app/internal/repository/point.go:45-97 | the imperative loop, with a mutable attempt counter, reads through the store and conditional writes to it. It returns the error, the transaction state, the read and write counts, the rival commits (a ghost count) and the new table that `Decrease` gives for the old table |
| `PointRepository.PointRepository.DecreaseBronzePoint` | app/internal/repository/point.go:33-35 | decreasePoint on the row named "bronze" |
| `PointRepository.PointRepository.DecreaseSilverPoint` | app/internal/repository/point.go:37-39 | decreasePoint on the row named "silver" |
| `PointRepository.PointRepository.DecreaseGoldPoint` | app/internal/repository/point.go:41-43 | decreasePoint on the row named "gold" |
| `PointService.Classify` | app/internal/service/point.go:46-73 | gold exactly when price >= 1001. Silver exactly when 101 <= price <= 1000. Bronze exactly when price <= 100, including zero and negative prices. No level exactly when the price lies strictly inside (100, 101) or (1000, 1001) |
| `PointService.ClassifyMonotone` | app/internal/service/point.go:46-73 | of two classified prices, the dearer one never gets a lower level |
| `PointService.ClassifyExamples` | app/internal/service/point.go:46-73 | 100, 101, 1000 and 1001 map to bronze, silver, silver and gold. 1500, 800 and 77 map to gold, silver and bronze. 0 and -289.2 map to bronze. 100.5 and 1000.5 map to no level |
| `PointService.Process` | app/internal/service/point.go:34-93 | A missing product, or a price in no band, touches no counter and publishes nothing. Otherwise the chosen level's decrement happens and no other counter changes. A failed decrement is always reported as a decrement error with its level and the repository's cause, and nothing is published. A failed send after a successful decrement is always reported as a produce error, and the decrement stands. Success means all steps succeeded, with exactly one message on the topic: empty headers and the payload for the order's id and level |
| `PointService.UncontendedOrder` | app/internal/service/point.go:47-92 | an order in a band whose counter has points and no competition takes one point from that counter and publishes exactly its result message |
| `PointService.GoldPayloadExample` | app/internal/service/point_test.go:49 | order 1 at gold publishes `{"order_id":1,"point_level":"gold"}` |
| `PointService.SilverPayloadExample` | app/internal/service/point_test.go:50 | order 2 at silver publishes `{"order_id":2,"point_level":"silver"}` |
| `PointService.BronzePayloadExample` | app/internal/service/point_test.go:51 | order 3 at bronze publishes `{"order_id":3,"point_level":"bronze"}` |
| `PointService.Producer.SendMessage` | app/pkg/kafka/producer.go:33-70 | a delivered send appends exactly the message (topic, value, headers) to the log; an undelivered one reports failure and appends nothing |
| `PointService.PointService.constructor` | app/internal/service/point.go:25-32 | a service over the given repository, product table, producer and topic |
| `PointService.PointService.DecreasePoint` | app/internal/service/point.go:34-93 | the imperative steps (lookup, switch, repository call, encode, send) return the error `Process` gives. They leave the table as `Process` says and append exactly `Process`'s published messages to the producer's log. The call is recorded with its order |
| `PointHandler.PointHandler.constructor` | app/internal/handler/point.go:21-25 | a handler over the given service |
| `PointHandler.PointHandler.SuccessOrderProcess` | app/internal/handler/point.go:27-42 | always returns no error. An undecodable message calls no service and changes nothing. A decoded message calls the service exactly once, with the decoded order unchanged, and has exactly that call's effects. The service's error is swallowed |

## Left out

- Sleeping between attempts (`waitTime`): it changes no state the model observes.
- Context cancellation and deadlines. The reads go through a transaction bound to the caller's context (app/internal/repository/point.go:48,60), so a cancelled or expired context shows up as a failed read: rollback and that error. The model covers this only as a round whose read fails (`Round.readFails`), not as a deadline that bounds the loop. The conditional write and the sleep ignore the context. The consumer always passes `context.Background()` (app/pkg/kafka/consumer.go:63).
- The `recover()` deferral in decreasePoint and the gorm transaction internals. Begin, Commit and Rollback are recorded only as the final transaction state.
- SQL text, `deleted_at` filtering and `ORDER BY id LIMIT 1`. The table holds at most one row per level.
- The `updated_at` wall-clock timestamp and its resolution: the version is an exact counter, so two writes never share a stamp.
- Real concurrency. Interference is only a rival decrement between our read and our write, taken from an oracle. Version bumps that do not change `remaining` are not modelled. Neither is contention that never ends: rounds past the oracle are quiet.
- `PointRepository.Decrease`: does not model the conversion `int(maxAttempt)` of a `uint` above the largest `int`, which would make the exit test unreachable; `maxAttempt` is a `nat`.
- The width of `uint` order and product identifiers: they are `nat`.
- `float64` prices are `real`. NaN, which also reaches the default branch, is not modelled, and neither is float rounding.
- JSON decoding in the handler: the decoded message is an input, `Option<SuccessOrder>`. JSON encoding is only the fixed two-field shape of `DecreasePointSuccess`.
- The `json.Marshal` error branch of the service (app/internal/service/point.go:76-79): it cannot fire for a record of an unsigned integer and a string.
- Handler logging, and the producer's header conversion, timestamps, partitions and offsets.
- The product repository query (app/internal/repository/product.go), the Kafka consumer and consumer group, and app/main.go. The product query is replaced by a map lookup.
- The record `Point` of the model package is not part of this model. Its row is `PointRepository.Row`, with `remaining` an `int`.
