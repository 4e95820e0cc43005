# shb in Dafny

shb is an HTTP load generator. Each of its threads runs one loop over kernel completions and keeps exact
books on requests while peers answer, reset, refuse, go away, stall and die. This project models that
bookkeeping for HTTP/1.1, HTTP/2 and HTTP/3, together with the data structures it rests on, and proves what
no run can break.

## How the model is laid out

Code that updates things in place is a class here, with the source's own fields and loops. Its contracts tie
the new state to a function of the old one. What is promised of every run is then proved of those functions,
and reaches the in-place code through the contracts.

| file | what it holds |
|---|---|
| `Inflight.dfy` | the ring of requests in flight, against a plain map from stream id |
| `Budget.dfy`, `Stats.dfy`, `Ledger.dfy`, `Sums.dfy`, `Batches.dfy` | budgets, counters, merging, opening streams, and sums over connections |
| `Http1Accounting.dfy`, `Http1Results.dfy`, `Http1Worker.dfy` | the HTTP/1.1 worker, in plaintext and over TLS: results counted once, nothing spliced, and the report read off the steps |
| `Http2Accounting.dfy`, `Http2Worker.dfy`, `Http2Limits.dfy`, `Http2Lives.dfy`, `Http2Steps.dfy` | the HTTP/2 worker, what it does not bound, what it does, and what each step counts and opens |
| `Http3Accounting.dfy`, `Http3Worker.dfy`, `Http3Limits.dfy`, `Http3Retries.dfy`, `Http3Lives.dfy`, `Http3Steps.dfy` | the HTTP/3 worker: give-backs, verdicts, the least retry bound, what it does not bound, what it does, and what each pass reads and opens |
| `Lives.dfy` | what the lives of a worker's connections add to what has finished |
| `Http3Sends.dfy`, `Http3SendTotals.dfy`, `Http3SendWorker.dfy` | datagrams the kernel still owns after their connection is gone |
| `GsoBatching.dfy` | datagrams joined for one send and cut apart by the kernel |
| `Selection.dfy` | percentiles by selection, against a full sort |
| `TlsBacklog.dfy` | plaintext waiting for a TLS session, on both write paths |
| `PendingFlush.dfy`, `BufRing.dfy`, `Varint.dfy`, `Bits.dfy` | a bitset, a wrapping ring of buffers, a prefix code, and masks on numbers |
| `WholeRun.dfy` | split, run every thread, merge |

The peer, the kernel and the clock are arguments. A *step* is one completion, one pass or one timeout check,
carrying whatever the outside world chose to do. A *run* is any sequence of steps, over any number of
connections, in which the kernel completes only what is outstanding and each connection's requests are
stamped with times that do not go backwards. Theorems about runs hold for every such sequence.

## What the proofs found

- **An HTTP/2 peer can have requests sent again without limit.** HTTP/3 bounds retries by what a connection
  has answered. HTTP/2 does not: once a connection has answered one request, every later one it turns away
  goes back to the budget. For any budget of two requests or more, any parallelism and any number of
  connections, there are runs that open as many streams as one likes (`Http2Limits.NoRetryBound`). No run opens
  more streams than it was asked for requests if and only if it was asked for at most one, or may open none
  (`Http2Limits.RetriesBoundedExactlyWhen`).
- **A counted HTTP/2 run need not end.** The comments at `src/http2.rs:463-466` and `src/http2.rs:815-820` say
  that charging for failed connects is what makes a counted run end. A TLS peer that sends GOAWAY together with
  the end of its handshake is not charged: the worker returns to its first state, at a later time and with
  nothing counted, and it can do so again (`Http2Limits.ReconnectsForNothing`). A step that replaces a
  connection is free if and only if the connection owed nothing and there was no request to charge for a failed
  connect, a handshake cut short or refused, or an idle wait (`Http2Limits.FreeExactlyWhen`). Over a whole run,
  connections are replaced at most once for each request that finished and once for each life that opened
  nothing and cost nothing (`Http2Lives.ReplacementsBounded`). The model follows the code.
- **Nor does a counted HTTP/3 run.** The comment at `src/http3.rs:178-181` says that a run against a server which
  turns everything away is soon over. One that sends GOAWAY(0) with the end of its handshake is not charged, for
  nothing was given back: the pass closes the connection, and when the last datagram of it has been sent the
  worker is back in exactly its first state (`Http3Limits.ReconnectsForNothing`). Ending a connection is free if
  and only if it owed nothing, there was no request to charge for its never having been set up, and none was
  opened as it ended (`Http3Limits.FreeExactlyWhen`). The bound on whole runs is the same
  (`Http3Lives.EndingsBounded`).
- **Not every HTTP/3 give-back of a connection that answered is sent again.** The same comment promises it; the
  code stops at `parallel` retries for each answer. For any budget of two requests or more and any parallelism,
  a connection that answers all requests but one can have that one counted as an error
  (`Http3Retries.NotSentAgain`). Every run keeps the promise if and only if it is asked for at most one request,
  or may open no stream (`Http3Retries.AlwaysAgainExactlyWhen`). A pass keeps it if and only if each ending that
  gives a request back finds a retry left, and what then remains is within the bound
  (`Http3Accounting.SentAgainExactlyWhen`, which also says how many are sent again when it is not).
- **The least bound on HTTP/3 streams is N + parallel (N - 1)**, for N requests: no run opens more, and some run
  opens as many (`Http3Retries.LeastBound`).
- **HTTP/1.1 believes a response to a request that has not left.** Three answers can complete a run of three
  with nothing sent (`Http1Accounting.AnsweredUnsent`). In plaintext, every request answered had left whole if
  and only if no answer is counted while its connection is still sending (`Http1Accounting.LeftExactlyWhen`).
  Until then requests wait in a one-bit queue, where a second one shares the first one's copy on the wire
  (`Http1Accounting.FoldedExactlyWhen`).
- **Varints of 2^62 and more lose their top bits silently.** The round trip holds exactly below 2^62
  (`Varint.RoundTripExactlyWhen`).
- **Send storage is safe exactly as long as no connection closes onto a 42-bit generation that still has a send
  outstanding** (`Http3Sends.NextSafeExactlyWhen`).

## Model

| member | source | states |
|---|---|---|
| `Inflight.Ring.constructor` | src/inflight.rs:89-98 | a new ring stands for the empty map |
| `Inflight.Ring.Counted` | src/inflight.rs:102-109 | the count kept beside the vector is the size of the map, and the vector is empty just when the map is |
| `Inflight.Ring.Clear` | src/inflight.rs:111-117 | the map becomes empty; what has been pushed and moved so far is not forgotten |
| `Inflight.Ring.Push` | src/inflight.rs:119-131 | adds exactly one request under its own id, which was free; an empty ring takes any id of ours |
| `Inflight.Ring.Index` | src/inflight.rs:140-146 | an id has a slot with a request in it if and only if it is in the map: ids of the peer's, retired, finished or not yet opened have none |
| `Inflight.Ring.Update` | src/inflight.rs:149-152 | rewrites the request of a live id and leaves every other id, live or foreign, alone |
| `Inflight.Ring.Take` | src/inflight.rs:155-177 | hands back what the map held for the id, removes that id only, and is inert on any other id, through every settlement and compaction it causes |
| `Inflight.Ring.Settle` | src/inflight.rs:182-194 | steps over holes, empties or compacts, without changing the map; afterwards the front is a request and the dead prefix is below the compaction threshold |
| `Inflight.Ring.Compact` | src/inflight.rs:204-208 | the live window moves to the front unchanged, and the slots moved are charged |
| `Inflight.Ring.Items` | src/inflight.rs:217-219 | the requests of the map, each once, in the order of their ids |
| `Inflight.Ring.Oldest` | src/inflight.rs:238-240 | slot zero holds the request with the least id, whenever there is a request at all |
| `Inflight.Ring.RetireAfter` | src/inflight.rs:41-81 | removes exactly the ids above the boundary, odd, even or zero, hands them back in ascending order, and keeps later ids landing in their own slots |
| `Inflight.Ring.RetireAll` | src/inflight.rs:46-81 | with nothing below the boundary, every request is handed back in order and the ring is empty |
| `Inflight.Ring.RetireSuffix` | src/inflight.rs:46-81 | with a request below the boundary, the requests below it are untouched and the rest handed back in order |
| `Inflight.Numbering.IdsOf` | src/inflight.rs:140-146 | numbering is a bijection that keeps order: lists by stream number are lists by stream id |
| `Inflight.Numbering.RetiredIds` | src/inflight.rs:41-49 | cutting the stream numbers where the code does cuts the ids exactly above `last` |
| `Inflight.Replay` | src/inflight.rs:41-219 | any life of opens, updates, finishes, listings, GOAWAYs and resets, with any ids and in either numbering, holds and hands back what a plain map does, GOAWAY suffixes and listings in id order included; all compactions together move no more slots than were ever pushed |
| `Budgets.SplitTotal` | src/budget.rs:66-75 | the parts of a split sum to the whole, differ by at most one, and the larger ones come first |
| `Statistics.Stats.RecordSuccess` | src/stats.rs:35-40 | one more completed, its status tallied, its latency last in the samples, all else unchanged |
| `Statistics.SuccessConsistent` | src/stats.rs:35-40 | the status table keeps summing to what completed, which stays the number of samples |
| `Statistics.Stats.Merge` | src/stats.rs:42-56 | adds another worker's every counter and every status, and appends its samples |
| `Statistics.MergedIs` | src/stats.rs:42-83 | however many are merged, every number of the report is the sum of the workers', the samples follow in worker order, and the table still sums to what completed |
| `Statistics.MergedSums` | src/stats.rs:42-56 | completed, errors, connect errors, bytes received, bytes sent and each row of the table are, after merging, the sums over the workers |
| `Statistics.MergeWorkers` | src/stats.rs:63-83 | the merge of all workers, or the first error if there is any; one worker's result is its own merge, and no workers merge to nothing |
| `Http2Accounting.FatesDecide` | src/http2.rs:418-461 | a whole batch of events, stream by stream: each request's fate depends on its own stream's events alone; answers and failures are counted one for one; what was given back is refunded exactly if the connection has answered by the end of the batch, and held exactly if not |
| `Http2Accounting.RowsRise` | src/http2.rs:426-443 | over a batch of events, each row of the status table rises by the number of streams whose last status before a proper end it is |
| `Http2Accounting.SamplesGain` | src/http2.rs:426-443 | the samples gain exactly one for each stream answered, which with its start makes up the time of the batch |
| `Http2Accounting.EventKeeps` | src/http2.rs:418-461 | no event unbalances the books, or leaves a held request on a connection that has answered |
| `Http2Accounting.OpensExactly` | src/http2.rs:191-238 | as many streams are opened as grants, parallelism and budget all allow, under consecutive ids, each stamped with its own time, nothing else touched |
| `Http2Accounting.OpenKeeps` | src/http2.rs:191-238 | opening streams never overshoots budget or parallelism and keeps start times in id order |
| `Http2Accounting.NoUnderflow` | src/http2.rs:426-457 | every subtraction from `started` has enough to subtract from |
| `Http2Accounting.FailConnectKeeps` | src/http2.rs:467-473 | a failed connect is charged to a request nobody has started, so it never takes the books out of balance, past the budget, or from a request in flight |
| `Http2Accounting.ReplaceKeeps` | src/http2.rs:148-156 | a connection that is replaced owes nothing afterwards, exactly what it owed is added to the errors, and it is dialled again exactly if there is something to start |
| `Http2Accounting.BreakKeeps` | src/http2.rs:814-846 | a broken connection adds what it owed to the errors, and one more if it was lost in a handshake that a request could be charged for, without unbalancing the books |
| `Http2Accounting.TimeoutCosts` | src/http2.rs:577-608 | a check that expires fails all the connection owed, or one unassigned request, as a failed connect, if it owed nothing; one that does not expire costs nothing, and notes the time if requests are in flight |
| `Http2Accounting.ReceiveKeeps` | src/http2.rs:711-810 | a receive, whatever it brings, keeps the books balanced and leaves the connection up or dialling while there is work |
| `Http2Accounting.StepKeeps` | src/http2.rs:629-846 | the same of every kind of completion and of the timeout check |
| `Http2Accounting.NextKeeps` | src/http2.rs:562-857 | one step on one of many connections keeps the worker's invariant: started is completed plus failed plus in flight plus held |
| `Http2Accounting.RunKeeps` | src/http2.rs:562-857 | so does every run, and answers are never uncounted |
| `Http2Accounting.MetExactly` | src/budget.rs:30-44 | a worker never reports more than its budget, and one that met it reports exactly it with nothing in flight or held anywhere |
| `Http2Accounting.Conservation` | src/http2.rs:481-903 | over every run: no refund underflows, nothing starts beyond the budget, each stream opened has exactly one fate, no request is sent twice before something is answered, and meeting the budget means exactly the budget |
| `Http2Worker.OldestDecides` | src/http2.rs:158-175 | with starts in id order, the limit has passed since the oldest start if and only if it has since some start |
| `Http2Worker.Conn.TimedOut` | src/http2.rs:158-175 | looking at slot zero alone decides whether `start + limit <= now` for some request in flight, or, with none, whether there is work and `idleSince + limit <= now` |
| `Http2Worker.Conn.Close` | src/http2.rs:126-146 | the slot is as a fresh one, with no stream, hold or answer carried over |
| `Http2Worker.Worker.EndStream` | src/http2.rs:426-443 | a finished stream is a success or an error as the specification says; a success adds one to the row of its own status and one sample reaching from its start to now, and a first answer releases what was held |
| `Http2Worker.Worker.ProcessEvents` | src/http2.rs:418-461 | the loop over events computes the specification, so `FatesDecide` holds of it; each row rises by the streams answered with that status, and the samples gain one for each stream answered |
| `Http2Worker.Worker.FillStreams` | src/http2.rs:191-238 | the opening loop computes the specification, so `OpensExactly` holds of it; a stopped worker and a connection that is not up, is shaking hands or has seen a GOAWAY open nothing |
| `Http2Worker.Worker.Retire` | src/http2.rs:126-156 | fails what was in flight and held, resets the slot, and dials again if budget remains |
| `Http2Worker.Worker.OnReceive` | src/http2.rs:711-810 | the receive arm computes the specification, ALPN refusal and drained GOAWAY included |
| `Http2Worker.Worker.OnTimeout` | src/http2.rs:577-608 | the timeout arm computes the specification |
| `Http2Worker.Worker.Step` | src/http2.rs:562-857 | a step on one connection leaves every other connection as it was |
| `Http2Worker.RunWorker` | src/http2.rs:481-903 | the in-place loop follows a run of the model, stops only when the budget is met, the deadline passed or nothing more happens, never reports more than the budget, and its table and samples agree with what completed |
| `Http2Limits.NoRetryBound` | src/http2.rs:418-461 | for every k, every budget of at least two, every parallelism of at least one and any number of connections, there is a run that opens at least k streams |
| `Http2Limits.RetriesBoundedExactlyWhen` | src/http2.rs:418-461 | every run of N requests opens at most N streams if and only if N is at most one or the parallelism is zero |
| `Http2Limits.ReplacedExactlyWhen` | src/http2.rs:562-857 | which steps leave the slot as a fresh one, dialled if there is something to start; any other leaves the connection up, or was a check that did not expire |
| `Http2Limits.FreeExactlyWhen` | src/http2.rs:562-857 | of all steps that replace a connection, one leaves the ledger unchanged if and only if the connection owed nothing and no request was left to charge for its not having carried anything |
| `Http2Limits.ReconnectsForNothing` | src/http2.rs:463-473 | at any time, a TLS peer sending GOAWAY as its handshake ends brings the worker back to its first state but for the time, from which it can do so again, however many connections there are |
| `Http2Lives.StepUntried` | src/http2.rs:562-857 | a life that has added nothing to what finished by the end of a step has had nothing answered and owes all it opened; if the step ends it, it opened nothing |
| `Http2Lives.ReplacementsBounded` | src/http2.rs:481-903 | over every run, replacements are at most the requests finished plus the lives that opened nothing and cost nothing |
| `Http2Steps.FillOpens` | src/http2.rs:191-238 | nothing is opened by a stopped worker, on a connection not up or shaking hands, or after a GOAWAY; otherwise exactly what there is room for, and an exhausted id space counts as a GOAWAY |
| `Http2Steps.ReceiveCounts` | src/http2.rs:711-857 | what a receive adds to completed, errors and connect errors and what it returns to the budget, from the fates of its streams; one that replaces the connection also fails what the events left |
| `Http2Steps.ReceiveOpens` | src/http2.rs:711-810 | a receive that keeps the connection leaves in flight the streams no event ended, and beside them as many new ones as there is room for, or none after a GOAWAY, in a handshake or when stopping |
| `Http2Steps.ReceiveRecords` | src/http2.rs:418-461 | whatever becomes of the connection, a receive records the status and the time of exactly the streams its events answered |
| `Http2Steps.UpOpens` | src/http2.rs:633-667 | a connection that comes up is shaking hands exactly if it speaks TLS, and otherwise opens what there is room for |
| `Http2Steps.EndCounts` | src/http2.rs:463-474 | a failed connect, a broken connection and an expired check count an error for all that was owed, and one charged to the budget for a connect, a handshake or an idle wait that failed, exactly if there is a request to charge |
| `Http2Steps.OpensOnlyWhen` | src/http2.rs:216-218 | no step opens a stream unless the worker is not stopping, no GOAWAY was seen, and the connection is up with its handshake over |
| `Http3Accounting.GiveBackManyIs` | src/http3.rs:199-212 | giving back n requests refunds as many as the bound still allows and fails the rest, or makes all n wait on a connection without an answer |
| `Http3Accounting.GiveBackKeeps` | src/http3.rs:199-212 | every request given back finds exactly one place, within the retry credit |
| `Http3Accounting.JudgeKeeps` | src/http3.rs:216-227 | after judging, a request waits only while nothing was answered and something is in flight |
| `Http3Accounting.VerdictsDecide` | src/http3.rs:819-850 | a pass's endings, stream by stream: each verdict depends on its own stream alone; answers are counted one for one, every failure is an error, and only what was given back is refunded, waits, or fails beyond the bound |
| `Http3Accounting.FinishDecides` | src/http3.rs:819-850 | an ending of a live stream is an answer exactly if it is no reset and a status was read; it is given back exactly if its code is 0x10b, or it was reset without a status at or above the GOAWAY; otherwise it is one error. An answer adds to its own status row and one sample; what is given back waits, is sent again within the bound, or is one error |
| `Http3Accounting.RowsRise` | src/http3.rs:846-848 | over a pass, each row of the status table rises by the number of requests answered that had read this status |
| `Http3Accounting.SamplesGain` | src/http3.rs:846-848 | the samples gain exactly one for each request answered, which with its start makes up the time of the pass |
| `Http3Accounting.GiveBacksSettle` | src/http3.rs:172-228 | where a pass leaves everything given back, by then or before: it waits while nothing was answered and something is in flight; is an error if nothing was answered and nothing is; and otherwise is sent again, or is an error once the retries that the answers before the pass, or one answer, allow are used up |
| `Http3Accounting.SentAgainExactlyWhen` | src/http3.rs:172-228 | how many give-backs a pass sends again, as a number; on a connection that has answered it is all of them if and only if each ending given back finds a retry left and the rest is within the bound; and it is never fewer than the answers before the pass, or one answer, allow |
| `Http3Accounting.FinishKeeps` | src/http3.rs:819-850 | one ending keeps the books balanced, whatever its code |
| `Http3Accounting.GoawayKeeps` | src/http3.rs:852-880 | a GOAWAY leaves nothing at or above its id in flight, and all of it accounted for |
| `Http3Accounting.LowestIs` | src/http3.rs:797-817 | of all GOAWAYs seen the lowest one stands |
| `Http3Accounting.SettleKeeps` | src/http3.rs:819-882 | endings, then GOAWAY, then verdicts, together keep the books |
| `Http3Accounting.OpensExactly` | src/http3.rs:454-488 | as many request streams are opened as grants, parallelism and budget allow, under consecutive ids, each stamped with its own time |
| `Http3Accounting.DriveKeeps` | src/http3.rs:741-910 | a whole pass keeps the books, also when reading aborts it halfway |
| `Http3Accounting.ChargedOnce` | src/http3.rs:1350-1363 | a connection's life is charged once however often it is ended: all it owed if it was set up, one connect error if it never was |
| `Http3Accounting.BeginCloseKeeps` | src/http3.rs:1331-1456 | ending a connection, with its last send outstanding or not, keeps the books and leaves a connection in the slot while there is work |
| `Http3Accounting.StepKeeps` | src/http3.rs:989-1286 | the same of every pass, break, timeout and end of grace |
| `Http3Accounting.NextKeeps` | src/http3.rs:989-1286 | one step on one of many connections keeps both the balance and the sum of retry credits |
| `Http3Accounting.RunKeeps` | src/http3.rs:989-1286 | so does every run |
| `Http3Accounting.MetExactly` | src/budget.rs:30-44 | a worker never reports more than its budget, and one that met it reports exactly it with nothing in flight or unjudged anywhere |
| `Http3Accounting.RetriesBounded` | src/http3.rs:188-228 | summed over all connection lives, refunds are within `parallel` times the answers so far, so streams opened are within the budget and that many, and within the budget if nothing is answered |
| `Http3Accounting.Conservation` | src/http3.rs:913-1321 | over every run: the balance, no underflow, no overshoot, one fate for each stream opened, the retry bound, and meeting the budget means exactly the budget |
| `Http3Limits.LastIsLast` | src/http3.rs:741-910 | a pass is a connection's last if and only if reading failed, QUIC gave up, or a GOAWAY has come and the endings leave nothing under it in flight |
| `Http3Limits.EndedOwesNothing` | src/http3.rs:1331-1384 | whatever ended it, a connection that is over owes nothing, closing or replaced |
| `Http3Limits.FreeExactlyWhen` | src/http3.rs:741-910 | of all steps that end a connection's life, one leaves the ledger unchanged if and only if the connection owed nothing, no request was left to charge for its never having been set up, and none was opened as it ended |
| `Http3Limits.ReconnectsForNothing` | src/http3.rs:852-880 | a peer sending GOAWAY(0) with the end of the handshake has the connection closed, and brings the worker back to exactly its first state when the last datagram of it has been sent |
| `Http3Retries.OpensAtMost` | src/http3.rs:188-228 | no run of N requests opens more than N streams and `parallel` more for every request but one |
| `Http3Retries.LeastBound` | src/http3.rs:188-228 | a number bounds the streams of every run of N requests if and only if it is at least N + parallel (N - 1) |
| `Http3Retries.NotSentAgain` | src/http3.rs:199-212 | for any budget of at least two and any parallelism of at least one, a run in which a connection that answered all other requests has a give-back counted as an error |
| `Http3Retries.AlwaysAgainExactlyWhen` | src/http3.rs:172-228 | every run sends again all that connections which answer give back, if and only if it has one request at most or may open no stream |
| `Http3Lives.EndedUntried` | src/http3.rs:1331-1384 | a life that ends having added nothing to what finished opened nothing |
| `Http3Lives.EndingsBounded` | src/http3.rs:913-1321 | over every run, connections end at most once for each request finished and once for each life that opened nothing and cost nothing |
| `Http3Steps.LastFeedWins` | src/http3.rs:794-800 | after reading, a request has the status of the last feed that names it, or its own if none does; nothing else about it changes, and no request comes or goes |
| `Http3Steps.FillOpens` | src/http3.rs:454-488 | nothing is opened by a stopped worker, on a connection not set up, or after a GOAWAY; otherwise exactly what there is room for |
| `Http3Steps.DriveOpens` | src/http3.rs:741-899 | a pass that goes through leaves the requests that neither ended nor lie at or above the GOAWAY, and beside them as many new ones as there is room for, or none; and the connection set up exactly if it was, could be at once, or got its credit |
| `Http3Steps.DriveRecords` | src/http3.rs:819-850 | a pass records the status and the time of exactly the requests it answered, as it had read them |
| `Http3Steps.OpensOnlyWhen` | src/http3.rs:454-464 | no step opens a stream unless it is a pass that goes through on a connection set up, with no GOAWAY seen and the worker not stopping |
| `Http3Steps.EndedExactly` | src/http3.rs:1331-1456 | a step that ends a connection, or finds it over, leaves a slot as if never used, with a connection in it exactly if there is something to start; while its last send is out it waits, owing nothing |
| `Http3Worker.Conn.TimedOut` | src/http3.rs:330-334 | looking at slot zero alone decides whether `start + limit <= now` for some request in flight |
| `Http3Worker.Conn.Close` | src/http3.rs:378-409 | the accounting half of closing: the slot is as a fresh one |
| `Http3Worker.Conn.ReadEvents` | src/http3.rs:760-817 | the reading half of a pass computes the specification, status by status and GOAWAY by GOAWAY |
| `Http3Worker.Worker.GiveBackOne` | src/http3.rs:199-212 | one give-back, in place, keeps the balance it is called in |
| `Http3Worker.Worker.JudgeGiveBacks` | src/http3.rs:216-227 | the verdict loop computes the specification and keeps the balance |
| `Http3Worker.Worker.FinishStream` | src/http3.rs:819-850 | the one ending is decided in codes, ids and statuses as in `FinishDecides`, and an ending of a stream not in flight changes nothing |
| `Http3Worker.Worker.FinishStreams` | src/http3.rs:819-850 | the loop over endings computes the specification, so `VerdictsDecide` holds of it; each row rises by the requests answered with that status, and the samples gain one for each request answered |
| `Http3Worker.Worker.GiveBackUnprocessed` | src/http3.rs:852-880 | collecting the ids and then taking each out one by one leaves exactly the streams under the GOAWAY, and gives back as many as were dropped |
| `Http3Worker.AtOrAboveIs` | src/http3.rs:859-864 | the ids collected are all those at or above the GOAWAY, in order, and no others |
| `Http3Worker.Worker.FillStreams` | src/http3.rs:454-488 | the opening loop computes the specification, so `OpensExactly` holds of it |
| `Http3Worker.Worker.DriveConn` | src/http3.rs:741-910 | a whole pass in place computes the specification, and says whether the connection is still of use |
| `Http3Worker.Worker.ChargeConn` | src/http3.rs:1350-1363 | the charge in place, so `ChargedOnce` holds of it |
| `Http3Worker.Worker.FinishCloseConn` | src/http3.rs:1389-1456 | the slot is reset, and holds a new connection exactly if there is something to start |
| `Http3Worker.Worker.Step` | src/http3.rs:989-1286 | a step on one connection leaves every other connection as it was |
| `Http3Worker.RunWorker` | src/http3.rs:913-1321 | the in-place loop follows a run of the model, stops only for a reason, never reports more than the budget, and its table and samples agree with what completed |
| `Http3Sends.PushFrontSafe` | src/http3.rs:492-531 | submitting the front of an idle queue hands the kernel a datagram that stays where it is |
| `Http3Sends.CloseSafeExactlyWhen` | src/http3.rs:378-409 | closing keeps every outstanding datagram where the kernel will look if and only if the generation taken next has no send outstanding |
| `Http3Sends.StaleSafe` | src/http3.rs:547-554 | a completion of an older generation is found under its own tag, counted once, and leaves every connection's queue as it was |
| `Http3Sends.CurrentSafeExactlyWhen` | src/http3.rs:1112-1148 | a completion of the current generation, good, failed, oversized or of a closing connection, keeps storage safe if and only if it does not close the connection onto a generation still in use |
| `Http3Sends.NextSafeExactlyWhen` | src/http3.rs:492-590 | every step keeps each outstanding datagram at the front of its own queue or retained under its own tag, and nothing else retained, if and only if it does not close a connection onto a generation still in use |
| `Http3Sends.NextInOrder` | src/http3.rs:492-542 | every step keeps a connection's datagrams going out in the order they were queued |
| `Http3Sends.NextSupplies` | src/http3.rs:719-728 | what a connection has been given grows by exactly the batch or first flight of the step that gave it, and starts over when it closes |
| `Http3Sends.NextLives` | src/http3.rs:1112-1148 | which steps move a connection to the next generation, and which leave it closing, in results and queue lengths |
| `Http3Sends.DeliversAll` | src/http3.rs:492-542 | over every run, what was handed to the kernel and what still waits are, in that order, all that the steps gave the connection since it was opened |
| `Http3Sends.NextBoxed` | src/http3.rs:378-409 | every step keeps the boxes that message headers are written in apart: no two connections or retained sends share one |
| `Http3Sends.HeadersAreKept` | src/http3.rs:90-104 | a header the kernel may still read is in its own connection's box if its send is current, and in no connection's if it is not |
| `Http3Sends.NothingOutstanding` | src/http3.rs:559-590 | no queue is sending and nothing is retained if and only if the kernel owns nothing |
| `Http3Sends.SendsSafe` | src/http3.rs:80-104 | in every reachable state: each outstanding send's datagram and message header where the kernel will look and in nobody else's hands, at most one send per connection and generation, the datagrams the steps supplied handed over first in first out with none left out, and bytes sent equal to what the kernel reported |
| `Http3SendTotals.BytesAreReported` | src/http3.rs:1112-1148 | over every run, the bytes counted are the sum of the positive results of all completions, of this generation or an older one |
| `Http3SendTotals.NeverStalls` | src/http3.rs:492-533 | until shutdown, a connection has a send out if and only if it has something to send |
| `Http3SendWorker.Worker.PushFrontSend` | src/http3.rs:492-531 | on an idle queue storage stays safe, and a send is out afterwards exactly if there was something to send |
| `Http3SendWorker.Worker.PumpTransmits` | src/http3.rs:645-735 | everything QUIC has to send is queued behind what waits, and a send is started exactly if none is out and there is something to send |
| `Http3SendWorker.Worker.CloseConn` | src/http3.rs:378-409 | nothing the kernel has is lost, and storage stays safe if and only if the new generation has no send outstanding |
| `Http3SendWorker.Worker.CompleteRetiredSend` | src/http3.rs:547-554 | the search and swap-remove forget exactly the send named, in place |
| `Http3SendWorker.Worker.OnSend` | src/http3.rs:1112-1148 | a completion, stale or current, keeps storage safe if and only if it does not close onto a generation still in use, and then counts its bytes once |
| `Http3SendWorker.Worker.OnFinalSend` | src/http3.rs:559-590 | after the run, a completion takes exactly its own send from what the kernel has, counts its bytes once, and keeps the rest safe |
| `Http3SendWorker.RunSends` | src/http3.rs:492-590 | any run of the in-place queues ends where the specification does, safe, with every header the kernel may read out of reach of other sends, every datagram of the steps handed over in order or still waiting, the bytes the completions reported, and no queue waiting with nothing out |
| `GsoBatching.CutsWhereJoined` | src/http3.rs:74-79 | cutting a buffer at the segment size gives back exactly the datagrams joined in it |
| `GsoBatching.FillBuffer` | src/http3.rs:670-713 | the buffer holds the first datagrams in order, equal but perhaps for a shorter last one, within both limits; it stops early only for a reason, and an oversize datagram is the very next one |
| `GsoBatching.BuildBatch` | src/http3.rs:654-730 | for any datagram sizes, what the kernel cuts out of the entries is exactly what was polled, in order; batches are within 64 segments and 65,507 bytes, and end only for a reason |
| `Selection.SortIs` | src/stats.rs:111-117 | the reference sort is a sorted rearrangement |
| `Selection.PlacedIsSorted` | src/stats.rs:144-159 | a value with nothing larger before it and nothing smaller after it is the one a full sort would put there |
| `Selection.SelectRanks` | src/stats.rs:144-159 | for every nondecreasing in-range list of ranks, duplicates included, only the given range is rearranged and every rank's value is placed |
| `Selection.DescendingIsSorted` | src/stats.rs:118-124 | samples in descending order are the sort read backwards |
| `Selection.EndsOfSort` | src/stats.rs:126-133 | a sample no larger (no smaller) than any other is the first (last) of the sort |
| `Selection.ReadBackwards` | src/stats.rs:118-124 | the shortcut for descending samples reports what a full sort would, without moving any |
| `Selection.ReadSelected` | src/stats.rs:126-139 | minimum and maximum of the boundary partitions are those of all samples, and the percentiles are the sort's |
| `Selection.LatencySummary` | src/stats.rs:100-140 | on every path the report is what a full sort would give and every sample is kept; no samples have no summary |
| `TlsBacklog.TlsSession.PushPlaintext` | src/tls.rs:272-289 | hands over a prefix of the backlog, as much as the session will take, keeps the rest in order, and fails only if the session does |
| `TlsBacklog.TlsSession.WritePlaintext` | src/tls.rs:201-217 | everything written, accepted or waiting, is in order; a byte is moved only if one was consumed to pay for it |
| `TlsBacklog.TlsSession.TakeCiphertext` | src/tls.rs:311-326 | on an established session all that was written has left, in order; nothing is left that could have been |
| `TlsBacklog.TlsSession.OfferBorrowed` | src/tls.rs:238-253 | the session takes a prefix of the borrowed input, and stops only when it fails or is full |
| `TlsBacklog.TlsSession.BorrowPlaintext` | src/tls.rs:236-268 | whatever the session will not take of a borrowed input, by failing or stalling, is kept in full |
| `TlsBacklog.TlsSession.WritePlaintextAndTakeCiphertext` | src/tls.rs:226-269 | either path writes the same stream in the same order, and on an established session all of it leaves |
| `TlsBacklog.RunSession` | src/tls.rs:201-326 | over any session: what went out, what the session holds and what waits are, in that order, exactly what was written; bytes moved never exceed bytes consumed; it ends early only on a failure |
| `TlsBacklog.PathsAgree` | src/tls.rs:226-269 | borrowing and queueing put the same bytes on the wire unless a session fails |
| `Http1Accounting.QueueAndFlushWire` | src/http1.rs:267-298 | a next request is put behind what is on the wire, never inside it, in plaintext and over TLS |
| `Http1Accounting.FlushIdle` | src/http1.rs:323-349 | an extra flush sends nothing in plaintext; over TLS it sends what the session has, behind everything before it, if no send is out |
| `Http1Accounting.SentWire` | src/http1.rs:567-601 | the socket takes what it was given, in order, and what is outstanding after a partial send is exactly the rest, of the request or of the ciphertext |
| `Http1Accounting.FoldedExactlyWhen` | src/http1.rs:267-279 | a request gets its own copy on the wire if and only if none was already waiting |
| `Http1Accounting.AllLeftExactlyWhen` | src/http1.rs:267-279 | every request a plaintext connection began is whole on its wire if and only if no send is out and none was ever folded into another |
| `Http1Accounting.LeftExactlyWhen` | src/http1.rs:602-685 | over every plaintext run, each answer counted finds its request whole on the wire if and only if no answer is counted on a connection still sending |
| `Http1Accounting.AnswersCount` | src/http1.rs:353-363 | a step completes a request exactly if it is a response, or a body ended by the end of the stream, on a connection that owes one |
| `Http1Accounting.ClosedWire` | src/http1.rs:123-139 | a closed connection has nothing out and starts its wire afresh |
| `Http1Accounting.FailKeeps` | src/http1.rs:189-194 | an error is counted exactly if a request was owed, none is after, and the books stay balanced |
| `Http1Accounting.FinishKeeps` | src/http1.rs:689-732 | a request that is over leaves its connection with the next one if and only if there is one to start, timed if and only if the run has a timeout, on this connection if it is kept and being dialled anew if not, with the books balanced |
| `Http1Accounting.ReceiveKeeps` | src/http1.rs:602-685 | a receive of any kind produces a result exactly if it ends a request that is owed |
| `Http1Accounting.StepKeeps` | src/http1.rs:478-685 | the same of every completion and timeout |
| `Http1Accounting.IdleIsInert` | src/http1.rs:353-363 | nothing that happens on a connection that owes no request changes what is completed, failed or started |
| `Http1Accounting.NextKeeps` | src/http1.rs:456-732 | one step on one of many connections keeps started equal to completed plus failed plus connections owing one |
| `Http1Accounting.MetExactly` | src/budget.rs:30-44 | a worker never reports more than its budget, and one that met it reports exactly it with no connection owing |
| `Http1Accounting.ExactlyOnce` | src/http1.rs:384-732 | over every run, in plaintext or over TLS: results counted once, every pending connect owes a request, a request owed on a connection that is up has a deadline if and only if the run has a timeout, and at most one send outstanding; a plaintext wire is whole requests followed by a prefix, a TLS wire the session's ciphertext in order |
| `Http1Results.StepReports` | src/http1.rs:533-685 | what each step adds to the report: an answer its status and latency, a lost request one error, a failed connect one of each, a finished send its bytes, and nothing otherwise |
| `Http1Results.RunReports` | src/http1.rs:384-732 | over every run: completed, samples and table are the answers in the order they came, errors the requests lost and connects failed, bytes sent the sum of the finished sends |
| `Http1Results.StepSends` | src/http1.rs:533-600 | in plaintext one more request goes out, or waits its turn, for each the connection is given; over TLS all the session's ciphertext is taken exactly when it can be sent; and nothing of a connection is left for the next in its slot |
| `Http1Results.TimedOutStartsOver` | src/http1.rs:478-509 | a response that does not come is one error; the slot is empty, or dials for the next request, which has no deadline |
| `Http1Results.UntimedUntilUp` | src/http1.rs:533-560 | a request dialled for without a deadline keeps none until its own connect ends; up, it has one if and only if the run has a timeout |
| `Http1Accounting.AnsweredUnsent` | src/http1.rs:267-279 | a run of three can be met with nothing sent, and then only two of its requests have a place on the wire |
| `Http1Worker.Conn.QueueAndFlushRequest` | src/http1.rs:283-298 | a next request leaves what is on the wire alone, and the wire as good as it was |
| `Http1Worker.Conn.OnSent` | src/http1.rs:567-601 | exactly the bytes taken are added to the wire, and what is outstanding afterwards is exactly the rest, or the next request, or the session's next ciphertext |
| `Http1Worker.Worker.FailRequestOn` | src/http1.rs:189-194 | one more error exactly if a request was owed; nothing is owed after, and balanced books stay so |
| `Http1Worker.Worker.FinishRequest` | src/http1.rs:689-732 | the connection owes a request afterwards if and only if there was one to start, which is then counted as started and has a deadline if and only if the run has a timeout; it is dialled anew exactly if it is not kept; and balanced books stay so |
| `Http1Worker.Worker.OnReceive` | src/http1.rs:602-685 | whatever was received, balanced books stay so, and one result is counted exactly if it ends a request that is owed; an answer adds one to the row of its status and its latency to the samples, and nothing else does |
| `Http1Worker.Worker.constructor` | src/http1.rs:440-455 | one request is begun per connection while the budget lasts |
| `Http1Worker.Worker.Step` | src/http1.rs:456-732 | a step on one connection leaves every other connection as it was |
| `Http1Worker.RunWorker` | src/http1.rs:384-732 | the in-place loop follows a run of the model, stops only for a reason, never reports more than the budget, and its report is the answers of that run in order, what was lost, and the bytes of its finished sends |
| `PendingFlush.TrailingZeros` | src/http2.rs:339-357 | the lowest bit set, with nothing below it |
| `PendingFlush.LowestIs` | src/http2.rs:339-357 | clearing the lowest bit removes the least slot of the word and no other |
| `PendingFlush.DrainWord` | src/http2.rs:339-357 | the run over a full word and the lowest-bit loop meet one contract: the slots of the word, ascending, up to the first that fails |
| `PendingFlush.Pending.Mark` | src/http2.rs:335-337 | adds one slot to the set |
| `PendingFlush.Pending.Drain` | src/http2.rs:339-357 | visits each marked slot once, strictly ascending and below the connection count, and leaves the set empty; on a failure all those before it were visited |
| `BufRings.WrapKeepsSlot` | src/buf_ring.rs:75-84 | a 16-bit tail that has wrapped still names the slot the true count does, because the size is a power of two |
| `BufRings.MaskFindsSlot` | src/buf_ring.rs:75-84 | the bits of a tail under the mask are its slot |
| `BufRings.SlotsDiffer` | src/buf_ring.rs:75-84 | counts less than a ring apart never share a slot |
| `BufRings.BufRing.constructor` | src/buf_ring.rs:46-73 | every id is published once, in order, and none is held |
| `BufRings.BufRing.PushEntry` | src/buf_ring.rs:75-84 | publishes one id and overwrites nothing still unconsumed |
| `BufRings.BufRing.Recycle` | src/buf_ring.rs:110-113 | moves one held id to the end of those published, keeping the partition |
| `BufRings.Replay` | src/buf_ring.rs:46-113 | past any number of wraps, ids are handed out in the order they were returned, and each is published or held, never both, never neither |
| `Varint.PutVarint` | src/quic/varint.rs:9-18 | what is appended decodes to the value's low 62 bits, and nothing more or less was appended |
| `Varint.TagIsSet` | src/quic/varint.rs:9-18 | setting the tag's bits adds the tag to what fits below it, and overwrites the top two bits of what does not |
| `Varint.GetVarint` | src/quic/varint.rs:23-34 | the loop reads the big-endian value of the announced bytes without their tag, or nothing if they are not all there |
| `Varint.DecodeEncode` | src/quic/varint.rs:9-34 | decoding an encoding, whatever follows it, gives its low 62 bits and its length |
| `Varint.RoundTripExactlyWhen` | src/quic/varint.rs:9-34 | a value survives if and only if it is below 2^62 |
| `Varint.PrefixIsIncomplete` | src/quic/varint.rs:23-34 | no proper prefix of an encoding decodes |
| `Varint.EncodingIsShortest` | src/quic/varint.rs:9-18 | no bytes that decode to a value are fewer than the encoder's |
| `Varint.StreamRoundTrip` | src/quic/varint.rs:9-34 | any list of values below 2^62, written one after another, reads back as that list |
| `WholeRun.RunThread` | src/main.rs:279-333 | whatever the protocol, in plaintext or over TLS, a thread reports a run of its worker, no more than its share, and met it exactly if it reports all of it |
| `WholeRun.Benchmark` | src/main.rs:270-335 | the first worker that failed fails the run; otherwise the report never counts more than N, counts exactly N if and only if every thread met its share, each of its numbers, bytes, connect errors and every status row included, is the sum of the threads', and the samples are the threads' own in thread order |

## Left out

- io_uring submission, cancellation and registration, sockets, and the sends made at teardown; an operation is only outstanding until its completion.
- The packing of connection, generation and operation into `user_data`; HTTP/3 sends use an abstract tag.
- Completions of an older generation in the HTTP/1.1 and HTTP/2 workers, which the code ignores; a step there is a completion of the current generation.
- HTTP/2 framing and HPACK, HTTP/1.1 response parsing, QPACK, QUIC transport and recovery; what they report is arbitrary.
- rustls: a session accepts any prefix it has room for, or fails; `write_tls` into a vector does not fail here.
- `send_close_notify`, which drops the plaintext backlog on purpose.
- Which ciphertext an HTTP/1.1 connection's session has to send; it is an argument of each step, and what the session does with plaintext is `TlsBacklog`'s.
- The HTTP/3 worker's request bodies waiting for flow control (`unsent`) and the reuse of spare send buffers.
- A reconnect that cannot be started, which ends a run early, and the shutdown flag; a worker that fails altogether appears only as its error, in `WholeRun`.
- Arming of receives, received-byte counts, and the bytes HTTP/2 sends, which no accounting depends on.
- Wrap-around of 64-bit counters, `parallel * completed` included; counters are unbounded.
- Panics in the callback of `retire_after`.
- The percentile index formula, the mean and seconds; ranks are any nondecreasing list in range.
- `src/status.rs`, `src/target.rs`, reports and command line: single-branch checks and text, on which no accounting depends.
- Selection.SelectNth: the library routine is modelled by its contract, and carried out by a simple sort.
- Selection.SortRange: stands for `sort_unstable`, by a simple sort with the same contract.
- Http1Accounting.LeftExactlyWhen: is about plaintext, where the request's bytes can be seen on the wire.
- Http3Sends.SendsSafe: is about runs in which no connection closes onto a generation still in use, which is exactly what `Http3Sends.NextSafeExactlyWhen` shows to be needed.
- Statistics.Stats.RecordSuccess: the latency is an argument; reading the clock is not modelled.
