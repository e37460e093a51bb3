# SMS simulator — a Dafny model of its core

The SMS simulator has four kinds of process. A producer enqueues
`{phone_number, message}` work items on a durable queue. Sender
processes consume them one at a time (prefetch 1). Each one either
acknowledges or negatively acknowledges (without requeue) a delivery,
based on a uniform random draw compared with 0.1. A monitor polls the
stats aggregate (`sent`, `failed`, `total_time`) under one key of a
shared store and reports it. A configuration table overlays environment
variables onto six empty-string defaults.

This project models the following as immutable datatypes and pure
functions, plus three loop methods:

- the stats aggregate and its flat field encoding (`stats.dfy`, module `StatsAggregate`)
- the sender's per-delivery disposition rule and its prefetch-1 consumption of the queue (`sender.dfy`, module `Sender`)
- the monitor's snapshot read and report loop (`monitor.dfy`, module `Monitor`)
- the producer's record generation (`producer.dfy`, module `Producer`)
- the configuration overlay (`config.dfy`, module `Config`)

`json.dfy` abstracts JSON texts as field maps. `wrappers.dfy` holds
`Option` and `Result`. Random draws are parameters whose ranges are
subset types. Store reads are values of a `Store` datatype.

Behaviours of the code worth stating explicitly:

- A work item whose body does not decode is not nacked. `json.loads` or
  the key lookup raises inside the callback, so the exception escapes
  `start_consuming`. The item stays unacknowledged and the broker puts it
  back when the connection closes. `Sender.Consume` models exactly that.
- The sender never reads or writes the stats store. It therefore has no
  stats update and no read-modify-write race.
- The failure rate (0.1) and the mean delay (2 s) are hard-coded in the
  sender and are not read from configuration.
- The monitor does not catch a stored value that fails to decode. Only a
  connection error becomes the zero aggregate.
- The monitor takes the store as input and returns only snapshots and
  reports, so no store write can be expressed. Its read touches the one key
  `sms_simulator_stats`.

## Model

| member | source | states |
|---|---|---|
| StatsAggregate.Zero | sms_simulator/stats.py:7-9 | a default-constructed aggregate has sent = 0, failed = 0, total_time = 0 and is valid |
| StatsAggregate.CountField | sms_simulator/stats.py:17-18 | a missing count field reads as 0; a present one yields its integer value |
| StatsAggregate.TimeField | sms_simulator/stats.py:19 | a missing time field reads as 0.0; a present integer or real yields its value |
| StatsAggregate.FromRedis | sms_simulator/stats.py:12-21 | absent or empty data gives the zero aggregate; unparsable or non-object text is an error; each missing field defaults to zero on its own |
| StatsAggregate.ToJson | sms_simulator/stats.py:23-25 | the encoding is an object with exactly the three fields, each holding its counter |
| StatsAggregate.RoundTrip | sms_simulator/stats.py:12-25 | decoding what `to_json` wrote gives back the same aggregate field for field |
| StatsAggregate.FromRedisIgnoresExtraFields | sms_simulator/stats.py:16-20 | fields other than the three known ones do not change the decoded aggregate |
| StatsAggregate.FromRedisDefaultsMissingFields | sms_simulator/stats.py:16-20 | for well-typed fields (an integer or real time), each decoded counter is the stored value if present and zero otherwise, independently |
| StatsAggregate.UpdateAddsDeltas | sms_simulator/stats.py:27-31 | an update changes each counter by exactly its delta; with only `sent` given, failed and total_time are unchanged; no arguments change nothing |
| StatsAggregate.UpdatesCompose | sms_simulator/stats.py:29-31 | two sequential updates equal one update by the summed deltas, and commute |
| StatsAggregate.UpdatePreservesValid | sms_simulator/stats.py:29-31 | non-negative deltas keep every counter non-negative |
| StatsAggregate.ApplyAllIsSum | sms_simulator/stats.py:27-31 | any sequence of updates equals one update by the componentwise sum of the deltas |
| StatsAggregate.ApplyAllCommutes | sms_simulator/stats.py:29-31 | applying two batches of updates in either order gives the same aggregate |
| StatsAggregate.SuccessThenFailureFromZero | sms_simulator/stats.py:27-31 | update(1, 0, 2.5) then update(0, 1, 0) from zero gives {sent 1, failed 1, total_time 2.5} |
| StatsAggregate.AvgTime | sms_simulator/stats.py:33-36 | the average is 0 whenever sent ≤ 0; otherwise average × sent = total_time; it is non-negative when total_time is |
| Sender.DecodeBody | sms_simulator/sender.py:14-16 | decoding succeeds iff the body is an object holding both `phone_number` and `message`; a missing `phone_number` is reported first; an empty or unparsable body is malformed |
| Sender.Dispose | sms_simulator/sender.py:21-26 | the disposition targets the given tag; it is a nack iff the draw is below 0.1; a nack never requeues |
| Sender.SendMessage | sms_simulator/sender.py:13-26 | a body that fails decoding yields the decode error and no disposition; otherwise exactly one ack or nack on the delivery's own tag, nack iff draw < 0.1, never requeued |
| Sender.ProducedBodiesDecode | sms_simulator/sender.py:14-16 | every body the producer builds decodes into the phone number and message it was built from |
| Sender.Open | sms_simulator/sender.py:36-37 | a fresh consumer holds nothing unacknowledged, has issued nothing, sees the whole queue as ready, and its first delivery tag is 1 |
| Sender.Deliver | sms_simulator/sender.py:36 | with prefetch 1, nothing is delivered while an item is held; delivery hands over the head with the next tag and does not change the queue depth |
| Sender.Handle | sms_simulator/sender.py:21-26 | a decoded held item leaves the queue (depth − 1) whether acked or nacked, and its disposition is appended; a decode error leaves no disposition |
| Sender.Requeue | sms_simulator/sender.py:37-40 | after the callback raises, the held item goes back to the head of the queue, the depth is unchanged, and no disposition or tag changes |
| Sender.Consume | sms_simulator/sender.py:29-40 | items are processed in order, item i getting the disposition of draw i on tag i + 1; the queue shrinks by exactly one per processed item; consumption stops exactly at the first body that fails to decode, which stays queued |
| Monitor.Get | sms_simulator/monitor.py:28 | a read fails iff the store is unreachable; otherwise it yields the key's value or nothing when the key is absent |
| Monitor.GetStats | sms_simulator/monitor.py:26-32 | a connection error or an absent key gives the zero aggregate; a stored value is decoded by `from_redis`, whose error is not caught |
| Monitor.GetStatsReadsOnlyStatsKey | sms_simulator/monitor.py:28 | two stores that agree on reachability and on the `sms_simulator_stats` entry give the same snapshot |
| Monitor.ReportOf | sms_simulator/monitor.py:38-39 | a report carries the snapshot's sent and failed and its guarded average time |
| Monitor.Iteration | sms_simulator/monitor.py:36-39 | every successful read is reported, including the zero snapshot; a read that fails to decode ends the iteration with that error |
| Monitor.Run | sms_simulator/monitor.py:34-40 | one report per snapshot, in order, each exactly the report of the snapshot just read, until the first snapshot whose stored value does not decode |
| Producer.Decimal | sms_simulator/producer.py:20 | the decimal form of a number is a non-empty digit string with no leading zero |
| Producer.DecimalRoundTrip | sms_simulator/producer.py:20 | reading the decimal form back gives the original number |
| Producer.DecimalLength | sms_simulator/producer.py:20 | a number between 10^(k−1) and 10^k − 1 prints as exactly k digits |
| Producer.PhoneNumber | sms_simulator/producer.py:20 | a phone number is "+" and 10 digits, first digit non-zero, whose value is the draw |
| Producer.AlphabetIsAsciiAlnum | sms_simulator/producer.py:21 | a character is in the message alphabet iff it is an ASCII letter or digit |
| Producer.Message | sms_simulator/producer.py:21 | a message is exactly 100 characters, each the drawn alphabet character and an ASCII letter or digit |
| Producer.EncodeBody | sms_simulator/producer.py:22 | a body has exactly the two fields `phone_number` and `message`, holding the given strings |
| Producer.PublishFor | sms_simulator/producer.py:25-31 | a publish goes to the default exchange with routing key `sms_queue`, delivery mode 2, and a well-formed body |
| Producer.ProduceMessages | sms_simulator/producer.py:12-34 | exactly max(num_messages, 0) publishes, the i-th built from the i-th draw, each persistent, routed to `sms_queue` and well-formed |
| Config.Overlay | sms_simulator/config/base.py:17 | the result has exactly the table's keys; a key the environment defines takes its value, any other keeps the default |
| Config.OverlayIsRestrictedUnion | sms_simulator/config/base.py:17 | the overlay equals the table unioned with the environment restricted to the table's keys |
| Config.OverlayIdempotent | sms_simulator/config/base.py:17 | overlaying the same environment again changes nothing |
| Config.Load | sms_simulator/config/base.py:7-17 | the configuration has exactly the six keys, each holding the environment's value or "" when unset |
| Config.LoadIgnoresUnknownVariables | sms_simulator/config/base.py:17 | an environment variable outside the six keys never appears in, and never changes, the configuration |
| Config.GetProperty | sms_simulator/config/base.py:24-25 | the stored value for a known key, `None` for an unknown one |
| Config.GetPropertyOfLoad | sms_simulator/config/base.py:20-25 | looking up the loaded configuration gives the environment's value, "" when unset, `None` for an unknown key |

## Left out

- Broker and store clients (connection setup, `queue_declare`, `basic_consume`, `start_consuming`, `redis.Redis`) are network I/O. The queue is a sequence and the store a `Store` value with a reachability flag.
- The sending delay (`time.sleep(random.expovariate(1.0 / 2))`) and the monitor's `time.sleep(update_interval)` are timing only. They have no effect on any modelled value, so neither is modelled.
- Random draws are parameters constrained by subset types (phone range, alphabet index, uniform [0, 1)). Their distributions are not modelled.
- Floating-point rounding of `total_time` and the average, and the `:.2f` report formatting, are left out. Times are `real`.
- The JSON grammar is abstracted. A text is empty, an object (field map), a non-object value, or unparsable.
- StatsAggregate.FromRedis: a stored count that is not a JSON integer, or a time that is not a JSON number, is reported as `WrongType`. Python stores such a value in the record unchecked and fails, if at all, only later.
- StatsAggregate.ToJson: always writes `total_time` as a JSON real. Python writes an integer there if the record was read with an integer time.
- Sender.DecodeBody: the kinds of the two fields are not checked. The sender prints `phone_number` and reads `message` without ever using it.
- Sender.Consume: modelled over a finite queue; it stops when the queue is empty, while `start_consuming` blocks waiting for further deliveries.
- Monitor.Run: modelled over a finite sequence of snapshots, one per iteration. The source loop runs until interrupted.
- Logging, the JSON log formatter and all `print` output are output only.
- Command-line handling is left out: `argparse` in the monitor, whose parsed value is unused, and `sys.argv` parsing in the producer.
- `load_dotenv` and the typed accessors in the per-process config classes are left out. They are file loading and thin `int`/`float` casts over `get_property`.
- Cross-process concurrency and the read-modify-write race on the stats key are left out. No modelled code writes the stats key.
- The sender's queue name comes from `RABBITMQ_QUEUE` with default `sms_queue`, while the producer hard-codes `sms_queue`. The model uses one queue.
