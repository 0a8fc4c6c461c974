# mayhem-mandrill: the message pipeline, modelled in Dafny

The mayhem service is a small asyncio tutorial program. A publisher puts `PubSubMessage` events on a
queue and a consumer takes them off. The code comes in three versions:

- `part_1/mayhem_1.py` runs a bounded, sentinel-terminated protocol over `queue.Queue`.
  `publish(queue, n)` puts messages with ids `1..n` and then one `None`.
  `consume(queue)` takes items from the head until it meets that `None`.
- `mayhem_4.py` runs the same protocol over `asyncio.Queue`.
- `mayhem.py` runs an endless publisher and consumer. Its message also carries two flags,
  `restarted` and `saved`. Two tasks that the consumer launches for each message set them:
  `restart_host` and `save`.

Every message has an instance name `"cattle-"` plus four random characters from `[a-z0-9]`. Its
hostname is derived from that name at construction: `"<instance name>.example.net"`.

The project has four modules:

- `Options`: the `Option` datatype. `None` is the queue's end-of-stream sentinel.
- `Naming`: the host-id alphabet, instance names and hostnames, each with its inverse.
- `Pipeline`: `mayhem_1.py` and `mayhem_4.py`. It holds the value message, a `FifoQueue` class whose
  `items: seq<Item>` field the queue operations reassign, the `Publish` and `Consume` methods with
  their loops, and `Run` (what `main` does).
- `Mayhem`: `mayhem.py`. It holds a `PubSubMessage` class whose flags are updated in place, and the
  `RestartHost`, `Save` and `Handle` methods.

The two pure descriptions that the imperative code is proved against are these:

- `Pipeline.Drain` is consume's behaviour, one `get` at a time.
- `Mayhem.ApplyAll` is the effect of the consumer's tasks, completing in some order.

`mayhem_4.py` is modelled as sequential steps. This matches what the code does. `put` on an
unbounded `asyncio.Queue` never suspends, so the publish task created first runs to completion
before the consume task takes its first item. That is the same order as the direct calls in
`mayhem_1.py`.

Randomness enters only as parameters:

- each host id is a value of the subset type `Naming.HostId` (four characters from the alphabet);
- the uuid message id of `mayhem.py` is an opaque string;
- the order in which `restart_host` and `save` complete is the `restartFirst` flag of
  `Mayhem.Handle`.

## Model

| member | source | states |
|---|---|---|
| `Naming.ChoiceIsLowercaseOrDigit` | mayhem_mandrill/part_1/mayhem_1.py:26 | a character is in `ascii_lowercase + digits` exactly when it is `a`..`z` or `0`..`9` |
| `Naming.InstanceName` | mayhem_mandrill/part_1/mayhem_1.py:28-29 | the instance name is 11 characters long: `"cattle-"` followed by 4 characters, each a lower-case letter or a digit |
| `Naming.InstanceNameRoundTrip` | mayhem_mandrill/mayhem_4.py:31-33 | `HostIdOf(name) == Some(h)` if and only if `InstanceName(h) == name`, so distinct host ids give distinct instance names and the host id can be recovered |
| `Naming.Hostname` | mayhem_mandrill/part_1/mayhem_1.py:21-22 | the hostname is exactly the instance name followed by `".example.net"` |
| `Naming.HostnameRoundTrip` | mayhem_mandrill/mayhem_4.py:22-23 | `InstanceNameOf(host) == Some(name)` if and only if `Hostname(name) == host`, so the hostname determines the instance name |
| `Pipeline.NewMessage` | mayhem_mandrill/part_1/mayhem_1.py:15-22 | construction keeps the instance name and the id, and the hostname it derives maps back to that instance name |
| `Pipeline.FifoQueue.constructor` | mayhem_mandrill/part_1/mayhem_1.py:57 | a new queue is empty |
| `Pipeline.FifoQueue.Put` | mayhem_mandrill/part_1/mayhem_1.py:32 | `put` appends the item at the tail and leaves everything before it in place |
| `Pipeline.FifoQueue.Get` | mayhem_mandrill/part_1/mayhem_1.py:42 | `get` returns the head and removes exactly that item |
| `Pipeline.Published` | mayhem_mandrill/part_1/mayhem_1.py:27-30 | publish builds one message per host id; the i-th has id i+1, so the ids are 1..n and strictly increasing, and its instance name is built from the i-th host id |
| `Pipeline.Batch` | mayhem_mandrill/mayhem_4.py:30-37 | one publish call yields n+1 items: the n messages in order, none of them a sentinel, then exactly one `None` |
| `Pipeline.Publish` | mayhem_mandrill/part_1/mayhem_1.py:25-36 | after `publish(q, n)`, the queue is the old queue followed by `Batch` (only appends, the old items stay in front); for n <= 0 only the sentinel is appended |
| `Pipeline.SentinelIndex` | mayhem_mandrill/part_1/mayhem_1.py:44-46 | the index where consume stops holds a `None`, and no `None` comes before it |
| `Pipeline.Drain` | mayhem_mandrill/mayhem_4.py:40-45 | consume's get/break loop as a recursion: the processed messages, the one sentinel that stops it and the items left behind add up to the queue's length; `Pipeline.DrainAtFirstSentinel` identifies which items go where |
| `Pipeline.Consume` | mayhem_mandrill/part_1/mayhem_1.py:39-46 | consume requires a `None` on the queue, because `get` would otherwise block forever; it processes exactly the messages before the first `None`, removes that `None`, and leaves every later item on the queue |
| `Pipeline.DrainAtFirstSentinel` | mayhem_mandrill/part_1/mayhem_1.py:40-46 | the step-by-step consume stops at the first sentinel: it processes the items before it, in order, and leaves everything after it |
| `Pipeline.DrainKeepsTail` | mayhem_mandrill/mayhem_4.py:43-45 | items put after the first sentinel do not change what consume processes, and they remain queued in order |
| `Pipeline.DrainAfterPublish` | mayhem_mandrill/mayhem_4.py:34-45 | FIFO hand-off: with messages already pending and no sentinel among them, consume after a publish processes the pending messages and then messages 1..n in publish order, and it leaves the queue empty |
| `Pipeline.Run` | mayhem_mandrill/part_1/mayhem_1.py:57-59 | publish n on a new queue and then consume: exactly the n published messages are processed, with ids 1..n in order, and the queue ends empty |
| `Mayhem.PubSubMessage.constructor` | mayhem_mandrill/mayhem.py:17-26 | a new message keeps its instance name and id, and its hostname maps back to its instance name; `restarted` and `saved` are optional arguments that default to false, and each flag is set from its argument |
| `Mayhem.NewMessage` | mayhem_mandrill/mayhem.py:56-59 | each publish round creates a fresh message with the given uuid id and the instance name of the given host id, with both flags false |
| `Mayhem.RestartHost` | mayhem_mandrill/mayhem.py:67-77 | `restart_host` sets `restarted` to true and changes no other field |
| `Mayhem.Save` | mayhem_mandrill/mayhem.py:80-90 | `save` sets `saved` to true and changes no other field |
| `Mayhem.Handle` | mayhem_mandrill/mayhem.py:40-43 | whichever of the two tasks completes first, the message ends with both flags true and its identity unchanged, which is the same state for both orders |
| `Mayhem.ApplyAllOrderFree` | mayhem_mandrill/mayhem.py:42-43 | for any sequence of completed restarts and saves, the resulting message depends only on which of the two happened at least once; order and repetition do not matter |
| `Mayhem.ApplyAllOnlyRaises` | mayhem_mandrill/mayhem.py:76-89 | flags only go from false to true: after any sequence of effects the identity fields are unchanged and no flag that was set has been cleared |
| `Mayhem.EffectsCommute` | mayhem_mandrill/mayhem.py:76-89 | each effect is idempotent, and restart and save commute |

## Left out

- Logging: `logging.basicConfig` and every `logging.*` call only produce output. The messages that
  `Consume` returns stand for the "Consumed ..." lines.
- `time.sleep`, `asyncio.sleep` and `random.random()` latencies, and the wall-clock `duration` in
  `mayhem_1.py`. They are float-valued time and hold no state.
- `random.choices` and `uuid.uuid4()` are parameters: the host ids and the message id.
- Event-loop plumbing: `get_event_loop`, `create_task`, `run_forever`, `loop.close` and the
  `KeyboardInterrupt` handling in each `main`. `mayhem_4.py`'s `main` has the effect of `Pipeline.Run`
  with n = 5. The model has no scheduler.
- The endless `publish` and `consume` loops of `mayhem.py`. Their `queue.put` calls run as detached
  tasks with no ordering guarantee, and the loops never stop. One round of each is modelled:
  `Mayhem.NewMessage` for publish, and `Mayhem.Handle` for what the two tasks do to a dequeued message.
- Interleaving of `restart_host` and `save` at their `await` points. Each task writes only its own
  flag, after its sleep. So the model captures the possible outcomes through the completion order
  that `Mayhem.Handle` takes as a parameter.
- Internal synchronisation of `queue.Queue` and `asyncio.Queue`. Blocking on an empty queue becomes a
  requirement instead: `FifoQueue.Get` requires a non-empty queue, and `Consume` requires a `None`
  on it. The source blocks forever in the cases these requirements exclude.
- `restart_host` and `save` have no failure path, and nothing runs after both complete. So the model
  has no error case and no step after `Mayhem.Handle`.
- `mayhem_4.py` computes an `instance_name` at line 32 that it does not use; the message is built from
  the same string written out again at line 33. The model builds it once.
