# vessim control bridge and co-simulation adapters, in Dafny

This project models three parts of vessim, a co-simulation testbed for
carbon-aware computing:

- **The control bridge** (`vessim/sil/api_server.py`, module `SilApiServer`).
  These are the route handlers of `VessimApiServer` over the Redis store they share with the
  simulation.
  - `/sim/update` overwrites three scalar slots: `solar`, `ci` and `battery_soc`.
  - `/api/solar`, `/api/ci` and `/api/battery-soc` read those slots.
  - `/api/battery` and `/api/nodes/{item_id}` append timestamped commands to three log hashes.
  - `/sim/collect-set` returns the three hashes and empties them.

  Redis is modelled as an in-memory store, with the Redis rules the handlers depend on:
  - reading a hash that does not exist gives an empty mapping;
  - writing a field creates the hash;
  - deleting the last field removes the hash.

  The class `VessimApiServer` holds the store in fields. Its methods match the route handlers
  one for one. Each method is proved equal to a pure function on a `Store` value. `Handle` and
  `Run` treat the bridge as a state machine over a sequence of requests, which lets lemmas cover
  several requests:
  - the last write wins on each slot;
  - when every command is logged under a fresh timestamp, every logged entry comes back from
    exactly one drain, or is still in the bucket at the end;
  - a rejected power mode never reaches the simulation;
  - the node-mode scenario: write a mode, then drain twice.
- **The Monitor adapter** (`vessim/cosim/monitor.py`, module `CosimMonitor`).
  - At each step, one entity records its flattened inputs into a series keyed by attribute and
    then by wall-clock instant.
  - After the inputs, it records the values of an optional callback, and those values win on a
    shared attribute.
  - Entries are never removed.
  - The simulator steps every `step_size` ticks.
- **The Generator adapter** (`vessim/cosim/generator.py`, module `CosimGenerator`).
  - An entity publishes `p`, the profile's power at the step's instant.
  - The simulator asks to be stepped again at the tick of the profile's next update.
  - `SparseSteppingSound` proves that the ticks this skips would have published the same power.
    It assumes an ordered Clock and a profile that keeps `next_update`'s promise.

Shared vocabulary lives in `cosim_util.dfy` (module `CosimUtil`): wall-clock instants, the
Clock, scheduler inputs and the manifest (`meta`). `wrappers.dfy` holds `Option` and `Result`.
The Clock, `simplify_inputs` and the profile source are kept abstract, as function values,
because their code (vessim/cosim/_util.py, vessim/core/simulator.py) is not part of this model.

The response models declare `solar`, `ci` and `battery_soc` as `Optional[float]`
(vessim/sil/api_server.py:88, 97, 106). Each handler, however, calls `float()` on the raw GET result
(vessim/sil/api_server.py:93, 102, 111), so reading a slot that was never written raises `TypeError`
instead of answering null. The model gives `Failure(TypeError(key))`.

## Model

| member | source | states |
|---|---|---|
| SilApiServer.UpdateSlots | vessim/sil/api_server.py:202-207 | After an update, each of the three slots reads back the value just written. Every other key reads as before, the log hashes are untouched, and well-formedness is kept. |
| SilApiServer.AppendBattery | vessim/sil/api_server.py:159-172 | Both battery logs get the field for the given timestamp: one holds min_soc and the other grid_charge. Every other hash and every slot is unchanged. |
| SilApiServer.AppendNodeMode | vessim/sil/api_server.py:177-193 | A mode outside the three allowed ones gives HttpException 400 with the exact detail text and leaves the store unchanged. An allowed mode adds `{item_id: mode}` under the timestamp, touches only the power-mode log, and echoes the body. |
| SilApiServer.Drain | vessim/sil/api_server.py:121-134 | The answer holds the three buckets as they were. Afterwards they read as empty, while the slots and other hashes are unchanged. A well-formed store gives well-typed buckets. |
| SilApiServer.Handle | vessim/sil/api_server.py:90-207 | A failed request leaves the store unchanged. Only /sim/update changes the slots, and the three scalar reads change nothing. Well-formedness is kept, and every collect-set answer is well typed. |
| SilApiServer.LastUpdateWins | vessim/sil/api_server.py:202-207 | After any sequence of requests, each slot reads as written by the last /sim/update. With no update, the slots are as they were. |
| SilApiServer.NoLossNoDuplication | vessim/sil/api_server.py:121-193 | Take the entries in a bucket at the start plus those the requests log, each logged under a fresh timestamp. As a multiset, they are exactly the entries returned by the drains plus those left at the end. |
| SilApiServer.DrainTwice | vessim/sil/api_server.py:131-133 | A second drain right after the first returns three empty buckets. |
| SilApiServer.DrainedValuesWellTyped | vessim/sil/api_server.py:179-186 | Over any sequence of requests from a well-formed store, the store stays well-formed. Every collect-set answer holds only numbers in the battery logs and only accepted modes in the node log. |
| SilApiServer.NodeModeScenario | vessim/sil/api_server.py:177-193 | Setting node 3 to "normal" and then draining twice gives: the echo, then one entry `{3: normal}` under its timestamp, then empty buckets. |
| SilApiServer.VessimApiServer.constructor | vessim/sil/api_server.py:63-66 | A new server starts with an empty store. |
| SilApiServer.VessimApiServer.GetSolar | vessim/sil/api_server.py:90-94 | The read succeeds exactly when the slot was written, and then gives its value. Otherwise it gives the TypeError of that key. |
| SilApiServer.VessimApiServer.GetCi | vessim/sil/api_server.py:99-103 | The read succeeds exactly when the slot was written, and then gives its value. Otherwise it gives the TypeError of that key. |
| SilApiServer.VessimApiServer.GetBatterySoc | vessim/sil/api_server.py:108-112 | The read succeeds exactly when the slot was written, and then gives its value. Otherwise it gives the TypeError of that key. |
| SilApiServer.VessimApiServer.DeserializeRedisHash | vessim/sil/api_server.py:136-140 | The result has exactly the stored fields of the hash with their values. A missing hash gives an empty mapping. |
| SilApiServer.VessimApiServer.DeleteAllKeysInHash | vessim/sil/api_server.py:142-145 | Deleting the hash's fields one by one removes the hash and changes nothing else. |
| SilApiServer.VessimApiServer.GetCollectSet | vessim/sil/api_server.py:121-134 | The new store and the answer are exactly those of Drain on the old store. |
| SilApiServer.VessimApiServer.PutBattery | vessim/sil/api_server.py:159-172 | The body is echoed, and the new store is AppendBattery of the old one. |
| SilApiServer.VessimApiServer.PutNodes | vessim/sil/api_server.py:177-193 | The new store and the answer are those of AppendNodeMode, including the 400 rejection. |
| SilApiServer.VessimApiServer.PutUpdate | vessim/sil/api_server.py:202-207 | The body is echoed, and the new store is UpdateSlots of the old one. |
| CosimMonitor.Record | vessim/cosim/monitor.py:61-63 | Recording adds exactly the given attributes to the series. |
| CosimMonitor.RecordMeaning | vessim/cosim/monitor.py:55-67 | Each recorded attribute holds its value at the step's instant. Every other (attribute, instant) entry is kept, and nothing else appears. |
| CosimMonitor.RecordTwice | vessim/cosim/monitor.py:61-67 | Two write loops at one instant equal one recording of their union, and the second batch wins on a shared attribute. |
| CosimMonitor.MonitorModel.constructor | vessim/cosim/monitor.py:51-55 | The entity keeps out_path, fn and the Clock, and its series starts empty. |
| CosimMonitor.MonitorModel.RecordAll | vessim/cosim/monitor.py:61-63 | One write loop records every given attribute at the instant. |
| CosimMonitor.MonitorModel.Step | vessim/cosim/monitor.py:57-67 | Inputs are recorded at the tick's instant, and fn's values override them when fn is set. Without fn, only input attributes are added. Entries at other instants are never changed or removed. |
| CosimMonitor.MonitorSim.constructor | vessim/cosim/monitor.py:25-29 | The step size and the Clock start unset. |
| CosimMonitor.MonitorSim.Init | vessim/cosim/monitor.py:31-35 | The step size and Clock are stored, and the Monitor manifest is returned. From then on, next_step(time) is time + step_size. |
| CosimMonitor.MonitorSim.NextStep | vessim/cosim/monitor.py:46-47 | The next step comes exactly step_size ticks after the current one, so time advances whenever step_size is positive. |
| CosimMonitor.MonitorSim.Create | vessim/cosim/monitor.py:37-38 | Creates num fresh, pairwise distinct entities. They share the simulator's Clock and start with empty series. A kind outside META is refused. |
| CosimGenerator.GeneratorModel.constructor | vessim/cosim/generator.py:44-47 | The entity keeps the generator and Clock, and p starts as None. |
| CosimGenerator.GeneratorModel.Step | vessim/cosim/generator.py:49-51 | p becomes the power at the tick's instant. The inputs are ignored, so stepping twice at one tick gives the same p. |
| CosimGenerator.GeneratorSim.constructor | vessim/cosim/generator.py:24-25 | The Clock and generator start unset. |
| CosimGenerator.GeneratorSim.NextStep | vessim/cosim/generator.py:37-40 | On an ordered Clock, the next tick's instant is no later than the profile's next update. |
| CosimGenerator.GeneratorSim.Init | vessim/cosim/generator.py:27-32 | The Clock and generator are stored, and the Generator manifest is returned (one kind, param generator, attr p). next_step becomes to_simtime(next_update(to_datetime(time))). |
| CosimGenerator.GeneratorSim.Create | vessim/cosim/generator.py:34-35 | Creates num fresh, pairwise distinct entities. They all share the simulator's one generator and Clock, with p unset. A kind outside META is refused. |
| CosimGenerator.SparseSteppingSound | vessim/cosim/generator.py:37-51 | Take an ordered Clock and a profile whose power is constant until its next update. Every tick between a step and next_step would publish the same p as that step. |

## Left out

- ApiServer process management: the process subclass, uvicorn, the startup flag and waiting for startup. These are process and network plumbing with no effect on the data.
- Concurrency: each handler runs atomically. The race between a drain and a command that arrives between its reads and its deletes is not modelled.
- RedisDocker and the Redis wire protocol: the store is an in-memory map with the Redis rules the handlers rely on.
- FastAPI and pydantic validation, and JSON encoding. Request bodies arrive already parsed. A hash field holds its decoded value, and the string `item_id` key that json.dumps writes appears as the integer that the response model converts back.
- datetime.now(): each command is given its receipt timestamp as a parameter.
- SilApiServer.NoLossNoDuplication: the lemma requires every logged timestamp to be fresh. A repeated timestamp makes HSET overwrite a field, and the older entry is then lost.
- Floating point: numbers are reals.
- MonitorSim.finalize and MonitorModel.finalize: the pandas CSV export is I/O.
- The loguru logging in MonitorModel.step (vessim/cosim/monitor.py:60, 62, 66) is I/O and changes no state.
- The internals of Clock, simplify_inputs, VessimSimulator/VessimModel and Generator: these are abstract functions or fields.
- The sid, time_resolution and eid_prefix arguments of init, and the entity identifiers create returns: create returns the new entity objects.
- Arguments of create beyond out_path and fn: they are not modelled.
- CosimMonitor.MonitorSim.Create: requires init to have set the Clock, as the scheduler's protocol guarantees. A create before init, which would hand entities a None clock, is not modelled.
- CosimGenerator.GeneratorSim.Create: requires init to have run, for the same reason.
- CosimMonitor.MonitorModel.Step: the result of fn() is a parameter, because fn is user code.
- docs/extra/Installation.py is not modelled: it is documentation.
- CosimMonitor.MonitorSim.Create and CosimGenerator.GeneratorSim.Create pass every model kind on to the base class create (vessim/cosim/_util.py), which is not part of this model. The model assumes the scheduler only creates kinds that META declares, and refuses any other kind with UnknownModelKind.
