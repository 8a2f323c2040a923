# Resident decode epochs, modelled and proved

The repository keeps a batch of up to four decoding requests resident on an NPU. A controller on the device
(`controller/`) holds, per row, a lease (generation, token, position, length) over a paged KV cache, and runs up to
eight decoder steps per call. A host scheduler (`src/`) leases rows and generations, decides which requests the device
advances and for how many steps, and accounts for the tokens; a sidecar process and a native bridge (`native/`) carry
plans, KV transfers and results between the two. This project models these parts and proves what they promise
together. It also covers the archived tiled matrix-product kernel and two small log and profile tools.

The files, from the device outwards:

- `Layout`, `Flow`, `Adler`: block layout of the caches, the messages and the sampling, the checksum.
- `EpochSpec`: what one controller call does, as functions of the state and the messages. `EpochRun` and `Controller`:
  the same as classes over arrays, proved equal to those functions path by path.
- `EpochRows`, `EpochConditions`, `RowDecoder`, `EpochSplit`, `LeaseHistory`, `FailureFrame`, `TableIsolation`,
  `ImportChecksum`, `ZeroChecksum`: properties of calls and of whole call sequences. `AbiReduction`, `OldOutputs`: the
  earlier ten-message controller against the present one, and its ten outputs.
- `Contract`, `Bridge`, `Sidecar`: plans and results, the native bridge's messages and outputs, and the way back.
  `CommitProtocol`: who may run a plan when anything on the way fails.
- `Wire`, `KvTransfer`, `DeviceIpc`, `DeviceImport`: the two ways of handing KV over.
- `RowLeases`, `Scheduler`, `SchedulerSafety`, `EpochSchedule`, `PlanConditions`: the scheduler. `Lockstep`, `LockstepRuns`:
  scheduler and device as one system. `SchedulerRounds`: the scheduler's class over whole rounds of it. `LoneRuns`, `CapacityRuns`, `AnsweringDecoder`, `DeviceRuns`: one request alone, and
  that its runs exist. `SoloRounds`, `StrandedRequest`, `WarmupCollision`, `ReusedId`: where lockstep ends. `EndToEnd`: every
  token of a request on the device is the one-request decoder's.
- `Swizzle`, `TiledSum`, `Pipeline`, `TiledProduct`, `TiledKernel`: the kernel. `BoundedLog`, `IdleGaps`: the tools.

What cannot be seen from the repository is a parameter. The decoder graph is a function from its nine inputs to a
return code and outputs; nothing is assumed of it except where a statement says `RowLocal`: that it computes each
active row from that row alone, and leaves the KV of inactive rows as it is. Logits are not-a-number-or-infinite, or a
real. Which allocations succeed, what the KV manager, the base scheduler, the IPC driver and the socket do are
parameters or events; the base scheduler's axioms are the predicate `Scheduler.Lawful`: it admits waiting requests,
schedules some of those then running and never more tokens than a request has left. It adds the scheduled counts and
appends sampled tokens up to a stop.

Conditions worth knowing, each proved exact or shown by an example:

- Clearing and importing use the identity layout (row r owns blocks 2r and 2r + 1 of every layer), whatever block table
  the call brings. `TableIsolation` says for exactly which tables rows stay apart, and gives for every other table two
  calls of which the second wipes out the first one's row. The bridge sends the identity table, for which row isolation
  is stated.
- A call that fails in the decoder after its clears leaves the superseded lease's metadata over zeroed KV. Such rows are
  `Superseded` in `LeaseHistory`; nothing is claimed of them until their next lease. `FailureFrame.FailedState` gives the
  state left behind.
- An import has already rewritten its rows when the continuity check of the other rows fails
  (`FailureFrame.FailureKeeps` excepts them).
- A request with a one-token prompt that has taken a host step is later planned beyond position 0 without its KV and is
  refused with status 212; `StrandedRequest` has the run. `LockstepRuns.PlansContinue` has the exact condition.
- The warm-up uses generation 2^31 - 1, the last one the allocator can hand out, on row 0. `WarmupCollision` has a run in
  which a request gets that generation and is refused, and one in which it looks like the warm-up continued and is
  accepted. `LockstepRuns.PlansContinue` and `EndToEnd` cover both.
- A valid device transfer can be refused: the bridge demands eight blocks of source memory where the host's validation
  demands only the blocks named, and reads keys as C strings (`DeviceImport.BridgeAccepts`,
  `DeviceImport.SmallAllocationRefused`). The device path in turn accepts blocks the snapshot refuses
  (`DeviceImport.TransferBeyondTensor`).
- A payload whose checksum is zero can be neither read by the bridge nor accepted by the contract
  (`Sidecar.SnapshotAccepted`, `Sidecar.SuccessMeetsContract`). `ZeroChecksum` has one for every mask.
- The device owns an id until a plan is made without it, whether its request finishes or is aborted. A request that comes
  back under it before that makes the round that schedules it fail; after that it does not (`ReusedId.ReusedIdFate`,
  with runs).
- A request with prompt + max_tokens - 1 beyond the capacity is planned all the same and ends with an exception of the
  scheduler when the device owns it and its next epoch does not fit; `CapacityRuns` and `DeviceRuns` have the exact
  condition for a request alone, and the runs.

Assumptions: runs of the whole system end with the first failed device epoch, as the scheduler's exception does; and no
plan follows an exception of the worker, although it keeps its backend and socket, on which a response that arrives late
would be read as the answer to the next plan.

## Model

| member | source | states |
|---|---|---|
| LeaseHistory.HeldRowsReplay | controller/g4c_b4_resident_epoch.cpp:387-614 | After any sequence of calls, successful or failing, every row whose lease has not been superseded belongs to the generation last accepted for it and holds exactly the KV, token, position and length of the one-request decoder replayed over that lease's reported tokens, from zeroed KV or from its imported blocks; the former tenant and the other rows play no part |
| LeaseHistory.EpochHolds | controller/g4c_b4_resident_epoch.cpp:387-614 | One call keeps a row's tenancy whatever its status: imported, superseded by a failed call, extended, or left alone |
| EndToEnd.OwnedRequestsDecoded | src/vllm_ascend_resident_epoch/scheduler.py:237-366 | After every run of arrivals, aborts, host rounds and device rounds with a row-local decoder and captured imports, each request whose state the device holds has, from the start of its lease on, exactly the tokens the one-request decoder makes alone, and its row holds the state that decoder reached. A longer prompt's lease starts from the request's own scheduler block of the stock caches, its last token and its position, as they were in the event that handed it over; a one-token prompt's from zeroed KV at position 0, or, if an event took it for the warm-up, whose generation it had, from what that had left in the row |
| EndToEnd.CohortDecoded | src/vllm_ascend_resident_epoch/scheduler.py:330-366 | The same for every request of a device round, those the round finishes too, as accounting and the base scheduler leave their tokens |
| EndToEnd.RequestStarts | controller/g4c_b4_resident_epoch.cpp:387-471 | In an admitted call a request goes on if the device owns it or has its generation on its row, else a longer prompt starts from its import, and a one-token prompt starts at position 0 on a cleared row; nothing else is admitted |
| EndToEnd.HostRoundLeaves | src/vllm_ascend_resident_epoch/scheduler.py:163-192 | A host round changes neither tokens nor prompt, row or generation of any request the device still holds |
| EndToEnd.CaptureIsCaptured | src/vllm_ascend_resident_epoch/kv_transfer.py:362-428 | What the snapshot capture returns, and the device path builds byte for byte, is a payload of the kind the runs import |
| EndToEnd.ImportIsOwnKv | src/vllm_ascend_resident_epoch/kv_transfer.py:386-419 | The state an import starts a lease from is the request's own block of every stock key and value cache, a zero block after each, its token and its position |
| TableIsolation.IsolatingTables | controller/g4c_b4_resident_epoch.cpp:129-147 | Over all sequences of calls with a block table, clears and imports leave alone every row they are not for if and only if the table keeps each row's positions in one of the two blocks the identity layout gives the row |
| TableIsolation.LeaseWipes | controller/g4c_b4_resident_epoch.cpp:465-471 | With any other valid table two calls on a new device, both successful: the first leases a row and fills its block, the second leases another row, leaves the first its lease and wipes out its KV |
| RowDecoder.EpochDecodes | controller/g4c_b4_resident_epoch.cpp:473-614 | A successful batched epoch refines four one-request decoders: each active row ends in the state, and has made the tokens, of the plain decoder started from its own KV; the KV of inactive rows is untouched |
| RowDecoder.LoopDecodes | controller/g4c_b4_resident_epoch.cpp:485-590 | The rest of the batched loop from any point is, for every row, the rest of the one-request decoder |
| RowDecoder.DecodeSplit | controller/g4c_b4_resident_epoch.cpp:485-590 | Decoding n + k steps is decoding n and, for a row that survived without EOS, k more from where it stopped |
| EpochSplit.SplitEpoch | controller/g4c_b4_resident_epoch.cpp:485-614 | An epoch of n steps followed by one of k steps over the survivors gives the same concatenated tokens for every row, the same total of decoder calls and the same final resident state as one epoch of n + k steps; the first succeeds whenever the joint one does |
| EpochSplit.ShorterSucceeds | controller/g4c_b4_resident_epoch.cpp:485-590 | In the same context a shorter epoch succeeds whenever the longer one does: its loop is a prefix |
| EpochSplit.NextAdmitted | controller/g4c_b4_resident_epoch.cpp:335-464 | The second of the two epochs always passes validation and continuity |
| EpochRows.EpochShape | controller/g4c_b4_resident_epoch.cpp:546-614 | With any decoder, a successful epoch gives each active row between one and max_steps tokens, stops it early only at its first EOS, has one row use every decoder call, and moves exactly the active rows' metadata to the last token made |
| EpochRows.ImportEffect | controller/g4c_b4_resident_epoch.cpp:387-429 | An import overwrites exactly the rows it reaches, with the payload's blocks followed by zero blocks, and succeeds exactly when the mask is valid and every selected row is active with a positive generation; other rows keep everything |
| EpochRows.ClearEffect | controller/g4c_b4_resident_epoch.cpp:448-471 | Clearing zeroes exactly the rows given a new generation and changes no metadata |
| EpochRows.FinishReasons | controller/g4c_b4_resident_epoch.cpp:592-597 | After a successful epoch an active row finished at EOS exactly if that is its last token and otherwise reached the bound and stays active; an inactive row made nothing and is reported empty or already finished |
| FailureFrame.FailureKeeps | controller/g4c_b4_resident_epoch.cpp:326-471 | On any failing status a row that is not imported keeps its metadata and, unless the call gives it a new generation, its KV; a continuity failure clears nothing |
| FailureFrame.FailedState | controller/g4c_b4_resident_epoch.cpp:326-581 | What a failing call leaves behind, by how far it got; after a valid import only statuses 207 to 212 remain |
| FailureFrame.BridgeStatuses | native/resident_epoch_bridge.cpp:524-566 | Messages built by the bridge never yield statuses 201 to 206: a call succeeds, fails its continuity check, or fails inside the decoder |
| ImportChecksum.ImportChecksumAgrees | controller/g4c_b4_resident_epoch.cpp:402-445 | For every payload and mask the device checksum over the resident cache after the import is the host's checksum of the payload; selected rows hold the payload's block and a zero block, unselected rows are unchanged |
| ImportChecksum.ControlCarriesChecksum | controller/g4c_b4_resident_epoch.cpp:296-306 | Whenever the import completed, word 5 of the control output is that checksum, through the signed 32-bit conversion and back |
| ImportChecksum.KvPayloadChecksum | src/vllm_ascend_resident_epoch/kv_transfer.py:159-174 | The host loop chained over zlib.adler32 is Adler-32 of the selected blocks, keys before values, layer by layer and row by row |
| AbiReduction.RunsAgree | controller-old/g4c_b4_resident_epoch.cpp:217-234 | For every sequence of calls without the import flag whose first caches are zero, both controllers return the same histories and control outputs and keep the same resident state |
| AbiReduction.EpochsAgree | controller-old/g4c_b4_resident_epoch.cpp:282-552 | The old phases, written out on their own with their logits history and control word, leave the same state and show the same outputs as the new ones without an import |
| AbiReduction.LoopsAgree | controller-old/g4c_b4_resident_epoch.cpp:402-520 | The old decode loop, which also copies logits, stops with the same status, calls and tokens, or ends in the same state |
| AbiReduction.LaterCachesIgnored | controller-old/g4c_b4_resident_epoch.cpp:217-234 | Once the resident caches exist, the caches later calls bring change neither outputs nor state over any further run |
| AbiReduction.OldResidentEpoch.Proc | controller-old/g4c_b4_resident_epoch.cpp:160-552 | The old ten-input call in place: boot copy of the caches, admission, decode loop with logits history, ten outputs, equal to the functions the next three rows are about |
| OldOutputs.RepliesHold | controller-old/g4c_b4_resident_epoch.cpp:262-552 | The ten outputs of an old epoch. On success the returned caches are the resident ones, an active row's token, position and length are its new metadata, with the slot of that position and whether it met its EOS, and an inactive row's outputs are its inputs; a fallback returns all inputs and the resident caches. Cell by cell, the logged logits are those the history token was sampled from |
| OldOutputs.CallsHold | controller-old/g4c_b4_resident_epoch.cpp:160-300 | The same for whole calls: the first decodes on the two caches it brings, every other on the resident ones, and the state and control output are the new controller's |
| OldOutputs.LoopKeepsLogits | controller-old/g4c_b4_resident_epoch.cpp:402-520 | Through the whole decode loop, ended or stopped, each token's logits are in the token's cell, and zeros where nothing was sampled |
| AbiReduction.LoggedRun.DecodeAll | controller-old/g4c_b4_resident_epoch.cpp:402-520 | The old loop in place equals its specification, logits history included |
| Controller.ResidentEpoch.Proc | controller/g4c_b4_resident_epoch.cpp:177-622 | One call on arrays changes the state and replies exactly as the specification function of the state and the messages says, on every path |
| Controller.ResidentEpoch.constructor | controller/g4c_b4_resident_epoch.cpp:168-175 | The state after Init is the empty one |
| Controller.ResidentEpoch.Allocate | controller/g4c_b4_resident_epoch.cpp:247-262 | First use allocates zeroed caches; later calls keep them |
| Controller.ResidentEpoch.ImportAll | controller/g4c_b4_resident_epoch.cpp:387-446 | The in-place import equals the specified one row after row, including the half-done import of a bad mask row, and returns its checksum |
| Controller.ResidentEpoch.ImportOne | controller/g4c_b4_resident_epoch.cpp:402-429 | Importing one row clears its blocks, copies the payload's and takes over its arguments |
| Controller.ResidentEpoch.CheckContinuity | controller/g4c_b4_resident_epoch.cpp:448-464 | Passes exactly when every active row continues its lease or starts a new one at position 0, and flags exactly the new leases |
| Controller.ResidentEpoch.ClearFresh | controller/g4c_b4_resident_epoch.cpp:465-471 | Zeroes the KV of the flagged rows and nothing else |
| Controller.ResidentEpoch.CommitAll | controller/g4c_b4_resident_epoch.cpp:599-614 | Commits the final caches and the active rows' token, position, length and generation |
| Controller.ResidentEpoch.RunAdmitted | controller/g4c_b4_resident_epoch.cpp:465-622 | Clear, decode, and commit or fall back, with the token history of whatever was executed |
| Controller.CheckInput | controller/g4c_b4_resident_epoch.cpp:335-385 | The status of the first failing check, in the order of the code |
| EpochConditions.InputAccepted | controller/g4c_b4_resident_epoch.cpp:335-385 | A call is accepted exactly with greedy sampling, graph 0, one to eight steps, EOS tokens in the vocabulary, eight distinct blocks and rows that fit; 205, 206 and 203 have their exact causes |
| EpochConditions.MisfitRefused | controller/g4c_b4_resident_epoch.cpp:354-385 | Otherwise the first row that does not fit decides: 204 if it would fit with the slot of its position, 202 if it would fit into an epoch of no steps, 201 otherwise |
| Controller.CheckTable | controller/g4c_b4_resident_epoch.cpp:346-353 | Accepts exactly the tables of distinct blocks in range |
| Controller.ClearCacheRow | controller/g4c_b4_resident_epoch.cpp:129-147 | Zeroes the two blocks a row has in every layer and no other block |
| Controller.CopyPayloadRow | controller/g4c_b4_resident_epoch.cpp:411-423 | Copies the payload block of every layer over the row's first block and no other |
| Controller.ChecksumCache | controller/g4c_b4_resident_epoch.cpp:432-444 | Continues the checksum over the first blocks of the selected rows |
| Controller.EmitControl | controller/g4c_b4_resident_epoch.cpp:296-316 | Writes the 28 control words |
| EpochConditions.ControlOfEpoch | controller/g4c_b4_resident_epoch.cpp:296-333 | The control output of any epoch: finish reasons from the row's last token or the failure, the number of rows started, and the number left active, on success those that reached the bound |
| EpochConditions.ControlWords | controller/g4c_b4_resident_epoch.cpp:296-324 | Which word carries what |
| EpochRun.Run.DecodeAll | controller/g4c_b4_resident_epoch.cpp:485-590 | The loop over decoder calls in place equals the recursive specification: bound, early end, statuses and lanes |
| EpochRun.Run.StepOnce | controller/g4c_b4_resident_epoch.cpp:489-589 | One decoder call with its output checks and all four rows |
| EpochConditions.StepOutcome | controller/g4c_b4_resident_epoch.cpp:485-581 | Every decoder call of an accepted epoch: 207 for a failed call, 208 for outputs of the wrong kind, 211 for a failed allocation; else the first row whose logits are not finite (209) or whose position did not move as it must (210) ends it, and without one it goes on |
| EpochConditions.StepSamples | controller/g4c_b4_resident_epoch.cpp:546-590 | A step that goes on samples each active row's first largest logit, leaves inactive rows alone and takes over the decoder's caches |
| EpochRun.Run.StepRequests | controller/g4c_b4_resident_epoch.cpp:546-581 | The rows of one step in order; the first that fails ends it, with what earlier rows did kept |
| EpochRun.Run.HistoryIsLanes | controller/g4c_b4_resident_epoch.cpp:194-198 | The step-major history array is what the rows have made, padded with -1 |
| Flow.ArgmaxFinite | controller/g4c_b4_resident_epoch.cpp:99-119 | The scanning loop returns the first largest logit, or nothing if any logit is not finite |
| Flow.Greedy | controller/g4c_b4_resident_epoch.cpp:99-119 | What greedy sampling means: none exactly if some logit is not finite, otherwise the first index of the maximum |
| Adler.Adler32Update | controller/g4c_b4_resident_epoch.cpp:149-163 | With both accumulators 32 bits wide and one reduction a chunk, the update equals the byte-by-byte definition of section 8.2 of RFC 1950 for every byte string |
| Adler.BoundedStep | controller/g4c_b4_resident_epoch.cpp:154-157 | Inside a chunk neither unreduced accumulator leaves 32 bits |
| Adler.ChunkIsMaximal | controller/g4c_b4_resident_epoch.cpp:153 | The worst case of n unreduced bytes fits 32 bits if and only if n is at most 5552 |
| Adler.SumAppend | src/vllm_ascend_resident_epoch/kv_transfer.py:171-173 | Continuing a checksum over more data is the checksum of the concatenation |
| Adler.SumIsTotals | src/vllm_ascend_resident_epoch/kv_transfer.py:159-174 | Reducing at every byte does not matter: the sums are one plus all bytes, and all first sums together, modulo 65521 |
| Adler.KnownChecksum | src/vllm_ascend_resident_epoch/kv_transfer.py:159-174 | The checksum of "Wikipedia" is 0x11E60398 |
| Adler.BlocksSumIsSum | controller/g4c_b4_resident_epoch.cpp:432-444 | Updating block by block over selected blocks is the checksum of their concatenated bytes |
| Adler.PackRoundTrip | controller/g4c_b4_resident_epoch.cpp:445 | The packed word determines both reduced sums |
| Sidecar.SuccessMeetsContract | src/vllm_ascend_resident_epoch/contract.py:138-214 | Every status-0 answer, transposed by the bridge and decoded by the sidecar, passes the contract; an import's passes exactly when its payload's checksum is not zero |
| Sidecar.AllServed | controller/g4c_b4_resident_epoch.cpp:546-597 | Every request of the plan gets 1 to max_steps tokens within the vocabulary, short only at EOS and with no earlier EOS, and its generation is echoed |
| Sidecar.SuccessCollects | native/resident_epoch_bridge.cpp:632-642 | The bridge never rejects the executed counts of a successful answer |
| Sidecar.FallbackMeetsContract | src/vllm_ascend_resident_epoch/plugin.py:91-113 | The attached fallback result passes the contract exactly when every request of the plan is owned by the host |
| Sidecar.SnapshotAccepted | native/resident_epoch_bridge.cpp:108-154 | A snapshot the host has validated is read by the bridge exactly when its generations are the call's and its checksum is not zero |
| ZeroChecksum.PayloadWithoutChecksum | src/vllm_ascend_resident_epoch/kv_transfer.py:159-174 | For every import mask there is a payload whose checksum is zero |
| ZeroChecksum.ValidButUnread | native/resident_epoch_bridge.cpp:108-154 | A snapshot with that payload is valid for the host and not read by the bridge |
| Sidecar.ByRow | src/vllm_ascend_resident_epoch/sidecar_backend.py:60-64 | Scatters a field to its rows, the rest filled |
| Sidecar.ReadTokens | src/vllm_ascend_resident_epoch/sidecar_backend.py:390-399 | Reads each request's tokens from its row, or reports a count below zero or beyond the epoch |
| Sidecar.ArgsAt | src/vllm_ascend_resident_epoch/sidecar_backend.py:344-356 | The request frame carries every request's fields in its own row, and generation 0 in rows without one |
| Bridge.BuildMessages | native/resident_epoch_bridge.cpp:443-566 | Bad call exactly for a count outside 1 to 4 or a bound outside 1 to 8; else a bad row exactly if a used row is unfit; else a bad count exactly if the count is not the number of used rows; else the eight messages |
| Bridge.DeviceReads | native/resident_epoch_bridge.cpp:482-566 | The device decodes accepted arguments' messages to exactly the arguments: bound, import and tiling, the identity table, used rows with their values and the slot of their position, unused rows empty |
| Sidecar.PlanAccepted | native/resident_epoch_bridge.cpp:443-480 | A valid plan of one to four requests is accepted exactly if it has one to eight steps and every token, EOS and position is in range; otherwise it is a bad call or a bad row |
| Bridge.FillRows | native/resident_epoch_bridge.cpp:524-552 | Fills the buffers row by row and stops at the first bad row |
| Bridge.Collect | native/resident_epoch_bridge.cpp:632-642 | Turns the step-major history into padded rows, or reports a count out of range |
| Bridge.FedDecodes | native/resident_epoch_bridge.cpp:555-597 | The controller decodes from these messages exactly the arguments the bridge was given |
| Bridge.FedValid | native/resident_epoch_bridge.cpp:524-566 | What it decodes passes validation, on the identity block table, and every selected row can be imported |
| Contract.Validate | src/vllm_ascend_resident_epoch/contract.py:77-112 | Passes exactly the valid plans |
| Contract.ValidPlans | src/vllm_ascend_resident_epoch/contract.py:77-113 | A plan is valid exactly if it has version 3, a batch of 1, 2 or 4, requests told apart by id, row and generation, each at its next position, within capacity and imported from the host only, and a mask of one in exactly their rows |
| Contract.AcceptedFromDevice | src/vllm_ascend_resident_epoch/contract.py:138-214 | A device result is accepted exactly if committed with status 0 after one feed and one fetch, with the generations echoed, the import proved, early stops at EOS only and as many decoder calls as the longest request has tokens |
| Contract.AcceptedFromHost | src/vllm_ascend_resident_epoch/contract.py:138-214 | A fallback result is accepted exactly if nothing was fed or fetched, it is safe and prepared, every request is the host's and made one token |
| Contract.ScatterAt | src/vllm_ascend_resident_epoch/contract.py:67-71 | With one request a row every request finds its own value there and the other rows hold the fill |
| Contract.CheckRequests | src/vllm_ascend_resident_epoch/contract.py:98-112 | The loop over requests accepts exactly when each is valid and then has built the expected mask |
| CommitProtocol.AtMostOneRoute | src/vllm_ascend_resident_epoch/plugin.py:32-57 | Over every run, with every failure and lost or ambiguous response, no plan is fed twice or both fed and run on the host, and a plan that ended without an exception was executed exactly once |
| CommitProtocol.HostRunIsSafe | src/vllm_ascend_resident_epoch/plugin.py:42-57 | The host runs a plan only if every request is still its own, nothing was fed, and the error, if any, proves PREPARED |
| CommitProtocol.CommitOnlyAdvances | native/resident_epoch_server.cpp:170-203 | Within a request the commit state moves forward one value at a time |
| CommitProtocol.AmbiguityRaises | src/vllm_ascend_resident_epoch/sidecar_backend.py:361-376 | After an ambiguous response the run can only end with an exception |
| CommitProtocol.EndedByDevice | src/vllm_ascend_resident_epoch/backend.py:126-182 | A response ends a plan as a device result exactly if transport and device report success, it claims COMMITTED and it meets the contract; the plan was then fed once and not run on the host |
| CommitProtocol.RaisedStays | src/vllm_ascend_resident_epoch/backend.py:126-144 | After an exception nothing more is sent or run, whatever the server still does |
| CommitProtocol.Serve | native/resident_epoch_server.cpp:164-204 | One answer a request, in order, up to the shutdown request. It says PREPARED exactly when nothing was fed, COMMITTED exactly when the bridge returned 0; it has outputs exactly then, collected from that request's own history and control, and only for executing requests; every refusal has its own code |
| CommitProtocol.AnswerDelivers | native/resident_epoch_server.cpp:190-199 | The outputs in an answer are, row by row, the tokens, counts and generations of the epoch the device ran for that request |
| CommitProtocol.SuccessAnswered | native/resident_epoch_server.cpp:190-199 | An accepted call whose epoch succeeds, its import proved, is answered with outputs |
| CommitProtocol.AnswersAreTruthful | native/resident_epoch_server.cpp:171-203 | What the loop answers is what the protocol allows its server to say |
| CommitProtocol.Worker.ExecuteModel | src/vllm_ascend_resident_epoch/plugin.py:22-57 | The host runs a plan exactly when it is replay-safe and either no backend could be loaded or the failed execution proves PREPARED; otherwise the device result is returned or the exception passed on; the backend is loaded once |
| CommitProtocol.Execute | native/resident_epoch_bridge.cpp:424-649 | PREPARED exactly when nothing was fed, COMMITTED exactly when the call succeeds, and that exactly when the outputs were fetched with counts in range and the checksum proof holds |
| DeviceImport.ModesAgree | src/vllm_ascend_resident_epoch/kv_transfer.py:386-419 | For the same plan and stock caches the device path and the snapshot path build byte-identical payloads, masks and generations |
| DeviceImport.BridgeAccepts | native/resident_epoch_bridge.cpp:156-199 | After the wire round trip a transfer the host validated is accepted exactly when its generations are the plan's, its allocations hold eight blocks and no key has a NUL before another character |
| DeviceImport.SmallAllocationRefused | native/resident_epoch_bridge.cpp:224-227 | A valid transfer of one block that the bridge refuses |
| DeviceImport.SnapshotImpliesTransfer | src/vllm_ascend_resident_epoch/kv_transfer.py:322-352 | Wherever the snapshot can be taken the device transfer is valid too |
| DeviceImport.TransferBeyondTensor | src/vllm_ascend_resident_epoch/kv_transfer.py:97-112 | The converse fails: a block outside the tensor but inside its allocation is refused by the snapshot only |
| DeviceImport.CopyInBounds | native/resident_epoch_bridge.cpp:248-268 | Every copy of an accepted transfer stays inside its source and its destination |
| DeviceImport.IpcEngine.Prepare | native/resident_epoch_bridge.cpp:218-273 | Succeeds exactly when the allocation is large enough and every key can be imported, and then every payload block is the selected stock block or zero |
| DeviceImport.IpcEngine.ImportMemory | native/resident_epoch_bridge.cpp:201-216 | Imports a key once; a remembered import is what the driver still maps |
| DeviceImport.CaptureTransfer | src/vllm_ascend_resident_epoch/kv_transfer.py:322-352 | Builds and validates the metadata of a plan's imports |
| DeviceImport.ExportKeys | src/vllm_ascend_resident_epoch/kv_transfer.py:292-311 | Each tensor gets the key of its allocation, exported once |
| DeviceIpc.WireRoundTrip | src/vllm_ascend_resident_epoch/kv_transfer.py:120-137 | The packed struct the bridge lays over the received 4088 bytes has exactly the values sent |
| KvTransfer.CaptureSnapshot | src/vllm_ascend_resident_epoch/kv_transfer.py:362-428 | Succeeds exactly when there is an import, the capacity fits a block and every scheduler block is inside the view; then every payload block is the importing request's stock block or zero |
| KvTransfer.MaskOfPlan | src/vllm_ascend_resident_epoch/sidecar_backend.py:281-287 | The summed mask selects exactly the rows whose requests want an import |
| KvTransfer.PayloadBytesAt | controller/g4c_b4_resident_epoch.cpp:412-422 | The device cuts the joined payload into the blocks it was joined from |
| LockstepRuns.PlansContinue | src/vllm_ascend_resident_epoch/scheduler.py:237-296 | In every reachable state a plan sent to the device is refused with status 212 if and only if the device turns down one of its requests. One the device owns is turned down exactly if it is offered at position 0: it came back under the id of an earlier request. One of the host's, unless it has the warm-up's generation, exactly if it is stranded: without its KV, beyond position 0 |
| LockstepRuns.StrandedRequests | src/vllm_ascend_resident_epoch/scheduler.py:289-293 | Stranded are exactly the scheduled requests with a one-token prompt that have made a token on the host and nothing on the device |
| LockstepRuns.ReturnedRequests | src/vllm_ascend_resident_epoch/scheduler.py:289-293 | The entries the device owns at position 0 are exactly those of requests without tokens whose id the device owns |
| LockstepRuns.RunsKeepStep | src/vllm_ascend_resident_epoch/scheduler.py:347-366 | Over every interleaving of arrivals, aborts, host rounds and device rounds, ids used again included, what the device remembers of each request it holds is what the scheduler knows of it |
| LockstepRuns.DeviceRoundKeeps | src/vllm_ascend_resident_epoch/scheduler.py:330-366 | A device round with its accounting keeps both sides in step |
| LockstepRuns.HostRoundKeeps | src/vllm_ascend_resident_epoch/scheduler.py:163-192 | A host round keeps both sides in step |
| LockstepRuns.DeviceProgress | src/vllm_ascend_resident_epoch/scheduler.py:239-257 | Every device round shrinks the cohort's total budget by at least one token a member and overdraws nobody's |
| Lockstep.ContinuityOfPlan | controller/g4c_b4_resident_epoch.cpp:448-464 | For any plan on any device, continuity holds if and only if every request brings its KV, or finds its row as it offers it, or starts at position 0 on a row of another generation |
| Lockstep.CapturedMask | src/vllm_ascend_resident_epoch/kv_transfer.py:333-341 | The mask both captures build is the one the plan asks for and matches the call |
| WarmupCollision.WarmupLeaves | src/vllm_ascend_resident_epoch/sidecar_backend.py:218-272 | A successful warm-up of a new device leaves generation 2^31 - 1 at position 1 on row 0 and nothing elsewhere |
| WarmupCollision.WarmupCollides | src/vllm_ascend_resident_epoch/sidecar_backend.py:33 | From a warmed-up device a run reaches a state in which a request that has never stepped anywhere is planned with generation 2^31 - 1, and the device refuses the plan with status 212 |
| WarmupCollision.WarmupTakenOver | src/vllm_ascend_resident_epoch/sidecar_backend.py:33 | From a warmed-up device a run reaches a state in which such a request, after a host step that sampled the warm-up's token, is accepted as the warm-up's continuation, and the device round can happen |
| WarmupCollision.GenerationsPass | src/vllm_ascend_resident_epoch/scheduler.py:81-86 | Every generation up to that one is reached by a run |
| ReusedId.ReusedIdFate | src/vllm_ascend_resident_epoch/scheduler.py:63-86 | In every reachable state, for a request that has made no token, under an id used before or not, and any round that schedules it: if the device owns its id after the round's assignment, the round raises in the scheduler or is refused with status 212, on account of this request; if not, and no other scheduled request is a reason, the round does neither, unless generations run out or the request gets the warm-up's |
| ReusedId.OwnershipEnds | src/vllm_ascend_resident_epoch/scheduler.py:63-69 | Any plan made without the request ends the device's ownership of its id and its lease, so a request that comes back is not always refused |
| ReusedId.AbortedStaysOwned | src/vllm_ascend_resident_epoch/scheduler.py:63-69 | A run of arrival, device round and abort ends with an id that the device owns and no request has |
| ReusedId.ReturnedRefused | controller/g4c_b4_resident_epoch.cpp:459-461 | After such a run, the next request under that id is planned as the device's own from position 0, and the device refuses the plan with status 212 |
| ReusedId.RunsLinger | src/vllm_ascend_resident_epoch/scheduler.py:84-86 | Every lease the device owns, of a running, finished or aborted request, has its generation on its row beyond position 0 |
| StrandedRequest.StartReached | src/vllm_ascend_resident_epoch/scheduler.py:163-192 | A run from the empty scheduler gets there: the request arrives and takes one step on the host |
| StrandedRequest.LonePlanned | src/vllm_ascend_resident_epoch/scheduler.py:289-293 | In the state reached, the scheduler plans the request at position 1 without its KV |
| StrandedRequest.LoneRefused | controller/g4c_b4_resident_epoch.cpp:459-461 | The device refuses that plan with status 212, whatever its context |
| SchedulerSafety.RoundSafe | src/vllm_ascend_resident_epoch/scheduler.py:163-192 | Every round keeps the leases safe, gives no request the device owns to the host, and attaches only valid plans |
| SchedulerSafety.IsolatedRound | src/vllm_ascend_resident_epoch/scheduler.py:130-192 | An isolated host step never has a plan, changes no lease, and leaves the paused requests' tokens, counts and places alone |
| SchedulerSafety.PlannedOutcome | src/vllm_ascend_resident_epoch/scheduler.py:194-307 | Making a plan never exhausts the rows and never builds an invalid plan; it raises only at the end of the generation space |
| SchedulerSafety.PlanIsValid | src/vllm_ascend_resident_epoch/scheduler.py:298-307 | A plan built from safe leases passes its own validation |
| RowLeases.AssignSafe | src/vllm_ascend_resident_epoch/scheduler.py:63-86 | Rows stay injective in 0 to 3, generations unique, positive and below the counter; exactly the requested requests have leases and existing ones keep theirs |
| RowLeases.RowsSuffice | src/vllm_ascend_resident_epoch/scheduler.py:72-80 | For a batch that fits the graph the row allocator is never exhausted |
| RowLeases.GenerationsSuffice | src/vllm_ascend_resident_epoch/scheduler.py:81-86 | For a batch that fits the graph, generations run out exactly when the requests without a lease would take the counter past its limit |
| Scheduler.ResidentScheduler.AssignRows | src/vllm_ascend_resident_epoch/scheduler.py:63-86 | The dictionaries after dropping and leasing are those of the specified assignment, or it reports what ran out |
| Scheduler.ResidentScheduler.MakePlan | src/vllm_ascend_resident_epoch/scheduler.py:194-307 | The plan, rejection or exception, and the leases afterwards, are the specified ones |
| Scheduler.ResidentScheduler.Schedule | src/vllm_ascend_resident_epoch/scheduler.py:163-192 | A round with isolation, base scheduling and planning in place equals the specified round |
| Scheduler.ResidentScheduler.ScheduleIsolated | src/vllm_ascend_resident_epoch/scheduler.py:130-161 | Pauses exactly the running requests the device owns, runs the base scheduler on the others, and restores the list |
| Scheduler.ResidentScheduler.ApplyAccounting | src/vllm_ascend_resident_epoch/scheduler.py:330-366 | All or nothing: on a result that meets the contract and over-advances nobody the extra steps are added; after a device result exactly the old owners and the plan's host-owned requests are owned, after a fallback exactly the old owners; otherwise nothing changes |
| Scheduler.AccountingTaken | src/vllm_ascend_resident_epoch/scheduler.py:345-361 | A result is accounted for exactly if it meets the contract, no request made fewer tokens than were scheduled, and what was computed before was there; each request has then computed the extra tokens too, never more than it will have, and nobody else is touched |
| Scheduler.ResidentScheduler.UpdateFromOutput | src/vllm_ascend_resident_epoch/scheduler.py:309-328 | Raises exactly when only one of plan and result is there or the accounting does, changing nothing; otherwise accounts, hands over and lets the base scheduler append, stop and remove |
| SchedulerRounds.DeviceRoundInPlace | src/vllm_ascend_resident_epoch/scheduler.py:163-366 | The scheduler's class over a device round (schedule, tokens read from the bridge's outputs, result, update) accepts the result and ends in exactly the state that the runs of the whole system prescribe |
| SchedulerRounds.HostRoundInPlace | src/vllm_ascend_resident_epoch/scheduler.py:163-366 | The same for a host round, with the fallback result when there was a plan and with none when there was not |
| SchedulerSafety.BaseSees | src/vllm_ascend_resident_epoch/scheduler.py:98-151 | When the device has requests running and a running host request is ineligible or in prefill, or a request that needs host steps waits with a slot free, the base scheduler sees exactly the running requests the device does not own and as many slots fewer; otherwise everyone |
| SchedulerSafety.HostRoundGoes | src/vllm_ascend_resident_epoch/scheduler.py:130-192 | When the host is due, a round is accepted exactly if it schedules someone and nobody the device owns; it then has no plan, changes no lease and leaves the device's requests as they are |
| SchedulerSafety.FilterKeepsOrder | src/vllm_ascend_resident_epoch/scheduler.py:142-151 | Pausing keeps the order of the running list |
| PlanConditions.PlanMade | src/vllm_ascend_resident_epoch/scheduler.py:194-246 | A plan is made exactly for at most four running requests, all of them scheduled for one token, each decodable for the longest epoch the configuration and everybody's budget allow, while generations last |
| PlanConditions.PlanHolds | src/vllm_ascend_resident_epoch/scheduler.py:237-307 | What is in it: version 3, batch 4, that epoch length, each request's row, generation, last token, position, EOS, blocks, owner and whether it is imported, and a mask of exactly their rows |
| Scheduler.CheckReady | src/vllm_ascend_resident_epoch/scheduler.py:222-248 | Accepts exactly when every request is ready, and returns the smallest step limit |
| Scheduler.BuildEntries | src/vllm_ascend_resident_epoch/scheduler.py:249-296 | Accepts exactly when every request fits, and returns the entries and the active mask |
| EpochSchedule.StepsWithinBudgets | src/vllm_ascend_resident_epoch/scheduler.py:239-242 | The epoch length is the longest power of two that neither the configuration nor any member's budget forbids |
| EpochSchedule.CapacityNeverRejects | src/vllm_ascend_resident_epoch/scheduler.py:248-250 | Under prompt + max_tokens - 1 <= capacity the capacity rejection never fires |
| EpochSchedule.CapacityCanReject | src/vllm_ascend_resident_epoch/scheduler.py:248-250 | Without that bound it can, as in a state of the run of `DeviceRuns.OverCapacityRaises` |
| CapacityRuns.LoneFate | src/vllm_ascend_resident_epoch/scheduler.py:239-250 | Over every run of device rounds in which a lone request does not make its EOS: it finishes if and only if prompt + max_tokens - 1 is within the capacity. If so, no round raises; if not, it never finishes, and the round that raises is the first whose epoch would go beyond the capacity |
| CapacityRuns.LoneVerdict | src/vllm_ascend_resident_epoch/scheduler.py:163-192 | A round that schedules a lone request makes a plan if the next epoch fits the capacity, and otherwise raises if the device owns the request and leaves it to the host if not |
| DeviceRuns.LoneRunEnds | src/vllm_ascend_resident_epoch/scheduler.py:163-257 | For every one-token request within the vocabulary there is a run to its end: done, its id still owned by the device, if its budget fits the capacity, and otherwise in a state whose next round raises |
| DeviceRuns.OverCapacityRaises | src/vllm_ascend_resident_epoch/scheduler.py:174-183 | Such a run to an exception, for a capacity of 8 and a budget of 20 |
| DeviceRuns.RoundPossible | src/vllm_ascend_resident_epoch/scheduler.py:237-307 | Whenever the next epoch of a lone one-token request fits the capacity, a device round can happen in which it makes a given token only |
| AnsweringDecoder.AdmittedSucceeds | controller/g4c_b4_resident_epoch.cpp:485-614 | Every admitted call succeeds with a decoder that always answers, and its tokens are the decoder's |
| EpochSchedule.LoneEpochs | src/vllm_ascend_resident_epoch/scheduler.py:239-242 | The greedy choice takes R / M + popcount(R mod M) epochs for R tokens |
| LoneRuns.LoneRequestRounds | src/vllm_ascend_resident_epoch/scheduler.py:239-257 | Over every run of device rounds in which a lone request with R tokens to go does not make its EOS, it is gone after exactly R / M + popcount(R mod M) rounds, and no further device round is possible |
| LoneRuns.LoneRound | src/vllm_ascend_resident_epoch/scheduler.py:239-257 | One device round of a lone request without EOS makes exactly the scheduled steps and takes them off its budget |
| EpochSchedule.LoneRequest | src/vllm_ascend_resident_epoch/scheduler.py:239-242 | The scheduler's choice for a lone request is the step those epochs are counted with |
| TiledKernel.Launch | history/attempts/attempt47/exact_qk.cpp:132-619 | On any number of cores every output element is written exactly once and is the plain inner product, in exact arithmetic |
| TiledKernel.Process | history/attempts/attempt47/exact_qk.cpp:122-629 | One core writes exactly the elements of its own loop indices, once each; its flag instructions are a program, and every interleaving of the four pipes that keeps each pipe's order runs well: no flag has two sets outstanding, no buffer is read while it is written, every read finds what it finds in program order, nothing blocks for ever, and all flags are drained at the end |
| TiledKernel.RunTile | history/attempts/attempt47/exact_qk.cpp:256-606 | A tile's accumulator ends with its plain inner products, taken from the slices prefetched for each step |
| TiledKernel.Prefetch | history/attempts/attempt47/exact_qk.cpp:267-300 | The other side's buffers are refilled, only when free, with the tile's next slice or the next tile's first |
| TiledKernel.InsideIsOwned | history/attempts/attempt47/exact_qk.cpp:137-139 | A tile covers exactly the elements whose owner it is, so tiles neither overlap nor leave gaps |
| TiledKernel.OffsetIsAddress | history/attempts/attempt47/exact_qk.cpp:137 | The offset arithmetic addresses the element meant |
| TiledKernel.LeftOffset | history/attempts/attempt47/exact_qk.cpp:145-149 | The offset of the left input's tile and slice, with the strides of its copy, addresses the elements meant, plain or transposed |
| TiledKernel.RightOffset | history/attempts/attempt47/exact_qk.cpp:151-164 | The same for the right input outside the NZ format |
| TiledKernel.AddressesDiffer | history/attempts/attempt47/exact_qk.cpp:137 | Different elements have different addresses in the interleaved output |
| TiledProduct.TakeSlice | history/attempts/attempt47/exact_qk.cpp:498-606 | The parts of a slice add exactly its stretch of the inner product and release its buffers |
| TiledProduct.PartFits | history/attempts/attempt47/exact_qk.cpp:140-143 | The part length is the largest multiple of 16 for which a part of the rounded tile fits an L0 buffer on both sides |
| TiledProduct.TakePart | history/attempts/attempt47/exact_qk.cpp:507-603 | A part is read from full buffers, handed over through the L0 flags, and the L1 buffers are released after the last part only; the cube unit still holds its L0 buffer |
| TiledSum.RotatedWhole | history/attempts/attempt47/exact_qk.cpp:256-260 | In the shuffled order the slices add up to the whole inner product |
| TiledSum.RotateIsPermutation | history/attempts/attempt47/exact_qk.cpp:257 | The k-shuffle is a permutation of the slices |
| TiledSum.TileOf | history/attempts/attempt47/exact_qk.cpp:138-139 | Every index lies in the tile its quotient says, with the last tile possibly shorter |
| Swizzle.SwizzleThere | history/attempts/attempt47/exact_qk.cpp:88-120 | Every loop index has a tile in range, and the tile's position is that index, for every grid and both directions |
| Swizzle.SwizzleBack | history/attempts/attempt47/exact_qk.cpp:88-120 | Every (batch, m, n) has a loop index in range that leads back to it |
| Swizzle.GetBlockIdx | history/attempts/attempt47/exact_qk.cpp:88-120 | The computation through a reference gives that tile |
| Swizzle.CoresPartition | history/attempts/attempt47/exact_qk.cpp:132 | Every index is visited by exactly one core in exactly one step |
| Pipeline.ExecutionIsSafe | history/attempts/attempt47/exact_qk.cpp:176-254 | In every execution of a program, for every buffer: at most one outstanding set a flag, writer and reader never in the buffer together, and a reader in it finds what was filled last, which is what program order says |
| Pipeline.NeverBlocks | history/attempts/attempt47/exact_qk.cpp:544-577 | As long as the program is not done, some instruction extends the execution: the earliest open one in program order can always pass |
| Pipeline.EveryExecutionRunsWell | history/attempts/attempt47/exact_qk.cpp:124-628 | Every interleaving of the pipes of a program that drains its flags is safe, can be completed, and drains them |
| TiledProduct.Pipes.LogIsProgram | history/attempts/attempt47/exact_qk.cpp:124-628 | The recorded instructions are such a program |
| BoundedLog.Stream | storage_guard/bounded_log.py:41-91 | However the stream is cut into chunks the file is the stream, or its head, the marker and its tail; retained and omitted bytes add up to the total |
| BoundedLog.Tail.Update | storage_guard/bounded_log.py:29-38 | Keeps exactly the last bytes within the limit of everything seen |
| BoundedLog.TakeChunk | storage_guard/bounded_log.py:59-68 | One chunk extends the head and the tail of what has been seen |
| IdleGaps.MergedIdleGaps | experiments/m4a_performance/analyze_profiles.py:88-98 | For any intervals the loop returns the gaps between the merged pieces of the sorted intervals |
| IdleGaps.IdleGapsAreTheComplement | experiments/m4a_performance/analyze_profiles.py:88-98 | The pieces cover exactly the intervals' points and are separated; they reach from the least start to the greatest end; the gaps are one fewer than the pieces and sum to that hull less their measure |
| IdleGaps.HullOfPieces | experiments/m4a_performance/analyze_profiles.py:88-98 | No interval reaches beyond the pieces, and both ends of the pieces are covered by intervals |
| IdleGaps.GapsUnique | experiments/m4a_performance/analyze_profiles.py:88-98 | The gaps depend only on the points covered, not on order or overlap |
| IdleGaps.GapIsMaximal | experiments/m4a_performance/analyze_profiles.py:95-97 | Each gap is a maximal uncovered stretch |
| IdleGaps.PiecesUnique | experiments/m4a_performance/analyze_profiles.py:88-98 | Separated pieces are determined by the points they cover |

## Left out

- The decoder network, BF16 arithmetic and the DataFlow, ACL and GE calls: foreign code, represented as described above.
- Bytes within KV blocks: every copy and clear in the controller moves whole 131072-byte blocks, so caches are sequences
  of blocks; the tests of `ClearCacheRow` on its own argument cannot fail on resident caches and are not modelled.
- Failures of `SetOutput`, allocations that return a tensor of another shape or type with a good return code, and logging.
- AbiReduction.OldResidentEpoch.Proc: validation of the arguments, the continuity check, the clears and the commit are
  shared with the new controller, whose code for them is the same.
- TiledKernel.Process: what the pipes do between their flag instructions is placed in program order; that every read
  finds the same content in every interleaving is what makes that order immaterial.
- TiledKernel.Launch: leaves out the NZ copy formats, the rounding of copies to multiples of 16 and the tiling-key switch;
  tiles are at most 1024 wide, beyond which the kernel's part length is zero. Elements are reals: rounding is not
  modelled. The cores, which write disjoint elements, run one after the other.
- CommitProtocol.AtMostOneRoute: no plan begins after one has raised; leaves out warm-up and shutdown requests, timers and
  partial reads; a response is received, lost, or replaced by an exception on the client.
- CommitProtocol.Execute: null pointers, which refuse the call before anything is fed, are not modelled.
- Byte packing of the fixed request and response frames: the model starts from their fields. The IPC metadata, which
  carries variable keys, is packed and read byte by byte.
- Preemption in the base scheduler: an output with preempted requests is one that is not plain and rejects the plan; a
  preempted request's return is not modelled.
- Scheduler.ResidentScheduler.Schedule: the sampling-parameter tests are one flag a request, and the reasons of
  rejections, kept for metrics only, are one value.
- Scheduler.ResidentScheduler.FinishRound: the base scheduler stops requests at EOS and max_tokens; other stop
  conditions make a request ineligible and do not occur on the device.
- Configuration checks, benchmark metrics, process start-up, experiment runners and verifiers: they carry no state the
  stated properties depend on.
- LockstepRuns.RunsKeepStep: preemption is not an event.
- KvTransfer.CaptureSnapshot: all tensors have views of one size; the source would also take a snapshot of others.
- DeviceImport.IpcEngine.Prepare: the device buffer is allocated with the engine, so a failing allocation or memory copy
  is not modelled.
- BoundedLog.Stream: the digest is a function of the bytes it was fed, part of the abstract marker.
- IdleGaps.IdleGapsAreTheComplement: start and end are reals; intervals have non-negative length, as durations do.
