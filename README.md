# blink: a verified model of the peer-to-peer file-sharing engine

blink lets browsers on one local network find each other and exchange files directly.
This project models the engine behind it in Dafny and proves properties of that model.
The engine has five parts:

- **Signalling relay.** A WebSocket handler keeps the announced devices and the open
  connections. It routes announcements, `signal` messages and WebRTC negotiation messages
  between clients (`Signalling`, `Relay`).
- **Discovery client.** The browser side of that connection keeps the list of nearby devices.
  It announces the local device and reconnects after a drop unless the user disconnected
  (`DeviceList`, `Discovery`).
- **Channel manager.** It holds one PeerJS endpoint, the open data channels keyed by the remote
  peer id, a connection state per peer, and the pending `connectToPeer` promises (`Channels`).
- **Chunked transfer protocol.** The sender frames a file as `file-meta`, then one `file-chunk`
  descriptor plus one binary frame per 64 KiB slice, then `file-complete`. The receiver
  reassembles files per transfer id and checks the extension before saving (`PeerProtocol`,
  `FileTransfer`).
- **Stores.** The transfers store keeps three lists (active, completed, failed). The devices
  store keeps the discovered devices and the selection (`TransfersStore`, `DevicesStore`).

The repository also keeps older versions of the relay, the discovery client, the channel
manager and the file-transfer composable. These are modelled beside the current ones, in the
`Legacy…` modules. Lemmas compare the two versions where their behaviour differs.

Handlers that update state in place are classes. Each class method's `ensures` ties the new
state to a pure specification function:

- `State() == Step(old(State()), event)` for event handlers;
- `AfterOpen`, `AfterMessage`, `AfterClose` and `AfterDestroy` for the other operations.

The properties are proved as lemmas about those functions. Loops in the source are `while`
loops with invariants:

- the sender's chunk loop (`SendChunks`);
- the relay's broadcast and replay loops and its `close` scan;
- `destroy`'s loop that closes every channel.

Browser and library services enter the model only as parameters and events. These are the
sockets, PeerJS, timers, storage, random ids and the clock. A send that throws is a
parameter: the index of the failing send, or the set of connections whose send fails.

## Model

| member | source | states |
|---|---|---|
| Text.Lower | apps/web/app/composables/useDeviceDiscovery.ts:27 | lower-casing keeps the length and maps each ASCII capital to its small letter, position by position |
| DeviceList.IndexOfId | apps/web/app/composables/useDeviceDiscovery.ts:59 | the position found holds the id and no earlier one does; none is found exactly when no entry has the id |
| DeviceList.UpsertShape | apps/web/app/composables/useDeviceDiscovery.ts:58-65 | a new id is appended (length + 1); a known id is replaced at its position, the length and every other position unchanged |
| DeviceList.UpsertKeepsDistinct | apps/web/app/composables/useDeviceDiscovery.ts:58-65 | an upsert keeps ids distinct and the device is then found under its id |
| DeviceList.UpsertTwiceKeepsLatest | apps/web/app/stores/devices.ts:29-39 | adding two devices with one id equals adding only the later, and exactly one entry carries the id |
| DeviceList.WithoutPeerIdMembers | apps/web/app/composables/useDeviceDiscovery.ts:67-69 | removing by peerId keeps exactly the devices whose peerId differs (a device without one is kept) |
| DeviceList.WithoutPeerIdKeepsDistinct | apps/web/app/composables/useDeviceDiscovery.ts:67-69 | removing by peerId keeps ids distinct |
| DeviceList.WithoutPeerIdAppend | apps/web/app/composables/useDeviceDiscovery.ts:67-69 | removing by peerId keeps the order of what remains (it distributes over concatenation) |
| DeviceList.WithoutIdMembers | apps/web/app/stores/devices.ts:41-44 | removing by id keeps exactly the devices with another id |
| DeviceList.WithoutIdAppend | apps/web/app/stores/devices.ts:41-44 | removing by id keeps the order of what remains |
| DeviceList.WithoutIdLength | apps/web/app/stores/devices.ts:41-44 | removing by id never lengthens the list |
| DevicesStore.Available | apps/web/app/stores/devices.ts:17-21 | the available devices are the discovered ones whose id differs from the local device's, and all of them when there is no local device |
| DevicesStore.DevicesStore.constructor | apps/web/app/stores/devices.ts:5-10 | no local, discovered or selected device; not discovering |
| DevicesStore.DevicesStore.DeviceCount | apps/web/app/stores/devices.ts:13 | the count is zero exactly when no device is discovered, and at least the number available |
| DevicesStore.DevicesStore.HasSelectedDevice | apps/web/app/stores/devices.ts:15 | true exactly when a device is selected |
| DevicesStore.DevicesStore.AvailableDevices | apps/web/app/stores/devices.ts:17-21 | membership as in `Available`, and never more entries than discovered |
| DevicesStore.DevicesStore.SetLocalDevice | apps/web/app/stores/devices.ts:25-27 | sets the local device and nothing else |
| DevicesStore.DevicesStore.AddDiscoveredDevice | apps/web/app/stores/devices.ts:29-39 | the list becomes the upsert by id; nothing else changes |
| DevicesStore.DevicesStore.RemoveDiscoveredDevice | apps/web/app/stores/devices.ts:41-49 | drops exactly the entries with the id, in order; clears the selection exactly when the selected device has that id |
| DevicesStore.DevicesStore.SelectDevice | apps/web/app/stores/devices.ts:51-53 | only the selection changes, to the device |
| DevicesStore.DevicesStore.ClearSelection | apps/web/app/stores/devices.ts:55-57 | only the selection changes, to none |
| DevicesStore.DevicesStore.SetDiscovering | apps/web/app/stores/devices.ts:59-61 | only the discovering flag changes |
| DevicesStore.DevicesStore.ClearDevices | apps/web/app/stores/devices.ts:63-66 | empties the list and the selection; the local device and the flag stay |
| TransfersStore.Merge | app/stores/transfers.ts:41 | the fields present in the update overwrite, the others and the identity are kept |
| TransfersStore.IndexOfTransfer | app/stores/transfers.ts:53 | the first position holding the id, or none exactly when the id is absent |
| TransfersStore.UpdateEffect | app/stores/transfers.ts:38-50 | an unknown active id (even one completed or failed) changes nothing. Otherwise the merged record stays in place, or a terminal status moves it to the end of completed or failed, with the rest of the active list in order |
| TransfersStore.MoveKeepsTransfers | app/stores/transfers.ts:52-66 | a move keeps the count and the set of transfers, removes the first active match in place, and appends it to completed or failed; an unknown id changes nothing |
| TransfersStore.UpdateKeepsSize | app/stores/transfers.ts:38-50 | an update never changes how many transfers the store holds |
| TransfersStore.WithoutTransferMembers | app/stores/transfers.ts:68-72 | filtering by id keeps exactly the transfers with another id |
| TransfersStore.RemoveTransferMembers | app/stores/transfers.ts:68-72 | removal drops every transfer with the id from all three lists and nothing else |
| TransfersStore.IndexOfAppended | app/stores/transfers.ts:34-36 | a transfer appended under a fresh id is found at the end |
| TransfersStore.UpdateAppended | app/stores/transfers.ts:34-50 | after adding under a fresh id, every update reaches that record: it is merged in place, or moved to the end of completed or failed |
| TransfersStore.SumProgressBounds | app/stores/transfers.ts:25-28 | percentages in [0, 100] sum to at most 100 per transfer |
| TransfersStore.TotalProgressBounds | app/stores/transfers.ts:22-30 | the total progress is a percentage in [0, 100] when every active progress is |
| TransfersStore.Store.constructor | app/stores/transfers.ts:5-9 | three empty lists |
| TransfersStore.Store.AllTransfers | app/stores/transfers.ts:12-16 | all transfers: every list's members, active first, length the sum of the three |
| TransfersStore.Store.ActiveCount | app/stores/transfers.ts:18 | active, completed and failed counts add up to the number of all transfers |
| TransfersStore.Store.CompletedCount | app/stores/transfers.ts:20 | the completed count is bounded by the number of all transfers |
| TransfersStore.Store.AddTransfer | app/stores/transfers.ts:34-36 | appends to the active list only |
| TransfersStore.Store.UpdateTransfer | app/stores/transfers.ts:38-50 | performs `AfterUpdate` in place (merge, then a move for a terminal status) |
| TransfersStore.Store.MoveToCompleted | app/stores/transfers.ts:52-58 | performs the splice-and-push of the first active match into completed |
| TransfersStore.Store.MoveToFailed | app/stores/transfers.ts:60-66 | performs the splice-and-push of the first active match into failed |
| TransfersStore.Store.RemoveTransfer | app/stores/transfers.ts:68-72 | filters the id out of all three lists |
| TransfersStore.Store.ClearCompleted | app/stores/transfers.ts:74-76 | empties the completed list only |
| TransfersStore.Store.ClearAll | app/stores/transfers.ts:78-82 | empties all three lists |
| PeerProtocol.TotalChunks | apps/web/app/composables/useFileTransfer.ts:69 | the least number of 64 KiB chunks that covers the file; zero exactly for an empty file |
| PeerProtocol.ChunkPairs | apps/web/app/composables/useFileTransfer.ts:72-92 | two frames per remaining chunk |
| PeerProtocol.ChunkPairsAt | apps/web/app/composables/useFileTransfer.ts:79-86 | frame 2j is the descriptor of chunk k + j, frame 2j + 1 that chunk's slice |
| PeerProtocol.ChunkPairsPayloads | apps/web/app/composables/useFileTransfer.ts:72-86 | the binary frames from chunk k on carry exactly the bytes from offset k · 64 KiB |
| PeerProtocol.SenderPayloadsRoundTrip | apps/web/app/composables/useFileTransfer.ts:58-98 | concatenating the sender's binary frames in order gives back the file's bytes |
| PeerProtocol.SenderFramesShape | apps/web/app/composables/useFileTransfer.ts:58-98 | `file-meta`, then ceil(N / 64 KiB) descriptor and binary pairs numbered 0… with one `totalChunks` and slices of 1 to 64 KiB, then `file-complete` |
| PeerProtocol.EmptyFileFrames | apps/web/app/composables/useFileTransfer.ts:58-98 | an empty file is sent as `file-meta` and `file-complete` only |
| PeerProtocol.SenderProgressProperties | apps/web/app/composables/useFileTransfer.ts:90 | sender progress is in (0, 100], grows with the offset, and is 100 on the last chunk |
| PeerProtocol.ProgressAfterChunksMonotone | apps/web/app/composables/useFileTransfer.ts:88-91 | progress after k chunks never decreases with k and stays in [0, 100] |
| PeerProtocol.UncappedProgressOvershoots | app/composables/useFileTransfer.ts:65-68 | the older formula reports 6 553 600 % for a 1-byte file, where the capped one reports 100 |
| PeerProtocol.ReceiveProgressByCount | apps/web/app/composables/useFileTransfer.ts:138-146 | with a chunk total, receive progress is in [0, 100] and is 100 exactly when every chunk is in |
| PeerProtocol.BlobType | apps/web/app/composables/useFileTransfer.ts:189-191 | the metadata's non-empty type, else a non-empty default |
| PeerProtocol.SaveName | apps/web/app/composables/useFileTransfer.ts:193 | the metadata's non-empty name, else a non-empty default |
| PeerProtocol.AfterLastDot | apps/web/app/composables/useFileTransfer.ts:225 | a dot-free suffix of the name, preceded by a dot when the name has one, the whole name otherwise |
| PeerProtocol.DownloadFile | apps/web/app/composables/useFileTransfer.ts:222-238 | the file is saved unchanged in every case, with a warning exactly when the lower-cased extension is on the deny list |
| PeerProtocol.AfterLastDotOfDotted | apps/web/app/composables/useFileTransfer.ts:225 | only the text after the last dot counts as the extension |
| PeerProtocol.ExtensionOfUpperCaseDouble | apps/web/app/composables/useFileTransfer.ts:225-228 | `archive.tar.EXE` has extension `exe`, which is dangerous |
| PeerProtocol.ExtensionOfDotlessName | apps/web/app/composables/useFileTransfer.ts:225-228 | a name without a dot is its own extension (`sh` is dangerous) |
| FileTransfer.BinaryGoesToPending | apps/web/app/composables/useFileTransfer.ts:127-136 | a binary frame is appended to the transfer named by the latest descriptor and to no other; the pending slot is cleared |
| FileTransfer.OrphanBinaryDropped | apps/web/app/composables/useFileTransfer.ts:127-133 | with no pending id, or one whose operation is gone, the binary frame is dropped |
| FileTransfer.UnknownTransferIgnored | apps/web/app/composables/useFileTransfer.ts:176-187 | a descriptor or completion for an unknown id, and an unparseable frame, change nothing |
| FileTransfer.CompleteOnce | apps/web/app/composables/useFileTransfer.ts:185-203 | completion saves the concatenated chunks under the metadata's name and type and forgets the operation, so a repeat does nothing |
| FileTransfer.CompleteStep | apps/web/app/composables/useFileTransfer.ts:185-203 | completion deletes the operation, updates the store to completed at 100 and saves the file |
| FileTransfer.MetaWithoutMetadata | apps/web/app/composables/useFileTransfer.ts:154-174 | a `file-meta` without metadata registers the operation but adds no transfer; its completion saves a file named `download` |
| FileTransfer.InterleavedKeptApart | apps/web/app/composables/useFileTransfer.ts:121-220 | with two transfers in flight, A's chunk and completion save A's bytes under A's name, and B waits untouched |
| FileTransfer.SendReceiveRoundTrip | apps/web/app/composables/useFileTransfer.ts:42-220 | the receiver fed the sender's frames for a fresh non-empty id saves exactly the file's bytes, under its name and type. The store gains that transfer completed at 100, and the receive map ends as it began |
| FileTransfer.Receiver.constructor | apps/web/app/composables/useFileTransfer.ts:121-125 | an empty receive map and no pending id |
| FileTransfer.Receiver.PushChunk | apps/web/app/composables/useFileTransfer.ts:127-147 | performs the binary-frame step in place |
| FileTransfer.Receiver.OnFileMeta | apps/web/app/composables/useFileTransfer.ts:154-174 | performs the `file-meta` step in place: registers the operation, then adds the transfer |
| FileTransfer.Receiver.OnFileChunk | apps/web/app/composables/useFileTransfer.ts:176-183 | performs the descriptor step in place: records the chunk total and names the pending transfer |
| FileTransfer.Receiver.OnFileComplete | apps/web/app/composables/useFileTransfer.ts:185-203 | performs the completion step in place: saves, marks completed, forgets the operation |
| FileTransfer.Receiver.OnData | apps/web/app/composables/useFileTransfer.ts:149-219 | performs the receiver's `Step` for any frame in place |
| FileTransfer.FileTransferClient.constructor | apps/web/app/composables/useFileTransfer.ts:26-28 | the composable over the given store |
| FileTransfer.FileTransferClient.ReceiveFile | apps/web/app/composables/useFileTransfer.ts:121-125 | a new receiver over the same store, with an empty map |
| FileTransfer.FileTransferClient.SendFile | apps/web/app/composables/useFileTransfer.ts:42-113 | the frames sent are a prefix of the full frame sequence, all of it exactly when no send throws. Success ends completed at 100; a throw ends failed with the progress of the chunks already reported |
| FileTransfer.FileTransferClient.SendChunks | apps/web/app/composables/useFileTransfer.ts:72-92 | the loop sends a prefix of the chunk frames, all of them unless a send throws, and keeps the store's record at the matching progress |
| FileTransfer.FileTransferClient.SendChunk | apps/web/app/composables/useFileTransfer.ts:79-91 | one turn: descriptor, bytes and progress update, or the failure at the throwing send |
| FileTransfer.FileTransferClient.Complete | apps/web/app/composables/useFileTransfer.ts:94-104 | `file-complete` then completed at 100, or failed if that send throws |
| FileTransfer.FileTransferClient.Abort | apps/web/app/composables/useFileTransfer.ts:108-112 | the catch branch moves the transfer to failed |
| FileTransfer.FileTransferClient.ClearTransfer | apps/web/app/composables/useFileTransfer.ts:240-242 | removes the id from the store |
| FileTransfer.FileTransferClient.ClearCompleted | apps/web/app/composables/useFileTransfer.ts:244-246 | empties the completed list |
| LegacyFileTransfer.Patched | app/composables/useFileTransfer.ts:65-68 | only the first transfer with the id is patched in place; without one nothing changes |
| LegacyFileTransfer.PatchedAppended | app/composables/useFileTransfer.ts:24 | the transfer just pushed under a fresh id is the one later lookups patch |
| LegacyFileTransfer.WithoutCompletedMembers | app/composables/useFileTransfer.ts:228-230 | clearing completed keeps exactly the transfers not completed |
| LegacyFileTransfer.BinaryGoesToCurrent | app/composables/useFileTransfer.ts:167-170 | every binary frame goes to the current transfer whatever the descriptor said; with none it is dropped |
| LegacyFileTransfer.DescriptorIgnoresId | app/composables/useFileTransfer.ts:139-142 | a descriptor only sets the current chunk total; its id and index are not looked at |
| LegacyFileTransfer.MetaReplacesCurrent | app/composables/useFileTransfer.ts:117-137 | `file-meta` discards the partial current transfer and appends a receiving transfer at 0 |
| LegacyFileTransfer.CompleteEffect | app/composables/useFileTransfer.ts:144-161 | completion saves the current bytes, marks the transfer named in the frame completed at 100 and clears the slot; with no current transfer it does nothing |
| LegacyFileTransfer.SendReceiveRoundTrip | app/composables/useFileTransfer.ts:12-161 | one transfer at a time, the older receiver saves exactly the bytes sent and records it completed at 100 |
| LegacyFileTransfer.InterleavedMixUp | app/composables/useFileTransfer.ts:117-161 | with two transfers in flight, A's bytes are saved under B's name, A is marked completed, and B stays receiving |
| LegacyFileTransfer.LegacyFileTransferClient.constructor | app/composables/useFileTransfer.ts:5 | no transfers, nothing saved |
| LegacyFileTransfer.LegacyFileTransferClient.SendFile | app/composables/useFileTransfer.ts:12-100 | the same frame prefix as the newer sender. Success ends completed at 100; a throw ends failed at the last uncapped progress, in the composable's own list |
| LegacyFileTransfer.LegacyFileTransferClient.SendChunks | app/composables/useFileTransfer.ts:47-72 | the older loop sends a prefix of the chunk frames and keeps the uncapped progress |
| LegacyFileTransfer.LegacyFileTransferClient.SendChunk | app/composables/useFileTransfer.ts:47-68 | one turn of the older loop |
| LegacyFileTransfer.LegacyFileTransferClient.ClearTransfer | app/composables/useFileTransfer.ts:224-226 | filters the id out |
| LegacyFileTransfer.LegacyFileTransferClient.ClearCompleted | app/composables/useFileTransfer.ts:228-230 | filters the completed transfers out |
| LegacyFileTransfer.LegacyReceiver.constructor | app/composables/useFileTransfer.ts:102-109 | no current transfer |
| LegacyFileTransfer.LegacyReceiver.PushChunk | app/composables/useFileTransfer.ts:167-183 | performs the older binary-frame step in place |
| LegacyFileTransfer.LegacyReceiver.OnData | app/composables/useFileTransfer.ts:111-210 | performs the older receiver's `Step` in place |
| Signalling.IndexOfKey | apps/web/server/routes/ws.ts:78-79 | the position holding the key, none exactly when it is absent |
| Signalling.MapSetEffect | apps/web/server/routes/ws.ts:49 | `set` stores the entry under its key, keeps keys distinct, leaves other keys in place and grows only for a new key |
| Signalling.MapDeleteMembers | apps/web/server/routes/ws.ts:128 | `delete` removes exactly the entries with the key |
| Signalling.MapDeleteAt | apps/web/server/routes/ws.ts:125-130 | with distinct keys, deleting the key at a position removes that position |
| Signalling.FirstWithWsId | apps/web/server/routes/ws.ts:125-131 | the first entry announced by the connection, none exactly when there is none |
| Signalling.FindByWsId | apps/web/server/routes/ws.ts:125-131 | the scan with early exit finds that first entry |
| Signalling.ConnAdd | apps/web/server/routes/ws.ts:12 | the connection is present afterwards, and every earlier one still is |
| Signalling.ConnDelete | apps/web/server/routes/ws.ts:121 | exactly the connection is gone |
| Signalling.ConnAddKeepsDistinct | apps/web/server/routes/ws.ts:12 | adding keeps connection ids distinct |
| Signalling.ConnDeleteKeepsDistinct | apps/web/server/routes/ws.ts:121 | deleting keeps connection ids distinct |
| Signalling.BroadcastMembers | apps/web/server/routes/ws.ts:58-64 | a broadcast sends the frame to exactly the connections, except the excluded one, whose send does not throw; a throw does not stop the loop |
| Signalling.BroadcastLength | apps/web/server/routes/ws.ts:58-64 | at most one frame per connection |
| Signalling.BroadcastLoop | apps/web/server/routes/ws.ts:58-64 | the loop produces that broadcast |
| Signalling.Replay | apps/web/server/routes/ws.ts:22-27 | one `peer-joined` per stored registration |
| Signalling.ReplayAt | apps/web/server/routes/ws.ts:22-27 | the i-th replayed frame carries the i-th stored device with its `wsId` |
| Signalling.ReplayLoop | apps/web/server/routes/ws.ts:22-27 | the loop produces that replay |
| Relay.AnnounceKey | apps/web/server/routes/ws.ts:41-42 | the key is either the device's PeerJS id or the announcing connection's id |
| Relay.HandlersKeepValid | apps/web/server/routes/ws.ts:10-147 | every handler keeps both maps' keys distinct |
| Relay.OpenEffect | apps/web/server/routes/ws.ts:10-28 | `open` registers and subscribes the connection, sends it `init` with its own id, then one `peer-joined` per registration in order, with its `wsId`; registrations are untouched |
| Relay.AnnounceStores | apps/web/server/routes/ws.ts:38-49 | the device is stored under its key with the announcer's connection id; other registrations stay; the map grows only for a new key |
| Relay.AnnounceTwiceOverwrites | apps/web/server/routes/ws.ts:41-49 | a second announce under one key overwrites; the size is unchanged |
| Relay.AnnounceReachesEveryone | apps/web/server/routes/ws.ts:51-67 | `peer-joined` with the device as received goes to every connected peer whose send does not throw, the announcer included, and to no one else; then it is published |
| Relay.IgnoredMessages | apps/web/server/routes/ws.ts:30-116 | an announce without a device, an unknown type, an unparseable text and a signal without target change nothing |
| Relay.SignalRouting | apps/web/server/routes/ws.ts:70-98 | a signal goes to exactly one connection: the target's announcing connection if still connected, else back to the sender, naming the sender |
| Relay.ForwardExcludesSender | apps/web/server/routes/ws.ts:100-112 | offer, answer and ice-candidate reach every other connected peer whose send does not throw, unchanged, and never the sender |
| Relay.CloseEffect | apps/web/server/routes/ws.ts:119-131 | `close` forgets the connection and at most one registration, the first it announced; no notice without a PeerJS id |
| Relay.CloseNotifiesRemaining | apps/web/server/routes/ws.ts:133-146 | `peer-left` names the removed PeerJS id and reaches exactly the remaining connections whose send does not throw |
| Relay.Relay.constructor | apps/web/server/routes/ws.ts:3-7 | both maps empty, nothing sent |
| Relay.Relay.Open | apps/web/server/routes/ws.ts:10-28 | performs `AfterOpen` in place |
| Relay.Relay.Message | apps/web/server/routes/ws.ts:30-117 | performs `AfterMessage` in place |
| Relay.Relay.Close | apps/web/server/routes/ws.ts:119-147 | performs `AfterClose` in place |
| LegacyRelay.AnnounceKeyedByConnection | server/routes/ws.ts:34-42 | registrations are keyed by connection id, so re-announcing overwrites the connection's single entry |
| LegacyRelay.AnnounceSendsToAnnouncer | server/routes/ws.ts:44-53 | `peer-joined` is sent to the announcer and published on the topic |
| LegacyRelay.SignalEchoesToSender | server/routes/ws.ts:56-65 | a signal with a target is sent back to its sender only |
| LegacyRelay.SignalEchoExample | server/routes/ws.ts:56-65 | with B registered and connected, A's signal for B reaches A in the older relay and B in the newer |
| LegacyRelay.ForwardOnlyPublishes | server/routes/ws.ts:67-72 | negotiation messages are only published |
| LegacyRelay.IgnoredMessages | server/routes/ws.ts:26-77 | unusable messages change nothing |
| LegacyRelay.CloseEffect | server/routes/ws.ts:79-96 | `close` removes the connection's registration and publishes `peer-left` exactly when it had a PeerJS id |
| LegacyRelay.LegacyRelay.constructor | server/routes/ws.ts:4 | no registrations, nothing sent |
| LegacyRelay.LegacyRelay.Open | server/routes/ws.ts:7-24 | performs the older `open` in place |
| LegacyRelay.LegacyRelay.Message | server/routes/ws.ts:26-77 | performs the older `message` in place |
| LegacyRelay.LegacyRelay.Close | server/routes/ws.ts:79-96 | performs the older `close` in place |
| Discovery.MobileBeforeDesktop | apps/web/app/composables/useDeviceDiscovery.ts:25-36 | an Android user agent is Android even if it names Linux; an iPhone or iPad one is iOS even if it names Mac |
| Discovery.DesktopOnlyWithoutMobile | apps/web/app/composables/useDeviceDiscovery.ts:25-36 | a desktop answer implies no mobile keyword; `Unknown` exactly when no keyword occurs |
| Discovery.StepKeepsDistinct | apps/web/app/composables/useDeviceDiscovery.ts:115-142 | every event keeps device ids distinct |
| Discovery.PeerJoinedEffect | apps/web/app/composables/useDeviceDiscovery.ts:125-130 | the local device's own `peer-joined` is ignored; any other is upserted by id |
| Discovery.PeerLeftEffect | apps/web/app/composables/useDeviceDiscovery.ts:132-137 | `peer-left` drops exactly the devices with that PeerJS id |
| Discovery.MessagesTouchOnlyDevices | apps/web/app/composables/useDeviceDiscovery.ts:115-142 | a relay frame changes only the device list |
| Discovery.AnnouncesOnlyWhenOpen | apps/web/app/composables/useDeviceDiscovery.ts:71-88 | an announcement goes out only on an open socket, with the local device and a non-empty PeerJS id, at most one per event |
| Discovery.SetLocalPeerIdEffect | apps/web/app/composables/useDeviceDiscovery.ts:166-174 | no-op without a local device; else sets the PeerJS id and announces exactly when the socket is open |
| Discovery.ReconnectRule | apps/web/app/composables/useDeviceDiscovery.ts:149-163 | a close schedules a timer exactly when reconnection is wanted; the timer reconnects exactly when still disconnected and wanted |
| Discovery.DisconnectEffect | apps/web/app/composables/useDeviceDiscovery.ts:176-188 | `disconnect` turns reconnection off, drops the socket and clears both the devices and the local device |
| Discovery.NoReconnectAfterDisconnect | apps/web/app/composables/useDeviceDiscovery.ts:149-188 | after `disconnect`, no event sequence without `connect` opens a socket or announces |
| Discovery.InitDeviceEffect | apps/web/app/composables/useDeviceDiscovery.ts:38-56 | a non-empty stored id is reused, else the generated one; the id is written back; no PeerJS id yet |
| Discovery.DiscoveryClient.constructor | apps/web/app/composables/useDeviceDiscovery.ts:7-11 | the module's initial values, reconnection wanted |
| Discovery.DiscoveryClient.AddDevice | apps/web/app/composables/useDeviceDiscovery.ts:58-65 | the list becomes the upsert by id |
| Discovery.DiscoveryClient.RemoveDevice | apps/web/app/composables/useDeviceDiscovery.ts:67-69 | the list becomes the filter by PeerJS id |
| Discovery.DiscoveryClient.Announce | apps/web/app/composables/useDeviceDiscovery.ts:71-88 | performs `announce` in place |
| Discovery.DiscoveryClient.Connect | apps/web/app/composables/useDeviceDiscovery.ts:90-103 | performs `connect` in place |
| Discovery.DiscoveryClient.OnOpen | apps/web/app/composables/useDeviceDiscovery.ts:105-113 | performs `onopen` in place |
| Discovery.DiscoveryClient.OnMessage | apps/web/app/composables/useDeviceDiscovery.ts:115-142 | performs `onmessage` in place |
| Discovery.DiscoveryClient.OnError | apps/web/app/composables/useDeviceDiscovery.ts:144-147 | performs `onerror` in place |
| Discovery.DiscoveryClient.OnClose | apps/web/app/composables/useDeviceDiscovery.ts:149-163 | performs `onclose` in place |
| Discovery.DiscoveryClient.FireReconnectTimer | apps/web/app/composables/useDeviceDiscovery.ts:155-159 | performs the reconnect timer's callback in place |
| Discovery.DiscoveryClient.SetLocalPeerId | apps/web/app/composables/useDeviceDiscovery.ts:166-174 | performs `setLocalPeerId` in place |
| Discovery.DiscoveryClient.Disconnect | apps/web/app/composables/useDeviceDiscovery.ts:176-188 | performs `disconnect` in place |
| Discovery.DiscoveryClient.InitDevice | apps/web/app/composables/useDeviceDiscovery.ts:38-56 | performs `initDevice` in place |
| LegacyDiscovery.PlatformOrdersAgreeWithoutOverlap | app/composables/useDeviceDiscovery.ts:22-33 | both orders agree on user agents naming no desktop keyword or no mobile keyword |
| LegacyDiscovery.AndroidReadAsLinux | app/composables/useDeviceDiscovery.ts:26-32 | an Android user agent naming Linux but not Windows or Mac is read as Linux, where the newer order says Android |
| LegacyDiscovery.IOSReadAsMac | app/composables/useDeviceDiscovery.ts:26-32 | an iPhone or iPad user agent naming Mac is read as macOS, where the newer order says iOS |
| LegacyDiscovery.MisreadExamples | app/composables/useDeviceDiscovery.ts:26-32 | concrete user agents misread by the older order |
| LegacyDiscovery.StepKeepsDistinct | app/composables/useDeviceDiscovery.ts:70-100 | every event keeps device ids distinct |
| LegacyDiscovery.DisconnectKeepsDevices | app/composables/useDeviceDiscovery.ts:164-170 | the older `disconnect` drops the socket but keeps the devices and the local device |
| LegacyDiscovery.ReconnectRule | app/composables/useDeviceDiscovery.ts:107-117 | every close schedules a timer, which reconnects whenever not connected |
| LegacyDiscovery.InitDeviceIgnoresStoredId | app/composables/useDeviceDiscovery.ts:35-47 | the device always gets the generated id, which is stored |
| LegacyDiscovery.ReconnectsAfterDisconnect | app/composables/useDeviceDiscovery.ts:107-170 | after `disconnect`, the old socket's close and the timer open a new socket, with the old devices still shown |
| LegacyDiscovery.NewerClientStaysDisconnected | apps/web/app/composables/useDeviceDiscovery.ts:149-188 | the same three events leave the newer client without a socket and with no devices |
| LegacyDiscovery.LegacyDiscoveryClient.constructor | app/composables/useDeviceDiscovery.ts:4-8 | fresh state per call of the composable |
| LegacyDiscovery.LegacyDiscoveryClient.AddDevice | app/composables/useDeviceDiscovery.ts:151-158 | the list becomes the upsert by id |
| LegacyDiscovery.LegacyDiscoveryClient.RemoveDevice | app/composables/useDeviceDiscovery.ts:160-162 | the list becomes the filter by PeerJS id |
| LegacyDiscovery.LegacyDiscoveryClient.Announce | app/composables/useDeviceDiscovery.ts:132-149 | performs the older `announce` in place |
| LegacyDiscovery.LegacyDiscoveryClient.Connect | app/composables/useDeviceDiscovery.ts:49-56 | performs the older `connect` in place |
| LegacyDiscovery.LegacyDiscoveryClient.OnOpen | app/composables/useDeviceDiscovery.ts:58-68 | performs the older `onopen` in place |
| LegacyDiscovery.LegacyDiscoveryClient.OnMessage | app/composables/useDeviceDiscovery.ts:70-100 | performs the older `onmessage` in place |
| LegacyDiscovery.LegacyDiscoveryClient.OnError | app/composables/useDeviceDiscovery.ts:102-105 | performs the older `onerror` in place |
| LegacyDiscovery.LegacyDiscoveryClient.OnClose | app/composables/useDeviceDiscovery.ts:107-117 | performs the older `onclose` in place |
| LegacyDiscovery.LegacyDiscoveryClient.FireReconnectTimer | app/composables/useDeviceDiscovery.ts:112-116 | performs the older timer callback in place |
| LegacyDiscovery.LegacyDiscoveryClient.SetLocalPeerId | app/composables/useDeviceDiscovery.ts:120-130 | performs the older `setLocalPeerId` in place |
| LegacyDiscovery.LegacyDiscoveryClient.Disconnect | app/composables/useDeviceDiscovery.ts:164-170 | performs the older `disconnect` in place |
| LegacyDiscovery.LegacyDiscoveryClient.InitDevice | app/composables/useDeviceDiscovery.ts:35-47 | performs the older `initDevice` in place |
| Channels.Settle | apps/web/app/composables/useWebRTC.ts:93-123 | a promise settles once: an unsettled one takes the result, a settled one keeps its own |
| Channels.StepKeepsValid | apps/web/app/composables/useWebRTC.ts:70-125 | every event keeps armed timers on unsettled attempts, never forgets or retargets an attempt, and never changes a settled promise |
| Channels.ConnectWithoutPeer | apps/web/app/composables/useWebRTC.ts:72-76 | without an endpoint the call rejects with "Peer not initialized" and nothing else changes |
| Channels.ConnectSetsConnecting | apps/web/app/composables/useWebRTC.ts:81-123 | the target becomes `connecting` and the timer is armed, or, when creating the channel throws, `error` with a rejection |
| Channels.AttemptOpenRegisters | apps/web/app/composables/useWebRTC.ts:99-105 | open clears the timer, stores the channel as open under the target, marks it `connected` and resolves unless already settled |
| Channels.AttemptErrorAndClose | apps/web/app/composables/useWebRTC.ts:107-118 | an error clears the timer, marks `error` and rejects; a close before open clears it and marks `disconnected` without settling |
| Channels.TimeoutRule | apps/web/app/composables/useWebRTC.ts:93-97 | an armed timer marks `error` and rejects with the timeout message; a cleared one does nothing |
| Channels.IncomingRegisters | apps/web/app/composables/useWebRTC.ts:43-47 | an incoming channel is stored under its peer, which is `connected` |
| Channels.ChannelEndRemoves | apps/web/app/composables/useWebRTC.ts:137-147 | a close removes the channel as `disconnected`, an error as `error`; no other channel is touched |
| Channels.SendDataRule | apps/web/app/composables/useWebRTC.ts:150-158 | data is sent exactly when the channel exists and is open, and only to it |
| Channels.CloseConnectionRule | apps/web/app/composables/useWebRTC.ts:160-167 | a present channel is closed, removed and `disconnected`; an absent one changes nothing |
| Channels.DestroyRule | apps/web/app/composables/useWebRTC.ts:169-179 | every channel is closed, both maps emptied, the endpoint and id dropped, reconnection off and not requested |
| Channels.ReconnectRule | apps/web/app/composables/useWebRTC.ts:54-62 | `disconnected` reconnects exactly while the endpoint exists and reconnection is wanted; `initPeer` after `destroy` re-enables it |
| Channels.NothingAfterDestroy | apps/web/app/composables/useWebRTC.ts:54-62 | after `destroy` and before `initPeer`, nothing reconnects and no channel is added except by an earlier attempt opening |
| Channels.ChannelManager.constructor | apps/web/app/composables/useWebRTC.ts:7-11 | no endpoint, empty maps, reconnection wanted |
| Channels.ChannelManager.GetConnectionState | apps/web/app/composables/useWebRTC.ts:18-20 | the recorded state of the peer, none exactly when unrecorded |
| Channels.ChannelManager.InitPeer | apps/web/app/composables/useWebRTC.ts:22-68 | performs `initPeer` in place |
| Channels.ChannelManager.OnPeerOpen | apps/web/app/composables/useWebRTC.ts:37-41 | performs the endpoint's `open` handler in place |
| Channels.ChannelManager.OnPeerError | apps/web/app/composables/useWebRTC.ts:49-52 | performs the endpoint's `error` handler in place |
| Channels.ChannelManager.OnPeerDisconnected | apps/web/app/composables/useWebRTC.ts:54-62 | performs the endpoint's `disconnected` handler in place |
| Channels.ChannelManager.ConnectToPeer | apps/web/app/composables/useWebRTC.ts:70-97 | performs the synchronous part of `connectToPeer` in place |
| Channels.ChannelManager.OnAttemptOpen | apps/web/app/composables/useWebRTC.ts:99-105 | performs the attempt's `open` handler in place |
| Channels.ChannelManager.OnAttemptError | apps/web/app/composables/useWebRTC.ts:107-112 | performs the attempt's `error` handler in place |
| Channels.ChannelManager.OnAttemptClose | apps/web/app/composables/useWebRTC.ts:114-118 | performs the attempt's `close` handler in place |
| Channels.ChannelManager.OnAttemptTimer | apps/web/app/composables/useWebRTC.ts:93-97 | performs the timeout callback in place |
| Channels.ChannelManager.HandleConnection | apps/web/app/composables/useWebRTC.ts:127-130 | stores the channel under the peer and marks it `connected` |
| Channels.ChannelManager.OnIncoming | apps/web/app/composables/useWebRTC.ts:43-47 | performs the endpoint's `connection` handler in place |
| Channels.ChannelManager.OnChannelOpen | apps/web/app/composables/useWebRTC.ts:150-153 | a registered channel becomes open |
| Channels.ChannelManager.OnChannelClose | apps/web/app/composables/useWebRTC.ts:137-141 | performs the channel's `close` handler in place |
| Channels.ChannelManager.OnChannelError | apps/web/app/composables/useWebRTC.ts:143-147 | performs the channel's `error` handler in place |
| Channels.ChannelManager.SendData | apps/web/app/composables/useWebRTC.ts:150-158 | returns true exactly when the channel exists and is open, and sends only then |
| Channels.ChannelManager.CloseConnection | apps/web/app/composables/useWebRTC.ts:160-167 | performs `closeConnection` in place |
| Channels.ChannelManager.CloseAll | apps/web/app/composables/useWebRTC.ts:173 | closes every registered channel |
| Channels.ChannelManager.Destroy | apps/web/app/composables/useWebRTC.ts:169-179 | performs `destroy` in place |
| LegacyChannels.AttemptOpenRegisters | app/composables/useWebRTC.ts:74-79 | open clears the timer, registers the channel as open under the target and resolves |
| LegacyChannels.AttemptEventsAndReconnect | app/composables/useWebRTC.ts:69-90 | an error clears the timer and rejects; an armed timer rejects with the timeout; a close only clears the timer; every `disconnected` with an endpoint reconnects |
| LegacyChannels.ConnectWithoutPeer | app/composables/useWebRTC.ts:51-55 | without an endpoint the call rejects with "Peer not initialized" and nothing else changes |
| LegacyChannels.ChannelEndRemoves | app/composables/useWebRTC.ts:106-114 | a close or error removes the channel and nothing else |
| LegacyChannels.SendDataRule | app/composables/useWebRTC.ts:117-125 | data is sent exactly when the channel exists and is open |
| LegacyChannels.CloseConnectionRule | app/composables/useWebRTC.ts:127-133 | a present channel is closed and removed; an absent one changes nothing |
| LegacyChannels.DestroyRule | app/composables/useWebRTC.ts:135-140 | every channel closed, the map emptied, the endpoint dropped, the local id kept; a reported `disconnected` still reconnects |
| LegacyChannels.DestroyComparedWithNewer | app/composables/useWebRTC.ts:135-140 | from one endpoint, the older `destroy` reconnects and keeps the id; the newer neither |
| LegacyChannels.LegacyChannelManager.constructor | app/composables/useWebRTC.ts:5-7 | no endpoint, no channels |
| LegacyChannels.LegacyChannelManager.InitPeer | app/composables/useWebRTC.ts:9-47 | performs the older `initPeer` in place |
| LegacyChannels.LegacyChannelManager.OnPeerOpen | app/composables/useWebRTC.ts:22-26 | performs the endpoint's `open` handler in place |
| LegacyChannels.LegacyChannelManager.OnPeerError | app/composables/useWebRTC.ts:33-36 | performs the endpoint's `error` handler in place |
| LegacyChannels.LegacyChannelManager.OnPeerDisconnected | app/composables/useWebRTC.ts:38-41 | performs the unconditional reconnect in place |
| LegacyChannels.LegacyChannelManager.ConnectToPeer | app/composables/useWebRTC.ts:49-72 | performs the synchronous part of the older `connectToPeer` |
| LegacyChannels.LegacyChannelManager.OnAttemptOpen | app/composables/useWebRTC.ts:74-79 | performs the attempt's `open` handler in place |
| LegacyChannels.LegacyChannelManager.OnAttemptError | app/composables/useWebRTC.ts:81-85 | performs the attempt's `error` handler in place |
| LegacyChannels.LegacyChannelManager.OnAttemptClose | app/composables/useWebRTC.ts:87-90 | performs the attempt's `close` handler in place |
| LegacyChannels.LegacyChannelManager.OnAttemptTimer | app/composables/useWebRTC.ts:69-72 | performs the timeout callback in place |
| LegacyChannels.LegacyChannelManager.OnIncoming | app/composables/useWebRTC.ts:28-31 | performs the endpoint's `connection` handler in place |
| LegacyChannels.LegacyChannelManager.OnChannelOpen | app/composables/useWebRTC.ts:117-120 | a registered channel becomes open |
| LegacyChannels.LegacyChannelManager.OnChannelEnd | app/composables/useWebRTC.ts:106-114 | the channel's `close` and `error` handlers, which coincide |
| LegacyChannels.LegacyChannelManager.SendData | app/composables/useWebRTC.ts:117-125 | returns true exactly when the channel exists and is open, and sends only then |
| LegacyChannels.LegacyChannelManager.CloseConnection | app/composables/useWebRTC.ts:127-133 | performs `closeConnection` in place |
| LegacyChannels.LegacyChannelManager.CloseAll | app/composables/useWebRTC.ts:136 | closes every registered channel |
| LegacyChannels.LegacyChannelManager.Destroy | app/composables/useWebRTC.ts:135-140 | performs the older `destroy` in place |

## Left out

- Sockets, PeerJS, `publish`/`subscribe`, timers, `localStorage`, `crypto.randomUUID`, `Date.now` and the download anchor are not modelled as such.
  - Their inputs are parameters: ids, user agents, the stored id and the failing send.
  - Their effects are log entries. `publish` is recorded, not fanned out to subscribers.
  - Real time is not modelled. A timer is a counter or a flag, and its firing is an event.
- JSON parsing and serialisation are out. A frame is a datatype with an `Unparseable` case, and a re-serialised negotiation message is carried as an opaque body.
- The ArrayBuffer / typed-array / Blob normalisation branches of the receivers are out. They are collapsed into one binary frame of bytes.
- Progress percentages are `real`, not floating point: rounding is not modelled.
- Lower-casing covers ASCII letters only.
- Handlers are atomic. The awaits inside `sendFile`, `pushChunk` and the older sender's pauses are not interleaved with other events.
- `startTime`, `endTime`, `speed`, the device/transfer direction fields and console logging are out.
- apps/web/app/stores/transfers.ts is not part of this model. The newer composable is modelled over the app/stores/transfers.ts store.
  - The duplicate suppression, 50-entry cap and newest-first ordering that its tests expect are therefore absent.
  - So are the announce validation and truncation, the unknown-target warning and the connection callbacks that other tests expect; none of these is in the modelled source.
- FileTransfer.FileTransferClient.SendFile: requires the transfer id to be absent from the active list. This stands in for the random UUID the source generates.
- FileTransfer.SendReceiveRoundTrip: requires a non-empty id, which every generated id is.
- FileTransfer.Step: the `chunkIndex` of a descriptor is not used, as in the source; binary frames are appended in arrival order.
- A frame whose `transferId` is missing is not modelled. Every parsed frame carries an id.
- Discovery and Channels: events from a socket or channel that has already been replaced are not told apart from events of the current one. Channel events are keyed by peer id.
- Channels: after an attempt has opened, its own `close`/`error` handlers run together with the registered channel's handlers. Only the registered channel's effect is modelled for those events.
- Channels.ChannelManager.OnIncoming: the transient `connecting` state of an incoming connection is written but not observable, because `handleConnection` overwrites it in the same handler.
- Channels: the close log is a set. Repeated closes of one channel and the order of `destroy`'s closes are not kept.
- Whether destroying the PeerJS endpoint reports `disconnected` (and so reaches the handler) is library behaviour. It enters as a parameter of `Destroy`.
- Channels.ChannelManager.Destroy: ensures `AfterDestroy`, which is by definition the `Destroy` event's `Step`.
- Channel payloads are opaque bytes. What `useFileTransfer` does with them is modelled separately on frames.
- The server-side-rendering branches (no `window`) are out, except `getPlatform`'s `Server` answer and the missing stored id.

## Findings

| source | as written | input that shows it | evidently intended | confidence | as-written member | corrected member |
|---|---|---|---|---|---|---|
| app/composables/useFileTransfer.ts:117-161 | one `currentTransfer` slot: each `file-meta` replaces it and every binary frame goes to it | `file-meta` A, `file-meta` B, `file-chunk` A, A's bytes, `file-complete` A | A's bytes saved as A and B left intact, as the per-transfer map of the newer receiver does | not executed | LegacyFileTransfer.InterleavedMixUp | FileTransfer.InterleavedKeptApart |
| app/composables/useFileTransfer.ts:65-68 | sender progress `(offset + 64 KiB) / size * 100` is not capped | a 1-byte file: 6 553 600 % after its only chunk | a percentage never above 100, as `Math.min(…, 100)` in the newer sender | not executed | PeerProtocol.UncappedProgressOvershoots | PeerProtocol.SenderProgressProperties |
| server/routes/ws.ts:56-65 | a `signal` with a target is sent back to the sender | B registered and connected; A sends a signal for B | delivered to B's connection, as the newer relay does | not executed | LegacyRelay.SignalEchoExample | Relay.SignalRouting |
| app/composables/useDeviceDiscovery.ts:26-32 | desktop keywords are tested before mobile ones | user agent `linux; android` gives Linux; `iphone; mac os` gives macOS | Android and iOS, as the newer mobile-first order gives | not executed | LegacyDiscovery.MisreadExamples | Discovery.MobileBeforeDesktop |
| app/composables/useDeviceDiscovery.ts:107-170 | `disconnect` does not stop the reconnect that the closing socket's `onclose` schedules | `disconnect`, then the old socket's close, then the timer | stay disconnected, as the newer `shouldReconnect` flag ensures | not executed | LegacyDiscovery.ReconnectsAfterDisconnect | Discovery.NoReconnectAfterDisconnect |
