# Verified model of a USB-over-IP bridge

The repository forwards USB devices over a network. A client on a phone, a Mac or a PC describes its
devices and answers transfers; a server keeps a table of virtual devices, queues the transfers (URBs)
that the host submits and routes their completions; a driver does the same job in the kernel. This
project models the bookkeeping of that bridge and the bytes that flow through it, and proves what they
keep over whole runs.

| module | models |
|---|---|
| `Userspace`, `UserspaceCore`, `UserspaceRuns`, `UserspaceTransfers`, `UserspaceOwners`, `UserspaceTracking`, `UserspaceTable`, `UserspaceCalls` | the userspace server as a state machine, and the theorems about its runs |
| `UserspaceServer`, `Pending`, `EndpointBuffer` | the same server in place: arrays, heap-linked lists, counters and buffers |
| `Descriptors`, `ConfigParser`, `DriverFastPath` | descriptor printer, parse loop, GET_DESCRIPTOR walk and the driver's cached answer |
| `Wire`, `AttachCodec`, `Framing`, `EndToEnd` | packed records, the attach codecs of three languages, the receive loop, and their composition |
| `DriverTable`, `DriverQueue` | the driver's slot table and URB queue |
| `SimServer` | the forwarding server in simulation mode and its routing |
| `InterruptPolling` | change-only interrupt polling on Android and macOS |
| `Collections` | first-match search, sums, swap-remove, pigeonhole |

`dafny verify dfyconfig.toml` checks everything.

## How to read it

Each handler or API call is one step of a state machine. A run is any list of steps, each enabled when
its turn comes. Beside the server state a run carries a history. From calls and replies it notes who was
submitted and who was finished, and keeps on file the record last delivered for each; from the device
table it notes which devices went away and the traffic they had counted. The theorems relate that
history to the state after every run. `UserspaceTransfers` adds a ledger of what each submission asked for and
what each completing call was given. Ids are 32-bit and wrap in the model as in the code; theorems that
need ids to be fresh are about runs of fewer than 2^32 steps.

The classes hold the fields of the C, Kotlin and Swift objects and update them in place. The methods of
the userspace server, down to the stores through the links of its pending lists, are proved to take the
state machine's steps on the values that their fields lead to. So are those of the other classes, whose
lists are sequences.

## Where the code differs from what one would expect

- Ownership in the userspace server is exact only while the exported VusbUsDestroyDevice
  (userspace/vusb_userspace.c:154-171) is not used on a device that a client owns: it cleans the slot
  and leaves the id in the client's array. `DestroyKeepsTrackingIff` gives the exact condition,
  `UserspaceTracking.StaleEntry` a run that breaks it. Stale ids take up the array's sixteen entries, so
  the guard of the attach handler can then drop a device, which stays active when its client has gone.
  `OutlivesExitIff` says exactly when, `DroppedDevice` is such a run. What holds over every run all the
  same is that an exit touches no other client's device (`ExitTouchesNoOther`).
- The receive loop stops after a DISCONNECT frame (userspace/vusb_userspace.c:599-601), so a list of
  frames arrives complete if and only if none precedes the last one (`ReceivesExactlyIff`).
- VusbUrbParse keeps sixteen bits of the buffer length (driver/vusb_urb.c:164), so what the handler puts in
  the buffer and what the general walk answers differ for lengths that are 0 to 17 modulo 2^16
  (`FastPathAgreesIff`); within 18 to 65535 they always agree. For arbitrary descriptor lists
  `HandlerAgreesIff` gives the exact condition.
- The comment at driver/vusb_ioctl.c:290 says that a delivered URB stays to be completed; it is on no
  list any more, and neither completion nor cancellation reaches it, then or later (`DeliveredIsNeverFinished`).
- A URB that cannot be handed over goes back to the tail and counts as another submission. The order of
  submission survives this only when the URB was alone (`RequeueKeepsOrderIff`); `RequeueOvertakes` is a run that delivers
  the second URB first.
- In the simulation server a client may detach an id of another client; the other's entry then stays
  behind. `DetachExactIff` gives the exact condition, `SimServer.StaleEntry` a run that breaks it. Stale
  entries can fill the client's sixteen, and the next attach is then not recorded: `AttachHeldIff` and
  `OverflowRun`.
- The descriptor walk reads the type byte before it looks at the length, so some blobs make it read
  behind their end. `OutsideReadIff` says which requests do so, `WalkStaysInsideIff` which blobs are safe
  from all requests; a broken descriptor behind 256 of its type is out of reach of a one-byte index.
- The configuration parser reads the type byte, and the fields of a descriptor by its claimed length, before
  it knows that they are inside; `OverreadIff` says for which bytes it reads outside. Printed bytes are
  never among them.
- The configuration parser skips interfaces numbered 8 or more but files their endpoints behind those of
  the current entry; `LastWins` proves that no entry's own endpoints are overwritten by that.

## Model

| member | source | states |
|---|---|---|
| `UserspaceRuns.StepKeepsCore` | userspace/vusb_userspace.c:206-301 | One step of any kind (accept, attach, detach, remote completion, thread exit, create, destroy, submit, complete or cancel) keeps the core invariant: distinct issued ids, pending lists strictly decreasing and equal to the unfinished submissions, every key submitted and finished at most once, totals balanced; no 32-bit counter advances by more than one |
| `UserspaceRuns.RunKeepsCore` | userspace/vusb_userspace.c:206-301 | The core invariant holds after every run of fewer than 2^32 steps, whatever slots are reused |
| `UserspaceRuns.OneFate` | userspace/vusb_userspace.c:74-88 | After every run, every (device id, URB id) that was submitted is in exactly one of: pending, finished, dropped with its device; each was submitted and finished at most once; nothing else is in any of the three |
| `UserspaceRuns.ReportedWasPending` | userspace/vusb_userspace.c:244-260 | Whatever is reported complete was pending on an active device until that step |
| `UserspaceRuns.StepKeepsOutcome` | userspace/vusb_userspace.c:244-260 | In the core invariant, no step delivers a record for a URB that already has one |
| `UserspaceRuns.OutcomeStays` | userspace/vusb_userspace.c:244-260 | The record delivered for a URB at some point of a run is still the one last delivered for it at every later point: no server step ever delivers a second record, so the first status stays |
| `UserspaceRuns.SecondCompletionFails` | userspace/vusb_userspace.c:250-253 | Completing or cancelling a finished URB again returns -1 and leaves the whole server state unchanged |
| `UserspaceRuns.CompletionDelivers` | userspace/vusb_userspace.c:233-301 | Completing a pending URB puts exactly the given status and length on record, finishes that key once more and no other, and every other pending URB stays pending |
| `UserspaceTransfers.SubmitQueues` | userspace/vusb_userspace.c:206-231 | A submission becomes the head of the list of the one active device with the id, under the next URB id, with the direction, buffer, status and length it was given and not completed; earlier entries follow unchanged and no other device changes. Without such a device it fails and changes nothing |
| `UserspaceTransfers.CompletionFills` | userspace/vusb_userspace.c:233-296 | Completing what waits under a key finishes that key and no other; the record has the entry's direction, the given status and length, and in the buffer of an IN transfer the given bytes when they fit |
| `UserspaceTransfers.TransfersAreKept` | userspace/vusb_userspace.c:206-296 | After every run: each entry on a list is the transfer submitted under its key, and each delivered record is that transfer filled in with the status, length and data of the call or message that completed it |
| `UserspaceTransfers.RemoteCompletionDelivers` | userspace/vusb_userspace.c:526-555 | A URB_COMPLETE message, written out field by field, acts on the first active device attached under its DeviceId: its UrbId, pending there, is finished and no other key is, with the message's status, length and data |
| `UserspaceTransfers.RemoteCompletionMisses` | userspace/vusb_userspace.c:526-555 | When that device has no such URB, or no active device was attached under the DeviceId, the message changes nothing |
| `UserspaceRuns.Conservation` | userspace/vusb_userspace.c:877-897 | After every run: per device UrbsSubmitted = UrbsCompleted + PendingUrbCount and PendingUrbCount is the list length; summed over live devices the same; TotalUrbsProcessed and TotalBytesTransferred are the live sums plus those of destroyed devices, count exactly what was observed by direction, and have not wrapped |
| `UserspaceRuns.SumsBalance` | userspace/vusb_userspace.c:883-893 | Summed over any slots with consistent lists, submitted = completed + pending |
| `UserspaceCore.KeepsCreate` | userspace/vusb_userspace.c:112-152 | Filling a free slot under a fresh id keeps the core invariant: no earlier key can refer to the new device |
| `UserspaceCore.KeepsRetire` | userspace/vusb_userspace.c:74-110 | Cleaning up any set of slots keeps the core invariant, with the removed devices' counters moving to the destroyed totals |
| `UserspaceCore.KeepsSubmit` | userspace/vusb_userspace.c:216-228 | A submission adds one new key, pending on that device only, and keeps the core invariant |
| `UserspaceCore.KeepsComplete` | userspace/vusb_userspace.c:244-293 | A completion moves one key from pending to finished, books its bytes under its direction and keeps the core invariant |
| `Userspace.CompleteTransfer` | userspace/vusb_userspace.c:257-267 | The completed record carries the given status and length, keeps its direction, and its buffer changes only for an IN transfer with data that fits: exactly the first `length` bytes are replaced |
| `Userspace.CleanupMatching` | userspace/vusb_userspace.c:692-697 | The inner loop at thread exit cleans every active slot with the id and leaves every other slot as it was |
| `UserspaceOwners.TrackingIsExact` | userspace/vusb_userspace.c:451-524 | After every run in which VusbUsDestroyDevice is not called on a client's device, each connected client's DeviceIds[0..DeviceCount) is duplicate-free, has at most 16 entries and is exactly the set of active devices it owns, and every owner is connected |
| `UserspaceOwners.StepKeepsOwners` | userspace/vusb_userspace.c:498-524 | Every such step keeps ownership exact: attach appends, detach swap-removes exactly the id, exit removes the client with all its devices |
| `UserspaceOwners.TrackedBound` | userspace/vusb_userspace.c:485-488 | Pigeonhole: an exact tracking array has at most as many entries as there are slots, and strictly fewer while a slot is free |
| `UserspaceOwners.DestroyKeepsTrackingIff` | userspace/vusb_userspace.c:154-171 | A direct VusbUsDestroyDevice keeps ownership exact if and only if the id is unknown or its device has no owner |
| `UserspaceTracking.StaleEntry` | userspace/vusb_userspace.c:154-171 | A concrete run (accept, attach, VusbUsDestroyDevice) after which a client's array names a device it does not own |
| `UserspaceTracking.RunSound` | userspace/vusb_userspace.c:451-524 | After every run, with VusbUsDestroyDevice on any device: each array is duplicate-free, has at most 16 entries, names issued ids only, and an active device that it names belongs to its client |
| `UserspaceTracking.StepSound` | userspace/vusb_userspace.c:451-524 | Every step of any kind keeps that |
| `UserspaceTracking.ExitCleansTracked` | userspace/vusb_userspace.c:683-711 | In such a state an exit cleans up exactly the client's own devices that its array names; every other slot stays as it was |
| `UserspaceTracking.ExitTouchesNoOther` | userspace/vusb_userspace.c:683-711 | After every run: when a client's thread exits, no slot of another owner changes |
| `UserspaceTracking.ExitReleasesIff` | userspace/vusb_userspace.c:683-711 | After every run: the exit leaves no device of the client active if and only if its array names all of them |
| `UserspaceTracking.PoliteExitReleases` | userspace/vusb_userspace.c:683-711 | After every run in which VusbUsDestroyDevice is not called on a client's device: the exit cleans up exactly the devices the client owns, and every other slot is unchanged |
| `UserspaceTracking.AttachedIsTrackedIff` | userspace/vusb_userspace.c:485-488 | An attach that creates a device always makes the client its owner, and appends its id if and only if the array is not full; a full array stays as it was |
| `UserspaceTracking.PoliteGuardNeverDrops` | userspace/vusb_userspace.c:485-488 | After every run in which VusbUsDestroyDevice is not called on a client's device, the array is not full when an attach creates a device, so the `DeviceCount < 16` guard drops none |
| `UserspaceTracking.OutlivesExitIff` | userspace/vusb_userspace.c:485-488 | In every run, after any continuation in which the client stays: a device that was attached and is still active outlives the client's exit if and only if its attach found the client's array full |
| `UserspaceTracking.DroppedDevice` | userspace/vusb_userspace.c:485-488 | A concrete run (accept, sixteen times attach and VusbUsDestroyDevice, one more attach, exit) in which the guard drops the device and it stays active after its client has gone |
| `Collections.SwapRemoveExact` | userspace/vusb_userspace.c:511-516 | On a duplicate-free array, swap-remove deletes exactly the chosen id and keeps the rest duplicate-free |
| `UserspaceTable.LookupRefines` | userspace/vusb_userspace.c:173-183 | The slot scan finds an id exactly when it is a key of the finite map the table stands for, and the slot found holds that key's device |
| `UserspaceTable.CreateRefines` | userspace/vusb_userspace.c:112-152 | Create fails, changing nothing, exactly when 16 devices are live; otherwise the map gains one entry under an id that was not in it: the sent record but for the id, the sent descriptors, no owner and no traffic; nothing else changes |
| `UserspaceTable.DestroyRefines` | userspace/vusb_userspace.c:154-171 | Destroy removes exactly that entry from the map, and fails exactly when there is none |
| `UserspaceTable.SubmitRefines` | userspace/vusb_userspace.c:206-231 | Submit changes only the addressed entry of the map: a new head of its list, and three counters |
| `UserspaceTable.CompleteRefines` | userspace/vusb_userspace.c:233-296 | Complete changes only the addressed entry: its list without the entry that has the id, and the bytes counted under that entry's direction |
| `UserspaceTable.CompletionMisses` | userspace/vusb_userspace.c:239-253 | Complete finishes something exactly when the device is live and has the id pending; otherwise it fails and changes nothing |
| `UserspaceTable.IdsAreNotReused` | userspace/vusb_userspace.c:129-129 | A device id that was destroyed at some point of a run names no active device at any later point |
| `UserspaceCalls.AttachRefines` | userspace/vusb_userspace.c:451-496 | INVALID_PARAM below 212 bytes and ERROR when 16 devices are live, changing nothing; otherwise the map gains, under the next id, the device whose record is at 0 and whose descriptors are from 212 on, as many as the word at 208 says, owned by the sender |
| `UserspaceCalls.AttachReachesIff` | userspace/vusb_userspace.c:479-483 | The device is filed under the first word of the payload, and messages with that DeviceId reach it if and only if no active device in an earlier slot has the same one |
| `UserspaceCalls.DetachRefines` | userspace/vusb_userspace.c:498-518 | Detaching an own device removes exactly that entry of the map and that id from the own array; any other id changes nothing |
| `UserspaceCalls.AcceptRefines` | userspace/vusb_userspace.c:1089-1143 | Accepted exactly when fewer than 32 clients are connected and the thread starts, into a free place, with the next session id and no devices; otherwise only the session id is used up |
| `UserspaceCalls.ExitRemoves` | userspace/vusb_userspace.c:701-710 | After an exit the client is gone, every other client's record is as it was and the count is one less |
| `UserspaceCalls.SessionsAreDistinct` | userspace/vusb_userspace.c:1089-1143 | After every run no two connected clients share a session id |
| `UserspaceCalls.NothingIsLeft` | userspace/vusb_userspace.c:74-110 | After every run a slot that is not active holds no pending URB and no descriptors |
| `UserspaceServer.DeviceSlot.Initialize` | userspace/vusb_userspace.c:126-141 | A reused slot becomes a fresh device: empty list, zero counters, its own id in the info record |
| `UserspaceServer.DeviceSlot.CleanUp` | userspace/vusb_userspace.c:74-110 | The slot becomes inactive with an empty list and no descriptors; its counters stay |
| `UserspaceServer.DeviceSlot.SetOwner` | userspace/vusb_userspace.c:479-483 | Owner and remote id change and nothing else |
| `UserspaceServer.DeviceSlot.Submit` | userspace/vusb_userspace.c:214-226 | On the heap-linked list: the caller's record gets the next id, keeps its transfer and becomes the head; contents, count and statistics advance by exactly that entry |
| `UserspaceServer.CompletedOn` | userspace/vusb_userspace.c:242-291 | The specified outcome of a completion on one device: a finished record exactly when the id is pending, with that id and the given status |
| `UserspaceServer.DeviceSlot.Complete` | userspace/vusb_userspace.c:242-291 | On the heap-linked list, the outcome specified for one device: the first record with the id is filled in, counted under its direction and unlinked, the others keep their order; if there is none, nothing changes |
| `UserspaceServer.ClientRecord.TrackDevice` | userspace/vusb_userspace.c:485-488 | Appends the id to the array while there is room |
| `UserspaceServer.ClientRecord.UntrackDevice` | userspace/vusb_userspace.c:511-516 | The search-and-swap loop performs the swap-remove of the first match |
| `UserspaceServer.Context.constructor` | userspace/vusb_userspace.c:940-972 | Sixteen inactive slots with separate empty lists, no clients, zero counters |
| `UserspaceServer.Context.FindFreeDeviceSlot` | userspace/vusb_userspace.c:52-60 | The first inactive slot, or none |
| `UserspaceServer.Context.GetDevice` | userspace/vusb_userspace.c:173-183 | The first active slot with the id, or none |
| `UserspaceServer.Context.FindRemote` | userspace/vusb_userspace.c:543-551 | The first active slot with the remote id, or none |
| `UserspaceServer.Context.InitializeAt` | userspace/vusb_userspace.c:126-141 | Slot i becomes a fresh device and every other slot and its list stays intact |
| `UserspaceServer.Context.CreateDevice` | userspace/vusb_userspace.c:112-152 | Finds a slot, initialises it in place and takes the create step of the state machine, or fails when no slot is free |
| `UserspaceServer.Context.CleanUpAt` | userspace/vusb_userspace.c:74-110 | Slot i is cleaned up and every other slot and its list stays intact |
| `UserspaceServer.Context.DestroyDevice` | userspace/vusb_userspace.c:154-171 | Finds the slot, frees its linked list in place and takes the destroy step |
| `UserspaceServer.Context.SubmitAt` | userspace/vusb_userspace.c:214-226 | On the linked list of slot i, in the table of sixteen: that slot takes the record, every other slot and its list stays intact |
| `UserspaceServer.Context.SubmitUrb` | userspace/vusb_userspace.c:206-231 | Finds the slot, links the caller's record into its list and takes the submit step, including the server total; the record carries the URB id and is otherwise as the caller filled it in |
| `UserspaceServer.Context.CompleteAt` | userspace/vusb_userspace.c:242-291 | On the linked list of slot i: its first match is filled in and unlinked, every other slot and its list stays intact |
| `UserspaceServer.Context.CompleteUrb` | userspace/vusb_userspace.c:233-296 | Finds the slot, walks and unlinks its list in place and takes the complete step, including the server total; returns the finished record |
| `UserspaceServer.Context.CancelUrb` | userspace/vusb_userspace.c:298-301 | Takes the complete step with status CANCELED and moves no bytes |
| `UserspaceServer.Context.HandleUrbComplete` | userspace/vusb_userspace.c:526-555 | Ignores a payload shorter than its twenty bytes of fields; otherwise completes on the first active device with the remote id, with as many bytes as ActualLength claims, or does nothing |
| `UserspaceServer.Context.AcceptClient` | userspace/vusb_userspace.c:1089-1143 | Takes the accept step: a session id is always consumed, a slot only when one is free and the thread starts |
| `UserspaceServer.Context.CreateOwned` | userspace/vusb_userspace.c:473-483 | Creates the device and records its owner and remote id |
| `UserspaceServer.Context.AttachTracked` | userspace/vusb_userspace.c:473-489 | Creates, records owner and remote id, and tracks, as one step |
| `UserspaceServer.Context.HandleDeviceAttach` | userspace/vusb_userspace.c:451-496 | Decodes the payload at offsets 0, 208 and 212, refuses a short one with INVALID_PARAM, otherwise takes the attach step |
| `UserspaceServer.Context.DestroyOwned` | userspace/vusb_userspace.c:507-509 | Destroys the device exactly when the caller owns it |
| `UserspaceServer.Context.HandleDeviceDetach` | userspace/vusb_userspace.c:498-518 | Destroys and untracks only when the caller owns the device |
| `UserspaceServer.Context.CleanupId` | userspace/vusb_userspace.c:692-697 | Cleans every active slot with the id |
| `UserspaceServer.Context.CleanupClientDevices` | userspace/vusb_userspace.c:690-699 | Cleans the tracked ids one after another |
| `UserspaceServer.Context.ReleaseDevices` | userspace/vusb_userspace.c:690-699 | Cleans up every device in the client's tracking array |
| `UserspaceServer.Context.RemoveClient` | userspace/vusb_userspace.c:701-710 | Clears exactly the client's table entry and decrements the count |
| `UserspaceServer.Context.ClientExit` | userspace/vusb_userspace.c:683-711 | Takes the exit step |
| `UserspaceServer.Context.GetStats` | userspace/vusb_userspace.c:877-897 | Reports the sums over active devices; in every consistent state submitted = completed + pending |
| `Pending.PendingList.Prepend` | server/vusb_server_urb.c:226-239 | A new record becomes the head; contents and count grow by it |
| `Pending.PendingList.FindLink` | userspace/vusb_userspace.c:244-248 | The pointer-to-pointer walk stops at the link of the first entry with the id, or at the terminating link |
| `Pending.PendingList.UnlinkAt` | userspace/vusb_userspace.c:288-289 | The store through the link removes exactly that node and keeps order, entries and count right |
| `Pending.PendingList.Finish` | userspace/vusb_userspace.c:244-289 | Locates through the link, fills in the record and unlinks it: the list loses exactly its first match, whose record holds the new data |
| `Pending.PendingList.RemoveByLink` | userspace/vusb_userspace.c:244-289 | Pointer-to-pointer removal: the list becomes the old one without its first match; null exactly when the id is absent |
| `Pending.PendingList.RemovePrevCurr` | server/vusb_server_urb.c:251-281 | prev/curr removal has the same result as pointer-to-pointer removal: the list without its first match, order of the rest kept, count the length; null exactly when the id is absent |
| `Pending.WithoutIsOthers` | server/vusb_server_urb.c:258-281 | On distinct ids, either removal equals filtering the id out of the list |
| `Pending.WithoutDecreasing` | userspace/vusb_userspace.c:244-289 | Removal from a strictly decreasing list keeps it strictly decreasing, one shorter, and removes that id only |
| `EndpointBuffer.Endpoint.EpWrite` | userspace/vusb_userspace.c:726-758 | A write of at most 65536 bytes replaces whatever was unread; a longer one, or a failed first allocation, returns -1 and leaves the unread bytes alone; 0 <= DataOffset <= DataLength <= BufferSize is kept |
| `EndpointBuffer.Endpoint.EpRead` | userspace/vusb_userspace.c:760-791 | A read returns the next min(unread, max) bytes, touches nothing else in the caller's buffer and leaves the rest unread |
| `EndpointBuffer.ReadMany` | userspace/vusb_userspace.c:760-791 | Any sequence of reads on the object returns exactly the specified chunks |
| `EndpointBuffer.ReadsArePrefix` | userspace/vusb_userspace.c:760-791 | For any sizes, the reads concatenate to the prefix of length min(written, sum of sizes), and what is left is the rest |
| `EndpointBuffer.ReadsExhaust` | userspace/vusb_userspace.c:783-786 | Once the sizes sum to the length, everything has been returned and further reads return nothing |
| `Descriptors.ConfigLength` | android/app/src/main/java/com/vusb/client/usb/UsbDeviceManager.kt:377-386 | The precomputed total is the length of the bytes that will be printed |
| `Descriptors.AppendEndpoints` | android/app/src/main/java/com/vusb/client/usb/UsbDeviceManager.kt:417-429 | The inner loop prints the endpoint descriptors in order |
| `Descriptors.AppendInterfaces` | android/app/src/main/java/com/vusb/client/usb/UsbDeviceManager.kt:400-430 | The outer loop prints each interface descriptor followed by its endpoints |
| `Descriptors.BuildConfigDescriptor` | android/app/src/main/java/com/vusb/client/usb/UsbDeviceManager.kt:374-433 | The output is the configuration tree in order, and its wTotalLength field is the output length modulo 2^16 |
| `Descriptors.GetDescriptor` | userspace/vusb_userspace.c:340-370 | The offset loop terminates on any bytes and computes the walk, reporting every read outside the blob |
| `Descriptors.WalkIsNth` | userspace/vusb_userspace.c:346-366 | On concatenated descriptors with bLength >= 2 equal to their length, the walk is `filter by type, take the index-th, cut to wLength`, never reads outside, and fails exactly when there are not that many |
| `Descriptors.OutsideReadIff` | userspace/vusb_userspace.c:347-366 | Exactly which requests read outside an arbitrary blob: no sound descriptor answers them, and the walk ends at a length byte without a type byte, or at the very descriptor asked for with more to copy than is left |
| `Descriptors.WalkStaysInsideIff` | userspace/vusb_userspace.c:340-366 | No request, with one byte of type and of index and sixteen bits of length, reads outside the blob if and only if its lengths lead to its end or to a zero length with a byte behind it, or 256 sound descriptors of the broken one's type (of every type, for a lone length byte) come before the break |
| `Descriptors.ShieldedBlobIsSafe` | userspace/vusb_userspace.c:343-362 | A broken descriptor behind at least 256 sound ones of its type is out of reach of every request |
| `ConfigParser.ReadConfigDescriptor` | client/vusb_capture.c:687-735 | The pointer loop, writing the Interfaces array in place, computes the parse of the bytes after the header; it stays inside them exactly when they are not of the overread kind |
| `ConfigParser.OverreadIff` | client/vusb_capture.c:698-733 | On any bytes: the loop reads outside them if and only if its sound descriptors lead to a lone last byte, or to a truncated interface whose number is missing, or is below 8 while a field is missing, or to a truncated endpoint while an accepted interface has room for it |
| `ConfigParser.OpenIffAwaits` | client/vusb_capture.c:720-729 | Whether an endpoint would be filed can be read off the descriptors passed: an interface was accepted and fewer than 32 endpoints follow the last such |
| `ConfigParser.DescriptorsGive` | client/vusb_capture.c:698-733 | On any well-formed descriptors, printed or not: the entry of the last interface numbered n has that descriptor's bytes as its fields, and as its endpoints the first 32 endpoint descriptors, of seven bytes or more, between it and the next accepted interface |
| `ConfigParser.AbsentLeavesEntry` | client/vusb_capture.c:704-717 | Without an interface numbered n, entry n stays as it was |
| `ConfigParser.ParsePrinted` | client/vusb_capture.c:698-733 | On the printed bytes of every tree the loop stays inside and equals a fold over the interface tree |
| `ConfigParser.LastWins` | client/vusb_capture.c:704-717 | After any tree, entry n holds the last interface numbered n with its first endpoints, or what was there before when there is none; interfaces numbered 8 or more never disturb it |
| `ConfigParser.ParseInvertsPrint` | client/vusb_capture.c:687-735 | For every device whose configuration is shorter than 65536 bytes: wTotalLength is the length, the parse stays inside, and every entry n < 8 holds the last interface with that number: all fields and its endpoints in order, up to 32 |
| `Wire.DecodeEncodeInfo` | protocol/vusb_protocol.h:142-156 | The 208-byte record read at its C offsets gives back every field, whatever follows |
| `Wire.EncodeDecodeInfo` | protocol/vusb_protocol.h:142-156 | Any 208 bytes are reproduced by encoding what was decoded |
| `Wire.InfoBytes` | protocol/vusb_protocol.h:142-156 | Every field of the record is at its C offset, least significant byte first |
| `AttachCodec.FixedString` | android/app/src/main/java/com/vusb/client/protocol/VusbProtocol.kt:220-226 | At most 63 bytes of the string, zero-padded to 64 |
| `AttachCodec.PutInfo` | android/app/src/main/java/com/vusb/client/protocol/VusbProtocol.kt:190-210 | Writes through the cursor exactly the 208 bytes of the C record |
| `AttachCodec.KotlinToByteArray` | android/app/src/main/java/com/vusb/client/protocol/VusbProtocol.kt:180-218 | Kotlin's payload is the C layout: record, descriptor length, descriptors |
| `AttachCodec.SwiftToData` | macos/VusbClient/Protocol/VusbProtocol.swift:305-332 | Swift's record bytes are the C record |
| `AttachCodec.SwiftAttachPayload` | macos/VusbClient/Network/VusbNetworkClient.swift:327-341 | Swift's payload is the same byte sequence that Kotlin produces for the same device |
| `AttachCodec.PayloadBytes` | android/app/src/main/java/com/vusb/client/protocol/VusbProtocol.kt:180-226 | Byte by byte, the payload has each field of the device at its C offset, the strings cut at 63 bytes and zero-padded, the descriptors' length at 208 and both descriptors in order from 212 on |
| `AttachCodec.ReadFixedString` | macos/VusbClient/Protocol/VusbProtocol.swift:380-388 | The bytes before the first NUL of the next field, or the empty string when they are not UTF-8, and the offset behind the field |
| `AttachCodec.SwiftFromData` | macos/VusbClient/Protocol/VusbProtocol.swift:344-408 | None exactly for fewer than 208 bytes, otherwise the Swift view of the C record, with an unknown speed mapped to 0 and strings that are not UTF-8 empty |
| `AttachCodec.SwiftShows` | macos/VusbClient/Protocol/VusbProtocol.swift:344-408 | From any record: the id as a signed number, a speed above 5 as 0, each string up to its first NUL or empty when that is not UTF-8, and every other field as it is |
| `AttachCodec.CReaderRecovers` | userspace/vusb_userspace.c:465-467 | Reading a payload at offsets 0, 208 and 212 recovers every field, the length and the descriptors |
| `AttachCodec.FieldRoundTrip` | macos/VusbClient/Protocol/VusbProtocol.swift:335-341 | A string read back from its field is the string cut at 63 bytes and at its first NUL |
| `AttachCodec.SwiftRoundTrip` | macos/VusbClient/Protocol/VusbProtocol.swift:305-408 | fromData after toData is the identity up to cutting each string at 63 bytes and at its first NUL, where a cut through a character leaves the empty string; for every device and every notion of UTF-8 |
| `AttachCodec.StringSurvivesIff` | macos/VusbClient/Protocol/VusbProtocol.swift:335-341 | A string survives the round trip if and only if it has at most 63 bytes and no NUL |
| `Framing.HeaderRoundTrip` | android/app/src/main/java/com/vusb/client/protocol/VusbProtocol.kt:122-154 | Decoding an encoded header is the identity on every header, whatever follows |
| `Framing.HeaderBytes` | protocol/vusb_protocol.h:271-279 | A header is 42 53 55 56 00 01, then command, length and sequence, least significant byte first |
| `Framing.AcceptedBytes` | protocol/vusb_protocol.h:281-284 | Sixteen bytes are accepted as a header if and only if they begin 42 53 55 56 00 01, and what is read from them is at 6, 8 and 12 |
| `Framing.ReceiveFrame` | userspace/vusb_userspace.c:649-676 | One turn of the loop: the next frame, or the reason to give up, as the stream decoder has it |
| `Framing.ClientThread` | userspace/vusb_userspace.c:649-681 | The receive loop processes exactly the frames of the stream decoder and stops for the same reason; when the server stops running earlier, exactly as many of them as it had turns |
| `Framing.RunningFor` | userspace/vusb_userspace.c:649-650 | When the server stops running after so many turns, the first that many frames have been processed; all of them exactly when there were turns enough to meet the end |
| `Framing.ReceiveAll` | userspace/vusb_userspace.c:649-681 | Frames with payloads up to 65520 bytes come out as they went in, and the loop goes on with what follows |
| `Framing.BadHeaderStops` | userspace/vusb_userspace.c:659-663 | On a bad header exactly the frames before it have been processed |
| `Framing.StopsFor` | userspace/vusb_userspace.c:649-676 | Why the loop stops behind good frames, read off the next bytes: wrong magic or version, an announced length above 65520, or a stream that ends before the header or the payload is complete; otherwise the next frame is processed |
| `Framing.DisconnectStops` | userspace/vusb_userspace.c:599-601 | After a DISCONNECT frame nothing more is read, whatever follows |
| `Framing.ReceivesExactlyIff` | userspace/vusb_userspace.c:649-681 | The loop yields exactly the list that was sent if and only if no DISCONNECT comes before its last frame |
| `UserspaceServer.Context.CompactInfos` | userspace/vusb_userspace.c:565-573 | The copy loop collects the records of the active slots in slot order, with their number |
| `UserspaceServer.Context.HandleDeviceList` | userspace/vusb_userspace.c:557-582 | In every consistent table the reply is one frame that the receive loop accepts, with the active records |
| `UserspaceServer.ListIsAlwaysOneFrame` | userspace/vusb_userspace.c:557-582 | After every run the records fit their 208 bytes and the reply is one frame that a receive loop takes as sent, whatever follows |
| `Framing.ClientListDevices` | client/vusb_client.c:455-471 | Fails on fewer than 24 bytes; otherwise shows every whole record of those announced and stops behind the announced length or at the end of the stream |
| `Framing.ListRoundTrip` | client/vusb_client.c:455-471 | Reading 24 + 208 * DeviceCount bytes of a reply recovers every record and ends on the next frame boundary |
| `Framing.ListHead` | userspace/vusb_userspace.c:576-580 | The reply starts with a DEVICE_LIST header of the right length and the request's sequence number, then SUCCESS and the count |
| `Framing.ListedInOrder` | userspace/vusb_userspace.c:565-573 | The record of each active slot is in the list, behind those of the active slots before it |
| `Framing.OnePerActive` | userspace/vusb_userspace.c:565-573 | The list has one record for each active slot |
| `EndToEnd.ByType` | android/app/src/main/java/com/vusb/client/usb/UsbDeviceManager.kt:310-329 | In the printed descriptors, each type selects exactly the device, the configuration header, the interfaces or the endpoints, in tree order |
| `EndToEnd.AttachStores` | userspace/vusb_userspace.c:465-482 | Attaching a payload stores the printed descriptors and the decoded record under the next id, owned by the sender, under the sent DeviceId and without traffic |
| `EndToEnd.DescriptorsArrive` | userspace/vusb_userspace.c:340-370 | For every device tree whose attach request fits in one packet: the framed request is received as sent, and after attaching it GET_DESCRIPTOR(t, k) returns exactly the k-th descriptor of type t in tree order cut to wLength, or fails when there are not that many |
| `EndToEnd.SelectedShows` | android/app/src/main/java/com/vusb/client/usb/UsbDeviceManager.kt:310-329 | Read by position, without the printer: the k-th printed descriptor of a type has the fields of the k-th node of that type in tree order, and the printer's constants |
| `EndToEnd.HostSees` | userspace/vusb_userspace.c:340-370 | What the host sees of every device tree that fits: GET_DESCRIPTOR(t, k) on the attached device answers bytes that describe the k-th node of type t on the phone, cut to wLength, or fails when there is no such node |
| `DriverFastPath.ProcessStandardRequest` | driver/vusb_urb.c:421-472 | Status, handled flag and buffer contents are those of the specified outcome: a local answer exactly for GET_DESCRIPTOR(DEVICE, 0) with a large enough buffer, and otherwise an untouched buffer |
| `DriverFastPath.HandledIff` | driver/vusb_urb.c:421-472 | Answered locally if and only if it is the standard GET_DESCRIPTOR of type 1 and index 0 for a device with descriptors and a buffer with room for min(18, length) of them, which are written; otherwise the buffer is untouched. A missing device is reported, and only that fails |
| `DriverFastPath.ParsedHandledIff` | driver/vusb_urb.c:146-165 | The parsed setup packet carries type, index, language and sixteen bits of the length; it is answered locally if and only if the type is 1 and the index 0, with room and a buffer |
| `DriverFastPath.HandlerAgreesIff` | driver/vusb_urb.c:421-472 | For every nonempty descriptor list, the handler answers the parsed request for the device descriptor and writes min(18, length) bytes and no more; they are the walk's answer if and only if the list starts with a device descriptor of which the walk copies equally many bytes |
| `DriverFastPath.FastPathAgreesIff` | driver/vusb_urb.c:444-466 | Behind an 18-byte device descriptor, for every buffer of 18 bytes and more: the handler writes exactly that descriptor, and the walk on the parsed setup packet answers the same bytes if and only if the length modulo 2^16 is at least 18 |
| `DriverFastPath.FastPathAgrees` | driver/vusb_urb.c:146-165 | For every buffer length from 18 to 65535 the bytes the handler writes and the walk's answer are both the device descriptor |
| `DriverTable.CreateKeeps` | driver/vusb_device.c:67-99 | Plugging in succeeds exactly below 16 devices, fills one empty slot, leaves the others and keeps the table consistent |
| `DriverTable.CreateAdds` | driver/vusb_device.c:67-99 | Plugging in adds to the list exactly the given record and descriptors, attached, under the lowest id that no device has, or reports too many nodes when 16 are listed |
| `DriverTable.DestroyRemoves` | driver/vusb_device.c:110-149 | Unplugging takes exactly the device with the id off the list; INVALID_PARAMETER exactly for 0 and above 16, NOT_CONNECTED exactly when none is listed, and then nothing changes |
| `DriverTable.ResetSets` | driver/vusb_ioctl.c:437-450 | Resetting puts exactly the device with the id into the default state, or reports that it is not connected |
| `DriverTable.RoomBelowLimit` | driver/vusb_device.c:67-99 | DeviceCount < 16 exactly when a slot is empty, so the no-slot-found branch cannot be taken |
| `DriverTable.EveryRunIsConsistent` | driver/vusb_device.c:67-138 | After every run of plug-in, unplug and reset, DeviceCount is the number of occupied slots and slot i holds id and port i + 1 |
| `DriverTable.ListIsCompaction` | driver/vusb_ioctl.c:186-205 | The device list has DeviceCount entries, strictly ascending ids, and contains exactly the live devices |
| `DriverTable.DeviceContext.CreateVirtualDevice` | driver/vusb_device.c:67-99 | Takes the create step: the list gains exactly the described device under an id that was free; the branch after the slot loop is proved unreachable |
| `DriverTable.DeviceContext.DestroyVirtualDevice` | driver/vusb_device.c:110-149 | Takes the destroy step: succeeds exactly when the id is listed, and the list loses exactly that device |
| `DriverTable.DeviceContext.ResetVirtualDevice` | driver/vusb_ioctl.c:437-450 | Takes the reset step; succeeds exactly when the id is listed |
| `DriverTable.DeviceContext.CleanupAllDevices` | driver/vusb_device.c:170-180 | Reaches the empty table from every consistent one |
| `DriverTable.DeviceContext.GetDeviceList` | driver/vusb_ioctl.c:186-205 | Returns the compaction of the live slots, with count = DeviceCount |
| `DriverQueue.EveryRunBalances` | driver/vusb_device.c:185-339 | After every run of fewer than 2^32 requests every issued URB is in exactly one of waiting, delivered, finished, once; PendingUrbCount is the list length; TotalUrbsSubmitted = PendingUrbCount + dequeues + TotalUrbsCompleted + TotalErrors; TotalErrors = failures + TotalUrbsCanceled; the byte counters are the observed bytes |
| `DriverQueue.HandOverIff` | driver/vusb_ioctl.c:230-280 | A waiting URB is handed over if and only if the buffer is there and takes 36 bytes and, for an OUT URB, its data; otherwise it goes to the tail and counts as another submission |
| `DriverQueue.ReturnedAsSubmitted` | driver/vusb_urb.c:23-66 | After every run: whatever is handed over, completed or cancelled carries the device id, direction and length of the submission that got its id |
| `DriverQueue.CompletionTakes` | driver/vusb_ioctl.c:331-371 | Completing takes the waiting URB with that id off the list, counts a success or an error and the bytes of a success under its direction; without one it finds nothing and changes nothing |
| `DriverQueue.CancellationTakes` | driver/vusb_device.c:326-339 | Cancelling takes the waiting URB with that id off the list and counts a cancellation and an error; without one it changes nothing |
| `DriverQueue.DeliveredIsOutOfReach` | driver/vusb_ioctl.c:284-293 | A delivered URB is on no list and not finished; completing or cancelling it finds nothing and changes nothing |
| `DriverQueue.DeliveredIsNeverFinished` | driver/vusb_ioctl.c:284-293 | Once delivered, at every later point of the run the URB is still delivered, waits nowhere, is not finished, and completing or cancelling it finds nothing |
| `DriverQueue.DeliveryIsFifo` | driver/vusb_device.c:208-228 | While URBs are put back only when alone, delivered ids increase, every waiting URB is younger than every delivered one, and each missing id was finished while waiting |
| `DriverQueue.RequeueKeepsOrderIff` | driver/vusb_ioctl.c:248-252 | Putting a URB back at the tail keeps the submission order if and only if it was the only one waiting |
| `DriverQueue.RequeueOvertakes` | driver/vusb_ioctl.c:248-252 | A concrete run (two submissions, a request with too small a buffer, a request that fits) that delivers the second URB before the first |
| `DriverQueue.UrbContext.QueueUrb` | driver/vusb_device.c:185-203 | Appends at the tail and counts a submission; with an issued id that is not on the list, the list stays valid: count its length, ids distinct and issued |
| `DriverQueue.UrbContext.CreateAndQueue` | driver/vusb_urb.c:23-66 | A new URB gets the next id and goes to the tail; until ids wrap, that id was on no list and the list stays valid |
| `DriverQueue.UrbContext.DequeueUrb` | driver/vusb_device.c:207-228 | Takes the oldest, or nothing from an empty queue; the list stays valid and does not hold the taken id any more |
| `DriverQueue.UrbContext.FindUrb` | driver/vusb_device.c:232-261 | The list scan unlinks exactly the first match, or changes nothing; it finds exactly the ids on the list, and afterwards the id is not on it |
| `DriverQueue.UrbContext.CompleteUrb` | driver/vusb_device.c:266-302 | Counts exactly one success or error, and the bytes of a success under its direction |
| `DriverQueue.UrbContext.HandleGetPendingUrb` | driver/vusb_ioctl.c:230-293 | Delivers the oldest URB, which is then on no list, exactly when the buffer is available and takes 36 bytes and the data of an OUT URB, and otherwise puts it back as the last |
| `DriverQueue.UrbContext.HandleCompleteUrb` | driver/vusb_ioctl.c:331-346 | Completes a URB exactly when it is on the list, and takes it off |
| `DriverQueue.UrbContext.CancelUrb` | driver/vusb_device.c:326-339 | Cancels a URB exactly when it is on the list, takes it off, and counts a cancellation and an error |
| `SimServer.RoutingIsUnambiguous` | server/vusb_server_urb.c:317-338 | After every run at most one tracking entry among all clients holds a given id, so the routing scan returns the one connected client that holds it, independently of scan order, and finds only clients that hold it |
| `SimServer.AttachMeans` | server/vusb_server.c:462-512 | An attach takes a free slot for the sent record under the next id, and a free entry of the caller for that id and the DeviceId that was sent; without a free slot it answers 0 and changes nothing |
| `SimServer.AcceptMeans` | server/vusb_server.c:236-272 | Accepted exactly when a place is free: connected, under the next session id, with sixteen free entries |
| `SimServer.DetachMeans` | server/vusb_server.c:517-550 | A detach unplugs exactly the device with the id, whoever holds it, and takes the id out of the caller's entries only |
| `SimServer.LeaveMeans` | server/vusb_server.c:395-396 | After a DISCONNECT message no URB is routed to the client any more, every other route stays, and its devices stay plugged in |
| `SimServer.DisconnectMeans` | server/vusb_server.c:277-299 | Disconnecting removes the client and unplugs exactly the devices in its active entries |
| `SimServer.NoDeviceOutlivesItsClient` | server/vusb_server.c:277-299 | If clients detach only ids they were given, then after every run a device is plugged in exactly when a present client has an entry for it |
| `SimServer.EveryDeviceIsHeld` | server/vusb_server.c:490-503 | Whatever ids clients detach: after every run in which no attach gets a device slot while all sixteen entries of its client are active, some present client's entry names each plugged device |
| `SimServer.StepHeld` | server/vusb_server.c:490-503 | A step keeps every plugged device held if and only if it is not such an attach |
| `SimServer.AttachHeldIff` | server/vusb_server.c:490-503 | An attach keeps every plugged device held if and only if no device slot is free or its client has a free entry |
| `SimServer.OverflowRun` | server/vusb_server.c:517-545 | A concrete run (two clients, sixteen times an attach and its detach by the other client, one more attach) after which a device is plugged in that no entry names |
| `SimServer.RoomToTrack` | server/vusb_server.c:490-503 | Pigeonhole: in such a state, a client has a free tracking entry whenever a device slot is free, so tracking never overflows |
| `SimServer.DetachExactIff` | server/vusb_server.c:517-545 | A detach keeps devices and entries in agreement if and only if no other client holds the id |
| `SimServer.StaleEntry` | server/vusb_server.c:517-545 | A concrete run (two clients, one attach, a detach from the other client) after which the device is gone and its client still has the entry |
| `SimServer.UnplugAllSlots` | server/vusb_server.c:293-298 | Disconnecting unplugs exactly the devices in the client's active entries and no other slot changes |
| `SimServer.ServerContext.AcceptClient` | server/vusb_server.c:236-272 | Takes the accept step; refuses exactly when every slot is taken |
| `SimServer.ServerContext.PluginDevice` | server/vusb_server.c:668-690 | Takes the plug-in step of simulation mode; 0 exactly when every slot is taken |
| `SimServer.ServerContext.UnplugDevice` | server/vusb_server.c:717-733 | Deactivates the device with the id; succeeds exactly when there is one |
| `SimServer.ServerContext.HandleDeviceAttach` | server/vusb_server.c:462-512 | Plugs in and records the id in the first free entry, as one step |
| `SimServer.ServerContext.HandleDeviceDetach` | server/vusb_server.c:517-550 | Unplugs whoever owns the device and clears the caller's entry only |
| `SimServer.ServerContext.DisconnectClient` | server/vusb_server.c:277-299 | Leaves the table first, then unplugs every active entry |
| `SimServer.ServerContext.FindClientForDevice` | server/vusb_server_urb.c:317-338 | The nested scan returns the first connected client with an active entry for the id |
| `InterruptPolling.PollDevice` | android/app/src/main/java/com/vusb/client/usb/InterruptPoller.kt:178-216 | The polling loop emits exactly the specified changes of the trace |
| `InterruptPolling.EmitsChanges` | android/app/src/main/java/com/vusb/client/usb/InterruptPoller.kt:200-216 | For every trace and endpoint, the emitted values are the non-empty reads with consecutive repeats removed |
| `InterruptPolling.CacheHoldsLast` | android/app/src/main/java/com/vusb/client/usb/InterruptPoller.kt:178-206 | The cache holds exactly each endpoint's last non-empty read |
| `InterruptPolling.ListenerIsUpToDate` | android/app/src/main/java/com/vusb/client/usb/InterruptPoller.kt:200-216 | The last emitted value always equals the last non-empty read |
| `InterruptPolling.SessionsAreIndependent` | android/app/src/main/java/com/vusb/client/usb/InterruptPoller.kt:168-216 | In any interleaving of devices, a device's cache is the one its own session alone would have built |
| `InterruptPolling.SameEmissions` | macos/VusbClient/USB/InterruptPoller.swift:338-380 | Over every schedule of starts, polls and stops of any devices, Swift with one shared cache emits exactly what Kotlin emits with one cache per session |
| `InterruptPolling.SameEmissionsFromStart` | macos/VusbClient/USB/InterruptPoller.swift:356-380 | In particular, from the empty start both clients emit the same over every schedule |
| `InterruptPolling.SessionHearsItsChanges` | android/app/src/main/java/com/vusb/client/usb/InterruptPoller.kt:81-112 | From the start of a device's polling until it is stopped, whatever happens to other devices, both clients emit for it exactly the changes among its own reads |
| `InterruptPolling.PrefixMatchesDevice` | macos/VusbClient/USB/InterruptPoller.swift:123-126 | The prefix `deviceId-` matches a cache key if and only if it is a key of that device, for ids of either sign |
| `InterruptPolling.KeyInjective` | macos/VusbClient/USB/InterruptPoller.swift:361-361 | Different (device, endpoint) pairs have different cache keys |
| `InterruptPolling.StopForgetsOnlyItsDevice` | macos/VusbClient/USB/InterruptPoller.swift:112-129 | Stopping removes exactly that device's cache entries and leaves the others' values |
| `InterruptPolling.SwiftPoller.StartPolling` | macos/VusbClient/USB/InterruptPoller.swift:66-110 | Adds the device to those being polled and keeps the cache |
| `InterruptPolling.SwiftPoller.StopPolling` | macos/VusbClient/USB/InterruptPoller.swift:112-129 | Removes the device and filters the cache in place |
| `InterruptPolling.SwiftPoller.Poll` | macos/VusbClient/USB/InterruptPoller.swift:356-380 | Remembers and emits a non-empty read unless it equals the cached one |

## Left out

- Locks, threads and finer interleavings: VusbUsGetDevice reads the table without the lock, and a step here is a whole handler.
- Sockets: the receive loop is given the bytes that arrive before the peer closes.
- Allocation failure, except in VusbUsEpWrite: the other calls take their success path, and VusbUsCreateDevice always stores its descriptors.
- Completion callbacks that call back into the server: the callback is taken to return without touching the device.
- UserspaceOwners.TrackingIsExact: holds for runs that do not call VusbUsDestroyDevice on a client's device; the exact condition per step is `DestroyKeepsTrackingIff`, and what holds over every run is `UserspaceTracking.RunSound`.
- DriverQueue.DeliveryIsFifo: needs that URBs are put back only when alone; the exact condition per step is `RequeueKeepsOrderIff`.
- SimServer.NoDeviceOutlivesItsClient: needs that clients detach only ids they were given; the exact condition per step is `DetachExactIff`, and the direction that does not need it is `EveryDeviceIsHeld`.
- SimServer.ServerContext: client records are values of the client array instead of separate heap objects; the driver mode of that server and its device-list message are not modelled.
- DriverTable: the configuration, address and statistics fields of a virtual device, and the caching of the first 18 descriptor bytes; the table is about slots, ids, ports and counts.
- DriverQueue: the intrusive doubly linked list is a sequence.
- DriverQueue.UrbContext.CompleteUrb: the counters of the virtual device and the copy of the data into the transfer buffer (driver/vusb_device.c:289-308) are not modelled.
- HandleStandardRequest, except GET_DESCRIPTOR: the other requests set single fields.
- UTF-8: strings are byte sequences, and which of them are UTF-8 is a parameter.
- AttachCodec.FixedString: one model for the Kotlin and the Swift function, which differ only in library calls.
- URB_SUBMIT and URB_COMPLETE messages across languages: the C layouts and the Kotlin and Swift ones differ, so no round trip holds.
- Cancellation races of the pollers: a poll happens wholly before or wholly after a stop.
- Capture, gadget operations, statistics display, user interfaces, installers, WinUSB, IOKit and Android host calls: foreign code or no hard property.
