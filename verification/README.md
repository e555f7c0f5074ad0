# Verification model of the BOSH ESXi CPI

The BOSH ESXi CPI creates and destroys virtual machines, stemcells and persistent disks on one
ESXi host by issuing `govc` commands one after another. This Dafny project models that
orchestration: which commands each CPI call issues, in what order, on what observed state, and
what is left behind when any of them fails. It proves the promises that the code's sequencing
makes, for all inputs, all interleavings and all failures, and pins down exactly where a promise
does not hold.

Verify it with `dafny verify dfyconfig.toml`.

## How the model is built

- `Names`, `Lookup`: ids and paths derived from cloud ids, and the scan that finds the device
  of a disk.
- `Host`: an abstract ESXi host as a value (registered VMs with power, CD-ROM, adapters and
  devices; the objects of one datastore) and what each govc command may do to it. A command is
  refused, takes effect, fails without effect, fails after taking effect, or stops half-way
  (`import.ovf`, `datastore.cp`, `datastore.upload`, `datastore.rm`, `vm.destroy`). The outcome
  is chosen by the environment, and so is what becomes of the local files: a write of the
  environment file may be done, have no effect, or leave a file that cannot be read, and the
  local ISO file may be broken. The code learns of neither.
- `Machine`: each CPI call as a fail-fast program of actions, run one small step at a time. Who
  moves next (the call, its power-on goroutine, or the host working on a power-on) is chosen by
  a sequence of labels, and every theorem is about all label sequences. A run may stop
  anywhere, which is a process that dies. `/tmp/env.json` is one cell beside the host.
- `Traces`, `Legal`: the commands a run issues, its writes to the environment file, and its
  uploads.
- `StartVM`, `Destroy`, `Making`, `IsoSwap`, `Create`, `Needs`, `Disks`, `Agreement`, `Retry`,
  `Tidiness`: the theorems about single calls and about sequences of calls on one VM.
- `Pool`, `Serial`, `Crowd`, `Cache`, `Together`: several processes at once, interleaved command
  by command.
- `Failures`, `Refinement`, `Parts`: what failed calls leave, the abstract machine of stemcells,
  VMs, disks and links, and how calls carry out its atomic steps.
- `Runs`, `Client`, `Actions`: the client methods and the CPI actions in the imperative form of
  the Go code (classes `Process` and `Cpi`: loops, early returns, reassigned state). Every
  method is proved to be a run of its program (`Ran`), so that all theorems apply to it.
  `turns`, `replies` and `macs` are oracles for everything the environment decides. The labels
  of that run are those of the oracle's turns, from the turn at which the method begins to the
  one at which it ends (`Replay`; starting the goroutine takes no turn, `Forked`), so that a
  method neither skips a step nor reports a failure that its turns do not hold. The only further
  label is that of a step which a call fails by itself before it issues the command
  (`Unissued`): a MAC address that cannot be drawn, an image that cannot be unpacked.

`Main`, `Background` and `Ticking` label a step of the call, of its goroutine, and of the host.
A run "succeeds" when its program is worked off without an error.

## Assumptions about the host

- A VM registered from copied files raises a question at its first power-on; `datastore.cp`
  marks the copied `.vmx` files accordingly. Any other VM comes up without a question.
- `vm.destroy` accepts a VM that is off, on its way up, or waiting at a question, and refuses
  one that is powered on. It may leave some files of the VM's directory behind.
- `datastore.ls` returns at least one listing, the first being that of the datastore root: the
  code indexes `response[0]`.
- Paths are structured values, which stand for their spellings as long as ids and names hold no
  slash (`Names.RenderInjective`). The theorems about frames, interleavings and recovery speak
  of the code for such ids only; for others the names collide (`Names.SlashCollides`).
- A VM's directory bears the VM's name, device names are not shared within a VM, and `vm.info`
  lists the question of a VM that waits at one.
- `vm.register` takes a `.vmx` file and a free name; `datastore.cp` wants an existing source and
  a free destination; `vm.disk.create` and `datastore.disk.create` want a free path;
  `vm.disk.attach -link` names the disk's file as the parent of the new device.
- An ISO that the CD-ROM holds connected cannot be overwritten.
- `vm.destroy` removes files of the VM's own directory only, and never the parent of a linked
  disk: that a disk survives the VMs it is linked to (`Serial.DiskConservation`,
  `Serial.DiskKept`) rests on this.
- `device.info` and the reconfiguring commands fail on a VM that does not exist; `vm.info`
  answers with an empty list.
- Each CPI call is a process of its own (`src/bosh-esxi-cpi/main/main.go:50`), with at most one
  call in progress per VM, stemcell or disk. When a process ends, so does its goroutine.

## What was found

- Attach and detach rewrite whichever environment `/tmp/env.json` holds. After a second VM was
  created, attaching a disk to the first one tells the first VM that it is the second
  (`Cache.SecondVmMisleads`). A disk call shows a VM its own environment exactly when the file
  was written for that VM (`Cache.OwnIdentityIff`); where that is so at every read, the shared
  file is as good as one file per VM (`Cache.CacheRefines`).
- Retrying an attach whose first try failed after `vm.disk.attach` took effect links the disk
  twice. A later successful detach takes one link off and drops the disk from the environment:
  host and environment disagree (`Retry.RetriedAttachDisagrees`). As long as the local files
  hold and no upload stops half-way, this is the only way for a successful call to leave
  disagreement on its disk (`Agreement.AgreementIfFilesHold`); `Agreement.AgreementOfCall` has the condition in full.
- A DetachDisk that failed after `device.remove` took effect can never be completed by retrying
  it, and the environment goes on listing the disk (`Retry.FailedDetachStuck`): a detach can
  succeed exactly when the disk is linked and the file readable (`Retry.DetachCanSucceed`).
- The errors of writing `/tmp/env.json` and the local ISO are ignored. A call can succeed while
  the file keeps the old environment or cannot be read any more, and while the VM is shown an
  ISO that holds nothing. A spoiled file unlists the other disks of the VM too
  (`Agreement.OtherDisks`), and no attach or detach succeeds until a CreateVM writes the file anew
  (`Retry.SpoiledForGood`).
- A failing power-on is only logged. If it had no effect, the polling loop of StartVM goes on
  for as long as the polls are replied to (`StartVM.FailedPowerOnHangs`); if it took effect,
  its error does no harm. For a fresh copy the loop ends exactly if the power-on takes effect
  or a poll fails (`Runs.PollingEnds`). For a VM that is missing, on, or no copy, it never ends
  by itself (`StartVM.NoQuestionHangs`, `StartVM.StartCanSucceed`).
- Ids that contain `/`, and disk ids of different lengths, break the separation of names and
  the device lookup (`Names.SlashCollides`, `Lookup.ShortIdMisleads`).

## Model

| member | source | states |
|---|---|---|
| Names.NamesApart | src/bosh-esxi-cpi/govc/govc_client.go:105-533 | for slash-free ids the derived ids and paths are injective in their ids, and names of different kinds never coincide |
| Names.OwnersApart | src/bosh-esxi-cpi/action/create_vm.go:42-43 | two objects belong to the same owner only if they stem from one id of one kind |
| Names.SlashCollides | src/bosh-esxi-cpi/govc/govc_client.go:533 | an id with a slash makes a VM's name another VM's ephemeral disk |
| Names.IdsApart | src/bosh-esxi-cpi/action/attach_disk.go:25-26 | VM, stemcell and disk names never coincide and are injective in the id |
| Names.NamesSpelled | src/bosh-esxi-cpi/govc/govc_client.go:275-533 | the names and paths of VMs, stemcells, disks, ephemeral disks, `.vmx` files and environment ISOs, letter by letter |
| Lookup.FindDeviceCorrect | src/bosh-esxi-cpi/govc/govc_client.go:597-604 | the last-match-wins scan returns the last device linked to the requested disk, and the empty name exactly when none is |
| Lookup.ContainsIffParent | src/bosh-esxi-cpi/govc/govc_client.go:599 | among regular parents, containing the disk id is the same as being that disk |
| Lookup.ShortIdMisleads | src/bosh-esxi-cpi/govc/govc_client.go:598-602 | with ids of different lengths the scan settles on another disk's device |
| Tidiness.AlwaysTidy | src/bosh-esxi-cpi/govc/govc_client.go:551-605 | in every interleaved run that attaches only generated ids, the device lists keep the regular names the lookup relies on |
| Tidiness.LookupInRuns | src/bosh-esxi-cpi/govc/govc_client.go:569-605 | the lookup is right in every state that interleaved calls can reach |
| Host.ExecFrame | src/bosh-esxi-cpi/govc/govc_client.go:275-622 | whatever its outcome, a command changes only what its target owns |
| Host.ExecLocal | src/bosh-esxi-cpi/govc/govc_client.go:275-549 | a local command treats hosts alike that agree on its target and on the directory it copies |
| Machine.CallFrame | src/bosh-esxi-cpi/action/create_vm.go:51-108 | however far a call gets and whatever fails, it touches only what its own id owns |
| Machine.RunFrame | src/bosh-esxi-cpi/govc/govc_client.go:47-273 | the same for any task from any state, with its goroutine scheduled in any way |
| Traces.FailFast | src/bosh-esxi-cpi/govc/govc_client.go:47-273 | every command before the last one reported success, and a call fails if and only if one of its own steps does; what becomes of its goroutine does not count |
| Traces.IssuesPrefix | src/bosh-esxi-cpi/govc/govc_client.go:92-125 | a straight sequence issues a prefix of its script, and all of it when it succeeds |
| Traces.CellIsLastWrite | src/bosh-esxi-cpi/vm/agent_settings.go:35 | after any run the environment file holds what the last write with an effect left in it: the environment, or nothing that can be read |
| Traces.UploadHappens | src/bosh-esxi-cpi/govc/govc_client.go:105-110 | a call with an upload, or an edit of the environment, ahead of it does not succeed without uploading |
| Legal.DestroyFollows | src/bosh-esxi-cpi/govc/govc_client.go:232-273 | DestroyVM issues a prefix of the one sequence that fits the state it found, and removes only what the listing just before showed |
| Legal.DeleteDiskFollows | src/bosh-esxi-cpi/govc/govc_client.go:213-230 | DestroyDisk issues a prefix of list and remove, and removes only what was listed |
| Legal.DiskCallFollows | src/bosh-esxi-cpi/action/attach_disk.go:24-56 | attach and detach issue a prefix of one sequence fixed by what they start on, host first and ISO second, and the whole of it when they succeed |
| Create.CreateFollowsScript | src/bosh-esxi-cpi/action/create_vm.go:45-110 | CreateVM issues a prefix of its one command script, and all of it when it succeeds |
| Create.CreateWrites | src/bosh-esxi-cpi/action/create_vm.go:94-97 | the environment file is left alone, holds the new VM's environment, or cannot be read, as the last write decides |
| StartVM.StartAnswersOnce | src/bosh-esxi-cpi/govc/govc_client.go:137-158 | in every interleaving, from any host, the answer is sent at most once, right after the first poll that saw the blocking question |
| StartVM.StartUnblocks | src/bosh-esxi-cpi/govc/govc_client.go:127-159 | from any host, a StartVM that succeeds leaves the VM on, and the goroutine gets through at its next move, wherever it was |
| StartVM.StartCanSucceed | src/bosh-esxi-cpi/govc/govc_client.go:127-159 | StartVM can succeed if and only if the VM is at a question, or is a copy that is off or on its way up |
| StartVM.FailedPowerOnHangs | src/bosh-esxi-cpi/govc/govc_client.go:127-150 | a StartVM on a VM that is off, whose power-on has no effect, changes nothing and is still polling after any run in which the polls are replied to |
| StartVM.NoQuestionHangs | src/bosh-esxi-cpi/govc/govc_client.go:127-150 | so is a StartVM on a VM that is missing, on, or no copy |
| Runs.CopiedVmAsks | src/bosh-esxi-cpi/govc/govc_client.go:137-150 | for a copied VM that is off, once the power-on takes effect (even if it reports an error) and the host gets to move, a poll within a bound fails or sees the question |
| Runs.PollingEnds | src/bosh-esxi-cpi/govc/govc_client.go:127-150 | for a copied VM that is off, if goroutine and host get to move: the loop ends if and only if the first power-on takes effect or a poll fails |
| Runs.PromptEnds | src/bosh-esxi-cpi/action/create_vm.go:105 | the bound on the polls that CreateVM relies on for its fresh copy, from the turn at which it starts it |
| Destroy.DestroyResult | src/bosh-esxi-cpi/govc/govc_client.go:232-273 | DestroyVM changes nothing but its VM, and a success leaves exactly the host without that VM and its directory, even beside a left-over power-on |
| Destroy.DestroyResumable | src/bosh-esxi-cpi/govc/govc_client.go:232-273 | any number of attempts that stop or fail anywhere and then a success reach what one success would have reached |
| Destroy.DestroyIdempotent | src/bosh-esxi-cpi/govc/govc_client.go:250-270 | once the VM is gone, no run of DestroyVM changes anything |
| Destroy.DestroySucceeds | src/bosh-esxi-cpi/govc/govc_client.go:236-272 | from every state of the VM an undisturbed DestroyVM succeeds within five commands |
| Failures.DestroyingRun | src/bosh-esxi-cpi/govc/govc_client.go:232-273 | wherever a DestroyVM stops it only took away: files at most removed, and what is left of the VM has the devices it had and is on only if it was |
| Destroy.Recoverability | src/bosh-esxi-cpi/action/create_vm.go:32-111 | wherever a CreateVM of a fresh id stops, a later successful DestroyVM restores every VM and every datastore object except at most the VM's own environment ISO |
| Destroy.DeleteDiskResult | src/bosh-esxi-cpi/govc/govc_client.go:213-230 | DestroyDisk only removes, and only under its own name; a success leaves nothing of that name |
| Making.CreateDiskCanSucceed | src/bosh-esxi-cpi/govc/govc_client.go:514-530 | CreateDisk can succeed if and only if nothing has the name of the disk's file; a success adds that file, of the size asked for, and leaves every other file as it was |
| Making.CreateStemcellCanSucceed | src/bosh-esxi-cpi/govc/govc_client.go:30-45 | the import can succeed if and only if no VM and no file has the stemcell's name; a success adds the image, and a VM that is off and no copy |
| Making.MakingSucceeds | src/bosh-esxi-cpi/action/create_disk.go:22-34 | a CreateDisk or CreateStemcell with nothing in its way and left alone succeeds |
| Making.DeletingSucceeds | src/bosh-esxi-cpi/action/delete_disk.go:22-31 | from every host a DeleteVM, DeleteStemcell or DeleteDisk that is left alone succeeds |
| IsoSwap.UpdateIsoResult | src/bosh-esxi-cpi/govc/govc_client.go:92-125 | from any CD-ROM state a successful UpdateVMIso ends connected to the new contents: the environment if the local ISO file was whole, and otherwise nothing readable |
| IsoSwap.IsoIsLastUpload | src/bosh-esxi-cpi/govc/govc_client.go:105-106 | after any run the ISO holds what the last upload with an effect left in it |
| IsoSwap.UploadsOnlyWhenEjected | src/bosh-esxi-cpi/govc/govc_client.go:93-106 | in every run of every call an upload meets a CD-ROM that is disconnected and ejected |
| Create.CreateResult | src/bosh-esxi-cpi/action/create_vm.go:51-110 | a successful CreateVM leaves the VM it was asked for, running, with an ephemeral disk of the size asked for, its adapters in order, and its power-on through; the connected ISO (if it was whole) and the environment file (if it was written) tell the agent its id and its VM's, system disk `0`, ephemeral disk `1`, no persistent disk, and every network with the MAC address of its adapter |
| Create.PowerOnStaged | src/bosh-esxi-cpi/action/create_vm.go:51-108 | when power-on is due the VM is registered, off and a copy, its ephemeral disk of the size asked for exists, its CD-ROM is connected to the environment just built (if that ISO file was whole), and the host takes the command |
| Create.NothingRefused | src/bosh-esxi-cpi/action/create_vm.go:51-108 | with a fresh id and a stemcell every command meets its host precondition wherever the call has got to |
| Create.CreateSucceeds | src/bosh-esxi-cpi/action/create_vm.go:51-110 | with a fresh id and a stemcell a run without faults succeeds |
| Failures.TakenRun | src/bosh-esxi-cpi/action/create_vm.go:51-54 | a CreateVM on an id that is taken leaves the VM as it is |
| Failures.FreshResult | src/bosh-esxi-cpi/action/create_vm.go:51-108 | however a CreateVM on a fresh id ends, nothing is linked to what is there of the VM, and it is not off only if the stemcell was usable |
| Needs.CreateNeeds | src/bosh-esxi-cpi/govc/govc_client.go:47-70 | a CreateVM that succeeded had a fresh id and a usable stemcell |
| Needs.CreateCanSucceed | src/bosh-esxi-cpi/action/create_vm.go:51-110 | CreateVM can succeed if and only if the id is fresh and the stemcell is there |
| Create.NetworksMatch | src/bosh-esxi-cpi/action/create_vm.go:61-84 | for every order of the networks: one adapter per network, exactly these networks in the environment, and each with the MAC of its adapter |
| Disks.DiskRun | src/bosh-esxi-cpi/action/attach_disk.go:28-55 | where an attach or detach can be: nothing done, host changed, or publishing the edited environment it read |
| Disks.DiskWrites | src/bosh-esxi-cpi/action/detach_disk.go:33-44 | the only environment a disk call writes or uploads is the one it read, with its own edit |
| Disks.DiskFiles | src/bosh-esxi-cpi/action/attach_disk.go:33-52 | wherever a disk call stops, file and ISO are as before, hold that environment, or cannot be read, as its last write and upload decide |
| Agreement.DiskCallResult | src/bosh-esxi-cpi/action/attach_disk.go:24-56 | wherever a disk call stops, each disk's links are as before or as asked for; success changes the host and connects the VM to the edited environment, if the ISO file was whole: the disk itself is listed at `/dev/sdc`, `2`, `0` or not listed, and agent, VM, networks, system disk, ephemeral disk and every other persistent disk are those of the file that was read |
| Agreement.AgreementOfCall | src/bosh-esxi-cpi/action/detach_disk.go:24-53 | after a successful disk call, the file is in agreement on the disk if and only if FileRight, and the ISO if and only if IsoRight: conditions on the links and the file before the call and on the two local writes |
| Agreement.OtherDisks | src/bosh-esxi-cpi/action/attach_disk.go:33-49 | a disk call leaves the other disks' links alone; what file and ISO list of them afterwards, exactly |
| Agreement.AgreementUnderFailures | src/bosh-esxi-cpi/action/attach_disk.go:24-56 | in every run of attach and detach on one VM with failures anywhere, a disk whose last call succeeded is in agreement if and only if its verdict says so; the verdict follows the calls on it and on other disks |
| Agreement.AgreementIfFilesHold | src/bosh-esxi-cpi/action/attach_disk.go:24-56 | in such runs, as long as the local files hold and no upload stops half-way, a disk whose last call succeeded is in agreement if and only if that call did not detach one link of several |
| Retry.CreatedAgrees | src/bosh-esxi-cpi/action/create_vm.go:84-102 | after a successful CreateVM no disk is attached or on the ISO; the file agrees on a disk unless an old file that lists it was left in place; the devices can be looked up |
| Retry.AgreementFromCreate | src/bosh-esxi-cpi/action/create_vm.go:84-102 | agreement under failures, as an equivalence, for every run that follows a successful CreateVM |
| Retry.DiskCallSucceeds | src/bosh-esxi-cpi/action/detach_disk.go:24-53 | a disk call that the host can take and that is left alone succeeds, writes the file, and uploads a whole ISO |
| Retry.AttachCanSucceed | src/bosh-esxi-cpi/action/attach_disk.go:24-56 | an attach can succeed if and only if VM and disk exist and the environment file is readable |
| Retry.DetachCanSucceed | src/bosh-esxi-cpi/action/detach_disk.go:24-53 | a detach can succeed if and only if the disk is linked and the environment file is readable |
| Retry.SpoiledForGood | src/bosh-esxi-cpi/vm/agent_settings.go:53-59 | once the environment file cannot be read, no attach or detach on any VM succeeds, and the file stays as it is |
| Retry.FailedDetachStuck | src/bosh-esxi-cpi/action/detach_disk.go:28-31 | a detach whose device.remove fails after taking effect: no number of retries completes it, and the file goes on listing the disk |
| Retry.RetriedAttachDisagrees | src/bosh-esxi-cpi/action/attach_disk.go:28-31 | failed attach, attach again, detach: all retries succeed and yet the disk is attached and not listed |
| Agreement.DetachNeedsLink | src/bosh-esxi-cpi/govc/govc_client.go:198-211 | detaching a disk that is not linked never succeeds and never touches the environment file |
| Agreement.RoundTrip | src/bosh-esxi-cpi/action/detach_disk.go:24-53 | attach then detach of an unlinked disk restores the device list and keeps the disk's file; the entries are restored on the ISO exactly if the detach uploaded a whole one, and in the file exactly if the detach wrote it well or neither call changed it |
| Pool.OrderlyStep | src/bosh-esxi-cpi/main/main.go:50 | every move of an interleaving touches only what its own object owns |
| Serial.Isolation | src/bosh-esxi-cpi/govc/govc_client.go:47-273 | whatever other calls do in between, an object and its call end up as if only the calls on that object had moved |
| Serial.Interleavings | src/bosh-esxi-cpi/action/create_vm.go:51-108 | interleavings with the same moves per object reach the same host and the same calls |
| Serial.Serialisable | src/bosh-esxi-cpi/govc/govc_client.go:213-273 | any interleaving of create and delete calls, with stemcells in use kept, reaches the host of running them one object after another, in any order |
| Serial.DiskConservation | src/bosh-esxi-cpi/govc/govc_client.go:484-567 | over every interleaved run of any calls, a disk is decided by the CreateDisk and DeleteDisk calls on it alone |
| Serial.DiskKept | src/bosh-esxi-cpi/govc/govc_client.go:213-273 | without such a call the disk's file is neither made, changed nor removed, whatever VMs it is linked to are destroyed |
| Crowd.CallInCrowd | src/bosh-esxi-cpi/main/main.go:50 | among any other calls, attach and detach included, that keep off the stemcells in use, a local call gets as far, and does to its object, what it would alone |
| Crowd.RecoverabilityInCrowd | src/bosh-esxi-cpi/action/create_vm.go:32-111 | a CreateVM of a fresh id that stopped anywhere and a DeleteVM that succeeds later, with any create and delete calls on other objects before, between and beside them: the host ends as those other calls alone would have left it, except at most for the environment ISO of the VM |
| Crowd.DeleteInCrowd | src/bosh-esxi-cpi/govc/govc_client.go:232-273 | a DeleteVM among any other calls, attach and detach included: whatever calls on the VM came before, a success leaves of it at most its environment ISO |
| Crowd.ConcurrentRefines | src/bosh-esxi-cpi/govc/govc_client.go:47-273 | any interleaving of create and delete calls on different objects ends on the host of a serial history, in every order, which is a history of the abstract machine |
| Crowd.UploadsInCrowd | src/bosh-esxi-cpi/govc/govc_client.go:93-106 | in every reachable state of every interleaved run, a call about to upload finds its VM's CD-ROM disconnected and ejected |
| Cache.CacheRefines | src/bosh-esxi-cpi/vm/agent_settings.go:53-59 | on every interleaved run in which the file is read only for the VM that wrote it last, the one file simulates a file per VM, step by step |
| Cache.EachItsOwn | src/bosh-esxi-cpi/vm/agent_settings.go:33-51 | on those runs no VM is ever shown another VM's environment |
| Together.IdealIsolation | src/bosh-esxi-cpi/action/attach_disk.go:24-56 | with an environment file per VM, attach and detach are isolated too: an object, its call and its file end up as if only the calls on that object had moved |
| Together.AgreementTogether | src/bosh-esxi-cpi/action/detach_disk.go:24-53 | agreement under failures on one VM while any other calls run beside it, under the proviso on reading the shared file and with the attached disks left alone: a disk stands as its verdict says, in the file of the VM and on its ISO |
| Cache.OwnIdentityIff | src/bosh-esxi-cpi/action/attach_disk.go:33-49 | a successful disk call shows the VM an environment if and only if the ISO file was whole, and then its own if and only if the file was written for that VM |
| Cache.SecondVmMisleads | src/bosh-esxi-cpi/action/attach_disk.go:33-52 | create a second VM, attach to the first: all succeeds and the first is told to be the second |
| Refinement.CreateSimulates | src/bosh-esxi-cpi/action/create_vm.go:51-110 | a successful CreateVM is one abstract step; one that fails changes nothing if the id was taken, and otherwise leaves at most files, or a VM without links that is on only if the stemcell was usable |
| Refinement.DeleteSimulates | src/bosh-esxi-cpi/govc/govc_client.go:232-273 | a successful DeleteVM is the abstract deletion; one that fails leaves nothing that was not there: the VM with its links, on only if it was, or some of its files |
| Refinement.RetryDeletes | src/bosh-esxi-cpi/govc/govc_client.go:232-273 | any call on a VM that stopped anywhere and then a successful DeleteVM are together the abstract deletion |
| Refinement.DiskCallSimulates | src/bosh-esxi-cpi/govc/govc_client.go:189-211 | attach and detach are atomic on the host: every run is the abstract step or nothing |
| Refinement.CreateDiskSimulates | src/bosh-esxi-cpi/govc/govc_client.go:180-187 | every run of CreateDisk is the abstract step or nothing; when it can be the step, `Making.CreateDiskCanSucceed` says |
| Refinement.DeleteDiskSimulates | src/bosh-esxi-cpi/govc/govc_client.go:213-230 | every run of DeleteDisk is the abstract step or nothing |
| Refinement.CreateStemcellSimulates | src/bosh-esxi-cpi/govc/govc_client.go:30-45 | every run of the import, which may stop half-way and leave files behind, is the abstract step, nothing, or a new stemcell that cannot be used |
| Refinement.DeleteStemcellSimulates | src/bosh-esxi-cpi/action/delete_stemcell.go:24-26 | a successful DeleteStemcell removes the stemcell and nothing else; one that fails brings none in |
| Refinement.CallSimulates | src/bosh-esxi-cpi/govc/govc_client.go:47-273 | every call, successful or not, moves the abstract machine as its step relation for successes, or for failures, says |
| Refinement.HistoryRefines | src/bosh-esxi-cpi/govc/govc_client.go:47-273 | every history of calls, each stopping or failing anywhere, is a history of the abstract machine: one atomic step per success, and a failure step that creates no VM, link, disk or stemcell the call was not about to create |
| Parts.CloneSimulates | src/bosh-esxi-cpi/govc/govc_client.go:47-70 | a successful CloneVM is one abstract step: a VM that is off, unlinked and a copy, where nothing was |
| Parts.StartSimulates | src/bosh-esxi-cpi/govc/govc_client.go:127-159 | every run of StartVM, from any state of the VM, changes only whether the VM is on, and a success leaves it on |
| Client.Process.CliCommand | src/bosh-esxi-cpi/govc/govc_client.go:275-622 | one command: what goroutine and host did before it, then its own effect and reply |
| Client.DecodeState | src/bosh-esxi-cpi/govc/govc_client.go:455-481 | the decision is right about every reply that reports the state of the VM in its first record |
| Client.Process.VmStateOf | src/bosh-esxi-cpi/govc/govc_client.go:443-482 | whatever the reply looks like, as long as it reports the VM, the answer names the state the VM is in |
| Client.Process.DatastorePathExists | src/bosh-esxi-cpi/govc/govc_client.go:484-512 | the scan finds the path exactly if the root lists it |
| Client.Process.GetVmDiskName | src/bosh-esxi-cpi/govc/govc_client.go:569-605 | the loop computes the last device whose parent contains the disk id |
| Client.Process.CloneVM | src/bosh-esxi-cpi/govc/govc_client.go:47-70 | is a run of copy, register, configure; the labels are those of its turns |
| Client.Process.UpdateVMIso | src/bosh-esxi-cpi/govc/govc_client.go:92-125 | is a run of its five commands; the labels are those of its turns, and on success the VM is connected to the new environment, if the local ISO file was whole |
| Client.Process.StartVM | src/bosh-esxi-cpi/govc/govc_client.go:127-159 | is a run of fork, poll, answer; the labels are those of its turns, and it terminates when a poll within `bound` fails or sees the question |
| Client.Process.DestroyVM | src/bosh-esxi-cpi/govc/govc_client.go:232-273 | is a run of DestroyVM; the labels are those of its turns, and success leaves exactly the host without the VM |
| Client.Process.HasVM | src/bosh-esxi-cpi/govc/govc_client.go:161-169 | one query: nothing moves but goroutine and host, it fails exactly on a fault, and otherwise the VM is found exactly if it is registered |
| Client.Process.DestroyDisk | src/bosh-esxi-cpi/govc/govc_client.go:213-230 | is a run of list and remove; the labels are those of its turns |
| Client.Process.DetachDisk | src/bosh-esxi-cpi/govc/govc_client.go:198-211 | is a run of look up and remove; the labels are those of its turns |
| Client.Process.GenerateAgentEnvIso | src/bosh-esxi-cpi/vm/agent_settings.go:33-51 | the environment file is written as the turn's outcome says, an error of which is ignored and may have spoiled the file; the answer reports the error of opening the ISO file and nothing else; the host is left alone |
| Client.Process.AgentEnvFromFile | src/bosh-esxi-cpi/vm/agent_settings.go:53-59 | gives back what the file holds, and ends the call when there is none that can be read |
| Actions.Cpi.CreateStemcell | src/bosh-esxi-cpi/action/create_stemcell.go:25-41 | is a run of the import under the new id, with its turn's labels, and a success adds the image where nothing was; an image that cannot be unpacked fails the call and changes nothing |
| Actions.Cpi.CreateVM | src/bosh-esxi-cpi/action/create_vm.go:32-111 | for every network map and iteration order: is a run of the CreateVM program on a listing of exactly these networks, with the MAC addresses that were drawn and the labels of its turns; terminates; and on success the VM runs as asked for and its agent is told so, on the ISO if that was whole and in the file if it was written |
| Actions.Cpi.AddAdapters | src/bosh-esxi-cpi/action/create_vm.go:61-82 | the loop adds one adapter per network, each with the next MAC address that was drawn, and collects exactly the table of these; it stops early only at a command that fails or when no address can be drawn |
| Actions.Cpi.DeleteVM | src/bosh-esxi-cpi/action/delete_vm.go:21-29 | its labels are those of its turns, and success leaves exactly the host without the VM |
| Actions.Cpi.DeleteStemcell | src/bosh-esxi-cpi/action/delete_stemcell.go:24-32 | its labels are those of its turns, and success leaves exactly the host without the stemcell |
| Actions.Cpi.HasVM | src/bosh-esxi-cpi/action/has_vm.go:19-28 | the answer names whether the VM of that id is registered, or an error, and nothing moves but goroutine and host |
| Actions.Cpi.CreateDisk | src/bosh-esxi-cpi/action/create_disk.go:22-34 | is a run of the one command on the new disk's file, with its turn's labels; success adds that file, of the size asked for, where none was |
| Actions.Cpi.DeleteDisk | src/bosh-esxi-cpi/action/delete_disk.go:22-31 | its labels are those of its turns, and success leaves exactly the files without the disk |
| Actions.Cpi.AttachDisk | src/bosh-esxi-cpi/action/attach_disk.go:24-56 | is a run of attach and republish, with the labels of its turns; success shows the VM, on a whole ISO, the environment read with this disk listed at `/dev/sdc`, `2`, `0` and nothing else changed, and the file holds the same if it was written |
| Actions.Cpi.DetachDisk | src/bosh-esxi-cpi/action/detach_disk.go:24-53 | is a run of detach and republish, with the labels of its turns; success shows the VM, on a whole ISO, the environment read without this disk and nothing else changed, and the file holds the same if it was written |

## Left out

- Serial.Serialisable: attach and detach calls are not included, because they read the shared environment file (`Together.IdealIsolation` has them for a file per VM); nor is the content of that file, which depends on the order.
- Cache.CacheRefines: has the hypothesis that the file is read back only for the VM that wrote it last; without it the property is false (`Cache.SecondVmMisleads`).
- Actions.Cpi.CreateVM: asks that, if no fault strikes before StartVM, then from that turn on soon a poll fails, or the goroutine moves with effect and the host gets round to the power-on, because the polling loop does not end otherwise (`Runs.PollingEnds`).
- Destroy.Recoverability: concerns the host; the environment file keeps the failed VM's environment.
- `govc_runner.go`: pipes, flags and the govmomi command line are replaced by the host's step relation. JSON decoding (including its errors), URLs, configuration and logging.
- What unpacking a stemcell does besides failing, tarballs, OVF import details, ISO9660 writing, and the temporary directories that `Cleanup` removes.
- MAC formatting and masking: MAC addresses are opaque values, and their uniqueness is not claimed. Drawing one may fail.
- Device slots: attach always records volume `2` and `/dev/sdc`; agreement is about which disks are present, not about slots.
- `vmEnv`, agent options and the decoding of cloud properties; `NewVMProps` defaults.
- The child delta file that a linked attach may create in the VM's directory.
- CPI methods that panic or do nothing, generated fakes, CI scripts and BOSH templates.
- Real time: the 300 ms sleep is one turn of the scheduler.
- Several datastores, and changes to the host by anyone but the CPI.
