# dma_buf_phys: a verified model of the ioctl and its teardown

The `dma_buf_phys` driver gives user space the single device address of a
dma-buf. One ioctl, `IOCTL_GET_PHYS_ADDR`, runs these steps in order:

1. copy the request (a dma-buf descriptor) in;
2. allocate a bookkeeping struct;
3. look the buffer up;
4. attach it to the driver's device;
5. map the attachment;
6. require a table of exactly one segment;
7. sync it for the CPU;
8. issue a new anonymous descriptor whose private data is the struct;
9. copy the new descriptor and the segment's device address back.

Any failure after the allocation jumps to an error label, which runs
`dma_buf_fd_release` on the struct. The same routine runs when the issued
descriptor is closed, through the file's release callback.

The model is imperative, and is spread over four modules:

- `KernelApi` (kernel_api.dfy) holds the kernel interfaces the driver sees.
  - Pointers are `Null`, `ErrPtr(code)` or `Valid(object)`.
  - Buffers, attachments and tables are opaque tokens.
  - `Event` is one call into the kernel, with its arguments and result.
  - `Acquired` and `Released` read a log of events as multisets of resources:
    the struct, buffer references, attachments, mappings and issued
    descriptors. A successful `anon_inode_getfd` acquires its descriptor, and
    the event `CloseFd` releases it.
  - `WellFormedLog` says that every call in a log was handed live objects.
- `DmaPhysAddr` (dma_phys_addr.dfy) holds the driver.
  - `DmaBufFd` is the struct, a class whose three pointer fields the ioctl
    fills in one at a time.
  - `Kernel` is a class with a ghost log of calls and a table of issued files.
    Its methods `Ioctl`, `FdRelease` and `Release` are the driver's entry points.
    `Close` is the kernel's close of an issued descriptor: it removes the file
    from the table, logs the close, and calls `Release`.
  - Every fallible kernel call's outcome is an input, an `Oracle`.
  - Each method is proved against a specification function: `IoctlOutcome`
    (staged like the code: `LookupStep`, `AttachStep`, `MapStep`, `IssueStep`)
    and `TeardownEvents`.
- `IoctlProperties` (ioctl_properties.dfy) proves the driver's behaviour from
  those functions:
  - the return codes;
  - the order of calls;
  - the response;
  - that every error path tears down exactly once;
  - resource balance;
  - exactly when calls are handed dead pointers.
- `Corrected` (corrected.dfy) is the corrected design for the defects listed
  under Findings. It proves that design well formed and balanced, and proves
  that it agrees with the driver wherever the driver is sound.

The documented design of the system differs from the code in places. The model
follows the code:

- Failures are negative errno values (`-EINVAL`, `-EFAULT`, `-ENOMEM`, or the
  failing call's own code), not distinct error kinds.
- The error label runs the full teardown however far the acquisition got.
- A failed write of the response still returns 0.

## Model

| member | source | states |
|---|---|---|
| DmaPhysAddr.DmaBufFd.constructor | dma_phys_addr.c:64-66 | kzalloc: the new struct's buffer, attachment and table pointers are all NULL |
| DmaPhysAddr.Kernel.FdRelease | dma_phys_addr.c:30-40 | logs sync-for-device, unmap, detach, put and kfree, in that order, on whatever the struct holds; the file table is unchanged |
| DmaPhysAddr.Kernel.Release | dma_phys_addr.c:42-46 | the release callback runs the teardown exactly once, on the file's private data, and returns 0 |
| DmaPhysAddr.Kernel.Close | dma_phys_addr.c:42-46 | closing an issued descriptor removes it from the file table, logs the close, then runs the release callback's teardown once on the file's private data, and returns 0 |
| DmaPhysAddr.Kernel.Ioctl | dma_phys_addr.c:52-109 | returns the code `IoctlOutcome` gives and logs exactly its calls; on success it records a fresh file under the new descriptor whose private data holds the buffer, attachment and table, and otherwise leaves the file table unchanged |
| IoctlProperties.UnknownCommandRejected | dma_phys_addr.c:58-59 | any other command returns -EINVAL, makes no call and issues nothing |
| IoctlProperties.CopyInFaultRejected | dma_phys_addr.c:61-62 | a request that cannot be copied in returns -EFAULT after one failed copy, acquiring and releasing nothing |
| IoctlProperties.AllocFailureRejected | dma_phys_addr.c:64-66 | a failed kzalloc returns -ENOMEM, acquiring and releasing nothing |
| IoctlProperties.ReturnCodes | dma_phys_addr.c:68-97 | in the model, which runs past the read at line 35, the return code for each failure after allocation: -EINVAL for a NULL lookup; the error pointer's code for attach and for map; -ENOMEM for other than one segment; the negative descriptor for anon_inode_getfd; otherwise 0 |
| IoctlProperties.SuccessIffIssued | dma_phys_addr.c:93-105 | the ioctl returns 0 if and only if it issues a descriptor; the issued struct holds the buffer, the attachment and the one-segment table |
| IoctlProperties.FailureTearsDownOnce | dma_phys_addr.c:68-108 | in the model, which runs past the read at line 35, every failure after allocation ends with one run of the teardown on the struct as far as it was filled in, and frees the struct exactly once |
| IoctlProperties.FragmentedMappingRejected | dma_phys_addr.c:86-93 | a table of other than one segment returns -ENOMEM through the teardown; the CPU sync and anon_inode_getfd never occur |
| IoctlProperties.SuccessOrderAndResponse | dma_phys_addr.c:91-102 | on success the last three calls are the CPU sync, the descriptor's issue, and the copy back of the new descriptor with the address of the table's first segment |
| IoctlProperties.IssuedDescriptorReturnsZero | dma_phys_addr.c:99-105 | once a descriptor is issued the call returns 0 whatever copy_to_user does; the -EFAULT is never returned |
| IoctlProperties.TeardownAccounting | dma_phys_addr.c:30-40 | the teardown acquires nothing and releases exactly the struct and the live objects it refers to |
| IoctlProperties.FailureStructTracks | dma_phys_addr.c:68-97 | on every failure after allocation, the calls before the teardown hold exactly the struct and what it points to |
| IoctlProperties.FailureReleasesAll | dma_phys_addr.c:106-108 | in the model, which runs past the read at line 35, every failing ioctl releases exactly what it acquired |
| IoctlProperties.SuccessHoldsStruct | dma_phys_addr.c:93-105 | a successful ioctl releases nothing and holds exactly the struct, the buffer reference, the attachment, the mapping and the issued descriptor |
| IoctlProperties.IssueThenReleaseBalanced | dma_phys_addr.c:42-46 | closing an issued descriptor, which runs the release callback's teardown, gives back everything the ioctl acquired, the descriptor included, and frees the struct exactly once |
| IoctlProperties.NoUnheldRelease | dma_phys_addr.c:52-109 | in the model, which runs past the read at line 35, no ioctl releases anything it did not acquire |
| IoctlProperties.WellFormedIff | dma_phys_addr.c:68-107 | after allocation, every call is handed live objects if and only if the lookup, the attach and the map all yield live objects |
| IoctlProperties.TeardownWellFormed | dma_phys_addr.c:30-40 | the teardown hands every call a live object if and only if the struct holds a live buffer, attachment and table |
| IoctlProperties.TeardownReadsInvalidTable | dma_phys_addr.c:35 | after a NULL lookup, a failed attach or a failed map, the teardown's first call reads the table through NULL or an error pointer |
| IoctlProperties.ErrorPointerReachesAttach | dma_phys_addr.c:68-74 | an error pointer from dma_buf_get passes the NULL test and is handed to dma_buf_attach |
| IoctlProperties.ResponseWriteFailureSwallowed | dma_phys_addr.c:102-105 | when copy_to_user fails the call still returns 0, issues the descriptor, and keeps the struct, every object it holds and the descriptor itself |
| Corrected.UnwindAccounting | dma_phys_addr.c:30-40 | the corrected unwind undoes only the completed steps, newest first: it hands each call a live object, acquires nothing, and releases exactly what the struct holds plus the struct |
| Corrected.CorrectedIsWellFormed | dma_phys_addr.c:68-108 | however the kernel answers, the corrected ioctl hands every call live objects, and every failure releases exactly what it acquired, an issued descriptor included |
| Corrected.CorrectedReportsResponseFailure | dma_phys_addr.c:102-105 | the corrected ioctl returns 0 exactly when it issued a descriptor and wrote it back; a failed write back returns -EFAULT, issues nothing, closes the new descriptor right after the copy, and ends with the release callback's teardown of the struct |
| Corrected.CorrectedAgreesWithDriver | dma_phys_addr.c:52-109 | where the driver hands every call live objects and delivers its response, the corrected ioctl returns the same code and issues the same descriptor; on success it makes exactly the same calls |

## Left out

- Module init and exit (dma_phys_addr.c:111-161): character-device, class and device registration, the DMA mask, the segment size, and logging. None of it is logic of the ioctl.
- The bit layout of `_IOR`: the command is the constant 0x80086401, which `_IOR('d', 1, __u64)` gives.
- The bit layout of `ERR_PTR`: error pointers are a tagged variant carrying a code in [-4095, -1].
- What dma-buf, scatter-gather tables, cache syncs and `sg_dma_address` do: they are opaque tokens and logged calls. A table carries only its segment count and its first segment's device address.
- The memory semantics of `copy_from_user` and `copy_to_user`: each is an oracle outcome that reads or writes one request record.
- Concurrency between ioctls, and between an ioctl and a release.
- `dma_buf_attach` and `dma_buf_map_attachment` never return NULL in the model: the driver tests them with `IS_ERR` only, and the segment-count test at line 86 reads through the table.
- DmaPhysAddr.Kernel.Ioctl: the new descriptor is taken from the oracle as given. The model does not constrain it to be unused, and it overwrites any entry already in the file table.
- DmaPhysAddr.Kernel.Release: does not remove the file from the file table. The driver never touches that table; `Kernel.Close`, which models the kernel's side of a close rather than driver code, removes it before calling the callback.
- DmaPhysAddr.Kernel.Close: requires a descriptor in the file table. Closing an unknown descriptor, which the kernel refuses, and the kernel's reference counting of files shared by dup or fork are not modelled: one close runs the callback.
- IoctlProperties.ReturnCodes: on a NULL lookup, a failed attach or a failed map, the kernel faults when the teardown reads the table through NULL or an error pointer at line 35, and the code is never returned. The model treats that read as a completed call and runs on, so on those paths the code stated is the one the source means to return.
- IoctlProperties.FailureTearsDownOnce: on a NULL lookup, a failed attach or a failed map, the kernel faults at line 35, before the rest of the teardown and the kfree. The model runs on past that read, so on those paths the single teardown and single free describe what the code means to do.
- IoctlProperties.FailureReleasesAll: on a NULL lookup, a failed attach or a failed map, the kernel faults at line 35 and releases nothing after it, the buffer reference and the struct included. The model runs on past that read, so on those paths the balance describes what the code means to do.
- IoctlProperties.NoUnheldRelease: on a NULL lookup, a failed attach or a failed map, the kernel faults at line 35. The model runs on past that read, so on those paths the statement covers the releases the code would make after it.
- Corrected.CorrectedIssue: closes the issued descriptor after a failed copy back. The kernel idiom of reserving a descriptor and installing it only after the copy (`get_unused_fd_flags` and `fd_install`) is not modelled; without concurrency the two hold and release the same things.

## Findings

| source | as written | input that shows it | evidently intended | confidence | as-written member | corrected member |
|---|---|---|---|---|---|---|
| dma_phys_addr.c:35 | the error label runs the full teardown, which reads `sgt->sgl` and `sgt->nents` and unmaps and detaches even when those steps never happened | `dma_buf_get` returns NULL (or attach or map fails): the table is NULL or an error pointer when line 35 runs, so the kernel faults there and the rest of the teardown, the kfree and the return are never reached | undo only the completed steps, newest first | not executed | IoctlProperties.TeardownReadsInvalidTable | Corrected.CorrectedIsWellFormed |
| dma_phys_addr.c:69 | the lookup result is tested against NULL only | `dma_buf_get` returns an error pointer (its usual failure): the pointer is handed to `dma_buf_attach` | test with `IS_ERR_OR_NULL` and fail with the error's own code | not executed | IoctlProperties.ErrorPointerReachesAttach | Corrected.CorrectedIsWellFormed |
| dma_phys_addr.c:102-105 | a failed `copy_to_user` sets `ret = -EFAULT` but the function returns 0 | `copy_to_user` fails after `anon_inode_getfd` succeeded: the caller never learns the descriptor, and the buffer, attachment and mapping stay held | close the new descriptor, which runs the release callback, and return -EFAULT | not executed | IoctlProperties.ResponseWriteFailureSwallowed | Corrected.CorrectedReportsResponseFailure |
