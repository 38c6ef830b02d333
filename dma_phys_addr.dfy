/** The dma_buf_phys driver: one ioctl that turns a dma-buf descriptor into a new
    descriptor plus the single device address of the buffer's mapping, and the
    release callback of that new descriptor. The kernel is a class with a ghost
    log of the calls the driver makes and the table of files it has issued; the
    outcome of every fallible kernel call is an input (an Oracle). */
module DmaPhysAddr {
  import opened KernelApi

  /** IOCTL_GET_PHYS_ADDR, _IOR('d', 1, __u64) in the generic ioctl encoding. */
  const IOCTL_GET_PHYS_ADDR: U32 := 0x8008_6401

  /** The outcome of each fallible kernel call one ioctl can make. */
  datatype Oracle = Oracle(
    copyIn: Option<PhysAddrData>,  // what copy_from_user reads; None when it faults
    allocOk: bool,                 // whether kzalloc succeeds
    lookup: Ptr<DmaBuf>,           // what dma_buf_get returns
    attach: NonNull<Attachment>,   // what dma_buf_attach returns
    mapping: NonNull<SgTable>,     // what dma_buf_map_attachment returns
    getfd: Int32,                  // what anon_inode_getfd returns
    copyOutOk: bool)               // whether copy_to_user succeeds

  /** The contents of a struct dma_buf_fd. */
  datatype FdFields = FdFields(dmaBuf: Ptr<DmaBuf>, attach: Ptr<Attachment>, sgt: Ptr<SgTable>)

  /** The bookkeeping struct: what the driver has acquired for one descriptor. */
  class DmaBufFd {
    var dmaBuf: Ptr<DmaBuf>
    var attach: Ptr<Attachment>
    var sgt: Ptr<SgTable>

    function Fields(): FdFields
      reads this
    {
      FdFields(dmaBuf, attach, sgt)
    }

    /** kzalloc: every field starts out zero, that is NULL. */
    constructor ()
      ensures Fields() == FdFields(Null, Null, Null)
    {
      dmaBuf, attach, sgt := Null, Null, Null;
    }
  }

  /** The anonymous-inode file behind an issued descriptor; its private data is the
      bookkeeping struct. */
  class File {
    const privateData: DmaBufFd

    constructor (privateData: DmaBufFd)
      ensures this.privateData == privateData
    {
      this.privateData := privateData;
    }
  }

  /** The calls dma_buf_fd_release makes on a struct with the given contents. */
  function TeardownEvents(f: FdFields): seq<Event> {
    [SyncForDevice(f.sgt), Unmap(f.attach, f.sgt), Detach(f.dmaBuf, f.attach), Put(f.dmaBuf), Kfree]
  }

  /** The live objects a struct with the given contents refers to. */
  function Holdings(f: FdFields): multiset<Resource> {
    (if f.dmaBuf.Valid? then multiset{BufferRef(f.dmaBuf.obj)} else multiset{}) +
    (if f.attach.Valid? then multiset{AttachmentRef(f.attach.obj)} else multiset{}) +
    (if f.sgt.Valid? then multiset{MappingRef(f.sgt.obj)} else multiset{})
  }

  /** A descriptor issued by a successful ioctl and what its struct holds. */
  datatype Issued = Issued(fd: Int32, fields: FdFields)

  /** What one ioctl returns, the calls it makes, and the descriptor it issues. */
  datatype Outcome = Outcome(ret: int, events: seq<Event>, issued: Option<Issued>)

  /** A failure after allocation: the calls made so far, then the full teardown. */
  function Failed(ret: int, sofar: seq<Event>, f: FdFields): Outcome {
    Outcome(ret, sofar + TeardownEvents(f), None)
  }

  /** dma_buf_ioctl as a function of the command and the kernel's answers: the
      first three steps, which return without teardown, then the steps after the
      struct is allocated, each a function of the calls made before it. */
  function IoctlOutcome(cmd: U32, o: Oracle): Outcome {
    if cmd != IOCTL_GET_PHYS_ADDR then Outcome(-EINVAL, [], None)
    else if o.copyIn.None? then Outcome(-EFAULT, [CopyFromUser(false)], None)
    else if !o.allocOk then Outcome(-ENOMEM, [CopyFromUser(true), Kzalloc(false)], None)
    else LookupStep(o.copyIn.value.fd, o, [CopyFromUser(true), Kzalloc(true)])
  }

  /** dma_buf_get on the descriptor the request names; a NULL result fails. */
  function LookupStep(reqFd: Int32, o: Oracle, sofar: seq<Event>): Outcome {
    var sofar := sofar + [DmaBufGet(reqFd, o.lookup)];
    if o.lookup.Null? then Failed(-EINVAL, sofar, FdFields(Null, Null, Null))
    else AttachStep(o, sofar)
  }

  /** dma_buf_attach; an error pointer fails with its own code. */
  function AttachStep(o: Oracle, sofar: seq<Event>): Outcome {
    var sofar := sofar + [DmaBufAttach(o.lookup, o.attach)];
    if o.attach.ErrPtr? then Failed(o.attach.code, sofar, FdFields(o.lookup, o.attach, Null))
    else MapStep(o, sofar)
  }

  /** dma_buf_map_attachment; an error pointer fails with its own code, and a
      table of other than exactly one segment fails with -ENOMEM. */
  function MapStep(o: Oracle, sofar: seq<Event>): Outcome {
    var sofar := sofar + [DmaBufMap(o.attach, o.mapping)];
    var f := FdFields(o.lookup, o.attach, o.mapping);
    if o.mapping.ErrPtr? then Failed(o.mapping.code, sofar, f)
    else if o.mapping.obj.nents != 1 then Failed(-ENOMEM, sofar, f)
    else IssueStep(o, sofar)
  }

  /** Sync for the CPU, anon_inode_getfd (a negative result fails with itself), then
      copy_to_user of the new descriptor and the segment's address; the call
      returns 0 once the descriptor is issued, whether or not the copy succeeds. */
  function IssueStep(o: Oracle, sofar: seq<Event>): Outcome
    requires o.mapping.Valid?
  {
    var sofar := sofar + [SyncForCpu(o.mapping)] + [AnonInodeGetfd(o.getfd)];
    var f := FdFields(o.lookup, o.attach, o.mapping);
    if o.getfd < 0 then Failed(o.getfd, sofar, f)
    else
      var response := PhysAddrData(o.getfd, o.mapping.obj.dmaAddress);
      Outcome(0, sofar + [CopyToUser(response, o.copyOutOk)], Some(Issued(o.getfd, f)))
  }

  /** Appending to the log after the calls made so far. */
  lemma LogAssoc(base: seq<Event>, sofar: seq<Event>, more: seq<Event>)
    ensures (base + sofar) + more == base + (sofar + more)
  {
  }

  /** The kernel as the driver sees it. */
  class Kernel {
    /** Every call the driver has made into the kernel, in order. */
    ghost var log: seq<Event>
    /** The anonymous-inode files issued so far, by descriptor. */
    var files: map<int, File>

    constructor ()
      ensures log == [] && files == map[]
    {
      log := [];
      files := map[];
    }

    /** dma_buf_fd_release: sync for the device, unmap, detach, put the buffer and free
        the struct, whatever the struct holds. */
    method FdRelease(d: DmaBufFd)
      modifies this
      ensures log == old(log) + TeardownEvents(d.Fields())
      ensures files == old(files)
    {
      var dmaBuf, attach, sgt := d.dmaBuf, d.attach, d.sgt;
      log := log + [SyncForDevice(sgt)];
      log := log + [Unmap(attach, sgt)];
      log := log + [Detach(dmaBuf, attach)];
      log := log + [Put(dmaBuf)];
      log := log + [Kfree];
    }

    /** dma_buf_release: the file's release callback tears down its private data. */
    method Release(file: File) returns (r: int)
      modifies this
      ensures r == 0
      ensures log == old(log) + TeardownEvents(file.privateData.Fields())
      ensures files == old(files)
    {
      FdRelease(file.privateData);
      r := 0;
    }

    /** The kernel's close of an issued descriptor: it leaves the table, and the
        kernel runs the file's release callback. */
    method Close(fd: int) returns (r: int)
      requires fd in files
      modifies this
      ensures r == 0
      ensures log == old(log) + [CloseFd(fd)] + TeardownEvents(old(files[fd]).privateData.Fields())
      ensures files == old(files) - {fd}
    {
      var file := files[fd];
      files := files - {fd};
      log := log + [CloseFd(fd)];
      r := Release(file);
    }

    /** dma_buf_ioctl. The error label runs the full teardown however far the
        acquisition got. */
    method Ioctl(cmd: U32, o: Oracle) returns (result: int)
      modifies this
      ensures result == IoctlOutcome(cmd, o).ret
      ensures log == old(log) + IoctlOutcome(cmd, o).events
      ensures IoctlOutcome(cmd, o).issued.None? ==> files == old(files)
      ensures IoctlOutcome(cmd, o).issued.Some? ==>
        var issued := IoctlOutcome(cmd, o).issued.value;
        issued.fd in files && files == old(files)[issued.fd := files[issued.fd]] &&
        fresh(files[issued.fd]) && fresh(files[issued.fd].privateData) &&
        files[issued.fd].privateData.Fields() == issued.fields
    {
      var userData: PhysAddrData;
      var d: DmaBufFd;
      var fd: int := -1;
      var ret := 0;

      if cmd != IOCTL_GET_PHYS_ADDR {
        return -EINVAL;
      }

      log := log + [CopyFromUser(o.copyIn.Some?)];
      if o.copyIn.None? {
        return -EFAULT;
      }
      userData := o.copyIn.value;

      log := log + [Kzalloc(o.allocOk)];
      if !o.allocOk {
        return -ENOMEM;
      }
      d := new DmaBufFd();

      // The calls made so far, and the rest of the outcome as a function of them.
      ghost var sofar := [CopyFromUser(true), Kzalloc(true)];
      assert log == old(log) + sofar;
      ghost var out := IoctlOutcome(cmd, o);
      assert out == LookupStep(userData.fd, o, sofar);

      label error: {
        d.dmaBuf := o.lookup;
        log := log + [DmaBufGet(userData.fd, d.dmaBuf)];
        LogAssoc(old(log), sofar, [DmaBufGet(userData.fd, d.dmaBuf)]);
        sofar := sofar + [DmaBufGet(userData.fd, d.dmaBuf)];
        if d.dmaBuf.Null? {
          ret := -EINVAL;
          assert out == Failed(ret, sofar, d.Fields());
          break error;
        }
        assert out == AttachStep(o, sofar);

        d.attach := o.attach;
        log := log + [DmaBufAttach(d.dmaBuf, d.attach)];
        LogAssoc(old(log), sofar, [DmaBufAttach(d.dmaBuf, d.attach)]);
        sofar := sofar + [DmaBufAttach(d.dmaBuf, d.attach)];
        if d.attach.ErrPtr? {
          ret := d.attach.code;
          assert out == Failed(ret, sofar, d.Fields());
          break error;
        }
        assert out == MapStep(o, sofar);

        d.sgt := o.mapping;
        log := log + [DmaBufMap(d.attach, d.sgt)];
        LogAssoc(old(log), sofar, [DmaBufMap(d.attach, d.sgt)]);
        sofar := sofar + [DmaBufMap(d.attach, d.sgt)];
        if d.sgt.ErrPtr? {
          ret := d.sgt.code;
          assert out == Failed(ret, sofar, d.Fields());
          break error;
        }

        if d.sgt.obj.nents != 1 {
          ret := -ENOMEM;
          assert out == Failed(ret, sofar, d.Fields());
          break error;
        }
        assert out == IssueStep(o, sofar);

        log := log + [SyncForCpu(d.sgt)];
        LogAssoc(old(log), sofar, [SyncForCpu(d.sgt)]);
        sofar := sofar + [SyncForCpu(d.sgt)];

        fd := o.getfd;
        log := log + [AnonInodeGetfd(o.getfd)];
        LogAssoc(old(log), sofar, [AnonInodeGetfd(o.getfd)]);
        sofar := sofar + [AnonInodeGetfd(o.getfd)];
        if fd < 0 {
          ret := fd;
          assert out == Failed(ret, sofar, d.Fields());
          break error;
        }
        var file := new File(d);
        files := files[fd := file];

        userData := PhysAddrData(o.getfd, d.sgt.obj.dmaAddress);

        log := log + [CopyToUser(userData, o.copyOutOk)];
        LogAssoc(old(log), sofar, [CopyToUser(userData, o.copyOutOk)]);
        if !o.copyOutOk {
          ret := -EFAULT;
        }

        assert out == Outcome(0, sofar + [CopyToUser(userData, o.copyOutOk)], Some(Issued(o.getfd, d.Fields())));
        return 0;
      }
      FdRelease(d);
      LogAssoc(old(log), sofar, TeardownEvents(d.Fields()));
      return ret;
    }
  }
}
