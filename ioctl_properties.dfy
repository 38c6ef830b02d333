/** What dma_buf_ioctl and dma_buf_fd_release promise, stated over IoctlOutcome
    and TeardownEvents, the functions the driver's methods are proved against. */
module IoctlProperties {
  import opened KernelApi
  import opened DmaPhysAddr

  /** The ioctl gets past its three early returns and allocates the struct. */
  predicate Allocates(cmd: U32, o: Oracle) {
    cmd == IOCTL_GET_PHYS_ADDR && o.copyIn.Some? && o.allocOk
  }

  /** What the struct holds when the ioctl leaves the acquisition steps, on the
      error path or on success: each field is set only once its step is reached. */
  function ReachedFields(o: Oracle): FdFields {
    if o.lookup.Null? then FdFields(Null, Null, Null)
    else if o.attach.ErrPtr? then FdFields(o.lookup, o.attach, Null)
    else FdFields(o.lookup, o.attach, o.mapping)
  }

  /** The calls made before the struct is allocated. */
  const Allocated: seq<Event> := [CopyFromUser(true), Kzalloc(true)]

  /** The calls so far hold exactly the bookkeeping struct and what it refers to. */
  ghost predicate Tracks(sofar: seq<Event>, f: FdFields) {
    Acquired(sofar) == Holdings(f) + multiset{Bookkeeping} && Released(sofar) == multiset{}
  }

  /** The calls so far hold exactly the struct, what it refers to, and the descriptor
      issued for it. */
  ghost predicate HoldsIssued(sofar: seq<Event>, f: FdFields, fd: int) {
    Acquired(sofar) == Holdings(f) + multiset{Bookkeeping} + multiset{Descriptor(fd)} &&
    Released(sofar) == multiset{}
  }

  // ---- The early returns -------------------------------------------------

  /** Any command but IOCTL_GET_PHYS_ADDR fails with -EINVAL before any call. */
  lemma UnknownCommandRejected(cmd: U32, o: Oracle)
    requires cmd != IOCTL_GET_PHYS_ADDR
    ensures IoctlOutcome(cmd, o) == Outcome(-EINVAL, [], None)
  {
  }

  /** A request that cannot be copied in fails with -EFAULT, holding nothing. */
  lemma CopyInFaultRejected(cmd: U32, o: Oracle)
    requires cmd == IOCTL_GET_PHYS_ADDR && o.copyIn.None?
    ensures var out := IoctlOutcome(cmd, o);
      out.ret == -EFAULT && out.issued.None? && out.events == [CopyFromUser(false)] &&
      Acquired(out.events) == multiset{} && Released(out.events) == multiset{}
  {
    AccountingOne(CopyFromUser(false));
  }

  /** A failed kzalloc fails with -ENOMEM, holding nothing. */
  lemma AllocFailureRejected(cmd: U32, o: Oracle)
    requires cmd == IOCTL_GET_PHYS_ADDR && o.copyIn.Some? && !o.allocOk
    ensures var out := IoctlOutcome(cmd, o);
      out.ret == -ENOMEM && out.issued.None? &&
      Acquired(out.events) == multiset{} && Released(out.events) == multiset{}
  {
    AccountingCons(CopyFromUser(true), [Kzalloc(false)]);
    AccountingOne(Kzalloc(false));
  }

  // ---- The error path ------------------------------------------------------

  /** The return code of each failure after allocation: -EINVAL for a NULL lookup,
      the error pointer's own code for a failed attach or map, -ENOMEM for a table
      of other than one segment, the negative descriptor for a failed
      anon_inode_getfd; and 0 once a descriptor is issued. */
  lemma ReturnCodes(cmd: U32, o: Oracle)
    requires Allocates(cmd, o)
    ensures var r := IoctlOutcome(cmd, o).ret;
      if o.lookup.Null? then r == -EINVAL
      else if o.attach.ErrPtr? then r == o.attach.code
      else if o.mapping.ErrPtr? then r == o.mapping.code
      else if o.mapping.obj.nents != 1 then r == -ENOMEM
      else if o.getfd < 0 then r == o.getfd
      else r == 0
  {
  }

  /** The ioctl reports success exactly when it issues a descriptor, and the issued
      descriptor's struct holds the buffer, the attachment and the one-segment table. */
  lemma SuccessIffIssued(cmd: U32, o: Oracle)
    ensures var out := IoctlOutcome(cmd, o);
      (out.ret == 0 <==> out.issued.Some?) &&
      (out.issued.Some? ==>
        Allocates(cmd, o) && !o.lookup.Null? && o.attach.Valid? && o.mapping.Valid? &&
        o.mapping.obj.nents == 1 && o.getfd >= 0 &&
        out.issued.value == Issued(o.getfd, ReachedFields(o)))
  {
  }

  /** Every failure after allocation ends with one run of dma_buf_fd_release on the
      struct as far as it was filled in, and frees the struct exactly once. */
  lemma FailureTearsDownOnce(cmd: U32, o: Oracle)
    requires Allocates(cmd, o) && IoctlOutcome(cmd, o).ret != 0
    ensures var out := IoctlOutcome(cmd, o);
      |out.events| >= 5 && out.events[|out.events| - 5..] == TeardownEvents(ReachedFields(o)) &&
      Released(out.events)[Bookkeeping] == 1
  {
    var out := IoctlOutcome(cmd, o);
    FailureStructTracks(cmd, o);
    var before := out.events[..|out.events| - 5];
    ReleasedAppend(before, TeardownEvents(ReachedFields(o)));
    TeardownAccounting(ReachedFields(o));
  }

  /** A mapping of other than exactly one segment fails with -ENOMEM through the
      teardown, and neither syncs for the CPU nor issues a descriptor. */
  lemma FragmentedMappingRejected(cmd: U32, o: Oracle)
    requires Allocates(cmd, o) && !o.lookup.Null? && o.attach.Valid?
    requires o.mapping.Valid? && o.mapping.obj.nents != 1
    ensures var out := IoctlOutcome(cmd, o);
      out.ret == -ENOMEM && out.issued.None? &&
      out.events[|out.events| - 5..] == TeardownEvents(FdFields(o.lookup, o.attach, o.mapping)) &&
      forall i :: 0 <= i < |out.events| ==> !out.events[i].SyncForCpu? && !out.events[i].AnonInodeGetfd?
  {
  }

  // ---- The success path ------------------------------------------------------

  /** On success the last three calls are the sync for the CPU, the descriptor's
      issue and the copy back of the new descriptor with the device address of the
      table's first (and only) segment. */
  lemma SuccessOrderAndResponse(cmd: U32, o: Oracle)
    requires IoctlOutcome(cmd, o).ret == 0
    ensures var out := IoctlOutcome(cmd, o);
      var n := |out.events|;
      out.issued.Some? && o.mapping.Valid? && n >= 3 &&
      out.events[n - 3] == SyncForCpu(o.mapping) &&
      out.events[n - 2] == AnonInodeGetfd(out.issued.value.fd) &&
      out.events[n - 1] == CopyToUser(PhysAddrData(out.issued.value.fd, o.mapping.obj.dmaAddress), o.copyOutOk)
  {
  }

  /** Once anon_inode_getfd has issued a descriptor the call returns 0, whatever
      copy_to_user does: the -EFAULT it sets is never returned. */
  lemma IssuedDescriptorReturnsZero(cmd: U32, o: Oracle)
    requires Allocates(cmd, o) && !o.lookup.Null? && o.attach.Valid?
    requires o.mapping.Valid? && o.mapping.obj.nents == 1 && o.getfd >= 0
    ensures IoctlOutcome(cmd, o).ret == 0
    ensures IoctlOutcome(cmd, o).issued == Some(Issued(o.getfd, ReachedFields(o)))
  {
  }

  // ---- Resource accounting ------------------------------------------------------

  /** What a struct holds is what its buffer and attachment hold, and its table. */
  lemma HoldingsByField(f: FdFields)
    ensures Holdings(FdFields(f.dmaBuf, Null, Null)) ==
      (if f.dmaBuf.Valid? then multiset{BufferRef(f.dmaBuf.obj)} else multiset{})
    ensures Holdings(FdFields(f.dmaBuf, f.attach, Null)) == Holdings(FdFields(f.dmaBuf, Null, Null)) +
      (if f.attach.Valid? then multiset{AttachmentRef(f.attach.obj)} else multiset{})
    ensures Holdings(f) == Holdings(FdFields(f.dmaBuf, f.attach, Null)) +
      (if f.sgt.Valid? then multiset{MappingRef(f.sgt.obj)} else multiset{})
  {
  }

  /** The last two calls of the teardown give back the buffer, if live, and the struct. */
  lemma PutFreeReleases(b: Ptr<DmaBuf>)
    ensures Released([Put(b)] + [Kfree]) == Holdings(FdFields(b, Null, Null)) + multiset{Bookkeeping}
  {
    AccountingOne(Kfree);
    AccountingCons(Put(b), [Kfree]);
  }

  /** The detach adds the attachment, if live, to what the rest of the teardown gives back. */
  lemma DetachOnReleases(b: Ptr<DmaBuf>, a: Ptr<Attachment>)
    ensures Released([Detach(b, a)] + ([Put(b)] + [Kfree])) ==
      Holdings(FdFields(b, a, Null)) + multiset{Bookkeeping}
  {
    PutFreeReleases(b);
    AccountingCons(Detach(b, a), [Put(b)] + [Kfree]);
  }

  /** The teardown acquires nothing. */
  lemma TeardownAcquiresNothing(f: FdFields)
    ensures Acquired(TeardownEvents(f)) == multiset{}
  {
    var t := TeardownEvents(f);
    assert t == [t[0]] + ([t[1]] + ([t[2]] + ([t[3]] + [t[4]])));
    AccountingCons(t[0], [t[1]] + ([t[2]] + ([t[3]] + [t[4]])));
    AccountingCons(t[1], [t[2]] + ([t[3]] + [t[4]]));
    AccountingCons(t[2], [t[3]] + [t[4]]);
    AccountingCons(t[3], [t[4]]);
    AccountingOne(t[4]);
  }

  /** The unmap adds the table, if live, to what the rest of the teardown gives back. */
  lemma UnmapOnReleases(f: FdFields)
    ensures Released([Unmap(f.attach, f.sgt)] + ([Detach(f.dmaBuf, f.attach)] + ([Put(f.dmaBuf)] + [Kfree]))) ==
      Holdings(f) + multiset{Bookkeeping}
  {
    DetachOnReleases(f.dmaBuf, f.attach);
    AccountingCons(Unmap(f.attach, f.sgt), [Detach(f.dmaBuf, f.attach)] + ([Put(f.dmaBuf)] + [Kfree]));
  }

  /** dma_buf_fd_release acquires nothing and releases the struct and whatever
      live objects it refers to. */
  lemma TeardownAccounting(f: FdFields)
    ensures Acquired(TeardownEvents(f)) == multiset{}
    ensures Released(TeardownEvents(f)) == Holdings(f) + multiset{Bookkeeping}
  {
    var unmap := [Unmap(f.attach, f.sgt)] + ([Detach(f.dmaBuf, f.attach)] + ([Put(f.dmaBuf)] + [Kfree]));
    TeardownAcquiresNothing(f);
    UnmapOnReleases(f);
    AccountingCons(SyncForDevice(f.sgt), unmap);
    assert TeardownEvents(f) == [SyncForDevice(f.sgt)] + unmap;
  }

  /** dma_buf_fd_release hands every call a live object exactly when the struct holds
      a live buffer, attachment and table. */
  lemma TeardownWellFormed(f: FdFields)
    ensures WellFormedLog(TeardownEvents(f)) <==> f.dmaBuf.Valid? && f.attach.Valid? && f.sgt.Valid?
  {
    var t := TeardownEvents(f);
    assert t[0] == SyncForDevice(f.sgt) && t[2] == Detach(f.dmaBuf, f.attach);
  }

  /** A call that acquires what the struct gains and releases nothing keeps Tracks. */
  lemma TracksStep(sofar: seq<Event>, f: FdFields, e: Event, g: FdFields)
    requires Tracks(sofar, f)
    requires Holdings(f) + AcquiredBy(e) == Holdings(g) && ReleasedBy(e) == multiset{}
    ensures Tracks(sofar + [e], g)
  {
    AccountingSnoc(sofar, e);
  }

  /** A failure reached with Tracks releases everything the call acquired. */
  lemma FailedBalanced(ret: int, sofar: seq<Event>, f: FdFields)
    requires Tracks(sofar, f)
    ensures Acquired(Failed(ret, sofar, f).events) == Released(Failed(ret, sofar, f).events)
  {
    AcquiredAppend(sofar, TeardownEvents(f));
    ReleasedAppend(sofar, TeardownEvents(f));
    TeardownAccounting(f);
  }

  lemma AllocatedTracks()
    ensures Tracks(Allocated, FdFields(Null, Null, Null))
  {
    AccountingCons(CopyFromUser(true), [Kzalloc(true)]);
    AccountingOne(Kzalloc(true));
  }

  /** The calls up to and including the lookup hold the struct and the buffer. */
  lemma LookedTracks(o: Oracle, reqFd: Int32)
    ensures Tracks(Allocated + [DmaBufGet(reqFd, o.lookup)], FdFields(o.lookup, Null, Null))
  {
    AllocatedTracks();
    HoldingsByField(FdFields(o.lookup, Null, Null));
    TracksStep(Allocated, FdFields(Null, Null, Null), DmaBufGet(reqFd, o.lookup), FdFields(o.lookup, Null, Null));
  }

  /** The attach adds the attachment, when it yields one, to what the calls hold. */
  lemma AttachedTracks(sofar: seq<Event>, o: Oracle)
    requires Tracks(sofar, FdFields(o.lookup, Null, Null))
    ensures Tracks(sofar + [DmaBufAttach(o.lookup, o.attach)], FdFields(o.lookup, o.attach, Null))
  {
    HoldingsByField(FdFields(o.lookup, o.attach, Null));
    TracksStep(sofar, FdFields(o.lookup, Null, Null), DmaBufAttach(o.lookup, o.attach),
      FdFields(o.lookup, o.attach, Null));
  }

  /** The map adds the table, when it yields one, to what the calls hold. */
  lemma MapTracks(sofar: seq<Event>, o: Oracle)
    requires Tracks(sofar, FdFields(o.lookup, o.attach, Null))
    ensures Tracks(sofar + [DmaBufMap(o.attach, o.mapping)], FdFields(o.lookup, o.attach, o.mapping))
  {
    HoldingsByField(FdFields(o.lookup, o.attach, o.mapping));
    TracksStep(sofar, FdFields(o.lookup, o.attach, Null), DmaBufMap(o.attach, o.mapping),
      FdFields(o.lookup, o.attach, o.mapping));
  }

  /** The calls up to and including the map hold exactly the struct's contents. */
  lemma MappedTracks(o: Oracle, reqFd: Int32)
    ensures Tracks(Allocated + [DmaBufGet(reqFd, o.lookup)], FdFields(o.lookup, Null, Null))
    ensures Tracks(Allocated + [DmaBufGet(reqFd, o.lookup)] + [DmaBufAttach(o.lookup, o.attach)],
      FdFields(o.lookup, o.attach, Null))
    ensures Tracks(Allocated + [DmaBufGet(reqFd, o.lookup)] + [DmaBufAttach(o.lookup, o.attach)] +
      [DmaBufMap(o.attach, o.mapping)], FdFields(o.lookup, o.attach, o.mapping))
  {
    var looked := Allocated + [DmaBufGet(reqFd, o.lookup)];
    LookedTracks(o, reqFd);
    AttachedTracks(looked, o);
    MapTracks(looked + [DmaBufAttach(o.lookup, o.attach)], o);
  }

  /** After the map, the sync for the CPU keeps Tracks, and the descriptor's issue,
      when anon_inode_getfd succeeds, adds the descriptor to what the calls hold. */
  lemma IssuingTracks(mapped: seq<Event>, o: Oracle)
    requires Tracks(mapped, FdFields(o.lookup, o.attach, o.mapping))
    ensures var issuing := mapped + [SyncForCpu(o.mapping)] + [AnonInodeGetfd(o.getfd)];
      var f := FdFields(o.lookup, o.attach, o.mapping);
      (o.getfd < 0 ==> Tracks(issuing, f)) && (o.getfd >= 0 ==> HoldsIssued(issuing, f, o.getfd))
  {
    var f := FdFields(o.lookup, o.attach, o.mapping);
    var synced := mapped + [SyncForCpu(o.mapping)];
    TracksStep(mapped, f, SyncForCpu(o.mapping), f);
    AccountingSnoc(synced, AnonInodeGetfd(o.getfd));
    var held := Acquired(synced);
    if o.getfd >= 0 {
      assert AcquiredBy(AnonInodeGetfd(o.getfd)) == multiset{Descriptor(o.getfd)};
      assert Acquired(synced + [AnonInodeGetfd(o.getfd)]) == held + multiset{Descriptor(o.getfd)};
    } else {
      assert AcquiredBy(AnonInodeGetfd(o.getfd)) == multiset{};
      assert Acquired(synced + [AnonInodeGetfd(o.getfd)]) == held;
    }
  }

  /** How a failure's calls split into those before the teardown and the teardown. */
  lemma FailedSplit(ret: int, sofar: seq<Event>, f: FdFields)
    ensures var e := Failed(ret, sofar, f).events;
      |e| == |sofar| + 5 && e[..|sofar|] == sofar && e[|sofar|..] == TeardownEvents(f)
  {
  }

  /** On every failure after allocation, the calls before the teardown hold exactly
      the struct and what it refers to. */
  lemma FailureStructTracks(cmd: U32, o: Oracle)
    requires Allocates(cmd, o) && IoctlOutcome(cmd, o).ret != 0
    ensures var out := IoctlOutcome(cmd, o);
      |out.events| >= 5 && out.events[|out.events| - 5..] == TeardownEvents(ReachedFields(o)) &&
      out.events == out.events[..|out.events| - 5] + TeardownEvents(ReachedFields(o)) &&
      Tracks(out.events[..|out.events| - 5], ReachedFields(o))
  {
    var out := IoctlOutcome(cmd, o);
    var reqFd := o.copyIn.value.fd;
    MappedTracks(o, reqFd);
    var looked := Allocated + [DmaBufGet(reqFd, o.lookup)];
    var attached := looked + [DmaBufAttach(o.lookup, o.attach)];
    var mapped := attached + [DmaBufMap(o.attach, o.mapping)];
    var sofar;
    if o.lookup.Null? {
      sofar := looked;
    } else if o.attach.ErrPtr? {
      sofar := attached;
    } else if o.mapping.ErrPtr? || o.mapping.obj.nents != 1 {
      sofar := mapped;
    } else {
      sofar := mapped + [SyncForCpu(o.mapping)] + [AnonInodeGetfd(o.getfd)];
      IssuingTracks(mapped, o);
    }
    assert out == Failed(out.ret, sofar, ReachedFields(o));
    FailedSplit(out.ret, sofar, ReachedFields(o));
  }

  /** Every failing ioctl gives back everything it acquired, each exactly once. */
  lemma FailureReleasesAll(cmd: U32, o: Oracle)
    requires IoctlOutcome(cmd, o).ret != 0
    ensures Acquired(IoctlOutcome(cmd, o).events) == Released(IoctlOutcome(cmd, o).events)
  {
    var out := IoctlOutcome(cmd, o);
    if !Allocates(cmd, o) {
      if cmd == IOCTL_GET_PHYS_ADDR && o.copyIn.None? {
        CopyInFaultRejected(cmd, o);
      } else if cmd == IOCTL_GET_PHYS_ADDR {
        AllocFailureRejected(cmd, o);
      }
    } else {
      FailureStructTracks(cmd, o);
      var sofar := out.events[..|out.events| - 5];
      assert out == Failed(out.ret, sofar, ReachedFields(o));
      FailedBalanced(out.ret, sofar, ReachedFields(o));
    }
  }

  /** A call that acquires and releases nothing keeps HoldsIssued. */
  lemma HoldsIssuedStep(sofar: seq<Event>, f: FdFields, fd: int, e: Event)
    requires HoldsIssued(sofar, f, fd) && AcquiredBy(e) == multiset{} && ReleasedBy(e) == multiset{}
    ensures HoldsIssued(sofar + [e], f, fd)
  {
    AccountingSnoc(sofar, e);
  }

  /** Closing the descriptor gives it back and leaves the struct and its contents held. */
  lemma CloseStep(sofar: seq<Event>, f: FdFields, fd: int)
    requires HoldsIssued(sofar, f, fd)
    ensures Acquired(sofar + [CloseFd(fd)]) == Holdings(f) + multiset{Bookkeeping} + multiset{Descriptor(fd)}
    ensures Released(sofar + [CloseFd(fd)]) == multiset{Descriptor(fd)}
  {
    AccountingSnoc(sofar, CloseFd(fd));
  }

  /** Calls that hold a struct and its descriptor, then the descriptor's close and the
      release callback's teardown, give back everything, the struct exactly once. */
  lemma CloseBalanced(sofar: seq<Event>, f: FdFields, fd: int)
    requires HoldsIssued(sofar, f, fd)
    ensures var all := sofar + [CloseFd(fd)] + TeardownEvents(f);
      Acquired(all) == Released(all) && Released(all)[Bookkeeping] == 1
  {
    var closed := sofar + [CloseFd(fd)];
    CloseStep(sofar, f, fd);
    AcquiredAppend(closed, TeardownEvents(f));
    ReleasedAppend(closed, TeardownEvents(f));
    TeardownAccounting(f);
  }

  /** A successful ioctl releases nothing and holds the struct, its contents and the
      issued descriptor. */
  lemma SuccessHoldsStruct(cmd: U32, o: Oracle)
    requires IoctlOutcome(cmd, o).issued.Some?
    ensures var out := IoctlOutcome(cmd, o);
      HoldsIssued(out.events, out.issued.value.fields, out.issued.value.fd)
  {
    var reqFd := o.copyIn.value.fd;
    MappedTracks(o, reqFd);
    var mapped := Allocated + [DmaBufGet(reqFd, o.lookup)] + [DmaBufAttach(o.lookup, o.attach)] +
      [DmaBufMap(o.attach, o.mapping)];
    IssuingTracks(mapped, o);
    var issuing := mapped + [SyncForCpu(o.mapping)] + [AnonInodeGetfd(o.getfd)];
    var e := CopyToUser(PhysAddrData(o.getfd, o.mapping.obj.dmaAddress), o.copyOutOk);
    HoldsIssuedStep(issuing, FdFields(o.lookup, o.attach, o.mapping), o.getfd, e);
    assert IoctlOutcome(cmd, o).events == issuing + [e];
  }

  /** Closing the issued descriptor, which runs its release callback (Kernel.Close),
      gives back everything the ioctl acquired, each exactly once. */
  lemma IssueThenReleaseBalanced(cmd: U32, o: Oracle)
    requires IoctlOutcome(cmd, o).issued.Some?
    ensures var out := IoctlOutcome(cmd, o);
      var all := out.events + [CloseFd(out.issued.value.fd)] + TeardownEvents(out.issued.value.fields);
      Acquired(all) == Released(all) && Released(all)[Bookkeeping] == 1
  {
    var out := IoctlOutcome(cmd, o);
    SuccessHoldsStruct(cmd, o);
    CloseBalanced(out.events, out.issued.value.fields, out.issued.value.fd);
  }

  /** No ioctl releases anything it did not acquire. */
  lemma NoUnheldRelease(cmd: U32, o: Oracle)
    ensures Released(IoctlOutcome(cmd, o).events) <= Acquired(IoctlOutcome(cmd, o).events)
  {
    var out := IoctlOutcome(cmd, o);
    if out.issued.Some? {
      SuccessHoldsStruct(cmd, o);
    } else {
      SuccessIffIssued(cmd, o);
      FailureReleasesAll(cmd, o);
    }
  }

  // ---- Which calls are handed live objects ----------------------------------------

  /** With a live buffer, attachment and one-segment table, every call the driver
      makes is handed a live object. */
  lemma AllLiveWellFormed(cmd: U32, o: Oracle)
    requires Allocates(cmd, o) && o.lookup.Valid? && o.attach.Valid? && o.mapping.Valid?
    ensures WellFormedLog(IoctlOutcome(cmd, o).events)
  {
    var reqFd := o.copyIn.value.fd;
    var mapped := Allocated + [DmaBufGet(reqFd, o.lookup)] + [DmaBufAttach(o.lookup, o.attach)] +
      [DmaBufMap(o.attach, o.mapping)];
    var f := FdFields(o.lookup, o.attach, o.mapping);
    assert WellFormedLog(mapped);
    if o.mapping.obj.nents != 1 {
      WellFormedAppend(mapped, TeardownEvents(f));
    } else {
      WellFormedAppend(mapped + [SyncForCpu(o.mapping)] + [AnonInodeGetfd(o.getfd)],
        if o.getfd >= 0 then [CopyToUser(PhysAddrData(o.getfd, o.mapping.obj.dmaAddress), o.copyOutOk)]
        else TeardownEvents(f));
    }
  }

  /** The driver hands every call a live object exactly when the lookup, the attach
      and the map all yield one (or it returns before allocating): otherwise the
      teardown reads the table through NULL or an error pointer, or an error
      pointer from dma_buf_get reaches dma_buf_attach. */
  lemma WellFormedIff(cmd: U32, o: Oracle)
    ensures WellFormedLog(IoctlOutcome(cmd, o).events) <==>
      (Allocates(cmd, o) ==> o.lookup.Valid? && o.attach.Valid? && o.mapping.Valid?)
  {
    var out := IoctlOutcome(cmd, o);
    if Allocates(cmd, o) {
      var looked := Allocated + [DmaBufGet(o.copyIn.value.fd, o.lookup)];
      if o.lookup.Null? {
        assert out.events[|looked|] == SyncForDevice(Null);
      } else if o.lookup.ErrPtr? {
        assert out.events[|looked|] == DmaBufAttach(o.lookup, o.attach);
      } else if o.attach.ErrPtr? {
        assert out.events[|looked| + 1] == SyncForDevice(Null);
      } else if o.mapping.ErrPtr? {
        assert out.events[|looked| + 2] == SyncForDevice(o.mapping);
      } else {
        AllLiveWellFormed(cmd, o);
      }
    }
  }

  // ---- Defects of the code as written -------------------------------------------

  /** A NULL lookup, a failed attach or a failed map sends the ioctl to the error
      label with no table in the struct, and dma_buf_fd_release then reads the
      table's entries and count through a NULL or an error pointer. */
  lemma TeardownReadsInvalidTable(cmd: U32, o: Oracle)
    requires Allocates(cmd, o) && (o.lookup.Null? || o.attach.ErrPtr? || o.mapping.ErrPtr?)
    ensures var out := IoctlOutcome(cmd, o);
      out.ret != 0 && |out.events| >= 5 &&
      out.events[|out.events| - 5] == SyncForDevice(ReachedFields(o).sgt) &&
      !ReachedFields(o).sgt.Valid? && !WellFormedCall(out.events[|out.events| - 5])
  {
    FailureStructTracks(cmd, o);
  }

  /** dma_buf_get's result is tested against NULL only, so an error pointer from it
      is passed on to dma_buf_attach as the buffer. */
  lemma ErrorPointerReachesAttach(cmd: U32, o: Oracle)
    requires Allocates(cmd, o) && o.lookup.ErrPtr?
    ensures var out := IoctlOutcome(cmd, o);
      |out.events| > 3 && out.events[3] == DmaBufAttach(o.lookup, o.attach) &&
      !WellFormedCall(out.events[3])
  {
  }

  /** When copy_to_user fails after the descriptor is issued the ioctl still returns
      0: the caller is never told the descriptor, yet its struct, buffer reference,
      attachment, mapping and the descriptor itself all stay held. */
  lemma ResponseWriteFailureSwallowed(cmd: U32, o: Oracle)
    requires Allocates(cmd, o) && !o.lookup.Null? && o.attach.Valid?
    requires o.mapping.Valid? && o.mapping.obj.nents == 1 && o.getfd >= 0 && !o.copyOutOk
    ensures var out := IoctlOutcome(cmd, o);
      out.ret == 0 && out.issued.Some? &&
      out.events[|out.events| - 1] == CopyToUser(PhysAddrData(o.getfd, o.mapping.obj.dmaAddress), false) &&
      Released(out.events) == multiset{} &&
      Acquired(out.events) == Holdings(ReachedFields(o)) + multiset{Bookkeeping} + multiset{Descriptor(o.getfd)}
  {
    SuccessHoldsStruct(cmd, o);
  }
}
