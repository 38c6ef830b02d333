/** A corrected dma_buf_ioctl, beside the driver as written: the error paths undo
    only the steps that completed, newest first; a lookup result is tested for an
    error pointer as well as NULL; and a failed copy of the response back to the
    caller releases the issued descriptor and fails with -EFAULT. */
module Corrected {
  import opened KernelApi
  import opened DmaPhysAddr
  import opened IoctlProperties

  /** Undo what the struct records as done, newest first: sync for the device if the
      table was synced for the CPU, then unmap, detach, put and free as far as the
      struct records those steps as done. */
  function Unwind(f: FdFields, synced: bool): seq<Event> {
    if synced then [SyncForDevice(f.sgt)] + UnmapOnward(f) else UnmapOnward(f)
  }

  /** Unmap if mapped, then the rest of the unwind. */
  function UnmapOnward(f: FdFields): seq<Event> {
    if f.sgt.Valid? then [Unmap(f.attach, f.sgt)] + DetachOnward(f) else DetachOnward(f)
  }

  /** Detach if attached, then the rest of the unwind. */
  function DetachOnward(f: FdFields): seq<Event> {
    if f.attach.Valid? then [Detach(f.dmaBuf, f.attach)] + PutOnward(f) else PutOnward(f)
  }

  /** Put the buffer if it was got, then free the struct. */
  function PutOnward(f: FdFields): seq<Event> {
    if f.dmaBuf.Valid? then [Put(f.dmaBuf)] + [Kfree] else [Kfree]
  }

  /** A struct filled in acquisition order: a table only with an attachment, an
      attachment only with a buffer. */
  predicate FilledInOrder(f: FdFields) {
    (f.sgt.Valid? ==> f.attach.Valid?) && (f.attach.Valid? ==> f.dmaBuf.Valid?)
  }

  /** A failure after allocation: the calls made so far, then the unwind. */
  function Unwound(ret: int, sofar: seq<Event>, f: FdFields, synced: bool): Outcome {
    Outcome(ret, sofar + Unwind(f, synced), None)
  }

  /** The corrected ioctl as a function of the command and the kernel's answers,
      staged like the driver's. */
  function CorrectedOutcome(cmd: U32, o: Oracle): Outcome {
    if cmd != IOCTL_GET_PHYS_ADDR then Outcome(-EINVAL, [], None)
    else if o.copyIn.None? then Outcome(-EFAULT, [CopyFromUser(false)], None)
    else if !o.allocOk then Outcome(-ENOMEM, [CopyFromUser(true), Kzalloc(false)], None)
    else CorrectedLookup(o.copyIn.value.fd, o, Allocated)
  }

  /** dma_buf_get; an error pointer fails with its own code and NULL with -EINVAL. */
  function CorrectedLookup(reqFd: Int32, o: Oracle, sofar: seq<Event>): Outcome {
    var sofar := sofar + [DmaBufGet(reqFd, o.lookup)];
    if o.lookup.Null? then Unwound(-EINVAL, sofar, FdFields(o.lookup, Null, Null), false)
    else if o.lookup.ErrPtr? then Unwound(o.lookup.code, sofar, FdFields(o.lookup, Null, Null), false)
    else CorrectedAttach(o, sofar)
  }

  /** dma_buf_attach; an error pointer fails with its own code. */
  function CorrectedAttach(o: Oracle, sofar: seq<Event>): Outcome {
    var sofar := sofar + [DmaBufAttach(o.lookup, o.attach)];
    if o.attach.ErrPtr? then Unwound(o.attach.code, sofar, FdFields(o.lookup, o.attach, Null), false)
    else CorrectedMap(o, sofar)
  }

  /** dma_buf_map_attachment; an error pointer fails with its own code, and a table of
      other than exactly one segment with -ENOMEM. */
  function CorrectedMap(o: Oracle, sofar: seq<Event>): Outcome {
    var sofar := sofar + [DmaBufMap(o.attach, o.mapping)];
    var f := FdFields(o.lookup, o.attach, o.mapping);
    if o.mapping.ErrPtr? then Unwound(o.mapping.code, sofar, f, false)
    else if o.mapping.obj.nents != 1 then Unwound(-ENOMEM, sofar, f, false)
    else CorrectedIssue(o, sofar)
  }

  /** Sync for the CPU and anon_inode_getfd, then copy_to_user. A failed copy closes
      the new descriptor and fails with -EFAULT; the kernel then runs the file's
      release callback, whose teardown undoes every step, since all have completed. */
  function CorrectedIssue(o: Oracle, sofar: seq<Event>): Outcome
    requires o.mapping.Valid?
  {
    var sofar := sofar + [SyncForCpu(o.mapping)] + [AnonInodeGetfd(o.getfd)];
    var f := FdFields(o.lookup, o.attach, o.mapping);
    if o.getfd < 0 then Unwound(o.getfd, sofar, f, true)
    else
      var written := sofar + [CopyToUser(PhysAddrData(o.getfd, o.mapping.obj.dmaAddress), o.copyOutOk)];
      if !o.copyOutOk then Outcome(-EFAULT, written + [CloseFd(o.getfd)] + TeardownEvents(f), None)
      else Outcome(0, written, Some(Issued(o.getfd, f)))
  }

  /** The last two steps of the unwind give back the buffer, if got, and the struct. */
  lemma PutOnwardAccounting(f: FdFields)
    ensures WellFormedLog(PutOnward(f)) && Acquired(PutOnward(f)) == multiset{}
    ensures Released(PutOnward(f)) == Holdings(FdFields(f.dmaBuf, Null, Null)) + multiset{Bookkeeping}
  {
    AccountingOne(Kfree);
    HoldingsByField(f);
    if f.dmaBuf.Valid? {
      AccountingCons(Put(f.dmaBuf), [Kfree]);
      WellFormedCons(Put(f.dmaBuf), [Kfree]);
    }
  }

  /** The detach, when attached, adds the attachment to what the rest gives back. */
  lemma DetachOnwardAccounting(f: FdFields)
    requires f.attach.Valid? ==> f.dmaBuf.Valid?
    ensures WellFormedLog(DetachOnward(f)) && Acquired(DetachOnward(f)) == multiset{}
    ensures Released(DetachOnward(f)) == Holdings(FdFields(f.dmaBuf, f.attach, Null)) + multiset{Bookkeeping}
  {
    PutOnwardAccounting(f);
    HoldingsByField(f);
    if f.attach.Valid? {
      AccountingCons(Detach(f.dmaBuf, f.attach), PutOnward(f));
      WellFormedCons(Detach(f.dmaBuf, f.attach), PutOnward(f));
    }
  }

  /** The unmap, when mapped, adds the mapping to what the rest gives back. */
  lemma UnmapOnwardAccounting(f: FdFields)
    requires FilledInOrder(f)
    ensures WellFormedLog(UnmapOnward(f)) && Acquired(UnmapOnward(f)) == multiset{}
    ensures Released(UnmapOnward(f)) == Holdings(f) + multiset{Bookkeeping}
  {
    DetachOnwardAccounting(f);
    HoldingsByField(f);
    if f.sgt.Valid? {
      AccountingCons(Unmap(f.attach, f.sgt), DetachOnward(f));
      WellFormedCons(Unmap(f.attach, f.sgt), DetachOnward(f));
    }
  }

  /** The unwind of a struct filled in order hands every call a live object,
      acquires nothing, and releases exactly the struct and what it refers to. */
  lemma UnwindAccounting(f: FdFields, synced: bool)
    requires FilledInOrder(f) && (synced ==> f.sgt.Valid?)
    ensures WellFormedLog(Unwind(f, synced))
    ensures Acquired(Unwind(f, synced)) == multiset{}
    ensures Released(Unwind(f, synced)) == Holdings(f) + multiset{Bookkeeping}
  {
    UnmapOnwardAccounting(f);
    if synced {
      AccountingCons(SyncForDevice(f.sgt), UnmapOnward(f));
      WellFormedCons(SyncForDevice(f.sgt), UnmapOnward(f));
    }
  }

  /** A failure reached with Tracks over a struct filled in order releases
      everything acquired, through calls that are all handed live objects. */
  lemma UnwoundBalanced(ret: int, sofar: seq<Event>, f: FdFields, synced: bool)
    requires Tracks(sofar, f) && WellFormedLog(sofar)
    requires FilledInOrder(f) && (synced ==> f.sgt.Valid?)
    ensures var e := Unwound(ret, sofar, f, synced).events;
      WellFormedLog(e) && Acquired(e) == Released(e)
  {
    UnwindAccounting(f, synced);
    WellFormedAppend(sofar, Unwind(f, synced));
    AcquiredAppend(sofar, Unwind(f, synced));
    ReleasedAppend(sofar, Unwind(f, synced));
  }

  /** Every call is handed a live object, and a failure gives back all it acquired. */
  ghost predicate Sound(out: Outcome) {
    WellFormedLog(out.events) && (out.ret != 0 ==> Acquired(out.events) == Released(out.events))
  }

  /** Calls that hold a struct with all three objects live and its descriptor, then
      the descriptor's close and the release callback's teardown. */
  lemma ClosedSound(sofar: seq<Event>, f: FdFields, fd: int)
    requires f.dmaBuf.Valid? && f.attach.Valid? && f.sgt.Valid?
    requires HoldsIssued(sofar, f, fd) && WellFormedLog(sofar)
    ensures Sound(Outcome(-EFAULT, sofar + [CloseFd(fd)] + TeardownEvents(f), None))
  {
    CloseBalanced(sofar, f, fd);
    ClosedWellFormed(sofar, f, fd);
  }

  /** Live calls, then a close and the teardown of a struct with all three objects live. */
  lemma ClosedWellFormed(sofar: seq<Event>, f: FdFields, fd: int)
    requires f.dmaBuf.Valid? && f.attach.Valid? && f.sgt.Valid? && WellFormedLog(sofar)
    ensures WellFormedLog(sofar + [CloseFd(fd)] + TeardownEvents(f))
  {
    WellFormedSnoc(sofar, CloseFd(fd));
    TeardownWellFormed(f);
    WellFormedAppend(sofar + [CloseFd(fd)], TeardownEvents(f));
  }

  /** From the sync for the CPU on, given calls that hold exactly a struct with all
      three objects live. */
  lemma IssueSound(o: Oracle, sofar: seq<Event>)
    requires o.lookup.Valid? && o.attach.Valid? && o.mapping.Valid?
    requires Tracks(sofar, FdFields(o.lookup, o.attach, o.mapping)) && WellFormedLog(sofar)
    ensures Sound(CorrectedIssue(o, sofar))
  {
    var f := FdFields(o.lookup, o.attach, o.mapping);
    var synced := sofar + [SyncForCpu(o.mapping)];
    var issuing := synced + [AnonInodeGetfd(o.getfd)];
    IssuingTracks(sofar, o);
    WellFormedSnoc(sofar, SyncForCpu(o.mapping));
    WellFormedSnoc(synced, AnonInodeGetfd(o.getfd));
    if o.getfd < 0 {
      UnwoundBalanced(o.getfd, issuing, f, true);
    } else {
      var e := CopyToUser(PhysAddrData(o.getfd, o.mapping.obj.dmaAddress), o.copyOutOk);
      WellFormedSnoc(issuing, e);
      if !o.copyOutOk {
        HoldsIssuedStep(issuing, f, o.getfd, e);
        ClosedSound(issuing + [e], f, o.getfd);
      }
    }
  }

  /** From the map on, given calls that hold the struct, buffer and attachment. */
  lemma MapSound(o: Oracle, sofar: seq<Event>)
    requires o.lookup.Valid? && o.attach.Valid?
    requires Tracks(sofar, FdFields(o.lookup, o.attach, Null)) && WellFormedLog(sofar)
    ensures Sound(CorrectedMap(o, sofar))
  {
    var f := FdFields(o.lookup, o.attach, o.mapping);
    var e := DmaBufMap(o.attach, o.mapping);
    TracksStep(sofar, FdFields(o.lookup, o.attach, Null), e, f);
    WellFormedSnoc(sofar, e);
    if o.mapping.ErrPtr? || o.mapping.obj.nents != 1 {
      UnwoundBalanced(CorrectedMap(o, sofar).ret, sofar + [e], f, false);
    } else {
      IssueSound(o, sofar + [e]);
    }
  }

  /** From the attach on, given calls that hold the struct and the buffer. */
  lemma AttachSound(o: Oracle, sofar: seq<Event>)
    requires o.lookup.Valid?
    requires Tracks(sofar, FdFields(o.lookup, Null, Null)) && WellFormedLog(sofar)
    ensures Sound(CorrectedAttach(o, sofar))
  {
    var f := FdFields(o.lookup, o.attach, Null);
    var e := DmaBufAttach(o.lookup, o.attach);
    TracksStep(sofar, FdFields(o.lookup, Null, Null), e, f);
    WellFormedSnoc(sofar, e);
    if o.attach.ErrPtr? {
      UnwoundBalanced(o.attach.code, sofar + [e], f, false);
    } else {
      MapSound(o, sofar + [e]);
    }
  }

  /** From the lookup on, given calls that hold the struct alone. */
  lemma LookupSound(reqFd: Int32, o: Oracle, sofar: seq<Event>)
    requires Tracks(sofar, FdFields(Null, Null, Null)) && WellFormedLog(sofar)
    ensures Sound(CorrectedLookup(reqFd, o, sofar))
  {
    var f := FdFields(o.lookup, Null, Null);
    var e := DmaBufGet(reqFd, o.lookup);
    TracksStep(sofar, FdFields(Null, Null, Null), e, f);
    WellFormedSnoc(sofar, e);
    if !o.lookup.Valid? {
      UnwoundBalanced(CorrectedLookup(reqFd, o, sofar).ret, sofar + [e], f, false);
    } else {
      AttachSound(o, sofar + [e]);
    }
  }

  /** The early returns make at most two calls and hold nothing. */
  lemma EarlyReturnSound(cmd: U32, o: Oracle)
    requires !Allocates(cmd, o)
    ensures Sound(CorrectedOutcome(cmd, o))
  {
    if cmd == IOCTL_GET_PHYS_ADDR && o.copyIn.None? {
      AccountingOne(CopyFromUser(false));
    } else if cmd == IOCTL_GET_PHYS_ADDR {
      AccountingCons(CopyFromUser(true), [Kzalloc(false)]);
      AccountingOne(Kzalloc(false));
    }
  }

  /** Whatever the kernel answers, the corrected ioctl hands every call a live
      object, and when it fails it gives back everything it acquired. */
  lemma CorrectedIsWellFormed(cmd: U32, o: Oracle)
    ensures WellFormedLog(CorrectedOutcome(cmd, o).events)
    ensures CorrectedOutcome(cmd, o).ret != 0 ==>
      Acquired(CorrectedOutcome(cmd, o).events) == Released(CorrectedOutcome(cmd, o).events)
  {
    if !Allocates(cmd, o) {
      EarlyReturnSound(cmd, o);
    } else {
      AllocatedTracks();
      LookupSound(o.copyIn.value.fd, o, Allocated);
    }
    assert Sound(CorrectedOutcome(cmd, o));
  }

  /** The corrected ioctl reports success exactly when it has issued a descriptor
      and written it back; a failed write back fails with -EFAULT, closes the new
      descriptor right after the copy, and ends with the release callback's teardown. */
  lemma CorrectedReportsResponseFailure(cmd: U32, o: Oracle)
    ensures var out := CorrectedOutcome(cmd, o);
      (out.ret == 0 <==> out.issued.Some?) &&
      (out.issued.Some? ==>
        out.events[|out.events| - 1] == CopyToUser(PhysAddrData(out.issued.value.fd, o.mapping.obj.dmaAddress), true))
    ensures (Allocates(cmd, o) && o.lookup.Valid? && o.attach.Valid? && o.mapping.Valid? &&
             o.mapping.obj.nents == 1 && o.getfd >= 0 && !o.copyOutOk) ==>
      var out := CorrectedOutcome(cmd, o);
      out.ret == -EFAULT && out.issued.None? &&
      out.events[7] == CopyToUser(PhysAddrData(o.getfd, o.mapping.obj.dmaAddress), false) &&
      out.events[8] == CloseFd(o.getfd) &&
      out.events[9..] == TeardownEvents(FdFields(o.lookup, o.attach, o.mapping))
  {
  }

  /** Wherever the driver as written hands every call a live object and, on
      success, delivers its response, the corrected ioctl returns the same code and
      issues the same descriptor; on success it makes the same calls. */
  lemma CorrectedAgreesWithDriver(cmd: U32, o: Oracle)
    requires WellFormedLog(IoctlOutcome(cmd, o).events)
    requires IoctlOutcome(cmd, o).issued.Some? ==> o.copyOutOk
    ensures CorrectedOutcome(cmd, o).ret == IoctlOutcome(cmd, o).ret
    ensures CorrectedOutcome(cmd, o).issued == IoctlOutcome(cmd, o).issued
    ensures IoctlOutcome(cmd, o).ret == 0 ==> CorrectedOutcome(cmd, o) == IoctlOutcome(cmd, o)
  {
    WellFormedIff(cmd, o);
  }
}
