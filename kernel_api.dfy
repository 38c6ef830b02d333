/** The kernel and dma-buf interfaces the driver calls, reduced to what the driver
    can observe of them: opaque object tokens, pointers that are NULL, carry an
    error code (ERR_PTR) or refer to a live object, and a log of the calls made.
    The log is read two ways: as resource accounting (what each call acquires or
    releases) and as a record of which calls were handed pointers they may use. */
module KernelApi {

  type Int32 = x: int | -0x8000_0000 <= x < 0x8000_0000
  type U32 = x: int | 0 <= x < 0x1_0000_0000
  type U64 = x: int | 0 <= x < 0x1_0000_0000_0000_0000

  /** The negated error numbers an error pointer can carry (the range IS_ERR accepts). */
  type ErrorCode = e: int | -4095 <= e < 0 witness -1

  const ENOMEM: int := 12
  const EFAULT: int := 14
  const EINVAL: int := 22

  datatype Option<T> = None | Some(value: T)

  /** A kernel pointer as the driver sees it. */
  datatype Ptr<T> = Null | ErrPtr(code: ErrorCode) | Valid(obj: T)

  /** What dma_buf_attach and dma_buf_map_attachment return: an error pointer or a
      live object. The driver tests their results with IS_ERR only. */
  type NonNull<T> = p: Ptr<T> | !p.Null? witness ErrPtr(-1)

  /** A reference to a shared buffer, taken by dma_buf_get. */
  datatype DmaBuf = DmaBuf(id: nat)
  /** The attachment of a buffer to the driver's device. */
  datatype Attachment = Attachment(id: nat)
  /** A scatter-gather table: how many segments the mapping has and the device
      address of the first one (what sg_dma_address of its first entry gives). */
  datatype SgTable = SgTable(id: nat, nents: U32, dmaAddress: U64)

  /** The record exchanged with user space: a descriptor and a device address. */
  datatype PhysAddrData = PhysAddrData(fd: Int32, physAddr: U64)

  /** One call the driver makes into the kernel, with the arguments it passes and,
      for fallible calls, what the call returned; or the close of a descriptor the
      driver issued, after which the kernel runs the file's release callback. */
  datatype Event =
    | CopyFromUser(ok: bool)
    | Kzalloc(ok: bool)
    | DmaBufGet(fd: Int32, got: Ptr<DmaBuf>)
    | DmaBufAttach(buf: Ptr<DmaBuf>, attached: Ptr<Attachment>)
    | DmaBufMap(attach: Ptr<Attachment>, mapped: Ptr<SgTable>)
    | SyncForCpu(sgt: Ptr<SgTable>)
    | AnonInodeGetfd(result: Int32)
    | CopyToUser(data: PhysAddrData, ok: bool)
    | SyncForDevice(sgt: Ptr<SgTable>)
    | Unmap(attach: Ptr<Attachment>, sgt: Ptr<SgTable>)
    | Detach(buf: Ptr<DmaBuf>, attach: Ptr<Attachment>)
    | Put(buf: Ptr<DmaBuf>)
    | Kfree
    | CloseFd(closed: int)

  /** What a driver call makes it hold until a matching release. */
  datatype Resource =
    | Bookkeeping
    | BufferRef(buf: DmaBuf)
    | AttachmentRef(attach: Attachment)
    | MappingRef(sgt: SgTable)
    | Descriptor(fd: int)

  function AcquiredBy(e: Event): multiset<Resource> {
    match e
    case Kzalloc(true) => multiset{Bookkeeping}
    case DmaBufGet(_, Valid(b)) => multiset{BufferRef(b)}
    case DmaBufAttach(_, Valid(a)) => multiset{AttachmentRef(a)}
    case DmaBufMap(_, Valid(s)) => multiset{MappingRef(s)}
    case AnonInodeGetfd(r) => if r >= 0 then multiset{Descriptor(r)} else multiset{}
    case _ => multiset{}
  }

  /** A release call gives back the object it is handed, when that is a live one;
      kfree always frees the bookkeeping struct, the only thing the driver frees;
      closing a descriptor gives it back. */
  function ReleasedBy(e: Event): multiset<Resource> {
    match e
    case Kfree => multiset{Bookkeeping}
    case Put(Valid(b)) => multiset{BufferRef(b)}
    case Detach(_, Valid(a)) => multiset{AttachmentRef(a)}
    case Unmap(_, Valid(s)) => multiset{MappingRef(s)}
    case CloseFd(fd) => multiset{Descriptor(fd)}
    case _ => multiset{}
  }

  /** Everything a log acquires, with multiplicity. */
  function Acquired(log: seq<Event>): multiset<Resource> {
    if log == [] then multiset{} else AcquiredBy(log[0]) + Acquired(log[1..])
  }

  /** Everything a log releases, with multiplicity. */
  function Released(log: seq<Event>): multiset<Resource> {
    if log == [] then multiset{} else ReleasedBy(log[0]) + Released(log[1..])
  }

  lemma {:induction false} AcquiredAppend(a: seq<Event>, b: seq<Event>)
    ensures Acquired(a + b) == Acquired(a) + Acquired(b)
  {
    if a == [] {
      assert a + b == b;
    } else {
      assert (a + b)[1..] == a[1..] + b;
      AcquiredAppend(a[1..], b);
    }
  }

  lemma {:induction false} ReleasedAppend(a: seq<Event>, b: seq<Event>)
    ensures Released(a + b) == Released(a) + Released(b)
  {
    if a == [] {
      assert a + b == b;
    } else {
      assert (a + b)[1..] == a[1..] + b;
      ReleasedAppend(a[1..], b);
    }
  }

  /** Accounting for a log that starts with one known call. */
  lemma AccountingCons(e: Event, log: seq<Event>)
    ensures Acquired([e] + log) == AcquiredBy(e) + Acquired(log)
    ensures Released([e] + log) == ReleasedBy(e) + Released(log)
  {
    assert ([e] + log)[1..] == log;
  }

  /** Accounting for a log of a single call. */
  lemma AccountingOne(e: Event)
    ensures Acquired([e]) == AcquiredBy(e) && Released([e]) == ReleasedBy(e)
  {
    AccountingCons(e, []);
    assert [e] + [] == [e];
  }

  /** Accounting for a log extended by one call at its end. */
  lemma AccountingSnoc(log: seq<Event>, e: Event)
    ensures Acquired(log + [e]) == Acquired(log) + AcquiredBy(e)
    ensures Released(log + [e]) == Released(log) + ReleasedBy(e)
  {
    AcquiredAppend(log, [e]);
    ReleasedAppend(log, [e]);
    AccountingOne(e);
  }

  /** A call is well formed when every object pointer it is handed, or that the
      driver reads through to make it, refers to a live object. */
  predicate WellFormedCall(e: Event) {
    match e
    case DmaBufAttach(buf, _) => buf.Valid?
    case DmaBufMap(attach, _) => attach.Valid?
    case SyncForCpu(sgt) => sgt.Valid?
    case SyncForDevice(sgt) => sgt.Valid?
    case Unmap(attach, sgt) => attach.Valid? && sgt.Valid?
    case Detach(buf, attach) => buf.Valid? && attach.Valid?
    case Put(buf) => buf.Valid?
    case _ => true
  }

  predicate WellFormedLog(log: seq<Event>) {
    forall i :: 0 <= i < |log| ==> WellFormedCall(log[i])
  }

  lemma WellFormedAppend(a: seq<Event>, b: seq<Event>)
    ensures WellFormedLog(a + b) <==> WellFormedLog(a) && WellFormedLog(b)
  {
    if WellFormedLog(a) && WellFormedLog(b) {
      forall i | 0 <= i < |a + b| ensures WellFormedCall((a + b)[i]) {
        if i >= |a| {
          assert (a + b)[i] == b[i - |a|];
        }
      }
    }
    if WellFormedLog(a + b) {
      forall i | 0 <= i < |a| ensures WellFormedCall(a[i]) {
        assert (a + b)[i] == a[i];
      }
      forall i | 0 <= i < |b| ensures WellFormedCall(b[i]) {
        assert (a + b)[|a| + i] == b[i];
      }
    }
  }

  /** A log extended by one call is well formed when the log and the call are. */
  lemma WellFormedSnoc(log: seq<Event>, e: Event)
    ensures WellFormedLog(log + [e]) <==> WellFormedLog(log) && WellFormedCall(e)
  {
    WellFormedAppend(log, [e]);
    assert [e][0] == e;
  }

  /** A log with one call in front is well formed exactly when the call and the rest are. */
  lemma WellFormedCons(e: Event, log: seq<Event>)
    ensures WellFormedLog([e] + log) <==> WellFormedCall(e) && WellFormedLog(log)
  {
    WellFormedAppend([e], log);
    assert [e][0] == e;
  }
}
