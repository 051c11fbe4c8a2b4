/** One virtio block request: parsing its descriptor chain, throttling it, completing it. */
module BlockRequest {
  import opened Common

  const SECTOR_SIZE: nat := 512
  const U32: nat := 0x1_0000_0000
  const U64: nat := 0x1_0000_0000_0000_0000
  const ID_BYTES: nat := 20

  type u32 = n: nat | n < U32
  type u64 = n: nat | n < U64

  /** A descriptor as the device sees it; `next` is what following the chain yields, if anything. */
  datatype Descriptor = Descriptor(addr: u64, len: u32, writeOnly: bool, hasNext: bool, next: Option<Descriptor>)

  datatype Header = Header(kind: u32, sector: u64)

  datatype RequestType = In | Out | Flush | GetDeviceId | Unsupported(op: u32)

  datatype ParseError =
    | UnexpectedWriteOnlyDescriptor | UnexpectedReadOnlyDescriptor | DescriptorChainTooShort
    | DescriptorLengthTooSmall | InvalidDataLength | InvalidOffset | GuestMemory

  datatype Request = Request(kind: RequestType, dataLen: u32, statusAddr: u64, sector: u64, dataAddr: u64)

  datatype Parsed = Ok(req: Request) | Err(error: ParseError)

  // Request types of section 5.2.6 of the VIRTIO specification.
  const T_IN: u32 := 0
  const T_OUT: u32 := 1
  const T_FLUSH: u32 := 4
  const T_GET_ID: u32 := 8

  function KindOf(v: u32): RequestType {
    if v == T_IN then In else if v == T_OUT then Out else if v == T_FLUSH then Flush
    else if v == T_GET_ID then GetDeviceId
    else Unsupported(v)
  }

  function Next(d: Descriptor): Option<Descriptor> {
    if d.hasNext then d.next else None
  }

  /** Sectors the backing file of `diskSize` bytes exposes: all whole ones. */
  function Sectors(diskSize: u64): (n: u64)
    ensures n * SECTOR_SIZE <= diskSize < (n + 1) * SECTOR_SIZE
  {
    diskSize / SECTOR_SIZE
  }

  /** `Request::parse`; `header` is what reading the head's memory gives. */
  function Parse(head: Descriptor, header: Option<Header>, sectors: u64): Parsed {
    if head.writeOnly then Err(UnexpectedWriteOnlyDescriptor)
    else if header.None? then Err(GuestMemory)
    else
      var kind, sector := KindOf(header.value.kind), header.value.sector;
      match Next(head)
      case None => Err(DescriptorChainTooShort)
      case Some(d) =>
        if !d.hasNext then
          if !kind.Flush? then Err(DescriptorChainTooShort)
          else ParseStatus(Request(kind, 0, 0, sector, 0), d, sectors)
        else if Next(d).None? then Err(DescriptorChainTooShort)
        else if d.writeOnly && kind.Out? then Err(UnexpectedWriteOnlyDescriptor)
        else if !d.writeOnly && (kind.In? || kind.GetDeviceId?) then Err(UnexpectedReadOnlyDescriptor)
        else ParseStatus(Request(kind, d.len, 0, sector, d.addr), Next(d).value, sectors)
  }

  function ParseStatus(req: Request, status: Descriptor, sectors: u64): Parsed {
    var error := Validity(req, sectors);
    if error.Some? then Err(error.value)
    else if !status.writeOnly then Err(UnexpectedReadOnlyDescriptor)
    else if status.len < 1 then Err(DescriptorLengthTooSmall)
    else Ok(req.(statusAddr := status.addr))
  }

  function Validity(req: Request, sectors: u64): Option<ParseError> {
    match req.kind
    case In => TransferValidity(req, sectors)
    case Out => TransferValidity(req, sectors)
    case GetDeviceId => if req.dataLen < ID_BYTES then Some(InvalidDataLength) else None
    case Flush => None
    case Unsupported(_) => None
  }

  function TransferValidity(req: Request, sectors: u64): Option<ParseError> {
    if req.dataLen % SECTOR_SIZE != 0 then Some(InvalidDataLength)
    else if req.sector + req.dataLen / SECTOR_SIZE >= U64 then Some(InvalidOffset)   // checked_add
    else if req.sector + req.dataLen / SECTOR_SIZE > sectors then Some(InvalidOffset)
    else None
  }

  // ---------------------------------------------------------------- what parsing accepts

  /** The layout section 5.2.6 of the VIRTIO specification asks for: a readable header, a data
      buffer in the right direction (only a flush may leave it out), a writable status byte. */
  predicate Layout(head: Descriptor, kind: RequestType, data: Option<Descriptor>, status: Descriptor) {
    && !head.writeOnly && head.hasNext && status.writeOnly && status.len >= 1
    && match data
       case None => kind.Flush? && !status.hasNext && head.next == Some(status)
       case Some(d) =>
         && head.next == data && d.hasNext && d.next == Some(status)
         && (kind.Out? ==> !d.writeOnly) && (kind.In? || kind.GetDeviceId? ==> d.writeOnly)
  }

  /** A transfer covers whole sectors of the disk; a device id buffer is large enough. */
  predicate Fits(kind: RequestType, sector: nat, dataLen: nat, sectors: nat) {
    && (kind.In? || kind.Out? ==>
          exists n: nat :: n <= dataLen && dataLen == n * SECTOR_SIZE && sector + n <= sectors)
    && (kind.GetDeviceId? ==> dataLen >= ID_BYTES)
  }

  lemma FitsIff(req: Request, sectors: u64)
    ensures Fits(req.kind, req.sector, req.dataLen, sectors) <==> Validity(req, sectors).None?
  {
    var n := req.dataLen / SECTOR_SIZE;
    if Validity(req, sectors).None? {
      assert n <= req.dataLen && req.dataLen == n * SECTOR_SIZE + req.dataLen % SECTOR_SIZE;
    }
  }

  /** Parsing is sound: what it accepts has the required layout and fits. */
  lemma ParseSound(head: Descriptor, header: Option<Header>, sectors: u64)
    requires Parse(head, header, sectors).Ok?
    ensures var req := Parse(head, header, sectors).req;
      && header.Some? && req.kind == KindOf(header.value.kind) && req.sector == header.value.sector
      && Fits(req.kind, req.sector, req.dataLen, sectors)
      && exists data, status ::
           && Layout(head, req.kind, data, status) && req.statusAddr == status.addr
           && req.dataLen == (if data.Some? then data.value.len else 0)
           && req.dataAddr == (if data.Some? then data.value.addr else 0)
  {
    var req := Parse(head, header, sectors).req;
    FitsIff(req, sectors);
    FitsIff(req.(statusAddr := 0), sectors);
    var d := head.next.value;
    if d.hasNext {
      assert Layout(head, req.kind, Some(d), d.next.value);
    } else {
      assert Layout(head, req.kind, None, d);
    }
  }

  /** An accepted request is of the type its header asks for, and of no other. */
  lemma TypeCodes(head: Descriptor, header: Option<Header>, sectors: u64)
    requires Parse(head, header, sectors).Ok?
    ensures var kind := Parse(head, header, sectors).req.kind;
      && header.Some?
      && (kind.In? <==> header.value.kind == T_IN)
      && (kind.Out? <==> header.value.kind == T_OUT)
      && (kind.Flush? <==> header.value.kind == T_FLUSH)
      && (kind.GetDeviceId? <==> header.value.kind == T_GET_ID)
      && (kind.Unsupported? ==> kind.op == header.value.kind)
  {
    ParseSound(head, header, sectors);
  }

  /** Parsing is complete: every chain with the required layout that fits is accepted. */
  lemma ParseComplete(head: Descriptor, header: Header, data: Option<Descriptor>, status: Descriptor, sectors: u64)
    requires Layout(head, KindOf(header.kind), data, status)
    requires Fits(KindOf(header.kind), header.sector, if data.Some? then data.value.len else 0, sectors)
    ensures Parse(head, Some(header), sectors) ==
      Ok(Request(KindOf(header.kind), if data.Some? then data.value.len else 0, status.addr, header.sector,
                 if data.Some? then data.value.addr else 0))
  {
    var len: u32 := if data.Some? then data.value.len else 0;
    var addr: u64 := if data.Some? then data.value.addr else 0;
    FitsIff(Request(KindOf(header.kind), len, 0, header.sector, addr), sectors);
  }

  /** `self.sector << SECTOR_SHIFT`, in 64 bits. */
  function Offset(req: Request): u64 { (req.sector * SECTOR_SIZE) % U64 }

  /** Accepted transfers stay on the disk: the shift loses no bits, and the last byte is inside
      the backing file. */
  lemma TransferOnDisk(head: Descriptor, header: Option<Header>, diskSize: u64)
    requires Parse(head, header, Sectors(diskSize)).Ok?
    requires var k := Parse(head, header, Sectors(diskSize)).req.kind; k.In? || k.Out?
    ensures var req := Parse(head, header, Sectors(diskSize)).req;
      && Offset(req) == req.sector * SECTOR_SIZE
      && Offset(req) + req.dataLen <= diskSize
  {
    ParseSound(head, header, Sectors(diskSize));
    var req := Parse(head, header, Sectors(diskSize)).req;
    var n: nat :| n <= req.dataLen && req.dataLen == n * SECTOR_SIZE && req.sector + n <= Sectors(diskSize);
    assert Sectors(diskSize) * SECTOR_SIZE <= diskSize;
  }

  // ---------------------------------------------------------------- completion

  datatype StatusCode = S_OK | S_IOERR | S_UNSUPP

  datatype Status = Status(code: StatusCode, bytesToMem: u32)

  function FromData(dataLen: u32, transferred: u32, toMem: bool): Status {
    Status(if transferred == dataLen then S_OK else S_IOERR, if toMem then transferred else 0)
  }

  /** The status `PendingRequest::finish` computes; `res` is the count moved, None an I/O error. */
  function StatusOf(kind: RequestType, dataLen: u32, res: Option<u32>): Status {
    match kind
    case Unsupported(_) => Status(S_UNSUPP, 0)
    case In => if res.Some? then FromData(dataLen, res.value, true) else Status(S_IOERR, 0)
    case Out => if res.Some? then FromData(dataLen, res.value, false) else Status(S_IOERR, 0)
    case GetDeviceId => if res.Some? then FromData(dataLen, res.value, true) else Status(S_IOERR, 0)
    case Flush => Status(if res.Some? then S_OK else S_IOERR, 0)
  }

  /** Used length: the bytes written plus the status byte, in 32 bits; zero if the status byte
      could not be written. */
  function UsedLength(st: Status, statusWritten: bool): u32 {
    if statusWritten then (st.bytesToMem + 1) % U32 else 0
  }

  /** For every accepted request and every count the engine may report for it, the used length does
      not wrap, covers what was written, and the status is OK exactly when all of it moved. */
  lemma CompletionExact(head: Descriptor, header: Option<Header>, sectors: u64, res: Option<u32>)
    requires Parse(head, header, sectors).Ok?
    requires var req := Parse(head, header, sectors).req;
      && (res.Some? ==> res.value <= req.dataLen)
      && (req.kind.GetDeviceId? && res.Some? ==> res.value == ID_BYTES)
    ensures var req := Parse(head, header, sectors).req;
      var st := StatusOf(req.kind, req.dataLen, res);
      && UsedLength(st, true) == st.bytesToMem + 1 <= req.dataLen + 1
      && st.bytesToMem == (if (req.kind.In? || req.kind.GetDeviceId?) && res.Some? then res.value else 0)
      && (st.code.S_UNSUPP? <==> req.kind.Unsupported?)
      && (req.kind.In? || req.kind.Out? || req.kind.GetDeviceId? ==> (st.code.S_OK? <==> res == Some(req.dataLen)))
      && (req.kind.Flush? ==> (st.code.S_OK? <==> res.Some?))
  {
    ParseSound(head, header, sectors);
    var req := Parse(head, header, sectors).req;
    if req.kind.In? || req.kind.Out? {
      var n: nat :| n <= req.dataLen && req.dataLen == n * SECTOR_SIZE && req.sector + n <= sectors;
      assert req.dataLen % SECTOR_SIZE == 0;
      assert req.dataLen != U32 - 1;
    }
  }

  // ---------------------------------------------------------------- rate limiting

  /** Two integer budgets; `blocked` once a consume has failed, until the limiter's timer fires. */
  datatype Limiter = Limiter(ops: nat, bytes: nat, blocked: bool)

  function ConsumeOps(l: Limiter, n: nat): (Limiter, bool) {
    if l.blocked || l.ops < n then (l.(blocked := true), false) else (l.(ops := l.ops - n), true)
  }

  function ConsumeBytes(l: Limiter, n: nat): (Limiter, bool) {
    if l.blocked || l.bytes < n then (l.(blocked := true), false) else (l.(bytes := l.bytes - n), true)
  }

  /** `rate_limit`: one operation token, then the transfer's bytes; a failed second step hands the
      operation token back. So a throttled request costs nothing, an admitted one costs exactly one
      operation and its length, and it is throttled exactly when a budget does not cover it. */
  function RateLimit(l: Limiter, req: Request): (r: (Limiter, bool))
    ensures var bytes := if req.kind.In? || req.kind.Out? then req.dataLen else 0;
      && (r.1 <==> l.blocked || l.ops < 1 || l.bytes < bytes)
      && (r.1 ==> r.0 == l.(blocked := true))
      && (!r.1 ==> r.0 == Limiter(l.ops - 1, l.bytes - bytes, false))
  {
    var (l1, ok) := ConsumeOps(l, 1);
    if !ok then (l1, true)
    else if req.kind.In? || req.kind.Out? then
      var (l2, ok2) := ConsumeBytes(l1, req.dataLen);
      if !ok2 then (l2.(ops := l2.ops + 1), true) else (l2, false)
    else (l1, false)
  }
}
