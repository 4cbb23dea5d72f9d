/** How a control command travels: the device path in front of the payload of an unprivileged device,
    and what the driver reads from it. Bytes are written as characters. */
module ControlFraming {
  import opened Options
  import opened Uapi
  import Decimal

  const DEV_PATH_LEN: nat := 32
  const U32: nat := 0x1_0000_0000
  const U64: nat := 0x1_0000_0000_0000_0000

  const NUL: char := '\0'
  const PREFIX: string := "/dev/ublkc"

  // ---------------------------------------------------------------- the path

  function DevPath(id: nat): string {
    PREFIX + Decimal.Print(id)
  }

  function Min(a: nat, b: nat): nat {
    if a < b then a else b
  }

  /** The text up to the first NUL. */
  function CString(s: seq<char>): string {
    if s == [] || s[0] == NUL then [] else [s[0]] + CString(s[1..])
  }

  lemma {:induction false} CStringOf(text: string, tail: seq<char>)
    requires NUL !in text
    ensures CString(text + [NUL] + tail) == text
    decreases |text|
  {
    if text != [] {
      assert (text + [NUL] + tail)[1..] == text[1..] + [NUL] + tail;
      CStringOf(text[1..], tail);
    }
  }

  /** At most size - 1 characters of the path, then NUL; the rest is left as it was. */
  function Filled(was: seq<char>, size: nat, id: nat): (r: seq<char>)
    requires 0 < size <= |was|
    ensures |r| == |was|
  {
    var n := Min(|DevPath(id)|, size - 1);
    DevPath(id)[..n] + [NUL] + was[n + 1..]
  }

  /** `fill_dev_path` */
  method FillDevPath(data: array<char>, size: nat, id: nat)
    requires 0 < size <= data.Length
    modifies data
    ensures data[..] == Filled(old(data[..]), size, id)
  {
    var path := DevPath(id);
    var n := Min(|path|, size - 1);
    ghost var was := data[..];
    var i := 0;
    while i < n
      invariant 0 <= i <= n
      invariant forall k :: 0 <= k < i ==> data[k] == path[k]
      invariant forall k :: i <= k < data.Length ==> data[k] == was[k]
    {
      data[i] := path[i];
      i := i + 1;
    }
    data[i] := NUL;
    assert data[..] == Filled(was, size, id);
  }

  /** Reading the buffer gives the whole path if there is room for it and its terminator, and otherwise as
      much of it as fits before one; nothing is written behind the buffer's end. */
  lemma FilledReads(was: seq<char>, size: nat, id: nat)
    requires 0 < size <= |was|
    ensures CString(Filled(was, size, id)[..size])
            == if |DevPath(id)| < size then DevPath(id) else DevPath(id)[..size - 1]
    ensures Filled(was, size, id)[size..] == was[size..]
  {
    var n := Min(|DevPath(id)|, size - 1);
    var text := DevPath(id)[..n];
    assert Filled(was, size, id)[..size] == text + [NUL] + was[n + 1..size];
    CStringOf(text, was[n + 1..size]);
  }

  /** Every device path fits the path buffer with its terminator. */
  lemma PathFits(id: nat)
    requires id < U32
    ensures |DevPath(id)| + 1 <= DEV_PATH_LEN == 32
  {
    assert Decimal.Pow10(4) == 10000;
    assert Decimal.Pow10(10) == 10000000000;
    Decimal.PrintLength(id, 10);
  }

  /** A path is the prefix of the char devices and the id in decimal digits without leading zeros. */
  lemma PathNamesDevice(id: nat)
    ensures DevPath(id)[..10] == "/dev/ublkc"
    ensures var digits := DevPath(id)[10..];
            && digits != [] && (forall i :: 0 <= i < |digits| ==> Decimal.IsDigit(digits[i]))
            && Decimal.Read(digits) == id && (digits[0] == '0' ==> digits == "0")
  {
    Decimal.ReadPrint(id);
    Decimal.NoLeadingZero(id);
    assert DevPath(id)[10..] == Decimal.Print(id);
  }

  /** Paths identify devices. */
  lemma PathsDiffer(a: nat, b: nat)
    requires DevPath(a) == DevPath(b)
    ensures a == b
  {
    assert Decimal.Print(a) == DevPath(a)[|PREFIX|..] == Decimal.Print(b);
    Decimal.ReadPrint(a);
    Decimal.ReadPrint(b);
  }

  /** `DevPathBuf`: path and payload in one buffer, which starts out as whatever memory holds. */
  method DevPathBuf(id: nat, payload: seq<char>) returns (buf: array<char>)
    requires id < U32
    ensures fresh(buf) && buf.Length == DEV_PATH_LEN + |payload|
    ensures CString(buf[..DEV_PATH_LEN]) == DevPath(id)
    ensures buf[DEV_PATH_LEN..] == payload
  {
    PathFits(id);
    buf := new char[DEV_PATH_LEN + |payload|];
    ghost var was := buf[..];
    FillDevPath(buf, DEV_PATH_LEN, id);
    ghost var filled := buf[..];
    FilledReads(was, DEV_PATH_LEN, id);
    CopyPayload(buf, DEV_PATH_LEN, payload);
    assert buf[..DEV_PATH_LEN] == filled[..DEV_PATH_LEN];
  }

  /** The payload of the buffer is assigned; what is in front of it stays. */
  method CopyPayload(buf: array<char>, at: nat, payload: seq<char>)
    requires buf.Length == at + |payload|
    modifies buf
    ensures buf[..] == old(buf[..])[..at] + payload
  {
    var i := 0;
    while i < |payload|
      invariant 0 <= i <= |payload|
      invariant forall k :: 0 <= k < at ==> buf[k] == old(buf[k])
      invariant forall k :: 0 <= k < i ==> buf[at + k] == payload[k]
    {
      buf[at + i] := payload[i];
      i := i + 1;
    }
  }

  // ---------------------------------------------------------------- commands

  datatype Op =
    | GetQueueAffinity(queue: nat, room: seq<char>)
    | DelDev
    | StartDev(pid: int)
    | StopDev
    | SetParams(params: seq<char>)
    | GetParams(room: seq<char>)
    | StartUserRecovery
    | EndUserRecovery(pid: int)
    | DelDevAsync
    | UpdateSize(sectors: nat)
    | QuiesceDev(timeout: nat)
    | TryStopDev
    | RegisterShmBuf(reg: seq<char>)
    | UnregisterShmBuf(index: nat)

  /** `ublksrv_ctrl_cmd`; `buf` is the memory that addr and len describe. */
  datatype CtrlCmd = CtrlCmd(number: nat, devId: nat, queueId: nat, data0: nat, buf: Option<seq<char>>, len: nat,
                             devPathLen: nat)

  predicate ValidOp(op: Op) {
    match op
    case GetQueueAffinity(q, room) => q < U16 && |room| + DEV_PATH_LEN < U16
    case StartDev(pid) => -0x8000_0000 <= pid < 0x8000_0000
    case EndUserRecovery(pid) => -0x8000_0000 <= pid < 0x8000_0000
    case SetParams(p) => |p| + DEV_PATH_LEN < U16
    case GetParams(p) => |p| + DEV_PATH_LEN < U16
    case RegisterShmBuf(r) => |r| + DEV_PATH_LEN < U16
    case UpdateSize(n) => n < U64
    case QuiesceDev(n) => n < U64
    case UnregisterShmBuf(n) => n < U64
    case _ => true
  }

  function Number(op: Op): nat {
    match op
    case GetQueueAffinity(_, _) => 0x01
    case DelDev => 0x05
    case StartDev(_) => 0x06
    case StopDev => 0x07
    case SetParams(_) => 0x08
    case GetParams(_) => 0x09
    case StartUserRecovery => 0x10
    case EndUserRecovery(_) => 0x11
    case DelDevAsync => 0x14
    case UpdateSize(_) => 0x15
    case QuiesceDev(_) => 0x16
    case TryStopDev => 0x17
    case RegisterShmBuf(_) => 0x18
    case UnregisterShmBuf(_) => 0x19
  }

  /** A signed value converted to 64 unsigned bits. */
  function ToU64(v: int): nat
    requires -0x8000_0000 <= v < U64
  {
    if v < 0 then v + U64 else v
  }

  function Data0(op: Op): nat
    requires ValidOp(op)
  {
    match op
    case GetQueueAffinity(q, _) => q
    case StartDev(pid) => ToU64(pid)
    case EndUserRecovery(pid) => ToU64(pid)
    case UpdateSize(n) => n
    case QuiesceDev(n) => n
    case UnregisterShmBuf(n) => n
    case _ => 0
  }

  /** The memory handed over besides the path, if the command has any. */
  function Payload(op: Op): Option<seq<char>> {
    match op
    case GetQueueAffinity(_, room) => Some(room)
    case SetParams(p) => Some(p)
    case GetParams(room) => Some(room)
    case RegisterShmBuf(r) => Some(r)
    case _ => None
  }

  /** The command sent; `path` is the filled path buffer of an unprivileged device, which for a
      command without payload is handed over alone. */
  function Encode(op: Op, id: nat, path: Option<seq<char>>): CtrlCmd
    requires ValidOp(op) && (path.Some? ==> |path.value| == DEV_PATH_LEN)
  {
    var queue := if op.GetQueueAffinity? then op.queue else U16 - 1;
    var buf, len := if path.None? then (if Payload(op).Some? then Some(Payload(op).value) else None)
                    else Some(path.value + if Payload(op).Some? then Payload(op).value else []),
                    (if path.Some? then DEV_PATH_LEN else 0) + if Payload(op).Some? then |Payload(op).value| else 0;
    CtrlCmd(Number(op), id, queue, Data0(op), buf, len, if path.Some? then DEV_PATH_LEN else 0)
  }

  // ---------------------------------------------------------------- what the driver reads

  /** The first devPathLen bytes of the buffer name the device; the rest is the payload. */
  function PathOf(c: CtrlCmd): Option<string> {
    if c.devPathLen > 0 && c.buf.Some? && c.devPathLen <= |c.buf.value| then Some(CString(c.buf.value[..c.devPathLen]))
    else None
  }

  function PayloadOf(c: CtrlCmd): seq<char> {
    if c.buf.Some? && c.devPathLen <= c.len <= |c.buf.value| then c.buf.value[c.devPathLen..c.len] else []
  }

  function Signed(v: nat): int {
    if v < U64 / 2 then v else v - U64
  }

  function Decode(c: CtrlCmd): Option<Op> {
    if c.number == 0x01 then Some(GetQueueAffinity(c.data0, PayloadOf(c)))
    else if c.number == 0x05 then Some(DelDev)
    else if c.number == 0x06 then Some(StartDev(Signed(c.data0)))
    else if c.number == 0x07 then Some(StopDev)
    else if c.number == 0x08 then Some(SetParams(PayloadOf(c)))
    else if c.number == 0x09 then Some(GetParams(PayloadOf(c)))
    else if c.number == 0x10 then Some(StartUserRecovery)
    else if c.number == 0x11 then Some(EndUserRecovery(Signed(c.data0)))
    else if c.number == 0x14 then Some(DelDevAsync)
    else if c.number == 0x15 then Some(UpdateSize(c.data0))
    else if c.number == 0x16 then Some(QuiesceDev(c.data0))
    else if c.number == 0x17 then Some(TryStopDev)
    else if c.number == 0x18 then Some(RegisterShmBuf(PayloadOf(c)))
    else if c.number == 0x19 then Some(UnregisterShmBuf(c.data0))
    else None
  }

  /** Removing the path prefix of the unprivileged buffer leaves the privileged buffer. */
  lemma PayloadSurvives(op: Op, id: nat, path: Option<seq<char>>)
    requires ValidOp(op) && (path.Some? ==> |path.value| == DEV_PATH_LEN)
    ensures var c := Encode(op, id, path);
            && c.len < U16 && (c.buf.Some? ==> c.len == |c.buf.value|) && (c.buf.None? ==> c.len == 0)
            && PayloadOf(c) == (if Payload(op).Some? then Payload(op).value else [])
            && PayloadOf(c) == PayloadOf(Encode(op, id, None))
            && PathOf(c) == (if path.Some? then Some(CString(path.value)) else None)
  {
    if path.Some? {
      var rest := if Payload(op).Some? then Payload(op).value else [];
      assert (path.value + rest)[DEV_PATH_LEN..] == rest;
      assert (path.value + rest)[..DEV_PATH_LEN] == path.value;
    }
  }

  /** Every command reads back as it was given, privileged or not, and an unprivileged one names the
      device it is for. */
  lemma CommandRoundTrip(op: Op, id: nat, path: Option<seq<char>>)
    requires ValidOp(op) && id < U32
    requires path.Some? ==> |path.value| == DEV_PATH_LEN && CString(path.value) == DevPath(id)
    ensures var c := Encode(op, id, path);
            && Decode(c) == Some(op) && c.devId == id
            && c.queueId == (if op.GetQueueAffinity? then op.queue else 0xFFFF)
            && c.devPathLen == (if path.Some? then 32 else 0)
            && PathOf(c) == if path.Some? then Some(DevPath(id)) else None
  {
    PayloadSurvives(op, id, path);
  }

  /** Commands for different devices, or different commands, never look alike. */
  lemma CommandsDiffer(op: Op, id: nat, path: Option<seq<char>>, op': Op, id': nat, path': Option<seq<char>>)
    requires ValidOp(op) && id < U32 && ValidOp(op') && id' < U32
    requires path.Some? ==> |path.value| == DEV_PATH_LEN && CString(path.value) == DevPath(id)
    requires path'.Some? ==> |path'.value| == DEV_PATH_LEN && CString(path'.value) == DevPath(id')
    requires var c, c' := Encode(op, id, path), Encode(op', id', path');
             Decode(c) == Decode(c') && (c.devId == c'.devId || (PathOf(c).Some? && PathOf(c) == PathOf(c')))
    ensures op == op' && id == id'
  {
    CommandRoundTrip(op, id, path);
    CommandRoundTrip(op', id', path');
    if DevPath(id) == DevPath(id') {
      PathsDiffer(id, id');
    }
  }

  /** The driver's answer goes where the payload was. */
  function Answered(c: CtrlCmd, answer: seq<char>): CtrlCmd
    requires c.buf.Some? && c.devPathLen + |answer| == |c.buf.value|
  {
    c.(buf := Some(c.buf.value[..c.devPathLen] + answer))
  }

  /** What the caller copies out is the answer, and the path is still in front of it. */
  lemma AnswerReadBack(op: Op, id: nat, path: Option<seq<char>>, answer: seq<char>)
    requires ValidOp(op) && Payload(op).Some? && |answer| == |Payload(op).value|
    requires path.Some? ==> |path.value| == DEV_PATH_LEN
    ensures var c := Encode(op, id, path);
            && c.buf.Some? && c.devPathLen + |answer| == |c.buf.value|
            && PayloadOf(Answered(c, answer)) == answer && PathOf(Answered(c, answer)) == PathOf(c)
  {
    var c := Encode(op, id, path);
    var d := Answered(c, answer);
    assert d.buf.value[..c.devPathLen] == c.buf.value[..c.devPathLen];
    assert d.buf.value[c.devPathLen..] == answer;
  }
}
