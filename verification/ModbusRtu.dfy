/**
 * Framing of Modbus over a serial line: closing a frame with its checksum, checking it, building
 * requests and decoding replies (MODBUS over Serial Line V1.02, section 2.5.1; MODBUS Application
 * Protocol V1.1b3, sections 6.3, 6.4 and 6.12). Checksums are stored low byte first.
 */
module ModbusRtu {
  import opened Crc16

  const DEVICE_ADDRESS_POS := 0
  const FUNCTION_CODE_POS := 1
  const REQ_TX_FIRST_REGISTER_ADDR_POS := 2
  const REQ_TX_QUANTITY_POS := 4
  const REQ_TX_MULTIPLE_REG_BYTE_COUNT_POS := 6
  const RES_RX_LEN_POS := 2
  const RES_RX_START_OF_PAYLOAD := 3
  const MODBUS_MAX_REPLY_SIZE := 255 + 6
  const MODBUS_MIN_REPLY_SIZE := 5
  const MODBUS_BASE_PAYLOAD_SIZE := 8
  const WRITE_MULTIPLE_HOLDING_REGISTERS: bv8 := 0x10

  // ---------- Closing and checking frames ----------

  function WithChecksum(body: seq<bv8>): seq<bv8> {
    body + [Low(Crc(body)), High(Crc(body))]
  }

  /** A frame of at least five bytes that ends with the checksum of what goes before. */
  predicate Valid(msg: seq<bv8>) {
    |msg| >= 5 && msg == WithChecksum(msg[..|msg| - 2])
  }

  /** A frame is valid exactly if nothing is left of its checksum. */
  lemma ValidIsZero(msg: seq<bv8>)
    requires |msg| >= 5
    ensures Valid(msg) <==> Crc(msg) == 0
  {
    var body := msg[..|msg| - 2];
    assert msg == body + [msg[|msg| - 2], msg[|msg| - 1]];
    ChecksumCloses(body, msg[|msg| - 2], msg[|msg| - 1]);
  }

  lemma WithChecksumIsValid(body: seq<bv8>)
    requires |body| >= 3
    ensures Valid(WithChecksum(body))
  {
    var msg := WithChecksum(body);
    assert msg[..|msg| - 2] == body;
  }

  method AppendChecksum(msg: array<bv8>, len: nat)
    requires len <= msg.Length
    modifies msg
    ensures len < 5 ==> msg[..] == old(msg[..])
    ensures len >= 5 ==> msg[..len] == WithChecksum(old(msg[..len - 2])) && msg[len..] == old(msg[len..])
  {
    if len < 5 {
      return;
    }
    var crc := CalculateModbusCrc16(msg, len - 2);
    ghost var body := msg[..len - 2];
    msg[len - 2] := Low(crc);
    msg[len - 1] := High(crc);
    assert msg[..len] == msg[..len - 2] + [msg[len - 2], msg[len - 1]] == body + [Low(crc), High(crc)];
  }

  method ValidateChecksum(msg: array<bv8>, len: nat) returns (ok: bool)
    requires len <= msg.Length
    ensures ok <==> Valid(msg[..len])
  {
    if len < 5 {
      return false;
    }
    var crc := CalculateModbusCrc16(msg, len - 2);
    ok := msg[len - 2] == Low(crc) && msg[len - 1] == High(crc);
    assert msg[..len][..len - 2] == msg[..len - 2];
    assert msg[..len] == msg[..len - 2] + [msg[len - 2], msg[len - 1]];
  }

  // ---------- Errors on the line ----------

  /** No burst of errors of up to 16 bits turns a valid frame into another valid frame. */
  lemma BurstInvalidates(f: seq<bv8>, g: seq<bv8>, p: nat, mask: bv8)
    requires Valid(f) && Burst(f, g, p, mask)
    ensures Valid(g) <==> f == g
  {
    ValidIsZero(f);
    ValidIsZero(g);
    BurstChangesCrc(f, g, p, mask);
  }

  lemma SamePlace(a: bv8, b: bv8)
    requires a == b
    ensures (a ^ b) & 0 == a ^ b && (a ^ b) & 255 == 0
  {
  }

  lemma AllBits(a: bv8)
    ensures a & 255 == a && a & 0 == 0
  {
  }

  /** Two different frames that differ only within two adjacent bytes, anywhere, are never both valid. */
  lemma AdjacentBytesDetected(f: seq<bv8>, g: seq<bv8>, p: nat)
    requires |f| == |g| && p + 1 < |f| && f != g
    requires f[..p] == g[..p] && f[p + 2..] == g[p + 2..]
    ensures !(Valid(f) && Valid(g))
  {
    if Valid(f) {
      if p + 2 < |f| {
        assert f[p + 2..][0] == g[p + 2..][0] && f[p + 2..][1..] == f[p + 3..] && g[p + 2..][1..] == g[p + 3..];
        SamePlace(f[p + 2], g[p + 2]);
        AllBits(f[p] ^ g[p]);
        BurstInvalidates(f, g, p, 0);
      } else {
        assert f[..p][p - 1] == g[..p][p - 1] && f[..p][..p - 1] == f[..p - 1] && g[..p][..p - 1] == g[..p - 1];
        SamePlace(f[p - 1], g[p - 1]);
        AllBits(f[p + 1] ^ g[p + 1]);
        BurstInvalidates(f, g, p - 1, 255);
      }
    }
  }

  // ---------- Words ----------

  function Word(hi: bv8, lo: bv8): bv16 {
    ((hi as bv16) << 8) | (lo as bv16)
  }

  lemma WordOfBytes(r: bv16)
    ensures Word(High(r), Low(r)) == r
  {
  }

  /** The first byte of a word is its upper half. */
  lemma UpperHalfFirst(hi: bv8, lo: bv8)
    ensures Word(hi, lo) >> 8 == hi as bv16 && Word(hi, lo) & 0xFF == lo as bv16
    ensures High(Word(hi, lo)) == hi && Low(Word(hi, lo)) == lo
  {
  }

  /** Words in the order of the line, high byte first. */
  function Bytes(words: seq<bv16>): (s: seq<bv8>)
    ensures |s| == 2 * |words|
  {
    if words == [] then [] else Bytes(words[..|words| - 1]) + [High(words[|words| - 1]), Low(words[|words| - 1])]
  }

  /** So many words from a position on. */
  function Words(s: seq<bv8>, from: nat, count: nat): (words: seq<bv16>)
    requires from + 2 * count <= |s|
    ensures |words| == count
  {
    seq(count, i requires 0 <= i < count => Word(s[from + 2 * i], s[from + 2 * i + 1]))
  }

  lemma {:induction false} BytesAt(words: seq<bv16>, i: nat)
    requires i < |words|
    ensures Bytes(words)[2 * i] == High(words[i]) && Bytes(words)[2 * i + 1] == Low(words[i])
  {
    if i < |words| - 1 {
      BytesAt(words[..|words| - 1], i);
    }
  }

  lemma WordInBytes(words: seq<bv16>, i: nat)
    requires i < |words|
    ensures Word(Bytes(words)[2 * i], Bytes(words)[2 * i + 1]) == words[i]
  {
    BytesAt(words, i);
    WordOfBytes(words[i]);
  }

  lemma WordsInside(head: seq<bv8>, middle: seq<bv8>, tail: seq<bv8>, count: nat)
    requires 2 * count <= |middle|
    ensures Words(head + middle + tail, |head|, count) == Words(middle, 0, count)
  {
  }

  /** Reading back the words that were written. */
  lemma BytesReadBack(words: seq<bv16>)
    ensures Words(Bytes(words), 0, |words|) == words
  {
    var read := Words(Bytes(words), 0, |words|);
    forall i | 0 <= i < |words| ensures read[i] == words[i] {
      WordInBytes(words, i);
    }
  }

  // ---------- Replies ----------

  /** The function code without the bit that marks an exception. */
  function FunctionOf(code: bv8): bv8 {
    code & 0x7F
  }

  predicate IsException(code: bv8) {
    code & 0x80 != 0
  }

  /** A reply of the given length is from the device, for the function, undamaged, no exception, and complete. */
  predicate Answers(buf: seq<bv8>, len: nat, address: bv8, func: bv8)
    requires len <= |buf|
  {
    && len >= MODBUS_MIN_REPLY_SIZE && buf[DEVICE_ADDRESS_POS] == address
    && FunctionOf(buf[FUNCTION_CODE_POS]) == func && !IsException(buf[FUNCTION_CODE_POS])
    && Valid(buf[..len]) && RES_RX_START_OF_PAYLOAD + ByteCount(buf) <= len
  }

  function ByteCount(buf: seq<bv8>): (n: int)
    requires |buf| > RES_RX_LEN_POS
    ensures 0 <= n < 256
  {
    buf[RES_RX_LEN_POS] as int
  }

  /** What a reply says; of an odd number of bytes, the last word reaches one byte further. */
  function Decoded(buf: seq<bv8>, len: nat, address: bv8, func: bv8): seq<bv16>
    requires len <= |buf| == MODBUS_MAX_REPLY_SIZE
  {
    if Answers(buf, len, address, func) then Words(buf, RES_RX_START_OF_PAYLOAD, (ByteCount(buf) + 1) / 2) else []
  }

  method DecodeReply(buf: array<bv8>, len: nat, expectedDeviceAddress: bv8, func: bv8) returns (result: seq<bv16>)
    requires len <= buf.Length == MODBUS_MAX_REPLY_SIZE
    ensures result == Decoded(buf[..], len, expectedDeviceAddress, func)
  {
    result := [];
    if len < MODBUS_MIN_REPLY_SIZE {
      return;
    }
    if expectedDeviceAddress != buf[DEVICE_ADDRESS_POS] {
      return;
    }
    var received := buf[FUNCTION_CODE_POS];
    var exception := IsException(received);
    if exception {
      received := received & 0x7F;
    }
    ExceptionBit(buf[FUNCTION_CODE_POS]);
    if func != received {
      return;
    }
    var ok := ValidateChecksum(buf, len);
    assert buf[..][..len] == buf[..len];
    if !ok || exception {
      return;
    }
    var byteCount := buf[RES_RX_LEN_POS] as int;
    if RES_RX_START_OF_PAYLOAD + byteCount > len {
      return;
    }
    var i := RES_RX_START_OF_PAYLOAD;
    while i < RES_RX_START_OF_PAYLOAD + byteCount
      invariant i == RES_RX_START_OF_PAYLOAD + 2 * |result| <= RES_RX_START_OF_PAYLOAD + byteCount + 1
      invariant result == Words(buf[..], RES_RX_START_OF_PAYLOAD, |result|)
    {
      result := result + [Word(buf[i], buf[i + 1])];
      i := i + 2;
    }
  }

  lemma ExceptionBit(code: bv8)
    ensures !IsException(code) ==> FunctionOf(code) == code
  {
  }

  /** A result that is not empty comes from a reply that matches in address, function and checksum, and only then. */
  lemma DecodedExactly(buf: seq<bv8>, len: nat, address: bv8, func: bv8)
    requires len <= |buf| == MODBUS_MAX_REPLY_SIZE
    ensures Decoded(buf, len, address, func) != [] <==>
      && len >= 5 && buf[0] == address && buf[1] == func
      && func & 0x80 == 0 && Crc(buf[..len]) == 0 && 0 < buf[2] as int <= len - 3
  {
    if len >= MODBUS_MIN_REPLY_SIZE {
      ValidIsZero(buf[..len]);
      ExceptionBit(buf[FUNCTION_CODE_POS]);
      NoExceptionBit(buf[FUNCTION_CODE_POS], func);
    }
  }

  lemma WordsAt(s: seq<bv8>, from: nat, count: nat, i: nat)
    requires from + 2 * count <= |s| && i < count
    ensures Words(s, from, count)[i] == Word(s[from + 2 * i], s[from + 2 * i + 1])
  {
  }

  /** A reply of n bytes of data holds a word for every two, behind its first three bytes. */
  lemma DecodedWords(buf: seq<bv8>, len: nat, address: bv8, func: bv8, n: nat, i: nat)
    requires len <= |buf| == MODBUS_MAX_REPLY_SIZE && Decoded(buf, len, address, func) != [] && n == ByteCount(buf)
    requires i < |Decoded(buf, len, address, func)|
    ensures |Decoded(buf, len, address, func)| == (n + 1) / 2 && 4 + 2 * i < |buf|
    ensures Decoded(buf, len, address, func)[i] == Word(buf[3 + 2 * i], buf[4 + 2 * i])
  {
    assert Decoded(buf, len, address, func) == Words(buf, 3, (n + 1) / 2);
    WordsAt(buf, 3, (n + 1) / 2, i);
  }

  lemma NoExceptionBit(code: bv8, func: bv8)
    ensures FunctionOf(code) == func && !IsException(code) <==> code == func && func & 0x80 == 0
  {
  }

  /** The byte that stands for a number. */
  function AsByte(n: nat): (b: bv8)
    requires n < 256
    ensures b as int == n
  {
    if n == 0 then 0 else AsByte(n - 1) + 1
  }

  /** The reply of a device that was asked for registers. */
  function ReadReply(address: bv8, func: bv8, registers: seq<bv16>): seq<bv8>
    requires |registers| <= 125
  {
    WithChecksum([address, func, AsByte(2 * |registers|)] + Bytes(registers))
  }

  lemma ReplyDecodes(head: seq<bv8>, registers: seq<bv16>, tail: seq<bv8>, len: nat)
    requires |head| == RES_RX_START_OF_PAYLOAD && head[RES_RX_LEN_POS] as int == 2 * |registers|
    requires len <= |head + Bytes(registers) + tail| == MODBUS_MAX_REPLY_SIZE
    requires |head| + 2 * |registers| <= len && Valid((head + Bytes(registers) + tail)[..len])
    requires head[FUNCTION_CODE_POS] & 0x80 == 0
    ensures Decoded(head + Bytes(registers) + tail, len, head[DEVICE_ADDRESS_POS], head[FUNCTION_CODE_POS]) == registers
  {
    var buf := head + Bytes(registers) + tail;
    NoExceptionBit(head[FUNCTION_CODE_POS], head[FUNCTION_CODE_POS]);
    assert buf[0] == head[0] && buf[1] == head[1] && buf[2] == head[2];
    WordsInside(head, Bytes(registers), tail, |registers|);
    BytesReadBack(registers);
  }

  /** Round trip: the decoded reply is the list of registers, whatever lies behind it in the buffer. */
  lemma ReadReplyRoundTrip(address: bv8, func: bv8, registers: seq<bv16>, rest: seq<bv8>)
    requires |registers| <= 125 && func & 0x80 == 0
    requires |ReadReply(address, func, registers) + rest| == MODBUS_MAX_REPLY_SIZE
    ensures var frame := ReadReply(address, func, registers);
      Decoded(frame + rest, |frame|, address, func) == registers
  {
    var head := [address, func, AsByte(2 * |registers|)];
    var body := head + Bytes(registers);
    var frame := ReadReply(address, func, registers);
    WithChecksumIsValid(body);
    var tail := frame[|body|..] + rest;
    assert frame + rest == body + tail && (frame + rest)[..|frame|] == frame;
    ReplyDecodes(head, registers, tail, |frame|);
  }

  /** A reply that was damaged by a burst of errors of up to 16 bits gives no registers. */
  lemma DamagedReplyGivesNothing(
    frame: seq<bv8>, damaged: seq<bv8>, p: nat, mask: bv8, rest: seq<bv8>, address: bv8, func: bv8)
    requires Valid(frame) && Burst(frame, damaged, p, mask) && frame != damaged
    requires |damaged + rest| == MODBUS_MAX_REPLY_SIZE
    ensures Decoded(damaged + rest, |damaged|, address, func) == []
  {
    assert (damaged + rest)[..|damaged|] == damaged;
    BurstInvalidates(frame, damaged, p, mask);
  }

  // ---------- Requests ----------

  lemma TwoWords(first: bv16, quantity: bv16)
    ensures Bytes([first, quantity]) == [High(first), Low(first), High(quantity), Low(quantity)]
  {
    var words := [first, quantity];
    assert words[..1] == [first] && [first][..0] == [];
    assert Bytes([first]) == Bytes([]) + [High(first), Low(first)];
  }

  function RequestLength(request: seq<bv16>): nat {
    (if request == [] then 0 else 2 * |request| + 1) + MODBUS_BASE_PAYLOAD_SIZE
  }

  function RequestHead(address: bv8, func: bv8, first: bv16, quantity: bv16): seq<bv8> {
    [address, func] + Bytes([first, quantity])
  }

  /** A request without its checksum; the length of the data is cut to one byte. */
  function RequestBody(address: bv8, func: bv8, first: bv16, quantity: bv16, request: seq<bv16>): seq<bv8> {
    var head := RequestHead(address, func, first, quantity);
    if request == [] then head else head + [AsByte(2 * |request| % 256)] + Bytes(request)
  }

  method PutWord(req: array<bv8>, at: nat, word: bv16)
    requires at + 1 < req.Length
    modifies req
    ensures req[..] == old(req[..])[at := High(word)][at + 1 := Low(word)]
  {
    req[at] := High(word);
    req[at + 1] := Low(word);
  }

  method PutHead(req: array<bv8>, address: bv8, func: bv8, first: bv16, quantity: bv16)
    requires req.Length >= MODBUS_BASE_PAYLOAD_SIZE
    modifies req
    ensures req[..6] == RequestHead(address, func, first, quantity)
  {
    req[DEVICE_ADDRESS_POS] := address;
    req[FUNCTION_CODE_POS] := func;
    PutWord(req, REQ_TX_FIRST_REGISTER_ADDR_POS, first);
    PutWord(req, REQ_TX_QUANTITY_POS, quantity);
    TwoWords(first, quantity);
  }

  /** The data of a request, after the header. */
  method PutRegisters(req: array<bv8>, request: seq<bv16>)
    requires RequestLength(request) == req.Length && request != []
    modifies req
    ensures req[..6] == old(req[..6])
    ensures req[6..req.Length - 2] == [AsByte(2 * |request| % 256)] + Bytes(request)
  {
    req[REQ_TX_MULTIPLE_REG_BYTE_COUNT_POS] := AsByte(2 * |request| % 256);
    var i := REQ_TX_MULTIPLE_REG_BYTE_COUNT_POS + 1;
    for k := 0 to |request|
      invariant i == 7 + 2 * k
      invariant req[..6] == old(req[..6]) && req[6] == AsByte(2 * |request| % 256)
      invariant req[7..i] == Bytes(request[..k])
    {
      PutWord(req, i, request[k]);
      assert request[..k + 1][..k] == request[..k];
      assert req[7..i + 2] == req[7..i] + [req[i], req[i + 1]];
      i := i + 2;
    }
    assert request[..|request|] == request;
    assert req[6..req.Length - 2] == [req[6]] + req[7..req.Length - 2];
  }

  lemma Joined(a: seq<bv8>, b: seq<bv8>, c: seq<bv8>)
    ensures a + (b + c) == a + b + c
  {
  }

  /** Header and data; only writing several registers sends data along. */
  method PutRequest(req: array<bv8>, address: bv8, func: bv8, first: bv16, quantity: bv16, request: seq<bv16>)
    requires RequestLength(request) == req.Length
    modifies req
    ensures req[..6] == RequestHead(address, func, first, quantity)
    ensures request == [] || func == WRITE_MULTIPLE_HOLDING_REGISTERS ==>
      req[..req.Length - 2] == RequestBody(address, func, first, quantity, request)
  {
    PutHead(req, address, func, first, quantity);
    ghost var head := req[..6];
    if func == WRITE_MULTIPLE_HOLDING_REGISTERS && request != [] {
      PutRegisters(req, request);
      Joined(head, [AsByte(2 * |request| % 256)], Bytes(request));
      assert req[..req.Length - 2] == head + req[6..req.Length - 2];
    }
  }

  /** Builds the frame of a request. Without data, the checksum takes the place of the byte count. */
  method BuildRequest(address: bv8, func: bv8, first: bv16, quantity: bv16, request: seq<bv16>)
    returns (req: array<bv8>)
    ensures fresh(req) && req.Length == (if request == [] then 8 else 2 * |request| + 9) && Valid(req[..])
    ensures req[..6] == RequestHead(address, func, first, quantity)
    ensures request == [] || func == 0x10 ==>
      req[..] == WithChecksum(RequestBody(address, func, first, quantity, request))
  {
    var n := RequestLength(request);
    req := new bv8[n];
    PutRequest(req, address, func, first, quantity, request);
    ghost var body := req[..n - 2];
    AppendChecksum(req, n);
    assert req[..n] == req[..] && body[..6] == req[..6];
    WithChecksumIsValid(body);
  }

  /** The parts of a frame, read from their places in it. */
  lemma Layout(head: seq<bv8>, fields: seq<bv8>, count: bv8, data: seq<bv8>, tail: seq<bv8>, n: nat)
    requires |head| == 2 && |fields| == 4 && 2 * n <= |data|
    ensures var frame := head + fields + [count] + data + tail;
      && frame[..2] == head && Words(frame, 2, 2) == Words(fields, 0, 2)
      && frame[6] == count && Words(frame, 7, n) == Words(data, 0, n)
  {
    var start := head + fields + [count];
    WordsInside(start, data, tail, n);
    assert start + data + tail == head + fields + ([count] + data + tail);
    WordsInside(head, fields, [count] + data + tail, 2);
  }

  /** The receiver of a request reads back what was asked for. */
  lemma RequestRoundTrip(
    address: bv8, func: bv8, first: bv16, quantity: bv16, request: seq<bv16>, closing: seq<bv8>)
    ensures var frame := RequestBody(address, func, first, quantity, request) + closing;
      && frame[..2] == [address, func]
      && Words(frame, 2, 2) == [first, quantity]
      && (request != [] ==>
            && frame[6] as int == 2 * |request| % 256
            && Words(frame, 7, |request|) == request)
  {
    BytesReadBack([first, quantity]);
    if request == [] {
      WordsInside([address, func], Bytes([first, quantity]), closing, 2);
    } else {
      var count := AsByte(2 * |request| % 256);
      BytesReadBack(request);
      Layout([address, func], Bytes([first, quantity]), count, Bytes(request), closing, |request|);
    }
  }

  lemma KnownWords()
    ensures Bytes([0x0000, 0x000A]) == [0x00, 0x00, 0x00, 0x0A]
  {
    TwoWords(0x0000, 0x000A);
  }

  /** The request to read ten registers from address 0 of device 1, byte by byte. */
  lemma KnownRequest()
    ensures WithChecksum(RequestBody(1, 3, 0, 10, [])) == [0x01, 0x03, 0x00, 0x00, 0x00, 0x0A, 0xC5, 0xCD]
  {
    KnownWords();
    assert RequestBody(1, 3, 0, 10, []) == [0x01, 0x03, 0x00, 0x00, 0x00, 0x0A];
    KnownChecksum();
  }
}
