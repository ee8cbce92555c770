/**
 Line framing of a server link (server/s_packet.c): bytes arrive in arbitrary chunks, are
 split at CR or LF, and may have to be deciphered from the middle of a chunk onwards.

 `Receiver` is the reference: it takes the wire one byte at a time and never looks ahead.
 `Link` is the code: it deciphers whole chunks in place, rescans the bytes it held back, and
 deciphers the rest of a chunk when the line handler switches the cipher on.
 */
module Framing {
  import Rc4

  type Line = seq<bv8>

  const CR: bv8 := 13
  const LF: bv8 := 10
  const READBUF_SIZE: nat := 16384

  predicate IsEol(b: bv8) {
    b == LF || b == CR
  }

  predicate NoEol(s: seq<bv8>) {
    forall i :: 0 <= i < |s| ==> !IsEol(s[i])
  }

  /** What server_parse answers. FLUSH_BUFFER and the default answer both mean Proceed. */
  datatype Verdict = Proceed | Exited | StartRc4(key: Rc4.State)

  /** The line handler: it sees whether the link is keyed, and every line so far, the new one last. */
  type Handler = (bool, seq<Line>) -> Verdict

  /** A keyed link is not keyed again. */
  ghost predicate NeverRekeys(h: Handler) {
    forall lines: seq<Line> :: !h(true, lines).StartRc4?
  }

  datatype Cipher = Clear | Keyed(key: Rc4.State)

  function Decipher(c: Cipher, bytes: seq<bv8>): (plain: seq<bv8>)
    ensures |plain| == |bytes|
  {
    if c.Clear? then bytes else Rc4.Crypt(c.key, bytes)
  }

  function Advanced(c: Cipher, n: nat): Cipher {
    if c.Clear? then Clear else Keyed(Rc4.After(c.key, n))
  }

  lemma DecipherSplit(c: Cipher, bytes: seq<bv8>, n: nat)
    requires n <= |bytes|
    ensures Decipher(c, bytes)[..n] == Decipher(c, bytes[..n])
    ensures Decipher(c, bytes)[n..] == Decipher(Advanced(c, n), bytes[n..])
    ensures Advanced(c, |bytes|) == Advanced(Advanced(c, n), |bytes| - n)
  {
    assert bytes == bytes[..n] + bytes[n..];
    if c.Keyed? {
      Rc4.CryptAppend(c.key, bytes[..n], bytes[n..]);
      Rc4.AfterAdds(c.key, n, |bytes| - n);
    }
  }

  // ------------------------------------------------------------------------------------
  // The reference receiver
  // ------------------------------------------------------------------------------------

  datatype Receiver = Receiver(cipher: Cipher, tail: Line, lines: seq<Line>, exited: bool)

  const FRESH := Receiver(Clear, [], [], false)

  /** A terminator has been read after `line`; `c` deciphers the next byte. */
  function EndLine(h: Handler, c: Cipher, line: Line, lines: seq<Line>): Receiver {
    if line == [] then Receiver(c, [], lines, false) else
    var lines' := lines + [line];
    match h(c.Keyed?, lines')
    case Proceed => Receiver(c, [], lines', false)
    case Exited => Receiver(Clear, [], lines', true)
    case StartRc4(key) => Receiver(Keyed(key), [], lines', false)
  }

  function Feed(h: Handler, r: Receiver, wire: bv8): Receiver {
    if r.exited then r else
    var plain := Decipher(r.cipher, [wire])[0];
    var c := Advanced(r.cipher, 1);
    if IsEol(plain) then EndLine(h, c, r.tail, r.lines)
    else Receiver(c, r.tail + [plain], r.lines, false)
  }

  function FeedAll(h: Handler, r: Receiver, wire: seq<bv8>): Receiver
    decreases |wire|
  {
    if wire == [] then r else FeedAll(h, Feed(h, r, wire[0]), wire[1..])
  }

  lemma FeedNothing(h: Handler, r: Receiver)
    ensures FeedAll(h, r, []) == r
  {
  }

  lemma FeedFirst(h: Handler, r: Receiver, wire: seq<bv8>)
    requires wire != []
    ensures FeedAll(h, r, wire) == FeedAll(h, Feed(h, r, wire[0]), wire[1..])
  {
  }

  lemma {:induction false} FeedAllAppend(h: Handler, r: Receiver, a: seq<bv8>, b: seq<bv8>)
    ensures FeedAll(h, r, a + b) == FeedAll(h, FeedAll(h, r, a), b)
    decreases |a|
  {
    if a == [] {
      assert a + b == b;
    } else {
      assert (a + b)[1..] == a[1..] + b;
      FeedAllAppend(h, Feed(h, r, a[0]), a[1..], b);
    }
  }

  lemma {:induction false} ExitedStays(h: Handler, r: Receiver, wire: seq<bv8>)
    requires r.exited
    ensures FeedAll(h, r, wire) == r
    decreases |wire|
  {
    if wire != [] {
      ExitedStays(h, r, wire[1..]);
    }
  }

  /** A stretch without terminators only lengthens the tail. */
  lemma {:induction false} FeedStretch(h: Handler, r: Receiver, wire: seq<bv8>)
    requires !r.exited && NoEol(Decipher(r.cipher, wire))
    ensures FeedAll(h, r, wire) ==
            Receiver(Advanced(r.cipher, |wire|), r.tail + Decipher(r.cipher, wire), r.lines, false)
    decreases |wire|
  {
    hide FeedAll, Feed, Decipher, Advanced, NoEol;
    if wire == [] {
      FeedNothing(h, r);
      DecipherNothing(r.cipher);
      assert r.tail + [] == r.tail;
    } else {
      DecipherSplit(r.cipher, wire, 1);
      var plain := Decipher(r.cipher, wire);
      assert wire[..1] == [wire[0]];
      NoEolSplit(plain);
      FeedFirst(h, r, wire);
      FeedPlain(h, r, wire[0]);
      FeedStretch(h, Feed(h, r, wire[0]), wire[1..]);
      assert r.tail + plain[..1] + plain[1..] == r.tail + plain;
    }
  }

  lemma NoEolSplit(s: seq<bv8>)
    requires s != [] && NoEol(s)
    ensures !IsEol(s[0]) && NoEol(s[1..]) && s == s[..1] + s[1..]
  {
    assert forall i :: 0 <= i < |s[1..]| ==> s[1..][i] == s[i + 1];
  }

  lemma DecipherNothing(c: Cipher)
    ensures Decipher(c, []) == [] && Advanced(c, 0) == c
  {
  }

  lemma AdvancedSame(c: Cipher, n: nat)
    ensures Advanced(c, n).Keyed? <==> c.Keyed?
  {
  }

  /** One byte that is no terminator. */
  lemma FeedPlain(h: Handler, r: Receiver, wire: bv8)
    requires !r.exited && !IsEol(Decipher(r.cipher, [wire])[0])
    ensures Feed(h, r, wire) == Receiver(Advanced(r.cipher, 1), r.tail + Decipher(r.cipher, [wire]), r.lines, false)
  {
    hide Decipher, Advanced, EndLine;
    var plain := Decipher(r.cipher, [wire]);
    assert plain == [plain[0]];
  }

  /** The first terminator of a stream, at position `n`, ends the line begun in the tail. */
  lemma FeedLine(h: Handler, r: Receiver, wire: seq<bv8>, n: nat)
    requires !r.exited && n < |wire|
    requires NoEol(Decipher(r.cipher, wire)[..n]) && IsEol(Decipher(r.cipher, wire)[n])
    ensures FeedAll(h, r, wire) ==
            FeedAll(h, EndLine(h, Advanced(r.cipher, n + 1), r.tail + Decipher(r.cipher, wire)[..n], r.lines),
                    wire[n + 1..])
  {
    hide Rc4.Advance, Rc4.Crypt, Rc4.After;
    var plain, c := Decipher(r.cipher, wire), Advanced(r.cipher, n);
    DecipherSplit(r.cipher, wire, n);
    FeedStretch(h, r, wire[..n]);
    assert wire == wire[..n] + wire[n..];
    FeedAllAppend(h, r, wire[..n], wire[n..]);
    var rest := wire[n..];
    DecipherSplit(c, rest, 1);
    assert rest[..1] == [rest[0]] && rest[1..] == wire[n + 1..];
    assert Decipher(c, [rest[0]])[0] == plain[n];
    assert Advanced(c, 1) == Advanced(r.cipher, n + 1) by {
      if c.Keyed? { Rc4.AfterAdds(r.cipher.key, n, 1); }
    }
  }

  // ------------------------------------------------------------------------------------
  // The code
  // ------------------------------------------------------------------------------------

  class Link {
    const handler: Handler
    const readBuf: array<bv8>
    var cipher: Cipher
    var restbuf: array?<bv8>
    var waitlen: nat
    var lines: seq<Line>
    var exited: bool
    var receiveB: nat
    var receiveK: nat
    var receiveM: nat

    ghost predicate Valid()
      reads this
    {
      && readBuf.Length == READBUF_SIZE
      && (restbuf != null ==> restbuf.Length == 4 * READBUF_SIZE && restbuf != readBuf)
      && (waitlen > 0 ==> restbuf != null && waitlen <= restbuf.Length)
      && (exited ==> waitlen == 0 && cipher.Clear?)
      && receiveB < 1024
    }

    ghost function Held(): Line
      reads this, restbuf
      requires Valid()
    {
      if waitlen == 0 then [] else restbuf[..waitlen]
    }

    ghost function View(): Receiver
      reads this, restbuf
      requires Valid()
    {
      Receiver(cipher, Held(), lines, exited)
    }

    ghost function Bytes(): nat
      reads this
    {
      1024 * receiveK + receiveB
    }

    constructor (handler: Handler)
      ensures Valid() && View() == FRESH && Bytes() == 0 && this.handler == handler
      ensures restbuf == null && fresh(readBuf)
    {
      this.handler := handler;
      readBuf := new bv8[READBUF_SIZE];
      cipher, restbuf, waitlen, lines, exited := Clear, null, 0, [], false;
      receiveB, receiveK, receiveM := 0, 0, 0;
    }

    /** process_bytecount */
    method ProcessBytecount(length: nat)
      requires receiveB < 1024
      modifies this
      ensures receiveB < 1024 && Bytes() == old(Bytes()) + length && receiveM == old(receiveM) + 1
      ensures cipher == old(cipher) && restbuf == old(restbuf) && waitlen == old(waitlen)
      ensures lines == old(lines) && exited == old(exited)
    {
      receiveM := receiveM + 1;
      receiveB := receiveB + length;
      if receiveB > 1023 {
        receiveK := receiveK + receiveB / 1024;
        receiveB := receiveB % 1024;
      }
    }

    /** The bytes `all` are what the reference receiver still has in its tail or ahead of it. */
    ghost predicate Ahead(all: seq<bv8>, r: Receiver, left: seq<bv8>)
      reads this
    {
      && |all| == |r.tail| + |left|
      && all[..|r.tail|] == r.tail && all[|r.tail|..] == Decipher(r.cipher, left)
      && cipher == Advanced(r.cipher, |left|)
      && NoEol(r.tail) && lines == r.lines && exited == r.exited
    }

    /** What the outer loop of server_dopacket keeps: either bytes are ahead, or the work is done. */
    ghost predicate AtTurn(buf: array<bv8>, pos: nat, len: nat, r: Receiver, left: seq<bv8>)
      reads this, buf, restbuf
    {
      && Valid() && r.exited == exited
      && len <= 4 * READBUF_SIZE && pos + len <= buf.Length
      && (len > 0 ==> !exited && Ahead(buf[pos..pos + len], r, left))
      && (len == 0 ==> left == [] && View() == r && NoEol(r.tail))
    }

    /** The start of server_dopacket: new bytes are copied behind held ones, and all are counted. */
    method JoinHeld(buffer: array<bv8>, length: nat, ghost before: Cipher, ghost wire: seq<bv8>)
      returns (buf: array<bv8>, len: nat)
      requires Valid() && !exited && buffer != restbuf && NoEol(Held())
      requires length <= buffer.Length && waitlen + length <= 4 * READBUF_SIZE
      requires |wire| == length && buffer[..length] == Decipher(before, wire)
      requires cipher == Advanced(before, length)
      modifies this, restbuf
      ensures restbuf == old(restbuf) && buf == (if old(waitlen) > 0 then restbuf else buffer)
      ensures AtTurn(buf, 0, len, old(View()).(cipher := before), wire)
      ensures Bytes() == old(Bytes()) + old(waitlen) + length
    {
      buf, len := buffer, length;
      if waitlen > 0 {
        forall i | 0 <= i < length {
          restbuf[waitlen + i] := buffer[i];
        }
        buf, len := restbuf, length + waitlen;
        forall i | len <= i < restbuf.Length {
          restbuf[i] := 0;
        }
      }
      ghost var all := buf[0..len];
      assert all[..waitlen] == old(Held());
      assert all[waitlen..] == buffer[..length];
      ProcessBytecount(len);
    }

    /** restbuf_create and the move of an unterminated line into it. */
    method HoldTail(buf: array<bv8>, pos: nat, len: nat, ghost r: Receiver, ghost left: seq<bv8>)
      requires Valid() && waitlen == 0 && !exited && pos + len <= buf.Length && len <= 4 * READBUF_SIZE
      requires var all := buf[pos..pos + len]; Ahead(all, r, left) && NoEol(all)
      modifies this, restbuf
      ensures Valid() && NoEol(Held()) && View() == FeedAll(handler, r, left) && !exited
      ensures Bytes() == old(Bytes()) && (restbuf == old(restbuf) || fresh(restbuf))
    {
      hide FeedAll;
      FeedStretchHeld(handler, r, left, buf[pos..pos + len]);
      if restbuf == null {
        restbuf := new bv8[4 * READBUF_SIZE];
      }
      waitlen := len;
      forall i | 0 <= i < len {
        restbuf[i] := buf[pos + i];
      }
      assert Held() == old(buf[pos..pos + len]);
    }

    /** The inner loop of server_dopacket: `broken` says that no terminator was found. */
    method ScanLine(buf: array<bv8>, pos: nat, length: nat) returns (tmplen: nat, broken: bool)
      requires pos + length <= buf.Length
      ensures var all := buf[pos..pos + length];
              && tmplen <= length && NoEol(all[..tmplen])
              && (broken ==> tmplen == length && NoEol(all))
              && (!broken ==> tmplen < length && IsEol(all[tmplen]))
    {
      tmplen, broken := 0, true;
      ghost var all := buf[pos..pos + length];
      var len := length;
      while len > 0
        invariant len == length - tmplen && 0 <= tmplen <= length
        invariant NoEol(all[..tmplen]) && broken
      {
        var t := buf[pos + tmplen];
        assert t == all[tmplen];
        len := len - 1;
        if IsEol(t) {
          broken := false;
          break;
        }
        assert all[..tmplen + 1] == all[..tmplen] + [t];
        tmplen := tmplen + 1;
      }
      assert broken ==> all[..tmplen] == all;
    }

    /**
     Hands over a line and acts on the answer. The `len` bytes from `next` on are `left` as seen
     through `key`; afterwards they are `left` as seen through the cipher that the reference
     receiver has at that point.
     */
    method HandOver(line: Line, buf: array<bv8>, next: nat, len: nat, ghost key: Cipher, ghost left: seq<bv8>)
      requires Valid() && NeverRekeys(handler) && !exited && waitlen == 0
      requires line != [] && next + len <= buf.Length
      requires Ahead(buf[next..next + len], Receiver(key, [], lines, false), left)
      modifies this, buf
      ensures Valid() && waitlen == 0 && restbuf == old(restbuf) && Bytes() == old(Bytes())
      ensures var r := EndLine(handler, key, line, old(lines));
              && lines == r.lines && exited == r.exited
              && (exited ==> cipher == r.cipher)
              && (!exited ==> Ahead(buf[next..next + len], r, left))
    {
      lines := lines + [line];
      match handler(cipher.Keyed?, lines) {
        case Proceed =>
        case Exited =>
          exited, cipher := true, Clear;
        case StartRc4(k) =>
          cipher := Keyed(k);
          if len > 0 {
            var k' := Rc4.ProcessStream(k, buf, next, len);
            cipher := Keyed(k');
          }
      }
    }

    /** One turn of the outer loop of server_dopacket when a terminator is found. */
    method TakeLine(buf: array<bv8>, pos: nat, len: nat, tmplen: nat,
                    ghost all: seq<bv8>, ghost r: Receiver, ghost left: seq<bv8>)
      returns (next: nat, len': nat, ghost r': Receiver, ghost left': seq<bv8>)
      requires Valid() && NeverRekeys(handler) && !exited && waitlen == 0
      requires pos + len <= buf.Length && all == buf[pos..pos + len] && Ahead(all, r, left)
      requires tmplen < len && NoEol(all[..tmplen]) && IsEol(all[tmplen])
      modifies this, buf
      ensures Valid() && waitlen == 0 && restbuf == old(restbuf) && Bytes() == old(Bytes())
      ensures FeedAll(handler, r', left') == FeedAll(handler, r, left)
      ensures lines == r'.lines && exited == r'.exited && r'.tail == []
      ensures len' < len && next + len' == pos + len
      ensures exited ==> cipher == r'.cipher
      ensures !exited ==> Ahead(buf[next..next + len'], r', left')
    {
      hide Rc4.Advance, Rc4.Crypt, Rc4.After, FeedAll;
      var line := buf[pos..pos + tmplen];
      next, len' := pos + tmplen + 1, len - tmplen - 1;
      assert line == all[..tmplen];
      ghost var key;
      key, r', left' := FeedFirstLine(handler, r, left, all, tmplen);
      buf[pos + tmplen] := 0;
      assert buf[next..next + len'] == all[tmplen + 1..];
      if tmplen > 0 {
        HandOver(line, buf, next, len', key, left');
      }
    }

    /** One turn of the outer loop of server_dopacket. An exit leaves nothing to do. */
    method Turn(buf: array<bv8>, pos: nat, len: nat, ghost r: Receiver, ghost left: seq<bv8>)
      returns (next: nat, len': nat, ghost r': Receiver, ghost left': seq<bv8>)
      requires NeverRekeys(handler) && len > 0 && AtTurn(buf, pos, len, r, left)
      modifies this, buf, restbuf
      ensures len' < len && AtTurn(buf, next, len', r', left')
      ensures FeedAll(handler, r', left') == FeedAll(handler, r, left)
      ensures Bytes() == old(Bytes()) && (restbuf == old(restbuf) || (fresh(restbuf) && len' == 0))
    {
      hide FeedAll, Rc4.Crypt, Rc4.Advance;
      waitlen := 0;
      var tmplen, broken := ScanLine(buf, pos, len);
      if broken {
        HoldTail(buf, pos, tmplen, r, left);
        next, len', r', left' := pos, 0, View(), [];
        FeedNothing(handler, r');
      } else {
        next, len', r', left' := TakeLine(buf, pos, len, tmplen, buf[pos..pos + len], r, left);
        if exited {
          ExitedStays(handler, r', left');
          len', left' := 0, [];
          FeedNothing(handler, r');
        }
      }
    }

    /** The outer loop of server_dopacket. */
    method ParseBuffer(buf: array<bv8>, length: nat, ghost r: Receiver, ghost left: seq<bv8>)
      requires NeverRekeys(handler) && AtTurn(buf, 0, length, r, left)
      modifies this, buf, restbuf
      ensures Valid() && NoEol(Held()) && View() == FeedAll(handler, r, left)
      ensures Bytes() == old(Bytes()) && (restbuf == old(restbuf) || fresh(restbuf))
    {
      hide FeedAll, Rc4.Crypt, Rc4.Advance;
      var pos, len: nat := 0, length;
      ghost var r', left', target := r, left, FeedAll(handler, r, left);
      while len > 0
        invariant 0 <= pos && AtTurn(buf, pos, len, r', left')
        invariant FeedAll(handler, r', left') == target && Bytes() == old(Bytes())
        invariant restbuf == old(restbuf) || (fresh(restbuf) && len == 0)
      {
        pos, len, r', left' := Turn(buf, pos, len, r', left');
      }
      FeedNothing(handler, r');
    }

    /**
     server_dopacket. The caller has already deciphered the bytes in `buffer`: `wire` is what
     was received and `before` is the cipher that its first byte met.
     */
    method ServerDopacket(buffer: array<bv8>, length: nat, ghost before: Cipher, ghost wire: seq<bv8>)
      requires Valid() && NeverRekeys(handler) && !exited
      requires buffer != restbuf && length <= buffer.Length && waitlen + length <= 4 * READBUF_SIZE
      requires NoEol(Held())
      requires |wire| == length && buffer[..length] == Decipher(before, wire)
      requires cipher == Advanced(before, length)
      modifies this, buffer, restbuf
      ensures Valid() && NoEol(Held())
      ensures View() == FeedAll(handler, old(View()).(cipher := before), wire)
      ensures Bytes() == old(Bytes()) + old(waitlen) + length
      ensures restbuf == old(restbuf) || fresh(restbuf)
    {
      hide FeedAll;
      ghost var r := View().(cipher := before);
      var buf, len := JoinHeld(buffer, length, before, wire);
      ParseBuffer(buf, len, r, wire);
    }

    /** A keyed link deciphers the whole chunk. */
    method DecipherChunk(buffer: array<bv8>, length: nat)
      requires Valid() && !exited && buffer != restbuf && length <= buffer.Length
      modifies this`cipher, buffer
      ensures Valid() && Held() == old(Held())
      ensures cipher == Advanced(old(cipher), length) && buffer[..length] == Decipher(old(cipher), old(buffer[..length]))
    {
      hide Rc4.Crypt, Rc4.After;
      assert buffer[0..length] == buffer[..length];
      if cipher.Keyed? {
        var k := Rc4.ProcessStream(cipher.key, buffer, 0, length);
        cipher := Keyed(k);
        assert buffer[0..length] == buffer[..length];
      }
    }

    /** binary_dopacket on a link that is not compressed. */
    method BinaryDopacket(buffer: array<bv8>, length: nat)
      requires Valid() && NeverRekeys(handler) && !exited && NoEol(Held())
      requires buffer != restbuf && length <= buffer.Length && waitlen + length <= 4 * READBUF_SIZE
      modifies this, buffer, restbuf
      ensures Valid() && NoEol(Held())
      ensures View() == FeedAll(handler, old(View()), old(buffer[..length]))
      ensures Bytes() == old(Bytes()) + old(waitlen) + length
      ensures restbuf == old(restbuf) || fresh(restbuf)
    {
      hide FeedAll, Advanced, Decipher, NoEol;
      ghost var before, wire := cipher, buffer[..length];
      DecipherChunk(buffer, length);
      ServerDopacket(buffer, length, before, wire);
    }

    /** read_server_packet, when read() has returned `chunk`. A dead link is not read. */
    method ReadServerPacket(chunk: seq<bv8>)
      requires Valid() && NeverRekeys(handler) && NoEol(Held())
      requires 0 < |chunk| <= READBUF_SIZE && waitlen <= 3 * READBUF_SIZE
      modifies this, readBuf, restbuf
      ensures Valid() && NoEol(Held())
      ensures View() == FeedAll(handler, old(View()), chunk)
      ensures Bytes() == old(Bytes()) + if old(exited) then 0 else old(waitlen) + |chunk|
      ensures restbuf == old(restbuf) || fresh(restbuf)
    {
      hide FeedAll;
      if exited {
        ExitedStays(handler, View(), chunk);
        return;
      }
      forall i | 0 <= i < |chunk| {
        readBuf[i] := chunk[i];
      }
      assert readBuf[..|chunk|] == chunk;
      BinaryDopacket(readBuf, |chunk|);
    }

    /**
     Any run of the link: the chunks may cut the stream anywhere, the outcome is that of the
     reference receiver on the uncut stream.
     */
    method ReceiveChunks(chunks: seq<seq<bv8>>)
      requires Valid() && NeverRekeys(handler) && NoEol(Held())
      requires forall i :: 0 <= i < |chunks| ==> 0 < |chunks[i]| <= READBUF_SIZE
      requires TailsFit(handler, View(), chunks)
      modifies this, readBuf, restbuf
      ensures Valid() && NoEol(Held())
      ensures View() == FeedAll(handler, old(View()), Flatten(chunks))
      ensures Bytes() == old(Bytes()) + Counted(handler, old(View()), chunks)
    {
      hide FeedAll;
      var i := 0;
      ghost var r := View();
      FeedNothing(handler, r);
      while i < |chunks|
        invariant 0 <= i <= |chunks|
        invariant Valid() && NoEol(Held())
        invariant restbuf == old(restbuf) || fresh(restbuf)
        invariant View() == FeedAll(handler, r, Flatten(chunks[..i]))
        invariant Bytes() == old(Bytes()) + Counted(handler, r, chunks[..i])
      {
        ChunkStep(handler, r, chunks, i);
        ReadServerPacket(chunks[i]);
        i := i + 1;
      }
      assert chunks[..i] == chunks;
    }
  }

  function Flatten(chunks: seq<seq<bv8>>): seq<bv8>
    decreases |chunks|
  {
    if chunks == [] then [] else
    var n := |chunks| - 1;
    Flatten(chunks[..n]) + chunks[n]
  }

  lemma ChunkStep(h: Handler, r: Receiver, chunks: seq<seq<bv8>>, i: nat)
    requires i < |chunks| && TailsFit(h, r, chunks)
    ensures var before := FeedAll(h, r, Flatten(chunks[..i]));
            && |before.tail| <= 3 * READBUF_SIZE
            && FeedAll(h, r, Flatten(chunks[..i + 1])) == FeedAll(h, before, chunks[i])
            && Counted(h, r, chunks[..i + 1]) ==
               Counted(h, r, chunks[..i]) + if before.exited then 0 else |before.tail| + |chunks[i]|
  {
    assert chunks[..i + 1][..i] == chunks[..i];
    FeedAllAppend(h, r, Flatten(chunks[..i]), chunks[i]);
  }

  /** No line outgrows what the link may hold back: three read buffers. */
  ghost predicate TailsFit(h: Handler, r: Receiver, chunks: seq<seq<bv8>>) {
    forall i :: 0 <= i <= |chunks| ==> |FeedAll(h, r, Flatten(chunks[..i])).tail| <= 3 * READBUF_SIZE
  }

  /** The bytes that process_bytecount adds up: what is held back is counted again. */
  ghost function Counted(h: Handler, r: Receiver, chunks: seq<seq<bv8>>): nat
    decreases |chunks|
  {
    if chunks == [] then 0 else
    var n := |chunks| - 1;
    var before := FeedAll(h, r, Flatten(chunks[..n]));
    Counted(h, r, chunks[..n]) + if before.exited then 0 else |before.tail| + |chunks[n]|
  }

  /**
   A buffer that holds `r.tail` and then `left`, deciphered, has its first terminator at `n`:
   the line before it is handed over and the rest of `left` is still to come.
   */
  lemma FeedFirstLine(h: Handler, r: Receiver, left: seq<bv8>, all: seq<bv8>, n: nat)
    returns (key: Cipher, r': Receiver, left': seq<bv8>)
    requires !r.exited && NoEol(r.tail) && |all| == |r.tail| + |left|
    requires all[..|r.tail|] == r.tail && all[|r.tail|..] == Decipher(r.cipher, left)
    requires n < |all| && NoEol(all[..n]) && IsEol(all[n])
    ensures r' == EndLine(h, key, all[..n], r.lines) && r'.tail == []
    ensures |left'| == |all| - n - 1 && all[n + 1..] == Decipher(key, left')
    ensures FeedAll(h, r, left) == FeedAll(h, r', left')
    ensures Advanced(r.cipher, |left|) == Advanced(key, |left'|)
  {
    hide FeedAll, Decipher, Advanced;
    assert all == r.tail + all[|r.tail|..];
    LineEnds(r.tail, all[|r.tail|..], n);
    var k := n - |r.tail|;
    FeedLine(h, r, left, k);
    DecipherSplit(r.cipher, left, k + 1);
    key, left' := Advanced(r.cipher, k + 1), left[k + 1..];
    r' := EndLine(h, key, all[..n], r.lines);
  }

  /** The first terminator of a held stretch and its continuation lies in the continuation. */
  lemma LineEnds(held: seq<bv8>, more: seq<bv8>, n: nat)
    requires NoEol(held) && n < |held| + |more|
    requires NoEol((held + more)[..n]) && IsEol((held + more)[n])
    ensures |held| <= n
    ensures NoEol(more[..n - |held|]) && IsEol(more[n - |held|])
    ensures (held + more)[..n] == held + more[..n - |held|]
    ensures (held + more)[n + 1..] == more[n - |held| + 1..]
  {
    var all := held + more;
    forall i | 0 <= i < n - |held| ensures !IsEol(more[i]) {
      assert more[i] == all[..n][|held| + i];
    }
  }

  /** When no terminator is left, everything becomes the tail. */
  lemma FeedStretchHeld(h: Handler, r: Receiver, left: seq<bv8>, all: seq<bv8>)
    requires !r.exited && |all| == |r.tail| + |left| && NoEol(all)
    requires all[..|r.tail|] == r.tail && all[|r.tail|..] == Decipher(r.cipher, left)
    ensures FeedAll(h, r, left) == Receiver(Advanced(r.cipher, |left|), all, r.lines, false)
  {
    var plain := Decipher(r.cipher, left);
    assert forall i :: 0 <= i < |plain| ==> plain[i] == all[|r.tail| + i];
    FeedStretch(h, r, left);
    assert all == r.tail + plain;
  }

  // ------------------------------------------------------------------------------------
  // What the reference receiver delivers
  // ------------------------------------------------------------------------------------

  /** What follows the last terminator of a plain stream. */
  function Tail(s: seq<bv8>): Line
    decreases |s|
  {
    if s == [] then [] else
    var n := |s| - 1;
    if IsEol(s[n]) then [] else Tail(s[..n]) + [s[n]]
  }

  /** The lines of a plain stream. */
  function Lines(s: seq<bv8>): seq<Line>
    decreases |s|
  {
    if s == [] then [] else
    var n := |s| - 1;
    if IsEol(s[n]) && Tail(s[..n]) != [] then Lines(s[..n]) + [Tail(s[..n])] else Lines(s[..n])
  }

  lemma FrameNothing()
    ensures Lines([]) == [] && Tail([]) == []
  {
  }

  lemma FrameByte(s: seq<bv8>, b: bv8)
    ensures Tail(s + [b]) == if IsEol(b) then [] else Tail(s) + [b]
    ensures Lines(s + [b]) == if IsEol(b) && Tail(s) != [] then Lines(s) + [Tail(s)] else Lines(s)
  {
    assert (s + [b])[..|s|] == s;
  }

  /** A maximal stretch s[i..j] without terminators that a terminator ends. */
  ghost predicate IsRun(s: seq<bv8>, i: nat, j: nat) {
    i < j < |s| && NoEol(s[i..j]) && IsEol(s[j]) && AtStart(s, i)
  }

  /** The terminators are the bytes 10 and 13, wherever they stand. */
  lemma Terminators(s: seq<bv8>, i: nat, j: nat)
    ensures IsRun(s, i, j) <==>
            && i < j < |s| && (s[j] == 10 || s[j] == 13) && (i > 0 ==> s[i - 1] == 10 || s[i - 1] == 13)
            && forall k :: i <= k < j ==> s[k] != 10 && s[k] != 13
  {
    if i < j < |s| {
      assert forall k :: i <= k < j ==> s[i..j][k - i] == s[k];
    }
  }

  /** Position `i` follows a terminator or nothing. */
  ghost predicate AtStart(s: seq<bv8>, i: nat) {
    i <= |s| && (i > 0 ==> IsEol(s[i - 1]))
  }

  /** The tail is the stretch of the stream behind its last terminator. */
  lemma {:induction false} TailSpan(s: seq<bv8>)
    ensures |Tail(s)| <= |s| && NoEol(Tail(s))
    ensures AtStart(s, |s| - |Tail(s)|) && s[|s| - |Tail(s)|..] == Tail(s)
    decreases |s|
  {
    hide Tail, IsEol, NoEol;
    FrameNothing();
    NoEolMore([], LF);
    if s != [] {
      var n := |s| - 1;
      var front := s[..n];
      TailSpan(front);
      assert s == front + [s[n]];
      FrameByte(front, s[n]);
      if !IsEol(s[n]) {
        NoEolMore(Tail(front), s[n]);
        var i := n - |Tail(front)|;
        assert s[i..] == front[i..] + [s[n]];
      }
    }
  }

  lemma NoEolMore(s: seq<bv8>, b: bv8)
    ensures NoEol([]) && (NoEol(s) && !IsEol(b) ==> NoEol(s + [b]))
  {
  }

  lemma {:induction false} LinesPrefix(a: seq<bv8>, b: seq<bv8>)
    ensures Lines(a) <= Lines(a + b)
    decreases |b|
  {
    hide Lines, Tail;
    if b == [] {
      assert a + b == a;
    } else {
      var n := |b| - 1;
      LinesPrefix(a, b[..n]);
      assert a + b == (a + b[..n]) + [b[n]];
      FrameByte(a + b[..n], b[n]);
    }
  }

  lemma AtStartTail(a: seq<bv8>)
    requires AtStart(a, |a|)
    ensures Tail(a) == []
  {
  }

  /** A stream whose last byte is a terminator can be framed apart from what follows. */
  lemma {:induction false} FramesAppend(a: seq<bv8>, b: seq<bv8>)
    requires AtStart(a, |a|)
    ensures Lines(a + b) == Lines(a) + Lines(b) && Tail(a + b) == Tail(b)
    decreases |b|
  {
    hide Lines, Tail;
    FrameNothing();
    if b == [] {
      assert a + b == a;
      AtStartTail(a);
    } else {
      var n := |b| - 1;
      FramesAppend(a, b[..n]);
      assert a + b == (a + b[..n]) + [b[n]] && b == b[..n] + [b[n]];
      FrameByte(a + b[..n], b[n]);
      FrameByte(b[..n], b[n]);
    }
  }

  lemma {:induction false} NoEolIsTail(s: seq<bv8>)
    requires NoEol(s)
    ensures Tail(s) == s && Lines(s) == []
    decreases |s|
  {
    if s != [] {
      var n := |s| - 1;
      NoEolIsTail(s[..n]);
      assert s == s[..n] + [s[n]];
    }
  }

  lemma LinesBeforeTail(p: seq<bv8>, t: seq<bv8>)
    requires AtStart(p, |p|) && NoEol(t)
    ensures Lines(p + t) == Lines(p)
  {
    NoEolIsTail(t);
    FramesAppend(p, t);
  }

  /** Every run of the stream is delivered, after exactly the lines that end before it. */
  lemma RunIsLine(s: seq<bv8>, i: nat, j: nat)
    requires IsRun(s, i, j)
    ensures |Lines(s[..i])| < |Lines(s)| && Lines(s)[|Lines(s[..i])|] == s[i..j]
  {
    hide Lines, Tail, NoEol, IsEol;
    assert s[..j + 1] == s[..i] + (s[i..j] + [s[j]]);
    NoEolIsTail(s[i..j]);
    FrameByte(s[i..j], s[j]);
    FramesAppend(s[..i], s[i..j] + [s[j]]);
    assert s == s[..j + 1] + s[j + 1..];
    LinesPrefix(s[..j + 1], s[j + 1..]);
  }

  lemma RunStays(a: seq<bv8>, b: bv8, i: nat, j: nat)
    requires IsRun(a, i, j)
    ensures IsRun(a + [b], i, j) && (a + [b])[i..j] == a[i..j] && (a + [b])[..i] == a[..i]
  {
    assert (a + [b])[i..j] == a[i..j];
  }

  /** Every delivered line is a run of the stream. */
  lemma {:induction false} LineIsRun(s: seq<bv8>, m: nat) returns (i: nat, j: nat)
    requires m < |Lines(s)|
    ensures IsRun(s, i, j) && |Lines(s[..i])| == m && Lines(s)[m] == s[i..j]
    decreases |s|
  {
    hide Lines, Tail;
    FrameNothing();
    j := |s| - 1;
    var a := s[..j];
    assert s == a + [s[j]];
    FrameByte(a, s[j]);
    if m < |Lines(a)| {
      i, j := LineIsRun(a, m);
      RunStays(a, s[|s| - 1], i, j);
    } else {
      TailSpan(a);
      i := |a| - |Tail(a)|;
      LinesBeforeTail(a[..i], a[i..]);
      assert a == a[..i] + a[i..];
      assert s[i..j] == a[i..] && s[..i] == a[..i];
    }
  }

  /** The handler lets every line of `more` pass, on a link that is keyed or not. */
  ghost predicate Passes(h: Handler, keyed: bool, lines: seq<Line>, more: seq<Line>) {
    forall i :: 0 < i <= |more| ==> h(keyed, lines + more[..i]).Proceed?
  }

  lemma PassesPrefix(h: Handler, keyed: bool, lines: seq<Line>, few: seq<Line>, more: seq<Line>)
    requires Passes(h, keyed, lines, more) && few <= more
    ensures Passes(h, keyed, lines, few)
  {
    assert forall i :: 0 < i <= |few| ==> few[..i] == more[..i];
  }

  lemma FeedLast(h: Handler, r: Receiver, wire: seq<bv8>, last: bv8)
    ensures FeedAll(h, r, wire + [last]) == Feed(h, FeedAll(h, r, wire), last)
  {
    FeedAllAppend(h, r, wire, [last]);
    assert [last][1..] == [];
  }

  lemma DecipherLast(c: Cipher, wire: seq<bv8>, last: bv8)
    ensures Decipher(c, wire + [last]) == Decipher(c, wire) + Decipher(Advanced(c, |wire|), [last])
    ensures Advanced(Advanced(c, |wire|), 1) == Advanced(c, |wire| + 1)
  {
    if c.Keyed? {
      Rc4.CryptAppend(c.key, wire, [last]);
      Rc4.AfterAdds(c.key, |wire|, 1);
    }
  }

  lemma FeedFramed(h: Handler, c: Cipher, lines: seq<Line>, p: seq<bv8>, w: bv8)
    requires Passes(h, c.Keyed?, lines, Lines(p + Decipher(c, [w])))
    ensures var plain := p + Decipher(c, [w]);
            Feed(h, Receiver(c, Tail(p), lines + Lines(p), false), w) ==
            Receiver(Advanced(c, 1), Tail(plain), lines + Lines(plain), false)
  {
    var b := Decipher(c, [w])[0];
    assert Decipher(c, [w]) == [b];
    FrameByte(p, b);
    if IsEol(b) && Tail(p) != [] {
      var ls := Lines(p + [b]);
      assert ls[..|ls|] == ls;
      assert lines + Lines(p) + [Tail(p)] == lines + ls;
    }
  }

  /** While the handler lets lines pass, delivery is the framing of the deciphered stream. */
  lemma {:induction false} FeedIsFraming(h: Handler, r: Receiver, wire: seq<bv8>)
    requires !r.exited && r.tail == []
    requires Passes(h, r.cipher.Keyed?, r.lines, Lines(Decipher(r.cipher, wire)))
    ensures var plain := Decipher(r.cipher, wire);
            FeedAll(h, r, wire) ==
            Receiver(Advanced(r.cipher, |wire|), Tail(plain), r.lines + Lines(plain), false)
    decreases |wire|
  {
    hide FeedAll, Feed, Lines, Tail, Decipher, Advanced, Passes;
    if wire == [] {
      FeedNothing(h, r);
      DecipherNothing(r.cipher);
      FrameNothing();
      assert r.lines + [] == r.lines;
    } else {
      var n := |wire| - 1;
      AdvancedSame(r.cipher, n);
      var p, c, last := Decipher(r.cipher, wire[..n]), Advanced(r.cipher, n), wire[n];
      assert wire == wire[..n] + [last];
      DecipherLast(r.cipher, wire[..n], last);
      LinesPrefix(p, Decipher(c, [last]));
      PassesPrefix(h, r.cipher.Keyed?, r.lines, Lines(p), Lines(p + Decipher(c, [last])));
      FeedIsFraming(h, r, wire[..n]);
      FeedLast(h, r, wire[..n], last);
      FeedFramed(h, c, r.lines, p, last);
    }
  }

  /**
   The cipher switch. The stream is clear up to and including the terminator of the line
   `Tail(clear)`, at which the handler keys the link; `wire` is what follows, and it is framed
   as the deciphered stream that starts with the first key byte.
   */
  lemma SwitchIsFraming(h: Handler, clear: seq<bv8>, eol: bv8, key: Rc4.State, wire: seq<bv8>)
    requires Passes(h, false, [], Lines(clear)) && Tail(clear) != [] && IsEol(eol)
    requires h(false, Lines(clear) + [Tail(clear)]) == StartRc4(key)
    requires Passes(h, true, Lines(clear) + [Tail(clear)], Lines(Rc4.Crypt(key, wire)))
    ensures var plain := Rc4.Crypt(key, wire);
            FeedAll(h, FRESH, clear + [eol] + wire) ==
            Receiver(Keyed(Rc4.After(key, |wire|)), Tail(plain), Lines(clear) + [Tail(clear)] + Lines(plain), false)
  {
    FeedAllAppend(h, FRESH, clear + [eol], wire);
    FeedAllAppend(h, FRESH, clear, [eol]);
    FeedIsFraming(h, FRESH, clear);
    assert [] + Lines(clear) == Lines(clear);
    var ls := Lines(clear) + [Tail(clear)];
    assert FeedAll(h, FRESH, clear + [eol]) == Receiver(Keyed(key), [], ls, false);
    FeedIsFraming(h, Receiver(Keyed(key), [], ls, false), wire);
  }

  /**
   The end of a link, keyed or not. The handler answers CLIENT_EXITED at the line `Tail(clear)`:
   that line is the last, whatever follows in the same chunk or later, and nothing is held back.
   */
  lemma ExitIsFraming(h: Handler, r: Receiver, first: seq<bv8>, last: bv8, wire: seq<bv8>)
    requires !r.exited && r.tail == []
    requires var clear := Decipher(r.cipher, first);
             && Passes(h, r.cipher.Keyed?, r.lines, Lines(clear)) && Tail(clear) != []
             && IsEol(Decipher(Advanced(r.cipher, |first|), [last])[0])
             && h(r.cipher.Keyed?, r.lines + Lines(clear) + [Tail(clear)]) == Exited
    ensures var r', clear := FeedAll(h, r, first + [last] + wire), Decipher(r.cipher, first);
            r'.exited && r'.tail == [] && r'.cipher == Clear && r'.lines == r.lines + Lines(clear) + [Tail(clear)]
  {
    hide FeedAll, Lines, Tail, Passes, Decipher, Advanced;
    var clear := Decipher(r.cipher, first);
    FeedAllAppend(h, r, first + [last], wire);
    FeedLast(h, r, first, last);
    FeedIsFraming(h, r, first);
    AdvancedSame(r.cipher, |first|);
    AdvancedSame(Advanced(r.cipher, |first|), 1);
    ExitedStays(h, FeedAll(h, r, first + [last]), wire);
  }

  /** The same on a link that is not keyed: the bytes are those of the lines. */
  lemma ClearExit(h: Handler, clear: seq<bv8>, eol: bv8, wire: seq<bv8>)
    requires Passes(h, false, [], Lines(clear)) && Tail(clear) != [] && IsEol(eol)
    requires h(false, Lines(clear) + [Tail(clear)]) == Exited
    ensures FeedAll(h, FRESH, clear + [eol] + wire) == Receiver(Clear, [], Lines(clear) + [Tail(clear)], true)
  {
    hide FeedAll, Lines, Tail, Passes;
    assert [] + Lines(clear) == Lines(clear);
    ExitIsFraming(h, FRESH, clear, eol, wire);
  }

  /** And on a keyed link that has delivered `lines`: the bytes are enciphered. */
  lemma KeyedExit(h: Handler, key: Rc4.State, lines: seq<Line>, plain: seq<bv8>, eol: bv8, wire: seq<bv8>)
    requires Passes(h, true, lines, Lines(plain)) && Tail(plain) != [] && IsEol(eol)
    requires h(true, lines + Lines(plain) + [Tail(plain)]) == Exited
    ensures FeedAll(h, Receiver(Keyed(key), [], lines, false), Rc4.Crypt(key, plain + [eol]) + wire) ==
            Receiver(Clear, [], lines + Lines(plain) + [Tail(plain)], true)
  {
    hide FeedAll, Lines, Tail, Passes, Rc4.Crypt, Rc4.After;
    var r := Receiver(Keyed(key), [], lines, false);
    var first, last := Rc4.Crypt(key, plain), Rc4.Crypt(Rc4.After(key, |plain|), [eol]);
    Rc4.CryptAppend(key, plain, [eol]);
    Rc4.CryptRoundTrip(key, plain);
    Rc4.CryptRoundTrip(Rc4.After(key, |plain|), [eol]);
    assert last == [last[0]];
    ExitIsFraming(h, r, first, last[0], wire);
  }

  /** The code: from such an exit on, no chunk delivers anything, and all that came before it was delivered. */
  method ReceiveExit(h: Handler, clear: seq<bv8>, eol: bv8, wire: seq<bv8>, chunks: seq<seq<bv8>>) returns (link: Link)
    requires NeverRekeys(h) && Passes(h, false, [], Lines(clear)) && Tail(clear) != [] && IsEol(eol)
    requires h(false, Lines(clear) + [Tail(clear)]) == Exited
    requires forall n :: 0 <= n <= |clear| ==> |Tail(clear[..n])| <= 3 * READBUF_SIZE
    requires Flatten(chunks) == clear + [eol] + wire
    requires forall i :: 0 <= i < |chunks| ==> 0 < |chunks[i]| <= READBUF_SIZE
    ensures link.Valid() && link.exited && link.lines == Lines(clear) + [Tail(clear)] && link.waitlen == 0
  {
    hide FeedAll, Passes, Lines, Tail;
    link := new Link(h);
    forall i | 0 <= i <= |chunks| ensures |FeedAll(h, FRESH, Flatten(chunks[..i])).tail| <= 3 * READBUF_SIZE {
      FlattenPrefix(chunks, i);
      var n, all := |Flatten(chunks[..i])|, clear + [eol] + wire;
      assert all[..n] == Flatten(chunks[..i]);
      if n <= |clear| {
        assert all[..n] == clear[..n];
        ClearTail(h, clear, n);
      } else {
        assert all[..n] == clear + [eol] + wire[..n - |clear| - 1];
        ClearExit(h, clear, eol, wire[..n - |clear| - 1]);
      }
    }
    ClearExit(h, clear, eol, wire);
    link.ReceiveChunks(chunks);
  }

  // ------------------------------------------------------------------------------------
  // From one server of the network to the next
  // ------------------------------------------------------------------------------------

  const NUL: bv8 := 0

  /** The longest line that send_message leaves; with its LF it is 512 bytes, as section 2.3 of RFC 1459 allows. */
  const MAXLINE: nat := 511

  predicate IsChopped(b: bv8) {
    b == CR || b == LF || b == NUL
  }

  /** A message without what send_message chops off its end. */
  function Chopped(msg: Line): (line: Line)
    ensures line <= msg && (line != [] ==> !IsChopped(line[|line| - 1]))
    decreases |msg|
  {
    if msg != [] && IsChopped(msg[|msg| - 1]) then Chopped(msg[..|msg| - 1]) else msg
  }

  /** The line that goes out for a message: chopped, and cropped if it is too long. */
  function Wired(msg: Line): (line: Line)
    ensures line <= msg && |line| <= MAXLINE
  {
    var line := Chopped(msg);
    if |line| > MAXLINE then line[..MAXLINE] else line
  }

  /** A message is cut behind its last byte that is none of 0, 10 and 13, or to 511 bytes if that leaves more. */
  lemma {:induction false} WiredIs(msg: Line)
    ensures var line := Wired(msg);
            && |line| <= 511 && line <= msg
            && (|line| < 511 ==> (line != [] ==> line[|line| - 1] !in [0, 10, 13]) && forall k :: |line| <= k < |msg| ==> msg[k] in [0, 10, 13])
            && (|line| == 511 ==> exists k :: 510 <= k < |msg| && msg[k] !in [0, 10, 13])
  {
    ChoppedIs(msg);
    var line := Chopped(msg);
    if |line| > 510 {
      assert line[|line| - 1] == msg[|line| - 1];
    }
  }

  lemma {:induction false} ChoppedIs(msg: Line)
    ensures Chopped(msg) <= msg && forall k :: |Chopped(msg)| <= k < |msg| ==> msg[k] in [0, 10, 13]
    ensures Chopped(msg) != [] ==> Chopped(msg)[|Chopped(msg)| - 1] !in [0, 10, 13]
    decreases |msg|
  {
    if msg != [] && IsChopped(msg[|msg| - 1]) {
      ChoppedIs(msg[..|msg| - 1]);
    }
  }

  /** A message arrives as it is exactly if nothing is chopped off and it is not too long. */
  lemma WiredExactIff(msg: Line)
    ensures Wired(msg) == msg <==> |msg| <= 511 && (msg != [] ==> msg[|msg| - 1] !in [0, 10, 13])
  {
    if msg != [] && IsChopped(msg[|msg| - 1]) {
      assert |Chopped(msg)| < |msg|;
    }
  }

  function Wires(msgs: seq<Line>): (lines: seq<Line>)
    ensures |lines| == |msgs| && forall i :: 0 <= i < |msgs| ==> lines[i] == Wired(msgs[i])
  {
    seq(|msgs|, i requires 0 <= i < |msgs| => Wired(msgs[i]))
  }

  lemma WiresAppend(a: seq<Line>, b: seq<Line>)
    ensures Wires(a + b) == Wires(a) + Wires(b)
  {
  }

  /** The loop of send_message that chops: `len` is left at the last byte of the line. */
  method ChopEnd(buf: array<bv8>, length: nat) returns (len: nat)
    requires length < buf.Length && buf[length] == NUL && Chopped(buf[..length]) != []
    ensures len < length && Chopped(buf[..length]) == buf[..len + 1]
  {
    ghost var msg := buf[..length];
    len := length;
    assert msg[..length] == msg;
    while IsChopped(buf[len])
      invariant 0 <= len <= length
      invariant Chopped(msg[..if len == length then len else len + 1]) == Chopped(msg)
      decreases len
    {
      if len < length {
        assert msg[..len + 1][..len] == msg[..len] && msg[len] == buf[len];
      }
      len := len - 1;
    }
    assert msg[..len + 1] == buf[..len + 1];
  }

  /** send_message on a server link: the line with a single LF, for a message that is not all chopped. */
  method SendMessage(buf: array<bv8>, length: nat) returns (len: nat)
    requires length + 2 <= buf.Length && buf[length] == NUL && Chopped(buf[..length]) != []
    modifies buf
    ensures len < buf.Length && buf[..len] == Wired(old(buf[..length])) + [LF] && buf[len] == NUL
  {
    hide Chopped;
    len := ChopEnd(buf, length);
    ghost var line := buf[..len + 1];
    if len > 510 {
      len := 510;
    }
    assert Wired(old(buf[..length])) == line[..len + 1] == buf[..len + 1];
    len := len + 1;
    buf[len] := LF;
    len := len + 1;
    buf[len] := NUL;
  }

  /** What goes out for messages on a server link. */
  function Sent(msgs: seq<Line>): seq<bv8>
    decreases |msgs|
  {
    if msgs == [] then [] else
    var n := |msgs| - 1;
    Sent(msgs[..n]) + (Wired(msgs[n]) + [LF])
  }

  /** Messages that leave lines as the parser accepts them. */
  ghost predicate Sendable(msgs: seq<Line>) {
    forall i :: 0 <= i < |msgs| ==> Wired(msgs[i]) != [] && NoEol(Wired(msgs[i]))
  }

  lemma FrameOne(line: Line)
    requires line != [] && NoEol(line)
    ensures Lines(line + [LF]) == [line] && Tail(line + [LF]) == []
  {
    NoEolIsTail(line);
    FrameByte(line, LF);
  }

  lemma {:induction false} FramingUndoesSending(msgs: seq<Line>)
    requires Sendable(msgs)
    ensures Lines(Sent(msgs)) == Wires(msgs) && Tail(Sent(msgs)) == [] && AtStart(Sent(msgs), |Sent(msgs)|)
    decreases |msgs|
  {
    hide Lines, Tail, Wired;
    FrameNothing();
    if msgs != [] {
      var n := |msgs| - 1;
      FramingUndoesSending(msgs[..n]);
      FrameOne(Wired(msgs[n]));
      FramesAppend(Sent(msgs[..n]), Wired(msgs[n]) + [LF]);
      assert Wires(msgs) == Wires(msgs[..n]) + [Wired(msgs[n])];
    }
  }

  /** Wherever the stream is cut, no more than a line is held back. */
  lemma {:induction false} SentTailShort(msgs: seq<Line>, n: nat)
    requires Sendable(msgs) && n <= |Sent(msgs)|
    ensures |Tail(Sent(msgs)[..n])| <= MAXLINE
    decreases |msgs|
  {
    hide Lines, Tail, Wired;
    FrameNothing();
    if msgs != [] {
      var m := |msgs| - 1;
      var before, line := Sent(msgs[..m]), Wired(msgs[m]);
      FramingUndoesSending(msgs[..m]);
      if n <= |before| {
        SentTailShort(msgs[..m], n);
        assert Sent(msgs)[..n] == before[..n];
      } else {
        var k := n - |before|;
        FramesAppend(before, (line + [LF])[..k]);
        assert Sent(msgs)[..n] == before + (line + [LF])[..k];
        if k <= |line| {
          NoEolIsTail(line[..k]);
          assert (line + [LF])[..k] == line[..k];
        } else {
          FrameOne(line);
          assert (line + [LF])[..k] == line + [LF];
        }
      }
    }
  }

  /**
   One server of the network sends the messages `clear + [last]`, keys the link, and sends the
   messages `secret`; the other keys it at the line of `last`. It delivers the lines of all these
   messages, each once and in order, and holds nothing back.
   */
  lemma LinkDelivers(h: Handler, clear: seq<Line>, last: Line, key: Rc4.State, secret: seq<Line>)
    requires Sendable(clear + [last]) && Sendable(secret)
    requires Passes(h, false, [], Wires(clear)) && h(false, Wires(clear + [last])) == StartRc4(key)
    requires Passes(h, true, Wires(clear + [last]), Wires(secret))
    ensures FeedAll(h, FRESH, Session(clear, last, key, secret)) ==
            Receiver(Keyed(Rc4.After(key, |Sent(secret)|)), [], Wires(clear + [last]) + Wires(secret), false)
  {
    hide Wired;
    var open := OpenLine(clear, last);
    Rc4.CryptRoundTrip(key, Sent(secret));
    FramingUndoesSending(secret);
    SwitchIsFraming(h, open, LF, key, Rc4.Crypt(key, Sent(secret)));
  }

  /** What goes over the wire. */
  function Session(clear: seq<Line>, last: Line, key: Rc4.State, secret: seq<Line>): seq<bv8> {
    Sent(clear + [last]) + Rc4.Crypt(key, Sent(secret))
  }

  lemma SendableFront(clear: seq<Line>, last: Line)
    requires Sendable(clear + [last])
    ensures Sendable(clear) && Wired(last) != [] && NoEol(Wired(last))
  {
    var all := clear + [last];
    assert all[|clear|] == last;
    assert forall i :: 0 <= i < |clear| ==> clear[i] == all[i];
  }

  lemma OpenLine(clear: seq<Line>, last: Line) returns (open: seq<bv8>)
    requires Sendable(clear + [last])
    ensures Lines(open) == Wires(clear) && Tail(open) == Wired(last) && Wired(last) != []
    ensures Sent(clear + [last]) == open + [LF] && Wires(clear + [last]) == Wires(clear) + [Wired(last)]
  {
    hide Wired, Lines, Tail;
    var all := clear + [last];
    SendableFront(clear, last);
    assert all[..|clear|] == clear && all[|clear|] == last;
    WiresAppend(clear, [last]);
    assert Wires([last]) == [Wired(last)];
    FramingUndoesSending(clear);
    NoEolIsTail(Wired(last));
    FramesAppend(Sent(clear), Wired(last));
    open := Sent(clear) + Wired(last);
  }

  /** Wherever a session is cut, the receiver holds back less than a line. */
  lemma SessionTailShort(h: Handler, clear: seq<Line>, last: Line, key: Rc4.State, secret: seq<Line>, n: nat)
    requires Sendable(clear + [last]) && Sendable(secret)
    requires Passes(h, false, [], Wires(clear)) && h(false, Wires(clear + [last])) == StartRc4(key)
    requires Passes(h, true, Wires(clear + [last]), Wires(secret))
    requires n <= |Session(clear, last, key, secret)|
    ensures |FeedAll(h, FRESH, Session(clear, last, key, secret)[..n]).tail| <= MAXLINE
  {
    hide Wired, FeedAll, Lines, Tail, Sendable, Passes;
    var wire := Session(clear, last, key, secret);
    var open := OpenLine(clear, last);
    var all := clear + [last];
    if n <= |open| {
      assert wire[..n] == open[..n] == Sent(all)[..n];
      SentTailShort(all, n);
      ClearTail(h, open, n);
    } else {
      var k := n - |open| - 1;
      assert wire[..n] == open + [LF] + Rc4.Crypt(key, Sent(secret))[..k];
      SentTailShort(secret, k);
      FramingUndoesSending(secret);
      SecretTail(h, open, key, Sent(secret), k);
    }
  }

  lemma ClearTail(h: Handler, open: seq<bv8>, n: nat)
    requires n <= |open| && Passes(h, false, [], Lines(open))
    ensures FeedAll(h, FRESH, open[..n]).tail == Tail(open[..n])
  {
    hide FeedAll, Lines, Tail, Passes;
    assert open == open[..n] + open[n..];
    LinesPrefix(open[..n], open[n..]);
    PassesPrefix(h, false, [], Lines(open[..n]), Lines(open));
    FeedIsFraming(h, FRESH, open[..n]);
  }

  lemma SecretTail(h: Handler, open: seq<bv8>, key: Rc4.State, plain: seq<bv8>, k: nat)
    requires k <= |plain| && Passes(h, false, [], Lines(open)) && Tail(open) != []
    requires h(false, Lines(open) + [Tail(open)]) == StartRc4(key)
    requires Passes(h, true, Lines(open) + [Tail(open)], Lines(plain))
    ensures FeedAll(h, FRESH, open + [LF] + Rc4.Crypt(key, plain)[..k]).tail == Tail(plain[..k])
  {
    hide FeedAll, Lines, Tail, Passes;
    DecipherSplit(Keyed(key), Rc4.Crypt(key, plain), k);
    Rc4.CryptRoundTrip(key, plain);
    assert plain == plain[..k] + plain[k..];
    LinesPrefix(plain[..k], plain[k..]);
    PassesPrefix(h, true, Lines(open) + [Tail(open)], Lines(plain[..k]), Lines(plain));
    SwitchIsFraming(h, open, LF, key, Rc4.Crypt(key, plain)[..k]);
  }

  lemma FlattenLast(chunks: seq<seq<bv8>>)
    requires chunks != []
    ensures Flatten(chunks) == Flatten(chunks[..|chunks| - 1]) + chunks[|chunks| - 1]
  {
  }

  lemma {:induction false} FlattenPrefix(chunks: seq<seq<bv8>>, i: nat)
    requires i <= |chunks|
    ensures Flatten(chunks[..i]) <= Flatten(chunks)
    decreases |chunks|
  {
    hide Flatten;
    if i == |chunks| {
      assert chunks[..i] == chunks;
    } else {
      var front := chunks[..|chunks| - 1];
      FlattenPrefix(front, i);
      assert front[..i] == chunks[..i];
      FlattenLast(chunks);
    }
  }

  /**
   The code on such a session: however the stream is cut into reads, the lines of all messages are
   delivered, each once and in order, nothing is held back, and no line outgrows the buffer.
   */
  method ReceiveSession(h: Handler, clear: seq<Line>, last: Line, key: Rc4.State, secret: seq<Line>, chunks: seq<seq<bv8>>)
    returns (link: Link)
    requires NeverRekeys(h) && Sendable(clear + [last]) && Sendable(secret)
    requires Passes(h, false, [], Wires(clear)) && h(false, Wires(clear + [last])) == StartRc4(key)
    requires Passes(h, true, Wires(clear + [last]), Wires(secret))
    requires Flatten(chunks) == Session(clear, last, key, secret)
    requires forall i :: 0 <= i < |chunks| ==> 0 < |chunks[i]| <= READBUF_SIZE
    ensures link.Valid() && link.View() ==
            Receiver(Keyed(Rc4.After(key, |Sent(secret)|)), [], Wires(clear + [last]) + Wires(secret), false)
  {
    hide FeedAll, Wired, Sendable, Passes, Session;
    link := new Link(h);
    forall i | 0 <= i <= |chunks| ensures |FeedAll(h, FRESH, Flatten(chunks[..i])).tail| <= 3 * READBUF_SIZE {
      FlattenPrefix(chunks, i);
      var n := |Flatten(chunks[..i])|;
      SessionTailShort(h, clear, last, key, secret, n);
      assert Session(clear, last, key, secret)[..n] == Flatten(chunks[..i]);
    }
    LinkDelivers(h, clear, last, key, secret);
    link.ReceiveChunks(chunks);
  }

  /** What is held back when chunk `i` arrives. */
  ghost function HeldBefore(h: Handler, r: Receiver, chunks: seq<seq<bv8>>, i: nat): Line
    requires i < |chunks|
  {
    FeedAll(h, r, Flatten(chunks[..i])).tail
  }

  ghost function HeldTotal(h: Handler, r: Receiver, chunks: seq<seq<bv8>>, n: nat): nat
    requires n <= |chunks|
  {
    if n == 0 then 0 else HeldTotal(h, r, chunks, n - 1) + |HeldBefore(h, r, chunks, n - 1)|
  }

  /** The statistics count each held byte once more for every chunk that it waits for. */
  lemma {:induction false} CountedIsWireAndHeld(h: Handler, r: Receiver, chunks: seq<seq<bv8>>, n: nat)
    requires n <= |chunks| && !FeedAll(h, r, Flatten(chunks[..n])).exited
    ensures Counted(h, r, chunks[..n]) == |Flatten(chunks[..n])| + HeldTotal(h, r, chunks, n)
    decreases n
  {
    hide FeedAll;
    if n > 0 {
      var upto := chunks[..n];
      assert upto[..n - 1] == chunks[..n - 1] && upto[n - 1] == chunks[n - 1];
      var before := FeedAll(h, r, Flatten(chunks[..n - 1]));
      FeedAllAppend(h, r, Flatten(chunks[..n - 1]), chunks[n - 1]);
      if before.exited {
        ExitedStays(h, before, chunks[n - 1]);
      }
      CountedIsWireAndHeld(h, r, chunks, n - 1);
    }
  }

  lemma {:induction false} HeldTotalZero(h: Handler, r: Receiver, chunks: seq<seq<bv8>>, n: nat)
    requires n <= |chunks|
    ensures HeldTotal(h, r, chunks, n) == 0 <==> forall i :: 0 <= i < n ==> HeldBefore(h, r, chunks, i) == []
    decreases n
  {
    if n > 0 {
      HeldTotalZero(h, r, chunks, n - 1);
    }
  }

  /** The byte statistics are the bytes on the wire exactly when no chunk ever begins inside a line. */
  lemma CountedIsWire(h: Handler, r: Receiver, chunks: seq<seq<bv8>>)
    requires !FeedAll(h, r, Flatten(chunks)).exited
    ensures Counted(h, r, chunks) == |Flatten(chunks)| <==>
            forall i :: 0 <= i < |chunks| ==> HeldBefore(h, r, chunks, i) == []
  {
    assert chunks[..|chunks|] == chunks;
    CountedIsWireAndHeld(h, r, chunks, |chunks|);
    HeldTotalZero(h, r, chunks, |chunks|);
  }

  /** They are not when a line of one byte comes in two reads: a fresh link counts three bytes for two. */
  lemma HeldByteCountsTwice(h: Handler)
    ensures var chunks := [[65 as bv8], [LF]];
            Flatten(chunks) == [65, LF] && Counted(h, FRESH, chunks) == 3 && HeldBefore(h, FRESH, chunks, 1) == [65]
  {
    var chunks := [[65 as bv8], [LF]];
    assert chunks[..1] == [[65]] && chunks[..1][..0] == [] && chunks[..0] == [];
    assert Flatten(chunks[..0]) == [] && Flatten(chunks[..1]) == [65] && Flatten(chunks) == [65, LF];
    assert [65 as bv8][1..] == [];
    FeedNothing(h, FRESH);
    assert FeedAll(h, FRESH, [65]).tail == [65] && !FeedAll(h, FRESH, [65]).exited;
    assert chunks[..|chunks| - 1] == [[65]] && [[65 as bv8]][..0] == [];
    assert Counted(h, FRESH, []) == 0 && Counted(h, FRESH, [[65]]) == 1;
  }
}
