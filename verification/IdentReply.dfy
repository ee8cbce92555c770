/**
 The reply of an ident server (server/s_auth.c; section 6 of RFC 1413): a line
 `port , port : USERID : system : user`, cut up in place, and the user name taken from it.
 */
module IdentReply {
  import opened LinkedLists

  const NUL: char := '\0'
  const AUTH_BUFSIZ: nat := 128
  const USERLEN: nat := 10

  // ------------------------------------------------------------------------------------
  // Text and C strings
  // ------------------------------------------------------------------------------------

  /** The position of the first `c`, or the length when there is none. */
  function IndexOf(s: seq<char>, c: char): (n: nat)
    ensures n <= |s| && c !in s[..n] && (n < |s| ==> s[n] == c)
    decreases |s|
  {
    if s == [] || s[0] == c then 0 else
    var n := 1 + IndexOf(s[1..], c);
    assert s[..n] == [s[0]] + s[1..][..n - 1];
    n
  }

  lemma {:induction false} IndexIs(s: seq<char>, c: char, n: nat)
    requires n < |s| && s[n] == c && c !in s[..n]
    ensures IndexOf(s, c) == n
    decreases n
  {
    if n > 0 {
      assert s[..n] == [s[0]] + s[1..][..n - 1];
      IndexIs(s[1..], c, n - 1);
    }
  }

  /** The C string that starts at `from`. */
  function CStr(s: seq<char>, from: nat): seq<char>
    requires from <= |s|
  {
    s[from..][..IndexOf(s[from..], NUL)]
  }

  predicate Terminated(s: seq<char>, from: nat) {
    from <= |s| && IndexOf(s[from..], NUL) < |s| - from
  }

  /** Writing a NUL into a C string leaves two. */
  lemma CutHere(s: seq<char>, from: nat, k: nat)
    requires Terminated(s, from) && k < |CStr(s, from)|
    ensures var s' := s[from + k := NUL];
            && Terminated(s', from) && CStr(s', from) == CStr(s, from)[..k]
            && Terminated(s', from + k + 1) && CStr(s', from + k + 1) == CStr(s, from)[k + 1..]
  {
    var text, s' := CStr(s, from), s[from + k := NUL];
    assert NUL !in text;
    assert s'[from..][..k] == text[..k];
    IndexIs(s'[from..], NUL, k);
    var n := |text| - k - 1;
    assert s'[from + k + 1..][..n] == text[k + 1..];
    assert s'[from + k + 1..][n] == s[from..][|text|];
    IndexIs(s'[from + k + 1..], NUL, n);
  }

  /** Writing behind the end of a C string, or before its start, does not change it. */
  lemma CutElsewhere(s: seq<char>, from: nat, at: nat)
    requires Terminated(s, from) && at < |s| && (at < from || from + |CStr(s, from)| < at)
    ensures Terminated(s[at := NUL], from) && CStr(s[at := NUL], from) == CStr(s, from)
  {
    var n, s' := |CStr(s, from)|, s[at := NUL];
    assert s'[from..][..n] == s[from..][..n] && s'[from..][n] == s[from..][n];
    IndexIs(s'[from..], NUL, n);
  }

  // ------------------------------------------------------------------------------------
  // The reply
  // ------------------------------------------------------------------------------------

  predicate IsSpace(c: char) {
    c == ' ' || '\t' <= c <= '\r'
  }

  function Digits(s: seq<char>, acc: int): int
    decreases |s|
  {
    if s == [] || !('0' <= s[0] <= '9') then acc else Digits(s[1..], 10 * acc + (s[0] as int - '0' as int))
  }

  /** atoi, without overflow */
  function Atoi(s: seq<char>): int
    decreases |s|
  {
    if s == [] then 0
    else if IsSpace(s[0]) then Atoi(s[1..])
    else if s[0] == '-' then -Digits(s[1..], 0)
    else if s[0] == '+' then Digits(s[1..], 0)
    else Digits(s, 0)
  }

  /** strstr finds `pat`. */
  predicate Contains(s: seq<char>, pat: seq<char>)
    decreases |s|
  {
    pat <= s || (s != [] && Contains(s[1..], pat))
  }

  function Before(s: seq<char>, c: char): (b: seq<char>)
    requires c in s
    ensures c !in b
  {
    s[..IndexOf(s, c)]
  }

  function After(s: seq<char>, c: char): (a: seq<char>)
    requires c in s
    ensures s == Before(s, c) + [c] + a
  {
    IndexFound(s, c);
    s[IndexOf(s, c) + 1..]
  }

  lemma IndexFound(s: seq<char>, c: char)
    requires c in s
    ensures IndexOf(s, c) < |s|
  {
    assert s[..|s|] == s;
  }

  lemma SplitAt(a: seq<char>, c: char, b: seq<char>)
    requires c !in a
    ensures var s := a + [c] + b; c in s && Before(s, c) == a && After(s, c) == b
  {
    var s := a + [c] + b;
    assert s[|a|] == c && s[..|a|] == a && s[|a| + 1..] == b;
    IndexIs(s, c, |a|);
  }

  datatype Fields = Fields(remote: seq<char>, here: seq<char>, kind: seq<char>, system: seq<char>, user: seq<char>)

  /** The reply cut at its first comma and its first three colons. */
  function Split(text: seq<char>): Option<Fields> {
    if ':' !in text then None else
    var ports, rest := Before(text, ':'), After(text, ':');
    if ':' !in rest then None else
    var kind, rest2 := Before(rest, ':'), After(rest, ':');
    if ',' !in ports || ':' !in rest2 then None
    else Some(Fields(Before(ports, ','), After(ports, ','), kind, Before(rest2, ':'), After(rest2, ':')))
  }

  predicate Usable(f: Fields) {
    Atoi(f.remote) != 0 && Atoi(f.here) != 0 && Contains(f.kind, "USERID")
  }

  /** The user part of a reply, as GetValidIdent finds it. */
  function ParseIdent(text: seq<char>): Option<seq<char>> {
    var f := Split(text);
    if f.None? || !Usable(f.value) then None else Some(f.value.user)
  }

  /** A reply on the wire. */
  function Reply(f: Fields): seq<char> {
    f.remote + [','] + f.here + [':'] + (f.kind + [':'] + (f.system + [':'] + f.user))
  }

  ghost predicate WellFormed(f: Fields) {
    ',' !in f.remote && ':' !in f.remote && ':' !in f.here && ':' !in f.kind && ':' !in f.system
  }

  // ------------------------------------------------------------------------------------
  // What the fields have to be
  // ------------------------------------------------------------------------------------

  /** The characters that isspace() accepts: tab to carriage return, and the space. */
  ghost predicate Blank(c: char) {
    c as int in {9, 10, 11, 12, 13, 32}
  }

  /** Where a number starts behind `a` blanks: at a sign, it starts behind that. */
  ghost function NumberAt(s: seq<char>, a: nat): nat {
    if a < |s| && s[a] in "+-" then a + 1 else a
  }

  /** Behind blanks and at most one sign there are digits, and not all of them are zeros. */
  ghost predicate IsPort(s: seq<char>) {
    exists a: nat, b: nat :: PortAt(s, a, b)
  }

  ghost predicate PortAt(s: seq<char>, a: nat, b: nat) {
    && NumberAt(s, a) <= b < |s| && s[b] in "123456789"
    && (forall i :: 0 <= i < a ==> Blank(s[i]))
    && forall i :: NumberAt(s, a) <= i < b ==> s[i] in "0123456789"
  }

  /** A reply with two port numbers whose third field mentions USERID. */
  ghost predicate IsUserid(f: Fields) {
    IsPort(f.remote) && IsPort(f.here) && exists k: nat :: OccursAt(f.kind, "USERID", k)
  }

  ghost predicate OccursAt(s: seq<char>, pat: seq<char>, k: nat) {
    k + |pat| <= |s| && s[k..k + |pat|] == pat
  }

  lemma {:induction false} ContainsIs(s: seq<char>, pat: seq<char>)
    ensures Contains(s, pat) <==> exists k: nat :: OccursAt(s, pat, k)
    decreases |s|
  {
    OccursFirst(s, pat);
    if !(pat <= s) && s != [] {
      ContainsIs(s[1..], pat);
      OccursLater(s, pat);
    }
  }

  lemma OccursFirst(s: seq<char>, pat: seq<char>)
    ensures OccursAt(s, pat, 0) <==> pat <= s
    ensures s == [] ==> forall k: nat :: OccursAt(s, pat, k) ==> pat <= s
  {
  }

  lemma OccursLater(s: seq<char>, pat: seq<char>)
    requires s != [] && !OccursAt(s, pat, 0)
    ensures (exists k: nat :: OccursAt(s, pat, k)) <==> exists k: nat :: OccursAt(s[1..], pat, k)
  {
    if k: nat :| OccursAt(s[1..], pat, k) {
      assert s[k + 1..k + 1 + |pat|] == s[1..][k..k + |pat|];
      assert OccursAt(s, pat, k + 1);
    }
    if k: nat :| OccursAt(s, pat, k) {
      assert s[k..k + |pat|] == s[1..][k - 1..k - 1 + |pat|];
      assert OccursAt(s[1..], pat, k - 1);
    }
  }

  /** Some digit of the leading ones is not zero. */
  ghost predicate SomeDigit(s: seq<char>, b: nat) {
    b < |s| && s[b] in "123456789" && forall i :: 0 <= i < b ==> s[i] in "0123456789"
  }

  lemma {:induction false} DigitsAre(s: seq<char>, acc: nat)
    ensures Digits(s, acc) >= acc && (Digits(s, acc) != 0 <==> acc != 0 || exists b: nat :: SomeDigit(s, b))
    decreases |s|
  {
    hide SomeDigit;
    if s != [] && '0' <= s[0] <= '9' {
      DigitsAre(s[1..], 10 * acc + (s[0] as int - '0' as int));
      SomeDigitLater(s);
    } else {
      NoDigit(s);
    }
  }

  lemma NoDigit(s: seq<char>)
    requires s == [] || !('0' <= s[0] <= '9')
    ensures forall b: nat :: !SomeDigit(s, b)
  {
  }

  lemma SomeDigitLater(s: seq<char>)
    requires s != [] && '0' <= s[0] <= '9'
    ensures (exists b: nat :: SomeDigit(s, b)) <==> s[0] != '0' || exists b: nat :: SomeDigit(s[1..], b)
  {
    assert s[0] in "0123456789" && (s[0] != '0' ==> SomeDigit(s, 0));
    if b: nat :| SomeDigit(s[1..], b) {
      assert SomeDigit(s, b + 1);
    }
    if b: nat :| SomeDigit(s, b) {
      assert b > 0 ==> SomeDigit(s[1..], b - 1);
    }
  }

  /** What atoi() makes of a field is a number other than zero exactly if the field has that form. */
  lemma {:induction false} PortIs(s: seq<char>)
    ensures Atoi(s) != 0 <==> IsPort(s)
    decreases |s|
  {
    if s == [] {
    } else if IsSpace(s[0]) {
      PortIs(s[1..]);
      PortBehindBlank(s);
    } else {
      hide IsPort, SomeDigit, Digits;
      var rest := if s[0] == '-' || s[0] == '+' then s[1..] else s;
      DigitsAre(rest, 0);
      PortAtOnce(s, rest);
    }
  }

  lemma PortAtOnce(s: seq<char>, rest: seq<char>)
    requires s != [] && !Blank(s[0]) && rest == if s[0] == '-' || s[0] == '+' then s[1..] else s
    ensures IsPort(s) <==> exists b: nat :: SomeDigit(rest, b)
  {
    var n := NumberAt(s, 0);
    assert rest == s[n..];
    assert forall i :: n <= i < |s| ==> s[i] == rest[i - n];
    if b: nat :| SomeDigit(rest, b) {
      assert PortAt(s, 0, b + n);
    }
    if a: nat, b: nat :| PortAt(s, a, b) {
      assert a == 0;
      assert SomeDigit(rest, b - n);
    }
  }

  lemma PortBehindBlank(s: seq<char>)
    requires s != [] && Blank(s[0])
    ensures IsPort(s) <==> IsPort(s[1..])
  {
    if a: nat, b: nat :| PortAt(s, a, b) {
      assert a > 0;
      assert PortAt(s[1..], a - 1, b - 1);
    }
    if a: nat, b: nat :| PortAt(s[1..], a, b) {
      assert NumberAt(s, a + 1) == NumberAt(s[1..], a) + 1;
      assert forall i :: 0 <= i < |s[1..]| ==> s[i + 1] == s[1..][i];
      assert forall i :: 0 < i < |s| ==> s[i] == s[1..][i - 1];
      assert PortAt(s, a + 1, b + 1);
    }
  }

  lemma UsableIs(f: Fields)
    ensures Usable(f) <==> IsUserid(f)
  {
    hide Atoi, Contains, IsPort, OccursAt;
    PortIs(f.remote);
    PortIs(f.here);
    ContainsIs(f.kind, "USERID");
  }

  /** For every USERID reply with usable ports and a colon-free system field, the user part is found whole. */
  lemma ParseFinds(f: Fields)
    requires WellFormed(f) && IsUserid(f)
    ensures ParseIdent(Reply(f)) == Some(f.user)
  {
    hide Before, Usable, IsUserid;
    UsableIs(f);
    var ports := f.remote + [','] + f.here;
    var rest2 := f.system + [':'] + f.user;
    assert ':' !in ports;
    SplitAt(ports, ':', f.kind + [':'] + rest2);
    SplitAt(f.remote, ',', f.here);
    SplitAt(f.kind, ':', rest2);
    SplitAt(f.system, ':', f.user);
  }

  /** Every reply from which a user is taken has that form. */
  lemma ParseSound(text: seq<char>) returns (f: Fields)
    requires ParseIdent(text).Some?
    ensures WellFormed(f) && IsUserid(f) && text == Reply(f) && f.user == ParseIdent(text).value
  {
    hide Before, Usable, IsUserid;
    f := Split(text).value;
    UsableIs(f);
    var ports, rest := Before(text, ':'), After(text, ':');
    var rest2 := After(rest, ':');
    assert text == ports + [':'] + rest && rest == f.kind + [':'] + rest2;
    assert rest2 == f.system + [':'] + f.user && ports == f.remote + [','] + f.here;
    assert forall c :: c in f.remote || c in f.here ==> c in ports;
  }

  /** strchr, the NUL written there, and the pointer behind it; -1 stands for the null pointer. */
  method CutAt(buf: array<char>, from: nat, c: char) returns (next: int)
    requires Terminated(buf[..], from) && c != NUL
    modifies buf
    ensures next == -1 <==> c !in old(CStr(buf[..], from))
    ensures next == -1 ==> buf[..] == old(buf[..])
    ensures next != -1 ==>
              && next == from + |CStr(buf[..], from)| + 1 <= buf.Length
              && buf[..] == old(buf[..])[next - 1 := NUL]
              && Terminated(buf[..], from) && CStr(buf[..], from) == Before(old(CStr(buf[..], from)), c)
              && Terminated(buf[..], next) && CStr(buf[..], next) == After(old(CStr(buf[..], from)), c)
  {
    var n := from;
    ghost var s, text := buf[..], CStr(buf[..], from);
    while buf[n] != NUL && buf[n] != c
      invariant from <= n <= from + |text|
      invariant c !in text[..n - from]
      decreases from + |text| - n
    {
      assert text[..n + 1 - from] == text[..n - from] + [buf[n]];
      n := n + 1;
    }
    if buf[n] == NUL {
      assert text[..n - from] == text;
      return -1;
    }
    assert text[n - from] == c;
    IndexIs(text, c, n - from);
    CutHere(s, from, n - from);
    buf[n] := NUL;
    assert buf[..] == s[n := NUL];
    next := n + 1;
  }

  /** The reply has a port pair, and at least two colons. */
  predicate Cuttable(text: seq<char>) {
    ':' in text && ':' in After(text, ':') && ',' in Before(text, ':')
  }

  /** `at` points to the C string `text`. */
  ghost predicate Points(buf: seq<char>, at: int, text: seq<char>) {
    0 <= at <= |buf| && Terminated(buf, at) && CStr(buf, at) == text
  }

  /** The cuts at the first two colons and at the comma. */
  method CutPorts(buf: array<char>, ghost text: seq<char>) returns (colon1: int, colon2: int, comma: int)
    requires Points(buf[..], 0, text)
    modifies buf
    ensures comma == -1 <==> !Cuttable(text)
    ensures comma != -1 ==>
              var ports, rest := Before(text, ':'), After(text, ':');
              && Points(buf[..], 0, Before(ports, ',')) && Points(buf[..], comma, After(ports, ','))
              && Points(buf[..], colon1, Before(rest, ':')) && Points(buf[..], colon2, After(rest, ':'))
  {
    hide CStr, Terminated, Before, After;
    colon2, comma := -1, -1;
    colon1 := CutAt(buf, 0, ':');
    if colon1 == -1 {
      return;
    }
    ghost var s := buf[..];
    colon2 := CutAt(buf, colon1, ':');
    if colon2 == -1 {
      return;
    }
    CutElsewhere(s, 0, colon2 - 1);
    s := buf[..];
    comma := CutAt(buf, 0, ',');
    if comma == -1 {
      return;
    }
    CutElsewhere(s, colon1, comma - 1);
    CutElsewhere(s, colon2, comma - 1);
  }

  /** GetValidIdent: the index of the user part in the buffer that it cuts up, or -1. */
  method GetValidIdent(buf: array<char>, ghost text: seq<char>) returns (p: int)
    requires Points(buf[..], 0, text)
    modifies buf
    ensures p == -1 <==> ParseIdent(text).None?
    ensures p != -1 ==> Points(buf[..], p, ParseIdent(text).value)
  {
    hide CStr, Terminated, Before, After, Atoi, Contains;
    var colon1, colon2, comma := CutPorts(buf, text);
    if comma == -1 {
      return -1;
    }
    var remp := Atoi(CStr(buf[..], 0));
    if remp == 0 {
      return -1;
    }
    var locp := Atoi(CStr(buf[..], comma));
    if locp == 0 {
      return -1;
    }
    if !Contains(CStr(buf[..], colon1), "USERID") {
      return -1;
    }
    p := CutAt(buf, colon2, ':');
  }

  // ------------------------------------------------------------------------------------
  // The user name
  // ------------------------------------------------------------------------------------

  predicate IsMark(c: char) {
    c == '~' || c == '^'
  }

  predicate Keep(c: char) {
    !IsSpace(c) && c != ':' && c != '['
  }

  function Unmarked(s: seq<char>): seq<char>
    decreases |s|
  {
    if s != [] && IsMark(s[0]) then Unmarked(s[1..]) else s
  }

  function UpToAt(s: seq<char>): seq<char> {
    s[..IndexOf(s, '@')]
  }

  function Filtered(s: seq<char>): seq<char>
    decreases |s|
  {
    if s == [] then [] else (if Keep(s[0]) then [s[0]] else []) + Filtered(s[1..])
  }

  function Cropped(s: seq<char>, n: nat): seq<char> {
    if |s| <= n then s else s[..n]
  }

  /** Leading marks dropped, cut at the first `@`, unwanted characters removed, cropped. */
  function Username(s: seq<char>): (name: seq<char>)
    ensures |name| <= USERLEN
  {
    Cropped(Filtered(UpToAt(Unmarked(s))), USERLEN)
  }

  /** The copying loop, one character at a time. */
  function Copied(s: seq<char>, n: nat): seq<char>
    decreases |s|
  {
    if s == [] || n == 0 || s[0] == '@' then []
    else if Keep(s[0]) then [s[0]] + Copied(s[1..], n - 1)
    else Copied(s[1..], n)
  }

  lemma {:induction false} UpToAtStep(s: seq<char>)
    requires s != []
    ensures UpToAt(s) == if s[0] == '@' then [] else [s[0]] + UpToAt(s[1..])
  {
    if s[0] != '@' {
      var n := IndexOf(s[1..], '@');
      assert s[..n + 1] == [s[0]] + s[1..][..n];
    }
  }

  /** Copying with a countdown is cutting, filtering and cropping. */
  lemma {:induction false} CopiedIsCropped(s: seq<char>, n: nat)
    ensures Copied(s, n) == Cropped(Filtered(UpToAt(s)), n)
    decreases |s|
  {
    if s != [] {
      UpToAtStep(s);
      if s[0] != '@' {
        var rest := UpToAt(s[1..]);
        assert ([s[0]] + rest)[1..] == rest;
        if Keep(s[0]) && n > 0 {
          CopiedIsCropped(s[1..], n - 1);
        } else {
          CopiedIsCropped(s[1..], n);
        }
      }
    }
  }

  /** The loop over leading marks in read_auth_reply */
  method SkipMarks(buf: array<char>, p: nat, ghost text: seq<char>) returns (s: nat)
    requires Points(buf[..], p, text)
    ensures Points(buf[..], s, Unmarked(text))
  {
    hide Points;
    s := p;
    ghost var left := text;
    PointsHead(buf[..], s, left);
    while buf[s] == '~' || buf[s] == '^'
      invariant s < buf.Length && Points(buf[..], s, left) && Unmarked(left) == Unmarked(text)
      decreases |left|
    {
      PointsStep(buf[..], s, left);
      s, left := s + 1, left[1..];
      PointsHead(buf[..], s, left);
    }
    PointsHead(buf[..], s, left);
  }

  /** One step of the loop, behind what it has copied so far. */
  lemma CopiedStep(done: seq<char>, s: seq<char>, n: nat)
    requires s != [] && n > 0
    ensures done + Copied(s, n) ==
            if s[0] == '@' then done
            else if Keep(s[0]) then done + [s[0]] + Copied(s[1..], n - 1)
            else done + Copied(s[1..], n)
  {
    hide Keep;
    if s[0] != '@' && Keep(s[0]) {
      assert done + ([s[0]] + Copied(s[1..], n - 1)) == done + [s[0]] + Copied(s[1..], n - 1);
    }
  }

  lemma CopiedEnd(done: seq<char>, s: seq<char>, n: nat)
    requires s == [] || n == 0
    ensures done + Copied(s, n) == done
  {
  }

  /** The copying loop of read_auth_reply, and the NUL behind the copy */
  method CopyKept(buf: array<char>, p: nat, ghost text: seq<char>, username: array<char>)
    requires Points(buf[..], p, text) && username.Length == USERLEN + 1 && username != buf
    modifies username
    ensures Points(username[..], 0, Copied(text, USERLEN))
  {
    hide Points, Copied, Keep;
    var s: nat, t: nat, count: nat := p, 0, USERLEN;
    ghost var left := text;
    PointsHead(buf[..], s, left);
    while buf[s] != NUL && count > 0
      invariant s < buf.Length && Points(buf[..], s, left)
      invariant t + count == USERLEN
      invariant username[..t] + Copied(left, count) == Copied(text, USERLEN) && NUL !in username[..t]
      decreases |left|
    {
      PointsStep(buf[..], s, left);
      CopiedStep(username[..t], left, count);
      if buf[s] == '@' {
        break;
      }
      if Keep(buf[s]) {
        ghost var done := username[..t];
        username[t] := buf[s];
        assert username[..t + 1] == done + [buf[s]];
        t, count := t + 1, count - 1;
      }
      s, left := s + 1, left[1..];
      PointsHead(buf[..], s, left);
    }
    PointsHead(buf[..], s, left);
    if left == [] || count == 0 {
      CopiedEnd(username[..t], left, count);
    }
    ghost var name := username[..t];
    assert name == Copied(text, USERLEN);
    username[t] := NUL;
    assert username[..t] == name;
    PointsWritten(username[..], t);
  }

  /** The C string that recv() has left in the buffer. */
  function Received(reply: seq<char>): seq<char> {
    reply[..IndexOf(reply, NUL)]
  }

  /** The part of read_auth_reply between recv() and fd_close(): what is stored as the user name. */
  method StoreIdent(reply: seq<char>, username: array<char>) returns (got: bool)
    requires |reply| <= 128 && username.Length == 11
    modifies username
    ensures got <==> ParseIdent(Received(reply)).Some?
    ensures Points(username[..], 0, if got then Username(ParseIdent(Received(reply)).value) else "unknown")
  {
    hide ParseIdent, Copied, Filtered, UpToAt, Unmarked;
    got := false;
    if |reply| > 0 {
      var buf := new char[AUTH_BUFSIZ + 1](i => NUL);
      forall i | 0 <= i < |reply| {
        buf[i] := reply[i];
      }
      buf[|reply|] := NUL;
      RecvPoints(buf[..], reply);
      var p := GetValidIdent(buf, Received(reply));
      if p != -1 {
        ghost var user := ParseIdent(Received(reply)).value;
        var s := SkipMarks(buf, p, user);
        CopyKept(buf, s, Unmarked(user), username);
        CopiedIsCropped(Unmarked(user), USERLEN);
        return true;
      }
    }
    NoReply(reply);
    var unknown := "unknown";
    forall i | 0 <= i < |unknown| {
      username[i] := unknown[i];
    }
    username[|unknown|] := NUL;
    assert username[..|unknown|] == unknown;
    PointsWritten(username[..], |unknown|);
  }

  lemma NoReply(reply: seq<char>)
    ensures reply == [] ==> ParseIdent(Received(reply)).None?
  {
  }

  lemma RecvPoints(buf: seq<char>, reply: seq<char>)
    requires |reply| < |buf| && buf[..|reply|] == reply && buf[|reply|] == NUL
    ensures Points(buf, 0, Received(reply))
  {
    var n := IndexOf(reply, NUL);
    assert buf[..n] == reply[..n];
    assert n < |reply| ==> buf[n] == reply[n];
    PointsWritten(buf, n);
  }

  // ------------------------------------------------------------------------------------
  // What the name is
  // ------------------------------------------------------------------------------------

  /** Characters that may be stored. */
  ghost predicate Storable(c: char) {
    !Blank(c) && c !in ":["
  }

  /** The characters at these positions, in order, are the name. */
  ghost predicate Copies(s: seq<char>, name: seq<char>, at: seq<nat>) {
    && |at| == |name| && (forall i :: 0 <= i < |at| ==> at[i] < |s| && name[i] == s[at[i]] && Storable(s[at[i]]))
    && (forall i, j :: 0 <= i < j < |at| ==> at[i] < at[j])
  }

  /** No storable character is left out, unless it comes behind `n` that are taken. */
  ghost predicate Complete(s: seq<char>, n: nat, at: seq<nat>) {
    && |at| <= n
    && forall k :: 0 <= k < |s| && Storable(s[k]) && (|at| < n || (at != [] && k <= at[|at| - 1])) ==> k in at
  }

  function Shifted(at: seq<nat>): seq<nat> {
    seq(|at|, i requires 0 <= i < |at| => at[i] + 1)
  }

  lemma {:induction false} CopiedPicks(s: seq<char>, n: nat) returns (at: seq<nat>)
    requires '@' !in s
    ensures Copies(s, Copied(s, n), at) && Complete(s, n, at)
    decreases |s|
  {
    hide Copies, Complete, Keep;
    at := [];
    NothingPicked(s, n);
    if s != [] && n > 0 {
      assert s[0] in s && Keep(s[0]) == Storable(s[0]) by { KeepIs(s[0]); }
      if Keep(s[0]) {
        var rest := CopiedPicks(s[1..], n - 1);
        at := [0] + Shifted(rest);
        Taken(s, n, Copied(s[1..], n - 1), rest);
      } else {
        var rest := CopiedPicks(s[1..], n);
        at := Shifted(rest);
        Skipped(s, n, Copied(s[1..], n), rest);
      }
    }
  }

  lemma KeepIs(c: char)
    ensures Keep(c) <==> Storable(c)
  {
  }

  lemma NothingPicked(s: seq<char>, n: nat)
    ensures Copies(s, [], []) && (s == [] || n == 0 ==> Complete(s, n, []))
  {
  }

  lemma ShiftedIn(at: seq<nat>, k: nat)
    requires k > 0
    ensures k in Shifted(at) <==> k - 1 in at
  {
    if k - 1 in at {
      var i :| 0 <= i < |at| && at[i] == k - 1;
      assert Shifted(at)[i] == k;
    }
  }

  lemma Skipped(s: seq<char>, n: nat, name: seq<char>, rest: seq<nat>)
    requires s != [] && !Storable(s[0]) && n > 0 && Copies(s[1..], name, rest) && Complete(s[1..], n, rest)
    ensures Copies(s, name, Shifted(rest)) && Complete(s, n, Shifted(rest))
  {
    hide Storable;
    forall k: nat | 0 < k < |s| ensures k in Shifted(rest) <==> k - 1 in rest {
      ShiftedIn(rest, k);
    }
    assert forall k :: 0 < k < |s| ==> s[k] == s[1..][k - 1];
  }

  lemma Taken(s: seq<char>, n: nat, name: seq<char>, rest: seq<nat>)
    requires s != [] && Storable(s[0]) && n > 0 && Copies(s[1..], name, rest) && Complete(s[1..], n - 1, rest)
    ensures Copies(s, [s[0]] + name, [0] + Shifted(rest)) && Complete(s, n, [0] + Shifted(rest))
  {
    hide Storable;
    forall k: nat | 0 < k < |s| ensures k in [0] + Shifted(rest) <==> k - 1 in rest {
      ShiftedIn(rest, k);
    }
    assert forall k :: 0 < k < |s| ==> s[k] == s[1..][k - 1];
    assert ([0] + Shifted(rest))[0] == 0;
  }

  /**
   The name, in its own terms: it is taken from behind the leading `~` and `^` and from before the
   first `@` that follows, and is the storable characters there in order, up to ten of them.
   */
  lemma UsernameIs(s: seq<char>) returns (start: nat, end: nat, at: seq<nat>)
    ensures start <= end <= |s| && (forall i :: 0 <= i < start ==> s[i] in "~^") && (start < |s| ==> s[start] !in "~^")
    ensures '@' !in s[start..end] && (end < |s| ==> s[end] == '@')
    ensures Copies(s[start..end], Username(s), at) && Complete(s[start..end], 10, at)
  {
    hide Filtered, Copies, Complete, Cropped;
    start := LeadingMarks(s);
    var d := Unmarked(s);
    end := start + |UpToAt(d)|;
    assert UpToAt(d) == s[start..end];
    at := CopiedPicks(UpToAt(d), USERLEN);
    CopiedIsCropped(UpToAt(d), USERLEN);
    IndexFresh(UpToAt(d), '@');
    assert UpToAt(UpToAt(d)) == UpToAt(d);
  }

  lemma IndexFresh(s: seq<char>, c: char)
    requires c !in s
    ensures IndexOf(s, c) == |s|
  {
  }

  lemma {:induction false} LeadingMarks(s: seq<char>) returns (k: nat)
    ensures k <= |s| && Unmarked(s) == s[k..] && (forall i :: 0 <= i < k ==> s[i] in "~^") && (k < |s| ==> s[k] !in "~^")
    decreases |s|
  {
    k := 0;
    if s != [] && IsMark(s[0]) {
      var j := LeadingMarks(s[1..]);
      k := j + 1;
      assert forall i :: 0 < i < |s| ==> s[i] == s[1..][i - 1];
    }
  }

  /** A user name still starts with a mark exactly when something unwanted stood before that mark. */
  lemma MarkSurvives(s: seq<char>)
    ensures (Username(s) != [] && IsMark(Username(s)[0])) <==>
            var d := Unmarked(s); exists k :: 0 < k < |d| && IsMark(d[k]) && Unwanted(d[..k])
  {
    var d := Unmarked(s);
    UnmarkedHead(s);
    FirstKept(d);
    if exists k :: 0 <= k < |d| && IsMark(d[k]) && Unwanted(d[..k]) {
      var k :| 0 <= k < |d| && IsMark(d[k]) && Unwanted(d[..k]);
      assert k > 0;
    }
  }

  /** The usual reply has a space before the user part, and so a mark there is stored. */
  lemma MarkBehindSpace(user: seq<char>)
    ensures var name := Username([' ', '~'] + user); name != [] && name[0] == '~'
  {
    var s := [' ', '~'] + user;
    assert Unmarked(s) == s && s[1..] == ['~'] + user && (['~'] + user)[1..] == user;
    UpToAtStep(s);
    UpToAtStep(s[1..]);
    var rest := UpToAt(user);
    assert UpToAt(s) == [' '] + (['~'] + rest);
    assert (['~'] + rest)[1..] == rest;
    assert Filtered(['~'] + rest) == ['~'] + Filtered(rest);
    assert ([' '] + (['~'] + rest))[1..] == ['~'] + rest;
    assert Filtered(UpToAt(s)) == ['~'] + Filtered(rest);
  }

  ghost predicate Unwanted(s: seq<char>) {
    forall i :: 0 <= i < |s| ==> !Keep(s[i]) && s[i] != '@'
  }

  lemma UnwantedStep(s: seq<char>, k: nat)
    requires 0 < k <= |s| && !Keep(s[0]) && s[0] != '@'
    ensures Unwanted(s[..k]) <==> Unwanted(s[1..][..k - 1])
  {
    var t, u := s[..k], s[1..][..k - 1];
    assert forall i :: 0 <= i < |u| ==> u[i] == t[i + 1];
    assert forall i :: 0 < i < |t| ==> t[i] == u[i - 1];
  }

  lemma {:induction false} UnmarkedHead(s: seq<char>)
    ensures Unmarked(s) != [] ==> !IsMark(Unmarked(s)[0])
    decreases |s|
  {
    if s != [] {
      UnmarkedHead(s[1..]);
    }
  }

  lemma {:induction false} FirstKept(s: seq<char>)
    ensures var f := Filtered(UpToAt(s));
            (f != [] && IsMark(f[0])) <==> exists k :: 0 <= k < |s| && IsMark(s[k]) && Unwanted(s[..k])
    decreases |s|
  {
    if s != [] {
      UpToAtStep(s);
      var rest := UpToAt(s[1..]);
      assert ([s[0]] + rest)[1..] == rest;
      FirstKept(s[1..]);
      if Keep(s[0]) || s[0] == '@' {
        assert Unwanted(s[..0]);
        assert forall k :: 0 < k < |s| ==> s[..k][0] == s[0];
      } else {
        forall k | 0 < k < |s| ensures Unwanted(s[..k]) <==> Unwanted(s[1..][..k - 1]) {
          UnwantedStep(s, k);
        }
        if exists k :: 0 <= k < |s[1..]| && IsMark(s[1..][k]) && Unwanted(s[1..][..k]) {
          var k :| 0 <= k < |s[1..]| && IsMark(s[1..][k]) && Unwanted(s[1..][..k]);
          assert IsMark(s[k + 1]) && Unwanted(s[..k + 1]);
        }
      }
    }
  }

  lemma PointsStep(buf: seq<char>, at: nat, text: seq<char>)
    requires Points(buf, at, text) && buf[at] != NUL
    ensures text != [] && text[0] == buf[at] && Points(buf, at + 1, text[1..])
  {
    var n := IndexOf(buf[at..], NUL);
    assert buf[at..][..n][1..] == buf[at + 1..][..n - 1] && buf[at + 1..][n - 1] == buf[at..][n];
    IndexIs(buf[at + 1..], NUL, n - 1);
  }

  lemma PointsHead(buf: seq<char>, at: nat, text: seq<char>)
    requires Points(buf, at, text)
    ensures at < |buf| && (if text == [] then buf[at] == NUL else buf[at] == text[0] && buf[at] != NUL)
  {
    assert buf[at..][0] == buf[at];
  }

  lemma PointsWritten(buf: seq<char>, n: nat)
    requires n < |buf| && buf[n] == NUL && NUL !in buf[..n]
    ensures Points(buf, 0, buf[..n])
  {
    assert buf[0..] == buf;
    IndexIs(buf, NUL, n);
  }
}
