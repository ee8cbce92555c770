/** Numbers as bytes. */
module Bytes {

  lemma ByteIs(i: nat)
    requires i < 256
    ensures (i as bv8) as int == i
  {
  }
}

/**
 The stream cipher of a server link (src/rc4.c). The state is the permutation table with
 its two indices; one byte of key stream is produced per byte processed.
 */
module Rc4 {
  import opened Bytes

  datatype RawState = State(x: bv8, y: bv8, table: seq<bv8>)

  type State = s: RawState | |s.table| == 256 witness State(0, 0, seq(256, i => 0))

  /** A byte as an index of the table. */
  function At(b: bv8): (i: nat)
    ensures i < 256
  {
    b as int
  }

  function Add(a: bv8, b: bv8): bv8 {
    a + b
  }

  lemma AddIs(a: bv8, b: bv8)
    ensures Add(a, b) == a + b == Add(b, a)
  {
  }

  /** The cipher state after one byte; it does not depend on the byte. */
  function Advance(s: State): State {
    var x := s.x + 1;
    var a := s.table[At(x)];
    var y := s.y + a;
    var b := s.table[At(y)];
    State(x, y, s.table[At(x) := b][At(y) := a])
  }

  /** The key byte that the step from `s` produces. */
  function KeyByte(s: State): bv8 {
    var x := s.x + 1;
    var a := s.table[At(x)];
    var y := s.y + a;
    var b := s.table[At(y)];
    Advance(s).table[At(Add(a, b))]
  }

  /** Two entries exchanged. */
  lemma Exchanged(t: seq<bv8>, i: nat, j: nat)
    requires i < |t| && j < |t|
    ensures var t' := t[i := t[j]][j := t[i]];
            && t'[i] == t[j] && t'[j] == t[i] && (forall k :: 0 <= k < |t| && k != i && k != j ==> t'[k] == t[k])
            && multiset(t') == multiset(t)
  {
  }

  /** A step exchanges two entries of the table, at the next index and at the one that it leads to. */
  lemma StepExchanges(s: State, s': State, i: nat, j: nat)
    requires s' == Advance(s) && i == At(s'.x) && j == At(s'.y)
    ensures s'.x == s.x + 1 && s'.y == s.y + s.table[i] && s'.table == s.table[i := s.table[j]][j := s.table[i]]
  {
    hide At;
  }

  /** So the table stays a permutation of what it was, and all other entries stay in place. */
  lemma StepPermutes(s: State)
    ensures var s' := Advance(s);
            && multiset(s'.table) == multiset(s.table)
            && forall k :: 0 <= k < 256 && k != At(s'.x) && k != At(s'.y) ==> s'.table[k] == s.table[k]
  {
    hide Advance, At;
    var s' := Advance(s);
    StepExchanges(s, s', At(s'.x), At(s'.y));
    Exchanged(s.table, At(s'.x), At(s'.y));
  }

  lemma KeyByteOf(s: State)
    ensures KeyByte(s) == Advance(s).table[At(Add(s.table[At(Advance(s).x)], s.table[At(Advance(s).y)]))]
  {
    hide At, Add;
  }

  /** The key byte is the entry at the sum of the two that were exchanged. */
  lemma KeyByteIs(s: State, s': State, i: nat, j: nat)
    requires s' == Advance(s) && i == At(s'.x) && j == At(s'.y)
    ensures KeyByte(s) == s'.table[At(Add(s'.table[i], s'.table[j]))]
  {
    hide At, Add, Advance, KeyByte;
    KeyByteOf(s);
    StepExchanges(s, s', i, j);
    Exchanged(s.table, i, j);
    AddIs(s.table[i], s.table[j]);
  }

  // ------------------------------------------------------------------------------------
  // The key schedule
  // ------------------------------------------------------------------------------------

  /** No byte occurs twice in the table, so each of the 256 occurs once. */
  ghost predicate Injective(t: seq<bv8>) {
    forall i, j :: 0 <= i < j < |t| ==> t[i] != t[j]
  }

  /** Position `i` of the key, written over and over. */
  function Cyclic(i: nat, n: nat): (r: nat)
    requires n > 0
    ensures r < n
  {
    if i < n then i else Cyclic(i - n, n)
  }

  lemma {:induction false} CyclicNext(i: nat, n: nat)
    requires n > 0
    ensures Cyclic(i + 1, n) == if Cyclic(i, n) + 1 < n then Cyclic(i, n) + 1 else 0
    decreases i
  {
    if i >= n {
      CyclicNext(i - n, n);
    }
  }

  function Exchange(t: seq<bv8>, i: nat, j: nat): seq<bv8>
    requires i < |t| && j < |t|
  {
    t[i := t[j]][j := t[i]]
  }

  datatype Schedule = Schedule(table: seq<bv8>, index: bv8)

  /** Step `i`: the index moves on by the table and the key, and the entries at `i` and there are exchanged. */
  function Stirred(key: seq<bv8>, i: nat, sch: Schedule): (r: Schedule)
    requires |key| > 0 && i < 256 == |sch.table|
    ensures |r.table| == 256
  {
    var j := Add(Add(key[Cyclic(i, |key|)], sch.table[i]), sch.index);
    Schedule(Exchange(sch.table, i, At(j)), j)
  }

  /** The table after `n` steps of the key schedule. */
  function Scheduled(key: seq<bv8>, n: nat): (r: Schedule)
    requires |key| > 0 && n <= 256
    ensures |r.table| == 256
    decreases n
  {
    if n == 0 then Schedule(seq(256, i requires 0 <= i < 256 => i as bv8), 0)
    else Stirred(key, n - 1, Scheduled(key, n - 1))
  }

  lemma IdentityInjective()
    ensures Injective(seq(256, i requires 0 <= i < 256 => i as bv8))
  {
    var t := seq(256, i requires 0 <= i < 256 => i as bv8);
    forall i, j | 0 <= i < j < |t| ensures t[i] != t[j] {
      ByteIs(i);
      ByteIs(j);
    }
  }

  lemma ExchangeInjective(t: seq<bv8>, i: nat, j: nat)
    requires Injective(t) && i < |t| && j < |t|
    ensures Injective(Exchange(t, i, j))
  {
  }

  lemma {:induction false} ScheduledInjective(key: seq<bv8>, n: nat)
    requires |key| > 0 && n <= 256
    ensures Injective(Scheduled(key, n).table)
    decreases n
  {
    hide Stirred, Injective;
    if n == 0 {
      IdentityInjective();
    } else {
      ScheduledInjective(key, n - 1);
      StirredInjective(key, n - 1, Scheduled(key, n - 1));
    }
  }

  lemma StirredInjective(key: seq<bv8>, i: nat, sch: Schedule)
    requires |key| > 0 && i < 256 == |sch.table| && Injective(sch.table)
    ensures Injective(Stirred(key, i, sch).table)
  {
    hide At, Exchange, Injective, Cyclic;
    ExchangeInjective(sch.table, i, At(Stirred(key, i, sch).index));
  }

  /** The schedule in its own terms: it starts with every byte in its place, and each step exchanges two entries. */
  lemma ScheduleIs(key: seq<bv8>, i: nat, r: Schedule, r': Schedule, j: nat)
    requires |key| > 0 && i < 256 && r == Scheduled(key, i) && r' == Scheduled(key, i + 1) && j == At(r'.index)
    ensures i == 0 ==> r.index == 0 && forall k :: 0 <= k < 256 ==> r.table[k] as int == k
    ensures r'.index == Add(Add(key[Cyclic(i, |key|)], r.table[i]), r.index)
    ensures r'.table == r.table[i := r.table[j]][j := r.table[i]]
  {
    hide At, Cyclic, Add;
    if i == 0 {
      forall k | 0 <= k < 256 ensures r.table[k] as int == k {
        ByteIs(k);
      }
    }
  }

  /** rc4_initstate */
  method InitState(key: seq<bv8>) returns (s: State)
    requires |key| > 0
    ensures s == State(0, 0, Scheduled(key, 256).table) && Injective(s.table)
  {
    hide At, Stirred, Scheduled, Cyclic, Exchange, Injective;
    var mstate := new bv8[256](i requires 0 <= i < 256 => i as bv8);
    var idx1: nat, idx2: bv8 := 0, 0;
    ScheduleStarts(key, mstate[..]);
    for i := 0 to 256
      invariant Schedule(mstate[..], idx2) == Scheduled(key, i) && idx1 == Cyclic(i, |key|)
    {
      ScheduleStep(key, i);
      idx2 := Stir(mstate, i, key, idx1, idx2);
      CyclicNext(i, |key|);
      idx1 := idx1 + 1;
      if idx1 >= |key| {
        idx1 := 0;
      }
    }
    ScheduledInjective(key, 256);
    s := State(0, 0, mstate[..]);
  }

  /** The body of the loop over the table */
  method Stir(mstate: array<bv8>, i: nat, key: seq<bv8>, idx1: nat, idx2: bv8) returns (idx: bv8)
    requires |key| > 0 && i < 256 == mstate.Length && idx1 == Cyclic(i, |key|)
    modifies mstate
    ensures Schedule(mstate[..], idx) == Stirred(key, i, Schedule(old(mstate[..]), idx2))
  {
    hide At, Cyclic, Exchange, Add;
    ghost var t := mstate[..];
    idx := Add(Add(key[idx1], mstate[i]), idx2);
    var j := At(idx);
    mstate[i], mstate[j] := mstate[j], mstate[i];
    Swapped(t, mstate[..], i, j);
  }

  lemma Swapped(t: seq<bv8>, t': seq<bv8>, i: nat, j: nat)
    requires i < |t| == |t'| && j < |t| && t'[i] == t[j] && t'[j] == t[i]
    requires forall k :: 0 <= k < |t| && k != i && k != j ==> t'[k] == t[k]
    ensures t' == Exchange(t, i, j)
  {
  }

  lemma ScheduleStarts(key: seq<bv8>, t: seq<bv8>)
    requires |key| > 0 && |t| == 256 && forall i :: 0 <= i < 256 ==> t[i] == i as bv8
    ensures Scheduled(key, 0) == Schedule(t, 0) && Cyclic(0, |key|) == 0
  {
    assert t == seq(256, i requires 0 <= i < 256 => i as bv8);
  }

  lemma ScheduleStep(key: seq<bv8>, i: nat)
    requires |key| > 0 && i < 256
    ensures Scheduled(key, i + 1) == Stirred(key, i, Scheduled(key, i))
  {
    hide Stirred;
  }

  /** Whatever is processed, each byte stays in the table exactly once. */
  lemma {:induction false} AfterInjective(s: State, n: nat)
    requires Injective(s.table)
    ensures Injective(After(s, n).table)
    decreases n
  {
    hide Advance;
    if n > 0 {
      StepExchanges(s, Advance(s), At(Advance(s).x), At(Advance(s).y));
      ExchangeInjective(s.table, At(Advance(s).x), At(Advance(s).y));
      AfterInjective(Advance(s), n - 1);
    }
  }

  // ------------------------------------------------------------------------------------
  // Streams
  // ------------------------------------------------------------------------------------

  function After(s: State, n: nat): State
    decreases n
  {
    if n == 0 then s else After(Advance(s), n - 1)
  }

  function Crypt(s: State, bytes: seq<bv8>): (out: seq<bv8>)
    ensures |out| == |bytes|
    decreases |bytes|
  {
    if bytes == [] then [] else [bytes[0] ^ KeyByte(s)] + Crypt(Advance(s), bytes[1..])
  }

  lemma {:induction false} AfterAdds(s: State, m: nat, n: nat)
    ensures After(s, m + n) == After(After(s, m), n)
    decreases m
  {
    if m == 0 {
    } else {
      AfterAdds(Advance(s), m - 1, n);
    }
  }

  lemma AfterStep(s: State, n: nat)
    ensures After(s, 0) == s && After(s, n + 1) == Advance(After(s, n))
  {
    AfterAdds(s, n, 1);
  }

  /** Processing a stream in two calls is the same as processing it in one. */
  lemma {:induction false} CryptAppend(s: State, a: seq<bv8>, b: seq<bv8>)
    ensures Crypt(s, a + b) == Crypt(s, a) + Crypt(After(s, |a|), b)
    decreases |a|
  {
    if a == [] {
      assert a + b == b;
    } else {
      assert (a + b)[1..] == a[1..] + b;
      CryptAppend(Advance(s), a[1..], b);
    }
  }

  lemma XorTwice(a: bv8, k: bv8)
    ensures (a ^ k) ^ k == a
  {
  }

  /** Two ends that start from the same state undo each other. */
  lemma {:induction false} CryptRoundTrip(s: State, plain: seq<bv8>)
    ensures Crypt(s, Crypt(s, plain)) == plain
    decreases |plain|
  {
    if plain == [] {
    } else {
      XorTwice(plain[0], KeyByte(s));
      CryptRoundTrip(Advance(s), plain[1..]);
      assert Crypt(s, plain)[1..] == Crypt(Advance(s), plain[1..]);
    }
  }

  /** Position `i` of the output depends on position `i` of the input and on the key alone. */
  lemma {:induction false} CryptAt(s: State, bytes: seq<bv8>, i: nat)
    requires i < |bytes|
    ensures Crypt(s, bytes)[i] == bytes[i] ^ KeyByte(After(s, i))
    decreases i
  {
    if i == 0 {
    } else {
      CryptAt(Advance(s), bytes[1..], i - 1);
    }
  }

  /** rc4_process_stream: crypts `len` bytes of `buf` in place, starting at `from`. */
  method ProcessStream(s: State, buf: array<bv8>, from: nat, len: nat) returns (s': State)
    requires from + len <= buf.Length
    modifies buf
    ensures s' == After(s, len)
    ensures buf[from..from + len] == Crypt(s, old(buf[from..from + len]))
    ensures forall j :: 0 <= j < buf.Length && !(from <= j < from + len) ==> buf[j] == old(buf[j])
  {
    hide Crypt, After, Advance, KeyByte;
    AfterStep(s, 0);
    s' := s;
    var i := 0;
    while i < len
      invariant 0 <= i <= len
      invariant s' == After(s, i)
      invariant forall j :: from <= j < from + i ==> buf[j] == old(buf[j]) ^ KeyByte(After(s, j - from))
      invariant forall j :: 0 <= j < buf.Length && !(from <= j < from + i) ==> buf[j] == old(buf[j])
    {
      AfterStep(s, i);
      buf[from + i] := buf[from + i] ^ KeyByte(s');
      s' := Advance(s');
      i := i + 1;
    }
    ghost var was := old(buf[from..from + len]);
    forall j | 0 <= j < len ensures buf[from + j] == Crypt(s, was)[j] {
      CryptAt(s, was, j);
    }
  }
}
