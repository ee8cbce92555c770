/**
 Outgoing connections (comm_connect_tcp and the callbacks below it, server/s_bsd.c). Each call
 hands over a callback; here a call is known by a ticket, and its end is recorded.
 */
module ConnectLayer {
  import opened LinkedLists

  type Ticket = nat

  datatype Status = Ok | ErrBind | ErrDns | ErrConnect | ErrTimeout

  /** The callback of a call was run with a status, or its descriptor was closed before. */
  datatype Outcome = Called(status: Status) | Abandoned

  /**
   The fields of fd_table that concern connecting: `callback` is connect.callback, `timer` the
   deadline while the timeout handler is comm_connect_timeout, `writer` whether the write handler
   is comm_connect_tryconnect, `dns` whether a resolver query is under way.
   */
  datatype Fde = Fde(open: bool, callback: Option<Ticket>, timer: Option<int>, writer: bool, dns: bool)

  const CLOSED := Fde(false, None, None, false, false)

  datatype State = State(table: seq<Fde>, ended: seq<(Ticket, Outcome)>, next: Ticket)

  // ------------------------------------------------------------------------------------
  // What holds at every point
  // ------------------------------------------------------------------------------------

  /**
   A connect that is not over waits for the resolver, or for the socket under a timer. Timer,
   write handler and query are armed only while the callback is still to run.
   */
  ghost predicate EntryOk(f: Fde) {
    && (!f.open ==> f == CLOSED)
    && (f.callback.Some? ==> f.dns || (f.writer && f.timer.Some?))
    && (f.dns || f.writer || f.timer.Some? ==> f.callback.Some?)
    && (f.dns ==> !f.writer && f.timer.None?)
  }

  ghost predicate EndedIn(ended: seq<(Ticket, Outcome)>, t: Ticket) {
    exists k :: 0 <= k < |ended| && ended[k].0 == t
  }

  ghost predicate PendingIn(table: seq<Fde>, t: Ticket) {
    exists fd :: 0 <= fd < |table| && table[fd].callback == Some(t)
  }

  /** Every call is pending on one descriptor or has ended, not both, and ended once. */
  ghost predicate Books(table: seq<Fde>, ended: seq<(Ticket, Outcome)>, next: Ticket) {
    && (forall i, j :: 0 <= i < j < |table| && table[i].callback.Some? ==> table[i].callback != table[j].callback)
    && (forall fd :: 0 <= fd < |table| && table[fd].callback.Some? ==>
          table[fd].callback.value < next && !EndedIn(ended, table[fd].callback.value))
    && (forall i, j :: 0 <= i < j < |ended| ==> ended[i].0 != ended[j].0)
    && (forall k :: 0 <= k < |ended| ==> ended[k].0 < next)
    && (forall t: Ticket :: t < next ==> EndedIn(ended, t) || PendingIn(table, t))
  }

  ghost predicate EntriesOk(table: seq<Fde>) {
    forall fd :: 0 <= fd < |table| ==> EntryOk(table[fd])
  }

  /** No call ends twice, whatever its callback does; a closed descriptor has nothing armed. */
  ghost predicate Once(st: State) {
    Books(st.table, st.ended, st.next) && forall fd :: 0 <= fd < |st.table| && !st.table[fd].open ==> st.table[fd] == CLOSED
  }

  /** And what has not ended has something armed, and nothing else has. */
  ghost predicate Inv(st: State) {
    Once(st) && EntriesOk(st.table)
  }

  // ------------------------------------------------------------------------------------
  // Steps
  // ------------------------------------------------------------------------------------

  /** The call of descriptor `fd`, if any, ends, and the entry becomes `f`. */
  function Over(st: State, fd: nat, f: Fde, o: Outcome): State
    requires fd < |st.table|
  {
    var t := st.table[fd].callback;
    State(st.table[fd := f], if t.Some? then st.ended + [(t.value, o)] else st.ended, st.next)
  }

  /** fd_close; script a descriptor that is not open does not happen */
  function Closed(st: State, fd: nat): State {
    if fd < |st.table| && st.table[fd].open then Over(st, fd, CLOSED, Abandoned) else st
  }

  function WithFde(st: State, fd: nat, f: Fde): State
    requires fd < |st.table|
  {
    st.(table := st.table[fd := f])
  }

  /**
   What a callback may do: fd_close, or comm_setselect for the write handler of its own descriptor,
   with a handler of its own or none, which replaces comm_connect_tryconnect.
   */
  datatype Act = Shut(fd: nat) | SetWriter

  /** One call of the callback for descriptor `own`; comm_setselect is not called on a closed descriptor. */
  function Did(st: State, own: nat, a: Act): State
    requires own < |st.table|
  {
    match a {
      case Shut(fd) => Closed(st, fd)
      case SetWriter => if st.table[own].open then WithFde(st, own, st.table[own].(writer := false)) else st
    }
  }

  function DidAll(st: State, own: nat, acts: seq<Act>): State
    requires own < |st.table|
    decreases |acts|
  {
    if acts == [] then st else DidAll(Did(st, own, acts[0]), own, acts[1..])
  }

  /** What a callback does, by the arguments it is called with: fd, status and data. */
  type Script = (nat, Status, Ticket) -> seq<Act>

  /** The calls leave nothing of the connect armed on the descriptor, whatever was. */
  predicate Disarms(acts: seq<Act>, fd: nat) {
    Shut(fd) in acts || SetWriter in acts
  }

  /** comm_connect_callback up to the call: callback and timer are cleared */
  function Settling(st: State, fd: nat, status: Status): State
    requires fd < |st.table|
  {
    Over(st, fd, st.table[fd].(callback := None, timer := None), Called(status))
  }

  /** comm_connect_callback: the callback runs last */
  function Settled(st: State, fd: nat, status: Status, script: Script): State
    requires fd < |st.table|
  {
    if st.table[fd].callback.None? then st else DidAll(Settling(st, fd, status), fd, script(fd, status, st.table[fd].callback.value))
  }

  lemma EndedMore(ended: seq<(Ticket, Outcome)>, e: (Ticket, Outcome), t: Ticket)
    ensures EndedIn(ended + [e], t) <==> EndedIn(ended, t) || e.0 == t
  {
    if EndedIn(ended, t) {
      var k :| 0 <= k < |ended| && ended[k].0 == t;
      assert (ended + [e])[k].0 == t;
    }
    if e.0 == t {
      assert (ended + [e])[|ended|].0 == t;
    }
  }

  lemma OverBooks(st: State, fd: nat, f: Fde, o: Outcome)
    requires Books(st.table, st.ended, st.next) && fd < |st.table| && f.callback.None?
    ensures Books(Over(st, fd, f, o).table, Over(st, fd, f, o).ended, st.next)
  {
    var st' := Over(st, fd, f, o);
    var t := st.table[fd].callback;
    forall k | 0 <= k < |st'.table| && st'.table[k].callback.Some? ensures !EndedIn(st'.ended, st'.table[k].callback.value) {
      if t.Some? {
        EndedMore(st.ended, (t.value, o), st'.table[k].callback.value);
      }
    }
    forall u: Ticket | u < st.next ensures EndedIn(st'.ended, u) || PendingIn(st'.table, u) {
      if t.Some? {
        EndedMore(st.ended, (t.value, o), u);
      }
      if PendingIn(st.table, u) {
        var k :| 0 <= k < |st.table| && st.table[k].callback == Some(u);
        assert k != fd ==> st'.table[k].callback == Some(u);
      }
    }
  }

  lemma ClosedOnce(st: State, fd: nat)
    requires Once(st)
    ensures Once(Closed(st, fd)) && Grown(st, Closed(st, fd))
  {
    if fd < |st.table| && st.table[fd].open {
      OverBooks(st, fd, CLOSED, Abandoned);
      OverGrown(st, fd, CLOSED, Abandoned);
    }
  }

  lemma ClosedKeeps(st: State, fd: nat, loose: int)
    requires InvBut(st, loose)
    ensures InvBut(Closed(st, fd), if loose == fd then -1 else loose) && Grown(st, Closed(st, fd))
  {
    hide Once;
    ClosedOnce(st, fd);
    ClosedAt(st, fd);
  }

  lemma ClosedAt(st: State, fd: nat)
    requires Once(st)
    ensures |Closed(st, fd).table| == |st.table|
    ensures forall k :: 0 <= k < |st.table| ==> Closed(st, fd).table[k] == if k == fd then CLOSED else st.table[k]
  {
  }

  /** All holds, but the entry of `loose` may have handlers left over. */
  ghost predicate InvBut(st: State, loose: int) {
    && Once(st)
    && (forall fd :: 0 <= fd < |st.table| && fd != loose ==> EntryOk(st.table[fd]))
    && (0 <= loose < |st.table| ==> st.table[loose].open)
  }

  /** Calls have at most ended: an entry is as before, or the call it had has ended. */
  ghost predicate Grown(st: State, st': State) {
    && |st'.table| == |st.table| && st.ended <= st'.ended && st'.next == st.next
    && forall fd :: 0 <= fd < |st.table| ==> EntryGrown(st.table[fd], st'.table[fd], st'.ended)
  }

  ghost predicate EntryGrown(f: Fde, f': Fde, ended: seq<(Ticket, Outcome)>) {
    f' == f || (f'.callback.None? && f'.timer.None? && (f.callback.Some? ==> EndedIn(ended, f.callback.value)))
  }

  lemma OverGrown(st: State, fd: nat, f: Fde, o: Outcome)
    requires fd < |st.table| && f.callback.None? && f.timer.None?
    ensures Grown(st, Over(st, fd, f, o))
  {
    var st' := Over(st, fd, f, o);
    if st.table[fd].callback.Some? {
      assert st'.ended[|st.ended|].0 == st.table[fd].callback.value;
    }
  }

  lemma EndedStays(ended: seq<(Ticket, Outcome)>, ended': seq<(Ticket, Outcome)>, t: Ticket)
    requires ended <= ended' && EndedIn(ended, t)
    ensures EndedIn(ended', t)
  {
    var k :| 0 <= k < |ended| && ended[k].0 == t;
    assert ended'[k].0 == t;
  }

  lemma GrownMore(a: State, b: State, c: State)
    requires Grown(a, b) && Grown(b, c)
    ensures Grown(a, c)
  {
    forall fd | 0 <= fd < |a.table| ensures EntryGrown(a.table[fd], c.table[fd], c.ended) {
      assert EntryGrown(a.table[fd], b.table[fd], b.ended) && EntryGrown(b.table[fd], c.table[fd], c.ended);
      if a.table[fd].callback.Some? && EndedIn(b.ended, a.table[fd].callback.value) {
        EndedStays(b.ended, c.ended, a.table[fd].callback.value);
      }
    }
  }

  lemma GrownSelf(st: State)
    ensures Grown(st, st)
  {
  }

  /** One call of a callback, once callback and timer are cleared. */
  lemma DidOnce(st: State, own: nat, a: Act)
    requires Once(st) && own < |st.table| && st.table[own].callback.None? && st.table[own].timer.None?
    ensures Once(Did(st, own, a)) && Grown(st, Did(st, own, a))
    ensures Did(st, own, a).table[own].callback.None? && Did(st, own, a).table[own].timer.None?
  {
    hide Books, Closed;
    GrownSelf(st);
    match a {
      case Shut(fd) =>
        ClosedOnce(st, fd);
        ClosedAt(st, fd);
      case SetWriter =>
        if st.table[own].open {
          WithFdeOnce(st, own, st.table[own].(writer := false));
        }
    }
  }

  lemma {:induction false} DidAllOnce(st: State, own: nat, acts: seq<Act>)
    requires Once(st) && own < |st.table| && st.table[own].callback.None? && st.table[own].timer.None?
    ensures Once(DidAll(st, own, acts)) && Grown(st, DidAll(st, own, acts))
    decreases |acts|
  {
    hide Once, Did, Grown;
    GrownSelf(st);
    if acts != [] {
      var st1 := Did(st, own, acts[0]);
      DidOnce(st, own, acts[0]);
      GrownTable(st, st1);
      DidAllOnce(st1, own, acts[1..]);
      GrownMore(st, st1, DidAll(st, own, acts));
    }
  }

  lemma GrownTable(st: State, st': State)
    requires Grown(st, st')
    ensures |st'.table| == |st.table|
  {
  }

  /** All is right but, while the descriptor is open, its own entry. */
  ghost predicate InvFor(st: State, own: nat)
    requires own < |st.table|
  {
    InvBut(st, if st.table[own].open then own else -1)
  }

  lemma DidKeeps(st: State, own: nat, a: Act)
    requires own < |st.table| && InvFor(st, own)
    ensures |Did(st, own, a).table| == |st.table| && InvFor(Did(st, own, a), own)
    ensures Did(st, own, a).table[own] ==
            if a == Shut(own) then CLOSED else if a.SetWriter? then st.table[own].(writer := false) else st.table[own]
  {
    hide Books, Closed;
    match a {
      case Shut(fd) =>
        ClosedKeeps(st, fd, if st.table[own].open then own else -1);
        ClosedAt(st, fd);
      case SetWriter =>
        if st.table[own].open {
          WithFdeKeeps(st, own, st.table[own].(writer := false));
        }
    }
  }

  /** What the calls leave of the descriptor's own entry. */
  lemma {:induction false} DidAllKeeps(st: State, own: nat, acts: seq<Act>)
    requires own < |st.table| && InvFor(st, own)
    ensures |DidAll(st, own, acts).table| == |st.table| && InvFor(DidAll(st, own, acts), own)
    ensures DidAll(st, own, acts).table[own] ==
            if Shut(own) in acts then CLOSED else if SetWriter in acts then st.table[own].(writer := false) else st.table[own]
    decreases |acts|
  {
    hide Once, Did, InvFor;
    if acts != [] {
      DidKeeps(st, own, acts[0]);
      DidAllKeeps(Did(st, own, acts[0]), own, acts[1..]);
      assert forall a :: a in acts <==> a == acts[0] || a in acts[1..];
    }
  }

  /** Whatever a callback does, its call has ended, for good. */
  lemma SettledOnce(st: State, fd: nat, status: Status, script: Script)
    requires fd < |st.table| && Once(st)
    ensures Once(Settled(st, fd, status, script)) && Grown(st, Settled(st, fd, status, script))
    ensures st.table[fd].callback.Some? ==> (st.table[fd].callback.value, Called(status)) in Settled(st, fd, status, script).ended
  {
    hide Books, DidAll;
    GrownSelf(st);
    if st.table[fd].callback.Some? {
      var f := st.table[fd].(callback := None, timer := None);
      var st1 := Settling(st, fd, status);
      var acts := script(fd, status, st.table[fd].callback.value);
      OverBooks(st, fd, f, Called(status));
      OverGrown(st, fd, f, Called(status));
      DidAllOnce(st1, fd, acts);
      GrownMore(st, st1, DidAll(st1, fd, acts));
      assert st1.ended[|st.ended|] == (st.table[fd].callback.value, Called(status));
    }
  }

  /**
   Running a callback keeps everything right exactly when nothing of the connect is left armed: the
   callback closes the descriptor, or no query was armed and the write handler was not or is replaced.
   */
  lemma SettledKeepsIff(st: State, fd: nat, status: Status, script: Script)
    requires fd < |st.table| && InvBut(st, fd) && st.table[fd].callback.Some?
    ensures Inv(Settled(st, fd, status, script)) <==>
              var acts := script(fd, status, st.table[fd].callback.value);
              Shut(fd) in acts || (!st.table[fd].dns && (!st.table[fd].writer || SetWriter in acts))
    ensures Grown(st, Settled(st, fd, status, script))
  {
    hide Books, DidAll;
    var st1 := Settling(st, fd, status);
    SettledOnce(st, fd, status, script);
    OverBooks(st, fd, st.table[fd].(callback := None, timer := None), Called(status));
    DidAllKeeps(st1, fd, script(fd, status, st.table[fd].callback.value));
    InvIff(Settled(st, fd, status, script), fd);
  }

  lemma InvIff(st: State, fd: nat)
    requires fd < |st.table| && InvFor(st, fd)
    ensures Inv(st) <==> EntryOk(st.table[fd])
  {
    hide Books;
  }

  // ------------------------------------------------------------------------------------
  // Events
  // ------------------------------------------------------------------------------------

  /** connect() has connected or is connected, would block, or fails. */
  datatype Attempt = Connects | Blocks | Fails

  /** comm_connect_tryconnect */
  function Tried(st: State, fd: nat, a: Attempt, script: Script): State
    requires fd < |st.table|
  {
    match a {
      case Connects => Settled(st, fd, Ok, script)
      case Blocks => WithFde(st, fd, st.table[fd].(writer := true))
      case Fails => Settled(st, fd, ErrConnect, script)
    }
  }

  /** How comm_connect_tcp gets on: bind() fails, the host has to be resolved, or it is an address. */
  datatype Begin = NoBind | Resolve | Address(a: Attempt)

  /** comm_connect_tcp */
  function Begun(st: State, fd: nat, b: Begin, deadline: int, script: Script): State
    requires fd < |st.table|
  {
    var st0 := State(st.table[fd := st.table[fd].(callback := Some(st.next))], st.ended, st.next + 1);
    match b {
      case NoBind => Settled(st0, fd, ErrBind, script)
      case Resolve => WithFde(st0, fd, st0.table[fd].(dns := true))
      case Address(a) => Tried(WithFde(st0, fd, st0.table[fd].(timer := Some(deadline))), fd, a, script)
    }
  }

  /** The socket becomes writable: the write handler is taken out and runs */
  function Writable(st: State, fd: nat, a: Attempt, script: Script): State
    requires fd < |st.table|
  {
    Tried(WithFde(st, fd, st.table[fd].(writer := false)), fd, a, script)
  }

  /** comm_connect_dns_callback; `a` is None if the resolver has failed */
  function Answered(st: State, fd: nat, a: Option<Attempt>, deadline: int, script: Script): State
    requires fd < |st.table|
  {
    var st0 := WithFde(st, fd, st.table[fd].(dns := false));
    if a.None? then Settled(st0, fd, ErrDns, script)
    else Tried(WithFde(st0, fd, st0.table[fd].(timer := Some(deadline))), fd, a.value, script)
  }

  /** comm_connect_timeout, after the timer is cleared */
  function TimedOut(st: State, fd: nat, script: Script): State
    requires fd < |st.table|
  {
    Settled(WithFde(st, fd, st.table[fd].(timer := None)), fd, ErrTimeout, script)
  }

  /** A change of the entry that leaves the callback. */
  lemma WithFdeKeeps(st: State, fd: nat, f: Fde)
    requires InvBut(st, fd) && fd < |st.table| && f.open && f.callback == st.table[fd].callback
    ensures InvBut(WithFde(st, fd, f), fd)
  {
    hide Books;
    WithFdeOnce(st, fd, f);
  }

  lemma WithFdeOnce(st: State, fd: nat, f: Fde)
    requires Once(st) && fd < |st.table| && f.open && f.callback == st.table[fd].callback
    ensures Once(WithFde(st, fd, f))
  {
    var st' := WithFde(st, fd, f);
    forall t: Ticket | t < st.next ensures EndedIn(st'.ended, t) || PendingIn(st'.table, t) {
      if PendingIn(st.table, t) {
        var k :| 0 <= k < |st.table| && st.table[k].callback == Some(t);
        assert st'.table[k].callback == Some(t);
      }
    }
  }

  lemma TriedKeeps(st: State, fd: nat, a: Attempt, script: Script)
    requires fd < |st.table| && InvBut(st, fd)
    requires st.table[fd].callback.Some? && st.table[fd].timer.Some? && !st.table[fd].writer && !st.table[fd].dns
    ensures Inv(Tried(st, fd, a, script)) && Tried(st, fd, a, script).next == st.next && st.ended <= Tried(st, fd, a, script).ended
  {
    hide Books, Settled;
    match a {
      case Connects => SettledKeepsIff(st, fd, Ok, script);
      case Blocks => WithFdeKeeps(st, fd, st.table[fd].(writer := true));
      case Fails => SettledKeepsIff(st, fd, ErrConnect, script);
    }
  }

  lemma BegunBooks(st: State, fd: nat)
    requires fd < |st.table| && Books(st.table, st.ended, st.next) && st.table[fd].callback.None?
    ensures Books(st.table[fd := st.table[fd].(callback := Some(st.next))], st.ended, st.next + 1)
  {
    var table := st.table[fd := st.table[fd].(callback := Some(st.next))];
    assert !EndedIn(st.ended, st.next);
    forall t: Ticket | t < st.next + 1 ensures EndedIn(st.ended, t) || PendingIn(table, t) {
      if t == st.next {
        assert table[fd].callback == Some(t);
      } else if PendingIn(st.table, t) {
        var k :| 0 <= k < |st.table| && st.table[k].callback == Some(t);
        assert table[k].callback == Some(t);
      }
    }
  }

  /** comm_connect_tcp on a descriptor that was just opened: the call is pending, or has ended. */
  lemma BegunKeeps(st: State, fd: nat, b: Begin, deadline: int, script: Script)
    requires Inv(st) && fd < |st.table| && st.table[fd].open && st.table[fd].callback.None?
    ensures Inv(Begun(st, fd, b, deadline, script)) && Begun(st, fd, b, deadline, script).next == st.next + 1
    ensures st.ended <= Begun(st, fd, b, deadline, script).ended
  {
    hide Books, Settled;
    BegunBooks(st, fd);
    assert EntryOk(st.table[fd]);
    var st0 := State(st.table[fd := st.table[fd].(callback := Some(st.next))], st.ended, st.next + 1);
    match b {
      case NoBind => SettledKeepsIff(st0, fd, ErrBind, script);
      case Resolve => WithFdeKeeps(st0, fd, st0.table[fd].(dns := true));
      case Address(a) =>
        var f := st0.table[fd].(timer := Some(deadline));
        WithFdeKeeps(st0, fd, f);
        TriedKeeps(WithFde(st0, fd, f), fd, a, script);
    }
  }

  lemma WritableKeeps(st: State, fd: nat, a: Attempt, script: Script)
    requires Inv(st) && fd < |st.table| && st.table[fd].writer
    ensures Inv(Writable(st, fd, a, script)) && st.ended <= Writable(st, fd, a, script).ended
  {
    hide Books, Tried;
    assert EntryOk(st.table[fd]);
    var f := st.table[fd].(writer := false);
    WithFdeKeeps(st, fd, f);
    TriedKeeps(WithFde(st, fd, f), fd, a, script);
  }

  lemma AnsweredKeeps(st: State, fd: nat, a: Option<Attempt>, deadline: int, script: Script)
    requires Inv(st) && fd < |st.table| && st.table[fd].dns
    ensures Inv(Answered(st, fd, a, deadline, script)) && st.ended <= Answered(st, fd, a, deadline, script).ended
  {
    hide Books, Tried, Settled;
    assert EntryOk(st.table[fd]);
    var f := st.table[fd].(dns := false);
    WithFdeKeeps(st, fd, f);
    if a.None? {
      SettledKeepsIff(WithFde(st, fd, f), fd, ErrDns, script);
    } else {
      WithFdeKeeps(st, fd, f.(timer := Some(deadline)));
      assert WithFde(WithFde(st, fd, f), fd, f.(timer := Some(deadline))) == WithFde(st, fd, f.(timer := Some(deadline)));
      TriedKeeps(WithFde(st, fd, f.(timer := Some(deadline))), fd, a.value, script);
    }
  }

  /**
   A connect that times out has its write handler armed, so all stays right exactly when the callback
   closes the descriptor or replaces that; otherwise comm_connect_tryconnect can run without a callback.
   */
  lemma TimedOutKeepsIff(st: State, fd: nat, script: Script)
    requires Inv(st) && fd < |st.table| && st.table[fd].timer.Some?
    ensures st.table[fd].callback.Some?
    ensures Inv(TimedOut(st, fd, script)) <==> Disarms(script(fd, ErrTimeout, st.table[fd].callback.value), fd)
    ensures Grown(st, TimedOut(st, fd, script)) && EndedIn(TimedOut(st, fd, script).ended, st.table[fd].callback.value)
    ensures TimedOut(st, fd, script).table[fd].timer.None?
  {
    hide Books, Settled;
    assert EntryOk(st.table[fd]);
    var f := st.table[fd].(timer := None);
    var st1 := WithFde(st, fd, f);
    WithFdeKeeps(st, fd, f);
    SettledKeepsIff(st1, fd, ErrTimeout, script);
    SettledOnce(st1, fd, ErrTimeout, script);
    TimedOutGrown(st, st1, TimedOut(st, fd, script), fd);
  }

  /**
   A callback that does nothing on a timeout leaves the write handler armed without a callback:
   a descriptor is opened, connects, times out, and becomes writable.
   */
  lemma WriterLeftOver(a: Attempt) returns (st: State)
    ensures var script: Script := (fd, status, t) => [];
            var start := State([Fde(true, None, None, false, false)], [], 0);
            && st == Begun(start, 0, Address(Blocks), 5, script) && Inv(start) && Inv(st)
            && var st' := TimedOut(st, 0, script);
               !Inv(st') && st'.ended == [(0, Called(ErrTimeout))] && Asserts(st'.table, CanWrite(0, a))
  {
    var script: Script := (fd, status, t) => [];
    var start := State([Fde(true, None, None, false, false)], [], 0);
    BegunKeeps(start, 0, Address(Blocks), 5, script);
    st := Begun(start, 0, Address(Blocks), 5, script);
    TimedOutKeepsIff(st, 0, script);
  }

  lemma TimedOutGrown(st: State, st1: State, st': State, fd: nat)
    requires fd < |st.table| && st1 == WithFde(st, fd, st.table[fd].(timer := None)) && Grown(st1, st')
    requires st.table[fd].callback.Some? ==> (st.table[fd].callback.value, Called(ErrTimeout)) in st'.ended
    requires Books(st'.table, st'.ended, st'.next)
    ensures Grown(st, st') && st'.table[fd].timer.None?
    ensures st.table[fd].callback.Some? ==> EndedIn(st'.ended, st.table[fd].callback.value)
  {
    hide Books;
    assert EntryGrown(st1.table[fd], st'.table[fd], st'.ended);
    if st.table[fd].callback.Some? {
      var t := st.table[fd].callback.value;
      var k :| 0 <= k < |st'.ended| && st'.ended[k] == (t, Called(ErrTimeout));
      assert EndedIn(st'.ended, t);
      NotBoth(st', fd, t);
    }
    forall j | 0 <= j < |st.table| ensures EntryGrown(st.table[j], st'.table[j], st'.ended) {
      assert EntryGrown(st1.table[j], st'.table[j], st'.ended);
    }
  }

  lemma NotBoth(st: State, fd: nat, t: Ticket)
    requires Books(st.table, st.ended, st.next) && fd < |st.table| && EndedIn(st.ended, t)
    ensures st.table[fd].callback != Some(t)
  {
  }

  /** The deadline has passed; the code takes a zero deadline for none. */
  predicate Overdue(f: Fde, now: int) {
    f.callback.Some? && f.timer.Some? && 0 < f.timer.value < now
  }

  /** A callback that is told of a timeout closes the descriptor, as those of server links and ident do, or sets its write handler. */
  ghost predicate TimeoutDisarms(script: Script) {
    forall fd, t :: Disarms(script(fd, ErrTimeout, t), fd)
  }

  lemma OpenedKeeps(st: State, fd: nat)
    requires Once(st) && fd < |st.table| && !st.table[fd].open
    ensures Once(WithFde(st, fd, st.table[fd].(open := true)))
    ensures Inv(st) ==> Inv(WithFde(st, fd, st.table[fd].(open := true)))
  {
    var st' := WithFde(st, fd, st.table[fd].(open := true));
    assert st.table[fd] == CLOSED;
    forall t: Ticket | t < st.next ensures EndedIn(st'.ended, t) || PendingIn(st'.table, t) {
      if PendingIn(st.table, t) {
        var k :| 0 <= k < |st.table| && st.table[k].callback == Some(t);
        assert st'.table[k].callback == Some(t);
      }
    }
  }

  // ------------------------------------------------------------------------------------
  // What a callback is told
  // ------------------------------------------------------------------------------------

  /** The next call to end is `t`, with this status; any that its callback ends are abandoned. */
  ghost predicate Tells(ended: seq<(Ticket, Outcome)>, ended': seq<(Ticket, Outcome)>, t: Ticket, status: Status) {
    ended + [(t, Called(status))] <= ended' && forall k :: |ended| < k < |ended'| ==> ended'[k].1 == Abandoned
  }

  lemma SettledTells(st: State, fd: nat, status: Status, script: Script)
    requires fd < |st.table| && st.table[fd].callback.Some?
    ensures Tells(st.ended, Settled(st, fd, status, script).ended, st.table[fd].callback.value, status)
  {
    hide DidAll;
    var st1 := Settling(st, fd, status);
    DidAllAbandons(st1, fd, script(fd, status, st.table[fd].callback.value));
  }

  /** A connect that succeeds or fails is reported so; one that blocks ends nothing and waits for the socket. */
  lemma TriedTells(st: State, fd: nat, a: Attempt, script: Script)
    requires fd < |st.table| && st.table[fd].callback.Some?
    ensures var t, st' := st.table[fd].callback.value, Tried(st, fd, a, script);
            && (a.Connects? ==> Tells(st.ended, st'.ended, t, Ok))
            && (a.Fails? ==> Tells(st.ended, st'.ended, t, ErrConnect))
            && (a.Blocks? ==> st' == st.(table := st.table[fd := st.table[fd].(writer := true)]))
  {
    hide Settled;
    match a {
      case Connects => SettledTells(st, fd, Ok, script);
      case Blocks =>
      case Fails => SettledTells(st, fd, ErrConnect, script);
    }
  }

  /** What the caller of comm_connect_tcp, with ticket `st.next`, is told at once, or what it waits for. */
  lemma BegunTells(st: State, fd: nat, b: Begin, deadline: int, script: Script)
    requires fd < |st.table|
    ensures var st' := Begun(st, fd, b, deadline, script);
            && (b.NoBind? ==> Tells(st.ended, st'.ended, st.next, ErrBind))
            && (b == Address(Connects) ==> Tells(st.ended, st'.ended, st.next, Ok))
            && (b == Address(Fails) ==> Tells(st.ended, st'.ended, st.next, ErrConnect))
            && (b.Resolve? ==> st'.ended == st.ended && st'.table == st.table[fd := st.table[fd].(callback := Some(st.next), dns := true)])
            && (b == Address(Blocks) ==>
                  st'.ended == st.ended && st'.table == st.table[fd := st.table[fd].(callback := Some(st.next), timer := Some(deadline), writer := true)])
  {
    hide Settled, Tried;
    var st0 := State(st.table[fd := st.table[fd].(callback := Some(st.next))], st.ended, st.next + 1);
    match b {
      case NoBind => SettledTells(st0, fd, ErrBind, script);
      case Resolve =>
      case Address(a) => TriedTells(WithFde(st0, fd, st0.table[fd].(timer := Some(deadline))), fd, a, script);
    }
  }

  /** A socket that becomes writable: connect() is tried again. */
  lemma WritableTells(st: State, fd: nat, a: Attempt, script: Script)
    requires fd < |st.table| && st.table[fd].callback.Some?
    ensures var t, st' := st.table[fd].callback.value, Writable(st, fd, a, script);
            && (a.Connects? ==> Tells(st.ended, st'.ended, t, Ok))
            && (a.Fails? ==> Tells(st.ended, st'.ended, t, ErrConnect))
            && (a.Blocks? ==> st' == st.(table := st.table[fd := st.table[fd].(writer := true)]))
  {
    hide Tried;
    TriedTells(WithFde(st, fd, st.table[fd].(writer := false)), fd, a, script);
  }

  /** A resolver that fails is reported as such; an answer leads to a connect under the deadline. */
  lemma AnsweredTells(st: State, fd: nat, a: Option<Attempt>, deadline: int, script: Script)
    requires fd < |st.table| && st.table[fd].callback.Some?
    ensures var t, st' := st.table[fd].callback.value, Answered(st, fd, a, deadline, script);
            && (a.None? ==> Tells(st.ended, st'.ended, t, ErrDns))
            && (a == Some(Connects) ==> Tells(st.ended, st'.ended, t, Ok))
            && (a == Some(Fails) ==> Tells(st.ended, st'.ended, t, ErrConnect))
            && (a == Some(Blocks) ==>
                  st' == st.(table := st.table[fd := st.table[fd].(dns := false, timer := Some(deadline), writer := true)]))
  {
    hide Tried, Settled;
    var st0 := WithFde(st, fd, st.table[fd].(dns := false));
    if a.None? {
      SettledTells(st0, fd, ErrDns, script);
    } else {
      TriedTells(WithFde(st0, fd, st0.table[fd].(timer := Some(deadline))), fd, a.value, script);
    }
  }

  /** A timeout is reported as such. */
  lemma TimedOutTells(st: State, fd: nat, script: Script)
    requires fd < |st.table| && st.table[fd].callback.Some?
    ensures Tells(st.ended, TimedOut(st, fd, script).ended, st.table[fd].callback.value, ErrTimeout)
  {
    hide Settled;
    SettledTells(WithFde(st, fd, st.table[fd].(timer := None)), fd, ErrTimeout, script);
  }

  /** What a callback leaves of the descriptors: those it closes are closed, others but its own are untouched. */
  lemma {:induction false} DidAllTouches(st: State, own: nat, acts: seq<Act>)
    requires own < |st.table|
    ensures var table' := DidAll(st, own, acts).table;
            && |table'| == |st.table|
            && (forall k :: 0 <= k < |st.table| && (st.table[k] == CLOSED || (Shut(k) in acts && st.table[k].open)) ==> table'[k] == CLOSED)
            && (forall k :: 0 <= k < |st.table| && k != own && Shut(k) !in acts ==> table'[k] == st.table[k])
    decreases |acts|
  {
    if acts != [] {
      DidAllTouches(Did(st, own, acts[0]), own, acts[1..]);
      assert forall a :: a in acts <==> a == acts[0] || a in acts[1..];
    }
  }

  /** The calls that a callback ends by closing descriptors are abandoned. */
  lemma {:induction false} DidAllAbandons(st: State, own: nat, acts: seq<Act>)
    requires own < |st.table|
    ensures st.ended <= DidAll(st, own, acts).ended
    ensures forall k :: |st.ended| <= k < |DidAll(st, own, acts).ended| ==> DidAll(st, own, acts).ended[k].1 == Abandoned
    decreases |acts|
  {
    if acts != [] {
      DidAllAbandons(Did(st, own, acts[0]), own, acts[1..]);
    }
  }

  // ------------------------------------------------------------------------------------
  // Whatever the callbacks do
  // ------------------------------------------------------------------------------------

  /** History only grows, and no call ends twice. */
  ghost predicate StaysOnce(st: State, st': State) {
    Once(st') && st.ended <= st'.ended
  }

  lemma TriedOnce(st: State, fd: nat, a: Attempt, script: Script)
    requires Once(st) && fd < |st.table| && st.table[fd].open
    ensures StaysOnce(st, Tried(st, fd, a, script))
  {
    hide Books, Settled;
    match a {
      case Connects => SettledOnce(st, fd, Ok, script);
      case Blocks => WithFdeOnce(st, fd, st.table[fd].(writer := true));
      case Fails => SettledOnce(st, fd, ErrConnect, script);
    }
  }

  lemma BegunOnce(st: State, fd: nat, b: Begin, deadline: int, script: Script)
    requires Once(st) && fd < |st.table| && st.table[fd].open && st.table[fd].callback.None?
    ensures StaysOnce(st, Begun(st, fd, b, deadline, script))
  {
    hide Books, Settled, Tried;
    BegunBooks(st, fd);
    var st0 := State(st.table[fd := st.table[fd].(callback := Some(st.next))], st.ended, st.next + 1);
    match b {
      case NoBind => SettledOnce(st0, fd, ErrBind, script);
      case Resolve => WithFdeOnce(st0, fd, st0.table[fd].(dns := true));
      case Address(a) =>
        var f := st0.table[fd].(timer := Some(deadline));
        WithFdeOnce(st0, fd, f);
        TriedOnce(WithFde(st0, fd, f), fd, a, script);
    }
  }

  lemma WritableOnce(st: State, fd: nat, a: Attempt, script: Script)
    requires Once(st) && fd < |st.table| && st.table[fd].open
    ensures StaysOnce(st, Writable(st, fd, a, script))
  {
    hide Books, Tried;
    var f := st.table[fd].(writer := false);
    WithFdeOnce(st, fd, f);
    TriedOnce(WithFde(st, fd, f), fd, a, script);
  }

  lemma AnsweredOnce(st: State, fd: nat, a: Option<Attempt>, deadline: int, script: Script)
    requires Once(st) && fd < |st.table| && st.table[fd].open
    ensures StaysOnce(st, Answered(st, fd, a, deadline, script))
  {
    hide Books, Tried, Settled;
    var st0 := WithFde(st, fd, st.table[fd].(dns := false));
    WithFdeOnce(st, fd, st0.table[fd]);
    if a.None? {
      SettledOnce(st0, fd, ErrDns, script);
    } else {
      var f := st0.table[fd].(timer := Some(deadline));
      WithFdeOnce(st0, fd, f);
      TriedOnce(WithFde(st0, fd, f), fd, a.value, script);
    }
  }

  /** A timeout ends the call of its descriptor, if that has one, and disarms the timer. */
  lemma TimedOutOnce(st: State, fd: nat, script: Script)
    requires Once(st) && fd < |st.table| && st.table[fd].open
    ensures Once(TimedOut(st, fd, script)) && Grown(st, TimedOut(st, fd, script)) && TimedOut(st, fd, script).table[fd].timer.None?
  {
    hide Books, Settled;
    var f := st.table[fd].(timer := None);
    var st1 := WithFde(st, fd, f);
    WithFdeOnce(st, fd, f);
    SettledOnce(st1, fd, ErrTimeout, script);
    TimedOutGrown(st, st1, TimedOut(st, fd, script), fd);
  }

  lemma GrownEnded(st: State, st': State)
    requires Grown(st, st')
    ensures st.ended <= st'.ended
  {
  }

  lemma NotOverdue(st: State, st': State, fd: nat, now: int)
    requires Grown(st, st') && fd < |st.table| && st'.table[fd].timer.None?
    requires forall k :: 0 <= k < fd ==> !Overdue(st.table[k], now)
    ensures forall k :: 0 <= k <= fd ==> !Overdue(st'.table[k], now)
  {
    forall k | 0 <= k <= fd ensures !Overdue(st'.table[k], now) {
      assert EntryGrown(st.table[k], st'.table[k], st'.ended);
    }
  }

  /** Since the start of a pass, calls have ended by a timeout that was due then, or because they were closed. */
  ghost predicate Expire(st: State, ended: seq<(Ticket, Outcome)>, now: int) {
    forall k :: |st.ended| <= k < |ended| ==>
      ended[k].1 == Abandoned || (ended[k].1 == Called(ErrTimeout) &&
        exists fd :: 0 <= fd < |st.table| && st.table[fd].callback == Some(ended[k].0) && Overdue(st.table[fd], now))
  }

  lemma ExpireMore(st0: State, st: State, fd: nat, now: int, script: Script)
    requires Grown(st0, st) && fd < |st.table| && Expire(st0, st.ended, now)
    requires st.table[fd].timer.Some? && 0 < st.table[fd].timer.value < now
    ensures Expire(st0, TimedOut(st, fd, script).ended, now)
  {
    hide Settled;
    if st.table[fd].callback.Some? {
      TimedOutTells(st, fd, script);
      assert EntryGrown(st0.table[fd], st.table[fd], st.ended);
      assert Overdue(st0.table[fd], now);
    } else {
      UncalledEndsNothing(WithFde(st, fd, st.table[fd].(timer := None)), fd, ErrTimeout, script);
    }
  }

  lemma UncalledEndsNothing(st: State, fd: nat, status: Status, script: Script)
    requires fd < |st.table| && st.table[fd].callback.None?
    ensures Settled(st, fd, status, script) == st
  {
  }

  /**
   A pass of comm_checktimeouts: whose deadline has passed is told of a timeout, unless a callback
   has closed its descriptor before, and nobody else is told anything.
   */
  ghost predicate Passed(st: State, st': State, now: int) {
    && st.ended <= st'.ended && |st'.table| == |st.table| && st'.next == st.next
    && (forall fd :: 0 <= fd < |st.table| && st.table[fd].callback.Some? && st.table[fd].timer.Some? && 0 < st.table[fd].timer.value < now ==>
          var t := st.table[fd].callback.value; (t, Called(ErrTimeout)) in st'.ended || (t, Abandoned) in st'.ended)
    && Expire(st, st'.ended, now)
  }

  lemma Expired(st: State, st': State, now: int)
    requires Once(st) && Grown(st, st') && Expire(st, st'.ended, now) && st.ended <= st'.ended
    requires forall fd :: 0 <= fd < |st.table| && Overdue(st.table[fd], now) ==> EndedIn(st'.ended, st.table[fd].callback.value)
    ensures Passed(st, st', now)
  {
    forall fd | 0 <= fd < |st.table| && Overdue(st.table[fd], now)
      ensures var t := st.table[fd].callback.value; (t, Called(ErrTimeout)) in st'.ended || (t, Abandoned) in st'.ended {
      var t := st.table[fd].callback.value;
      var k :| 0 <= k < |st'.ended| && st'.ended[k].0 == t;
      assert k < |st.ended| ==> EndedIn(st.ended, t);
      assert st'.ended[k] in st'.ended;
    }
  }

  lemma OverdueEnded(st: State, st': State, now: int)
    requires Grown(st, st') && forall k :: 0 <= k < |st'.table| ==> !Overdue(st'.table[k], now)
    ensures forall fd :: 0 <= fd < |st.table| && Overdue(st.table[fd], now) ==> EndedIn(st'.ended, st.table[fd].callback.value)
  {
    forall fd | 0 <= fd < |st.table| && Overdue(st.table[fd], now) ensures EndedIn(st'.ended, st.table[fd].callback.value) {
      assert EntryGrown(st.table[fd], st'.table[fd], st'.ended) && !Overdue(st'.table[fd], now);
    }
  }

  datatype Event =
    | Open(fd: nat)
    | Close(fd: nat)
    | Connect(fd: nat, b: Begin, timeout: nat)
    | CanWrite(fd: nat, a: Attempt)
    | Reply(fd: nat, r: Option<Attempt>)
    | CheckTimeouts

  /** The event makes comm_connect_tryconnect run without a callback. */
  predicate Asserts(table: seq<Fde>, e: Event) {
    match e {
      case CanWrite(fd, _) => fd < |table| && table[fd].writer && table[fd].callback.None?
      case Reply(fd, r) => fd < |table| && table[fd].dns && table[fd].callback.None? && r.Some?
      case _ => false
    }
  }

  lemma NothingAsserts(st: State, e: Event)
    requires Once(st)
    ensures Inv(st) ==> !Asserts(st.table, e)
    ensures forall fd :: 0 <= fd < |st.table| && (st.table[fd].writer || st.table[fd].dns || st.table[fd].callback.Some?) ==> st.table[fd].open
  {
    hide Books;
    if Inv(st) {
      match e {
        case CanWrite(fd, _) => assert fd < |st.table| ==> EntryOk(st.table[fd]);
        case Reply(fd, _) => assert fd < |st.table| ==> EntryOk(st.table[fd]);
        case _ =>
      }
    }
  }

  /** What an event makes of the table; those that nothing is armed for do not happen. */
  ghost predicate Follows(st: State, e: Event, now: int, script: Script, st': State) {
    match e {
      case Open(fd) => st' == if fd < |st.table| && !st.table[fd].open then WithFde(st, fd, st.table[fd].(open := true)) else st
      case Close(fd) => st' == Closed(st, fd)
      case Connect(fd, b, timeout) =>
        st' == if fd < |st.table| && st.table[fd].open && st.table[fd].callback.None? then Begun(st, fd, b, now + timeout, script) else st
      case CanWrite(fd, a) => st' == if fd < |st.table| && st.table[fd].writer then Writable(st, fd, a, script) else st
      case Reply(fd, a) => st' == if fd < |st.table| && st.table[fd].dns then Answered(st, fd, a, now + 30, script) else st
      case CheckTimeouts => Passed(st, st', now)
    }
  }

  // ------------------------------------------------------------------------------------
  // The code
  // ------------------------------------------------------------------------------------

  class Comm {
    const table: array<Fde>
    var ended: seq<(Ticket, Outcome)>
    var next: Ticket

    ghost function View(): State
      reads this, table
    {
      State(table[..], ended, next)
    }

    constructor (connections: nat)
      ensures Inv(View()) && next == 0 && table.Length == connections
    {
      table := new Fde[connections](i => CLOSED);
      ended, next := [], 0;
    }

    /** fd_close */
    method FdClose(fd: nat)
      modifies this, table
      ensures View() == Closed(old(View()), fd)
      ensures fd < table.Length && old(table[fd].open) ==>
        table[fd] == CLOSED && ended == old(ended) + if old(table[fd].callback.Some?) then [(old(table[fd].callback.value), Abandoned)] else []
    {
      if fd < table.Length && table[fd].open {
        if table[fd].callback.Some? {
          ended := ended + [(table[fd].callback.value, Abandoned)];
        }
        table[fd] := CLOSED;
      }
    }

    /** comm_connect_callback */
    method ConnectCallback(fd: nat, status: Status, script: Script)
      requires fd < table.Length
      modifies this, table
      ensures View() == Settled(old(View()), fd, status, script)
      ensures old(table[fd].callback.Some?) ==> Tells(old(ended), ended, old(table[fd].callback.value), status)
    {
      hide Closed;
      if table[fd].callback.None? {
        return;
      }
      SettledTells(View(), fd, status, script);
      var t := table[fd].callback.value;
      table[fd] := table[fd].(callback := None);
      table[fd] := table[fd].(timer := None);
      ended := ended + [(t, Called(status))];
      assert View() == Settling(old(View()), fd, status);
      ghost var st := View();
      var acts := script(fd, status, t);
      for i := 0 to |acts|
        invariant DidAll(View(), fd, acts[i..]) == DidAll(st, fd, acts)
      {
        assert acts[i..][0] == acts[i] && acts[i..][1..] == acts[i + 1..];
        match acts[i] {
          case Shut(other) => FdClose(other);
          case SetWriter =>
            if table[fd].open {
              ghost var now := View();
              table[fd] := table[fd].(writer := false);
              assert View() == WithFde(now, fd, now.table[fd].(writer := false));
            }
        }
      }
    }

    /** comm_connect_tryconnect */
    method TryConnect(fd: nat, a: Attempt, script: Script)
      requires fd < table.Length && table[fd].callback.Some?
      modifies this, table
      ensures View() == Tried(old(View()), fd, a, script)
      ensures a.Connects? ==> Tells(old(ended), ended, old(table[fd].callback.value), Ok)
      ensures a.Fails? ==> Tells(old(ended), ended, old(table[fd].callback.value), ErrConnect)
      ensures a.Blocks? ==> ended == old(ended) && table[fd] == old(table[fd]).(writer := true)
    {
      hide Settled, Tells;
      match a {
        case Connects => ConnectCallback(fd, Ok, script);
        case Blocks => table[fd] := table[fd].(writer := true);
        case Fails => ConnectCallback(fd, ErrConnect, script);
      }
    }

    /** comm_connect_tcp */
    method ConnectTcp(fd: nat, b: Begin, timeout: nat, now: int, script: Script)
      requires fd < table.Length && table[fd].open && table[fd].callback.None?
      modifies this, table
      ensures View() == Begun(old(View()), fd, b, now + timeout, script)
      ensures b.NoBind? ==> Tells(old(ended), ended, old(next), ErrBind)
      ensures b == Address(Connects) ==> Tells(old(ended), ended, old(next), Ok)
      ensures b == Address(Fails) ==> Tells(old(ended), ended, old(next), ErrConnect)
      ensures b.Resolve? ==> ended == old(ended) && table[fd] == old(table[fd]).(callback := Some(old(next)), dns := true)
      ensures b == Address(Blocks) ==>
        ended == old(ended) && table[fd] == old(table[fd]).(callback := Some(old(next)), timer := Some(now + timeout), writer := true)
    {
      hide Settled, Tried, Tells;
      BegunTells(View(), fd, b, now + timeout, script);
      table[fd] := table[fd].(callback := Some(next));
      next := next + 1;
      ghost var st0 := State(old(table[..])[fd := old(table[fd]).(callback := Some(old(next)))], ended, next);
      assert View() == st0;
      match b {
        case NoBind => ConnectCallback(fd, ErrBind, script);
        case Resolve => table[fd] := table[fd].(dns := true);
        case Address(a) =>
          table[fd] := table[fd].(timer := Some(now + timeout));
          assert View() == WithFde(st0, fd, st0.table[fd].(timer := Some(now + timeout)));
          TryConnect(fd, a, script);
      }
    }

    /** comm_connect_dns_callback; the deadline is 30 seconds from now */
    method DnsCallback(fd: nat, a: Option<Attempt>, now: int, script: Script)
      requires fd < table.Length && (table[fd].callback.Some? || a.None?)
      modifies this, table
      ensures View() == Answered(old(View()), fd, a, now + 30, script)
      ensures old(table[fd].callback.Some?) ==>
        && (a.None? ==> Tells(old(ended), ended, old(table[fd].callback.value), ErrDns))
        && (a == Some(Connects) ==> Tells(old(ended), ended, old(table[fd].callback.value), Ok))
        && (a == Some(Fails) ==> Tells(old(ended), ended, old(table[fd].callback.value), ErrConnect))
        && (a == Some(Blocks) ==> ended == old(ended) && table[fd] == old(table[fd]).(dns := false, timer := Some(now + 30), writer := true))
    {
      hide Settled, Tried, Tells;
      if table[fd].callback.Some? {
        AnsweredTells(View(), fd, a, now + 30, script);
      }
      ghost var f := table[fd];
      table[fd] := table[fd].(dns := false);
      ghost var st0 := View();
      assert st0 == WithFde(old(View()), fd, f.(dns := false));
      if a.None? {
        ConnectCallback(fd, ErrDns, script);
      } else {
        table[fd] := table[fd].(timer := Some(now + 30));
        assert View() == WithFde(st0, fd, st0.table[fd].(timer := Some(now + 30)));
        TryConnect(fd, a.value, script);
      }
    }

    /**
     comm_checktimeouts: whatever the callbacks do, each call that was pending under a deadline that
     has passed has ended after it, with a timeout unless a callback of this pass has closed its
     descriptor before; no other call is told anything. Nothing is left armed if callbacks close
     their descriptor on a timeout, or set its write handler.
     */
    method Sweep(now: int, script: Script)
      requires Once(View())
      modifies this, table
      ensures Once(View()) && Grown(old(View()), View()) && Passed(old(View()), View(), now)
      ensures old(Inv(View())) && TimeoutDisarms(script) ==> Inv(View())
    {
      hide Books, Settled, Grown, EntriesOk;
      GrownSelf(View());
      for fd := 0 to table.Length
        invariant Once(View()) && Grown(old(View()), View())
        invariant old(Inv(View())) && TimeoutDisarms(script) ==> Inv(View())
        invariant forall k :: 0 <= k < fd ==> !Overdue(table[k], now)
        invariant Expire(old(View()), ended, now)
      {
        ghost var st := View();
        if table[fd].open && table[fd].timer.Some? && table[fd].timer.value > 0 && table[fd].timer.value < now {
          TimedOutOnce(st, fd, script);
          ExpireMore(old(View()), st, fd, now, script);
          if Inv(st) {
            TimedOutKeepsIff(st, fd, script);
          }
          table[fd] := table[fd].(timer := None);
          assert View() == WithFde(st, fd, st.table[fd].(timer := None));
          ConnectCallback(fd, ErrTimeout, script);
          NotOverdue(st, View(), fd, now);
          GrownMore(old(View()), st, View());
        }
      }
      OverdueEnded(old(View()), View(), now);
      GrownEnded(old(View()), View());
      Expired(old(View()), View(), now);
    }

    /**
     One event; those that nothing is armed for do not happen. comm_connect_tryconnect asserts that
     its callback is still to run, and the daemon ends where it is not.
     */
    method Do(e: Event, now: int, script: Script) returns (asserts: bool)
      requires Once(View())
      modifies this, table
      ensures Once(View()) && old(ended) <= ended && asserts == Asserts(old(table[..]), e) && (asserts ==> View() == old(View()))
      ensures !asserts ==> Follows(old(View()), e, now, script, View())
      ensures old(Inv(View())) && TimeoutDisarms(script) ==> Inv(View()) && !asserts
    {
      hide Books, Settled, Tried, Begun, Answered, TimeoutDisarms, Grown;
      asserts := false;
      NothingAsserts(View(), e);
      match e {
        case Open(fd) =>
          if fd < table.Length && !table[fd].open {
            OpenedKeeps(View(), fd);
            table[fd] := table[fd].(open := true);
            assert View() == WithFde(old(View()), fd, old(table[fd]).(open := true));
          }
        case Close(fd) =>
          ClosedOnce(View(), fd);
          GrownEnded(View(), Closed(View(), fd));
          if Inv(View()) {
            ClosedKeeps(View(), fd, -1);
          }
          FdClose(fd);
        case Connect(fd, b, timeout) =>
          if fd < table.Length && table[fd].open && table[fd].callback.None? {
            BegunOnce(View(), fd, b, now + timeout, script);
            if Inv(View()) {
              BegunKeeps(View(), fd, b, now + timeout, script);
            }
            ConnectTcp(fd, b, timeout, now, script);
          }
        case CanWrite(fd, a) =>
          if fd < table.Length && table[fd].writer {
            if table[fd].callback.None? {
              return true;
            }
            WritableOnce(View(), fd, a, script);
            if Inv(View()) {
              WritableKeeps(View(), fd, a, script);
            }
            table[fd] := table[fd].(writer := false);
            assert View() == WithFde(old(View()), fd, old(table[fd]).(writer := false));
            TryConnect(fd, a, script);
          }
        case Reply(fd, a) =>
          if fd < table.Length && table[fd].dns {
            if table[fd].callback.None? && a.Some? {
              return true;
            }
            AnsweredOnce(View(), fd, a, now + 30, script);
            if Inv(View()) {
              AnsweredKeeps(View(), fd, a, now + 30, script);
            }
            DnsCallback(fd, a, now, script);
          }
        case CheckTimeouts =>
          Sweep(now, script);
          GrownEnded(old(View()), View());
      }
    }

    /**
     Any run, whatever the callbacks do: the callback of each call has run once, or its descriptor
     was closed before, or it is still to run. If callbacks close their descriptor on a timeout, or
     set its write handler, the assertion never fails and something is armed for every call that has not ended.
     */
    method Run(events: seq<(Event, int)>, script: Script) returns (done: nat, asserts: bool, ghost trace: seq<State>)
      requires Once(View())
      modifies this, table
      ensures done <= |events| && |trace| == done + 1 && trace[0] == old(View()) && trace[done] == View()
      ensures forall k :: 0 <= k < done ==> Follows(trace[k], events[k].0, events[k].1, script, trace[k + 1])
      ensures Once(View()) && old(ended) <= ended
      ensures (asserts <==> done < |events| && Asserts(table[..], events[done].0)) && (!asserts ==> done == |events|)
      ensures old(Inv(View())) && TimeoutDisarms(script) ==> Inv(View()) && !asserts
    {
      hide Once, EntriesOk, TimeoutDisarms, Follows;
      done, asserts, trace := 0, false, [View()];
      while done < |events|
        invariant done <= |events| && Once(View()) && old(ended) <= ended
        invariant |trace| == done + 1 && trace[0] == old(View()) && trace[done] == View()
        invariant forall k :: 0 <= k < done ==> Follows(trace[k], events[k].0, events[k].1, script, trace[k + 1])
        invariant old(Inv(View())) && TimeoutDisarms(script) ==> Inv(View())
      {
        asserts := Do(events[done].0, now := events[done].1, script := script);
        if asserts {
          return;
        }
        trace := trace + [View()];
        done := done + 1;
      }
    }
  }
}
