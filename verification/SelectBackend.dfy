/**
 The select() backend (server/s_bsd_select.c): four sets of descriptors, reading and writing for
 IRC and for HTTP, together with the bound highest_fd that src/fd.c keeps.
 */
module SelectBackend {
  import opened LinkedLists
  import opened Readiness

  datatype Sets = Sets(rd: set<int>, wr: set<int>)

  datatype State = State(table: seq<Entry>, ircd: Sets, httpd: Sets, highest: int)

  ghost function Handlers(st: State): Plain {
    HandlersOf(st.table)
  }

  // ------------------------------------------------------------------------------------
  // What holds at every point
  // ------------------------------------------------------------------------------------

  function BitsOf(s: Sets, fd: int): Mask {
    Mask(fd in s.rd, fd in s.wr)
  }

  /** The sets of its list ask for the handlers of `fd`, the other sets for nothing. */
  ghost predicate FdOk(f: Entry, ircd: Mask, httpd: Mask) {
    && ircd == (if f.list.IrcdList? then Interest(f.h) else NOTHING)
    && httpd == (if f.list.HttpdList? then Interest(f.h) else NOTHING)
    && (f.list.NoList? ==> f.h == IDLE) && (!f.open ==> f == ZERO)
  }

  /** highest_fd is the highest open descriptor. */
  ghost predicate IsHighest(table: seq<Entry>, highest: int) {
    && -1 <= highest < |table| && (highest >= 0 ==> table[highest].open)
    && forall fd :: highest < fd < |table| ==> !table[fd].open
  }

  ghost predicate SetsOk(st: State) {
    && (forall fd :: 0 <= fd < |st.table| ==> FdOk(st.table[fd], BitsOf(st.ircd, fd), BitsOf(st.httpd, fd)))
    && (forall fd :: BitsOf(st.ircd, fd) != NOTHING || BitsOf(st.httpd, fd) != NOTHING ==> 0 <= fd < |st.table|)
  }

  ghost predicate Inv(st: State) {
    SetsOk(st) && IsHighest(st.table, st.highest)
  }

  /** What select() is asked about `fd`: only descriptors up to highest_fd count. */
  ghost function Asked(st: State, http: bool, fd: int): Mask {
    if fd <= st.highest then BitsOf(if http then st.httpd else st.ircd, fd) else NOTHING
  }

  /** The kernel is asked for exactly what there are handlers for. */
  lemma KernelIsAskedExactly(st: State, fd: nat)
    requires Inv(st) && fd < |st.table|
    ensures Asked(st, false, fd) == (if st.table[fd].open && st.table[fd].list.IrcdList? then Interest(st.table[fd].h) else NOTHING)
    ensures Asked(st, true, fd) == (if st.table[fd].open && st.table[fd].list.HttpdList? then Interest(st.table[fd].h) else NOTHING)
    ensures st.table[fd].list.NoList? ==> Interest(st.table[fd].h) == NOTHING
  {
    assert FdOk(st.table[fd], BitsOf(st.ircd, fd), BitsOf(st.httpd, fd));
  }

  // ------------------------------------------------------------------------------------
  // Registering
  // ------------------------------------------------------------------------------------

  function SetBit(s: Sets, fd: int, d: Dir, on: bool): (r: Sets)
    ensures BitsOf(r, fd) == WithBit(BitsOf(s, fd), d, on)
    ensures forall k :: k != fd ==> BitsOf(r, k) == BitsOf(s, k)
  {
    match d {
      case Read => s.(rd := if on then s.rd + {fd} else s.rd - {fd})
      case Write => s.(wr := if on then s.wr + {fd} else s.wr - {fd})
    }
  }

  /** select_update_selectfds: without a list, all four bits are cleared. */
  function Updated(st: State, fd: nat, list: FdList, d: Dir, on: bool): State {
    match list {
      case IrcdList => st.(ircd := SetBit(st.ircd, fd, d, on))
      case HttpdList => st.(httpd := SetBit(st.httpd, fd, d, on))
      case NoList => st.(ircd := Sets(st.ircd.rd - {fd}, st.ircd.wr - {fd}), httpd := Sets(st.httpd.rd - {fd}, st.httpd.wr - {fd}))
    }
  }

  function SetDir(st: State, fd: nat, list: FdList, d: Dir, h: Option<Handler>): State
    requires fd < |st.table|
  {
    Updated(st.(table := st.table[fd := st.table[fd].(h := With(st.table[fd].h, d, h))]), fd, list, d, h.Some?)
  }

  /** comm_setselect */
  function Selected(st: State, fd: nat, list: FdList, read: bool, write: bool, h: Option<Handler>): State
    requires fd < |st.table|
  {
    var st0 := st.(table := st.table[fd := st.table[fd].(list := list)]);
    var st1 := if read then SetDir(st0, fd, list, Read, h) else st0;
    if write then SetDir(st1, fd, list, Write, h) else st1
  }

  /** The loop of fdlist_update_biggest */
  function Lowered(table: seq<Entry>, highest: int): (m: int)
    requires -1 <= highest < |table|
    ensures -1 <= m <= highest && (m >= 0 ==> table[m].open) && forall fd :: m < fd <= highest ==> !table[fd].open
    decreases highest + 1
  {
    if highest >= 0 && !table[highest].open then Lowered(table, highest - 1) else highest
  }

  /** fd_close */
  function Closed(st: State, fd: nat): State
    requires fd < |st.table| && -1 <= st.highest < |st.table|
  {
    var st1 := Selected(st, fd, NoList, true, true, None);
    var table := st1.table[fd := ZERO];
    st1.(table := table, highest := if fd < st.highest then st.highest else Lowered(table, st.highest))
  }

  /** fd_open */
  function Opened(st: State, fd: nat): State
    requires fd < |st.table| && -1 <= st.highest < |st.table|
  {
    var st0 := if st.table[fd].open then Closed(st, fd) else st;
    st0.(table := st0.table[fd := st0.table[fd].(open := true, list := NoList)], highest := if fd > st0.highest then fd else st0.highest)
  }

  /**
   What a caller has to keep to: only open descriptors are registered; a descriptor with
   handlers stays on its list, and gives up the list only together with its handlers.
   */
  predicate Allowed(table: seq<Entry>, c: Call) {
    && c.fd < |table|
    && match c {
      case SetSelect(fd, list, read, write, h) =>
        && table[fd].open
        && (if list.NoList? then (read || table[fd].h.read.None?) && (write || table[fd].h.write.None?) && (h.None? || !(read || write))
            else table[fd].h == IDLE || table[fd].list == list)
      case Close(fd) => table[fd].open
      case Open(fd) => true
    }
  }

  function Called(st: State, c: Call): State
    requires c.fd < |st.table| && -1 <= st.highest < |st.table|
  {
    match c {
      case SetSelect(fd, list, read, write, h) => Selected(st, fd, list, read, write, h)
      case Close(fd) => Closed(st, fd)
      case Open(fd) => Opened(st, fd)
    }
  }

  /** A call that a handler makes, if it is allowed. */
  function Step(st: State, c: Call): State {
    if -1 <= st.highest < |st.table| && Allowed(st.table, c) then Called(st, c) else st
  }

  /** One branch of the dispatch loop: the handler is taken out and, if there was one, runs. */
  ghost function Taken(st: State, fd: nat, d: Dir, calls: seq<Call>): State
    requires fd < |st.table|
  {
    var st' := SetDir(st, fd, st.table[fd].list, d, None);
    if Of(st.table[fd].h, d).Some? then Played(Step, st', calls) else st'
  }

  /** A change of one descriptor and its bits. */
  lemma OneChanged(st: State, st': State, fd: nat)
    requires SetsOk(st) && fd < |st.table| && |st'.table| == |st.table|
    requires forall k :: 0 <= k < |st.table| && k != fd ==> st'.table[k] == st.table[k]
    requires forall k :: k != fd ==> BitsOf(st'.ircd, k) == BitsOf(st.ircd, k) && BitsOf(st'.httpd, k) == BitsOf(st.httpd, k)
    ensures SetsOk(st') <==> FdOk(st'.table[fd], BitsOf(st'.ircd, fd), BitsOf(st'.httpd, fd))
  {
    forall k | 0 <= k < |st.table| && k != fd ensures FdOk(st'.table[k], BitsOf(st'.ircd, k), BitsOf(st'.httpd, k)) {
      assert FdOk(st.table[k], BitsOf(st.ircd, k), BitsOf(st.httpd, k));
    }
  }

  lemma SetDirEffect(st: State, fd: nat, list: FdList, d: Dir, h: Option<Handler>)
    requires fd < |st.table|
    ensures var st' := SetDir(st, fd, list, d, h);
            && st'.table == st.table[fd := st.table[fd].(h := With(st.table[fd].h, d, h))] && st'.highest == st.highest
            && (forall k :: k != fd ==> BitsOf(st'.ircd, k) == BitsOf(st.ircd, k) && BitsOf(st'.httpd, k) == BitsOf(st.httpd, k))
            && BitsOf(st'.ircd, fd) == Changed(BitsOf(st.ircd, fd), list, IrcdList, d, h.Some?)
            && BitsOf(st'.httpd, fd) == Changed(BitsOf(st.httpd, fd), list, HttpdList, d, h.Some?)
  {
  }

  /** The bits in the sets of list `of` after an update through `list`. */
  function Changed(m: Mask, list: FdList, of: FdList, d: Dir, on: bool): Mask {
    if list.NoList? then NOTHING else if list == of then WithBit(m, d, on) else m
  }

  /** comm_setselect keeps the sets right exactly when the call is one a caller may make. */
  lemma SelectedKeepsIff(st: State, fd: nat, list: FdList, read: bool, write: bool, h: Option<Handler>)
    requires Inv(st) && fd < |st.table| && st.table[fd].open
    ensures var st' := Selected(st, fd, list, read, write, h);
            && (Inv(st') <==> Allowed(st.table, SetSelect(fd, list, read, write, h)))
            && Handlers(st') == Registered(Handlers(st), SetSelect(fd, list, read, write, h))
  {
    hide SetDir, SetsOk, IsHighest;
    var st' := Selected(st, fd, list, read, write, h);
    var st0 := st.(table := st.table[fd := st.table[fd].(list := list)]);
    var st1 := if read then SetDir(st0, fd, list, Read, h) else st0;
    SetDirEffect(st0, fd, list, Read, h);
    SetDirEffect(st1, fd, list, Write, h);
    OneChanged(st, st', fd);
    HighestSame(st.table, st'.table, fd, st.highest);
    EntryOk(st, fd);
  }

  lemma EntryOk(st: State, fd: nat)
    requires SetsOk(st) && fd < |st.table|
    ensures FdOk(st.table[fd], BitsOf(st.ircd, fd), BitsOf(st.httpd, fd))
  {
  }

  lemma HighestSame(table: seq<Entry>, table': seq<Entry>, fd: nat, highest: int)
    requires IsHighest(table, highest) && |table'| == |table| && fd < |table|
    requires forall k :: 0 <= k < |table| && k != fd ==> table'[k] == table[k]
    requires table'[fd].open == table[fd].open
    ensures IsHighest(table', highest)
  {
  }

  lemma ClosedKeeps(st: State, fd: nat)
    requires Inv(st) && fd < |st.table| && st.table[fd].open
    ensures Inv(Closed(st, fd)) && |Closed(st, fd).table| == |st.table| && Closed(st, fd).table[fd] == ZERO
    ensures Handlers(Closed(st, fd)) == Registered(Handlers(st), Close(fd))
  {
    hide SetDir, SetsOk;
    var st0 := st.(table := st.table[fd := st.table[fd].(list := NoList)]);
    var st1 := SetDir(st0, fd, NoList, Read, None);
    SetDirEffect(st0, fd, NoList, Read, None);
    SetDirEffect(st1, fd, NoList, Write, None);
    OneChanged(st, Closed(st, fd), fd);
  }

  lemma OpenedKeeps(st: State, fd: nat)
    requires Inv(st) && fd < |st.table|
    ensures Inv(Opened(st, fd)) && Handlers(Opened(st, fd)) == Registered(Handlers(st), Open(fd))
  {
    hide SetsOk, Closed, Selected;
    var st0 := if st.table[fd].open then Closed(st, fd) else st;
    if st.table[fd].open {
      ClosedKeeps(st, fd);
    }
    EntryOk(st0, fd);
    OneChanged(st0, Opened(st, fd), fd);
    assert Handlers(Opened(st, fd)) == Handlers(st0)[fd := Some(IDLE)];
  }

  /** Every call a caller may make keeps the agreement and does to the handlers what it says. */
  lemma CalledKeeps(st: State, c: Call)
    requires Inv(st) && Allowed(st.table, c)
    ensures Inv(Called(st, c)) && Handlers(Called(st, c)) == Registered(Handlers(st), c)
  {
    hide SetsOk, Handlers, Registered, Selected, Closed, Opened;
    match c {
      case SetSelect(fd, list, read, write, h) => SelectedKeepsIff(st, fd, list, read, write, h);
      case Close(fd) => ClosedKeeps(st, fd);
      case Open(fd) => OpenedKeeps(st, fd);
    }
  }

  /** Taking a handler out, as dispatch does, whether or not the descriptor is still open. */
  lemma FireKeeps(st: State, fd: nat, d: Dir)
    requires Inv(st) && fd < |st.table|
    ensures var st' := SetDir(st, fd, st.table[fd].list, d, None);
            Inv(st') && Handlers(st') == Fired(Handlers(st), fd, d)
  {
    hide SetDir, SetsOk, IsHighest;
    var st' := SetDir(st, fd, st.table[fd].list, d, None);
    SetDirEffect(st, fd, st.table[fd].list, d, None);
    OneChanged(st, st', fd);
    HighestSame(st.table, st'.table, fd, st.highest);
    EntryOk(st, fd);
  }

  /** The lists after a call, and after a handler is taken. */
  lemma CalledLists(st: State, c: Call)
    requires Inv(st) && Allowed(st.table, c)
    ensures ListsOf(Called(st, c).table) == PlacedBy(ListsOf(st.table), Did(c))
  {
    hide SetsOk;
  }

  lemma FireLists(st: State, fd: nat, d: Dir)
    requires fd < |st.table|
    ensures ListsOf(SetDir(st, fd, st.table[fd].list, d, None).table) == ListsOf(st.table)
  {
  }

  lemma WaitingIs(st: State, fd: nat, d: Dir)
    requires Inv(st) && fd < |st.table|
    ensures Waiting(Handlers(st), fd, d) <==> Of(st.table[fd].h, d).Some?
  {
    EntryOk(st, fd);
  }

  lemma DueIsAllowed(st: State, c: Call, busy: set<int>)
    requires Due(Handlers(st), ListsOf(st.table), c, busy)
    ensures Allowed(st.table, c)
  {
  }

  // ------------------------------------------------------------------------------------
  // Dispatch
  // ------------------------------------------------------------------------------------

  /** Every handler taken so far was of a descriptor before `end`, reported in that direction. */
  ghost predicate Justified(events: seq<Event>, ready: Sets, end: int) {
    forall e :: e in events && e.Fire? ==> e.fd < end && Bit(BitsOf(ready, e.fd), e.dir)
  }

  lemma RoundStarts(ready: Sets)
    ensures FiredOnce([]) && Justified([], ready, 0)
  {
  }

  lemma RoundMore(before: seq<Event>, rs: seq<Event>, ws: seq<Event>, ready: Sets, fd: nat)
    requires FiredOnce(before) && Justified(before, ready, fd)
    requires if fd in ready.rd then Branch(rs, fd, Read) else rs == []
    requires if fd in ready.wr then Branch(ws, fd, Write) else ws == []
    ensures FiredOnce(before + rs + ws) && Justified(before + rs + ws, ready, fd + 1)
    ensures forall e :: e in before ==> e in before + rs + ws
    ensures forall d :: Bit(BitsOf(ready, fd), d) ==> Fire(fd, d) in before + rs + ws
  {
    assert before + [] == before;
    if fd in ready.rd {
      BranchOnce(before, rs, fd, Read);
      assert rs[0] == Fire(fd, Read);
    }
    assert before + rs + [] == before + rs;
    if fd in ready.wr {
      BranchOnce(before + rs, ws, fd, Write);
      assert ws[0] == Fire(fd, Write);
    }
    forall d | Bit(BitsOf(ready, fd), d) ensures Fire(fd, d) in before + rs + ws {
      assert d == Read || d == Write;
      assert (if d == Read then rs else ws)[0] == Fire(fd, d);
    }
  }

  /** Descriptors that the loop no longer reaches were closed by a call. */
  lemma RoundEnds(st: State, st': State, events: seq<Event>, ready: Sets, end: int)
    requires Inv(st') && Handlers(st') == Replay(Handlers(st), events) && end > st'.highest && Inv(st)
    requires Justified(events, ready, end) && end <= |st'.table| == |st.table|
    requires forall k, d :: 0 <= k < end && Bit(BitsOf(ready, k), d) ==> Fire(k, d) in events
    ensures Justified(events, ready, |st.table|)
    ensures forall k, d :: 0 <= k <= st.highest && Bit(BitsOf(ready, k), d) ==>
              Fire(k, d) in events || CalledOn(events, k) || !st.table[k].open
  {
    forall k, d | 0 <= k <= st.highest && Bit(BitsOf(ready, k), d)
      ensures Fire(k, d) in events || CalledOn(events, k) || !st.table[k].open
    {
      if k >= end && !CalledOn(events, k) {
        ReplayOpen(Handlers(st), events, k);
      }
    }
  }

  lemma SelectedFrame(st: State, fd: nat, list: FdList, read: bool, write: bool, h: Option<Handler>)
    requires fd < |st.table|
    ensures var st' := Selected(st, fd, list, read, write, h);
            |st'.table| == |st.table| && st'.highest == st.highest
  {
  }

  // ------------------------------------------------------------------------------------
  // The code
  // ------------------------------------------------------------------------------------

  class Select {
    const table: array<Entry>
    var ircd: Sets
    var httpd: Sets
    var highest: int

    ghost function View(): State
      reads this, table
    {
      State(table[..], ircd, httpd, highest)
    }

    /** init_netio and fdlist_init */
    constructor (connections: nat)
      ensures Inv(View()) && table.Length == connections && Handlers(View()) == seq(connections, i => None)
    {
      table := new Entry[connections](i => ZERO);
      ircd, httpd, highest := Sets({}, {}), Sets({}, {}), -1;
    }

    /** A handler is set and select_update_selectfds called */
    method SetHandler(fd: nat, list: FdList, d: Dir, h: Option<Handler>)
      requires fd < table.Length
      modifies this, table
      ensures View() == SetDir(old(View()), fd, list, d, h)
    {
      table[fd] := table[fd].(h := With(table[fd].h, d, h));
      match list {
        case IrcdList => ircd := SetBit(ircd, fd, d, h.Some?);
        case HttpdList => httpd := SetBit(httpd, fd, d, h.Some?);
        case NoList =>
          ircd := Sets(ircd.rd - {fd}, ircd.wr - {fd});
          httpd := Sets(httpd.rd - {fd}, httpd.wr - {fd});
      }
    }

    /** comm_setselect */
    method Register(fd: nat, list: FdList, read: bool, write: bool, h: Option<Handler>)
      requires fd < table.Length
      modifies this, table
      ensures View() == Selected(old(View()), fd, list, read, write, h)
    {
      hide SetDir;
      table[fd] := table[fd].(list := list);
      assert View() == old(View()).(table := old(View()).table[fd := old(table[fd]).(list := list)]);
      if read {
        SetHandler(fd, list, Read, h);
      }
      if write {
        SetHandler(fd, list, Write, h);
      }
    }

    /** The loop of fdlist_update_biggest */
    method LowerHighest() returns (m: int)
      requires -1 <= highest < table.Length
      ensures m == Lowered(table[..], highest)
    {
      m := highest;
      while m >= 0 && !table[m].open
        invariant -1 <= m <= highest && Lowered(table[..], highest) == Lowered(table[..], m)
      {
        m := m - 1;
      }
    }

    /** fd_close */
    method FdClose(fd: nat)
      requires fd < table.Length && -1 <= highest < table.Length
      modifies this, table
      ensures View() == Closed(old(View()), fd)
    {
      hide Selected;
      Register(fd, NoList, true, true, None);
      SelectedFrame(old(View()), fd, NoList, true, true, None);
      table[fd] := ZERO;
      if fd >= highest {
        highest := LowerHighest();
      }
    }

    /** fd_open */
    method FdOpen(fd: nat)
      requires Inv(View()) && fd < table.Length
      modifies this, table
      ensures View() == Opened(old(View()), fd)
    {
      hide Closed, SetsOk;
      if table[fd].open {
        ClosedKeeps(View(), fd);
        FdClose(fd);
      }
      table[fd] := table[fd].(open := true, list := NoList);
      if fd > highest {
        highest := fd;
      }
    }

    /** A handler runs: it makes its calls, as far as they are allowed at that point. */
    method RunHandler(calls: seq<Call>) returns (did: seq<Event>)
      requires Inv(View())
      modifies this, table
      ensures Inv(View()) && Handlers(View()) == Replay(old(Handlers(View())), did) && forall e :: e in did ==> !e.Fire?
      ensures ListsOf(table[..]) == Placed(old(ListsOf(table[..])), did) && View() == Played(Step, old(View()), calls)
      ensures Attempts(old(Handlers(View())), old(ListsOf(table[..])), did, calls, {})
    {
      hide SetsOk, Handlers, Registered, Selected, Closed, Opened, Replay, Placed, PlacedBy, ListsOf, Due, Attempts;
      ghost var p, l := Handlers(View()), ListsOf(table[..]);
      did := [];
      NothingPlays(p, l, k => [], {});
      for i := 0 to |calls|
        invariant Inv(View()) && Handlers(View()) == Replay(p, did) && forall e :: e in did ==> !e.Fire?
        invariant ListsOf(table[..]) == Placed(l, did) && Attempts(p, l, did, calls[..i], {})
        invariant Played(Step, View(), calls[i..]) == Played(Step, old(View()), calls)
      {
        assert calls[i..][0] == calls[i] && calls[i..][1..] == calls[i + 1..];
        assert calls[..i + 1] == calls[..i] + [calls[i]];
        var c := calls[i];
        ghost var st := View();
        if c.fd < table.Length && Allowed(table[..], c) {
          CalledKeeps(st, c);
          CalledLists(st, c);
          match c {
            case SetSelect(fd, list, read, write, h) => Register(fd, list, read, write, h);
            case Close(fd) => FdClose(fd);
            case Open(fd) => FdOpen(fd);
          }
          Logged(p, l, did, calls[..i], Did(c), c, {});
          did := did + [Did(c)];
        } else {
          if Due(Handlers(st), ListsOf(st.table), c, {}) {
            DueIsAllowed(st, c, {});
          }
          Logged(p, l, did, calls[..i], Refused(c), c, {});
          did := did + [Refused(c)];
        }
      }
      assert calls[..|calls|] == calls;
    }

    /** One branch of the dispatch loop */
    method Take(fd: nat, d: Dir, calls: seq<Call>) returns (events: seq<Event>)
      requires Inv(View()) && fd < table.Length
      modifies this, table
      ensures Inv(View()) && Branch(events, fd, d) && Handlers(View()) == Replay(old(Handlers(View())), events)
      ensures BranchPlays(old(Handlers(View())), old(ListsOf(table[..])), events, fd, d, calls, {})
      ensures ListsOf(table[..]) == Placed(old(ListsOf(table[..])), events) && View() == Taken(old(View()), fd, d, calls)
    {
      hide SetsOk, IsHighest, Handlers, SetDir, Replay, Fired, Played, Placed, ListsOf, Attempts, BranchPlays;
      ghost var p, l := Handlers(View()), ListsOf(table[..]);
      FireKeeps(View(), fd, d);
      FireLists(View(), fd, d);
      WaitingIs(View(), fd, d);
      var h := Of(table[fd].h, d);
      SetHandler(fd, table[fd].list, d, None);
      var did: seq<Event> := [];
      NothingPlays(Fired(p, fd, d), l, k => [], {});
      if h.Some? {
        did := RunHandler(calls);
      }
      AttemptsBusier(Fired(p, fd, d), l, did, CallsOf(p, fd, d, calls), {}, {} + {fd});
      BranchIs(p, l, did, fd, d, calls, {});
      events := [Fire(fd, d)] + did;
    }
  
    /**
     comm_select, with `ready` what the kernel leaves in the two sets. Whatever the handlers do,
     the sets and the handlers agree throughout; handlers are taken for reports only, once per
     direction, and every report is served unless a handler made a call on the descriptor.
     */
    method CommSelect(ready: Sets, script: Script) returns (events: seq<Event>)
      requires Inv(View())
      modifies this, table
      ensures Inv(View()) && Handlers(View()) == Replay(old(Handlers(View())), events)
      ensures FiredOnce(events) && Justified(events, ready, table.Length)
      ensures Plays(old(Handlers(View())), old(ListsOf(table[..])), events, script, {})
      ensures forall k, d :: 0 <= k <= old(highest) && Bit(BitsOf(ready, k), d) ==>
                Fire(k, d) in events || CalledOn(events, k) || !old(table[..])[k].open
    {
      hide SetsOk, Handlers, Replay, Fired, Branch, FiredOnce, Justified, CalledOn, Placed, ListsOf, Plays, BranchPlays;
      ghost var st, l := View(), ListsOf(table[..]);
      events := [];
      NothingPlays(Handlers(st), l, script, {});
      RoundStarts(ready);
      var fd := 0;
      while fd < highest + 1
        invariant 0 <= fd <= table.Length && Inv(View()) && Handlers(View()) == Replay(Handlers(st), events)
        invariant FiredOnce(events) && Justified(events, ready, fd)
        invariant ListsOf(table[..]) == Placed(l, events) && Plays(Handlers(st), l, events, script, {})
        invariant forall k, d :: 0 <= k < fd && Bit(BitsOf(ready, k), d) ==> Fire(k, d) in events
        decreases table.Length - fd
      {
        var rs: seq<Event>, ws: seq<Event> := [], [];
        ghost var before := events;
        if fd in ready.rd {
          rs := Take(fd, Read, script(|events|));
          Continues(Handlers(st), l, before, rs, fd, Read, script, {});
        }
        assert rs == [] ==> before + rs == before;
        if fd in ready.wr {
          ws := Take(fd, Write, script(|events + rs|));
          Continues(Handlers(st), l, before + rs, ws, fd, Write, script, {});
        }
        assert ws == [] ==> before + rs + ws == before + rs;
        RoundMore(before, rs, ws, ready, fd);
        events := events + rs + ws;
        fd := fd + 1;
      }
      RoundEnds(st, View(), events, ready, fd);
    }
  }
}
