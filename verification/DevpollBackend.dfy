/**
 The /dev/poll backend (server/s_bsd_devpoll.c): a mask per descriptor that mirrors what was
 written to the kernel device, one device for IRC connections and one for HTTP. A write of
 POLLREMOVE followed by a mask leaves the device with that mask.
 */
module DevpollBackend {
  import opened LinkedLists
  import opened Readiness

  /** `mask` is fdmask; `ircd` and `httpd` are what the kernel holds for dpfd and httpdpfd. */
  datatype State = State(table: seq<Entry>, mask: seq<Mask>, ircd: seq<Mask>, httpd: seq<Mask>)

  ghost function Handlers(st: State): Plain {
    HandlersOf(st.table)
  }

  /** The handler that is running: its direction may still be in the mask. */
  datatype Busy = Quiet | Running(fd: nat, dir: Dir)

  // ------------------------------------------------------------------------------------
  // What holds at every point
  // ------------------------------------------------------------------------------------

  ghost predicate MaskOk(f: Entry, mask: Mask, fd: nat, busy: Busy) {
    || mask == Interest(f.h)
    || (f.open && busy.Running? && busy.fd == fd && mask == WithBit(Interest(f.h), busy.dir, true))
  }

  /** The device of its list holds the mask of `fd`, the other device nothing. */
  ghost predicate FdOk(f: Entry, mask: Mask, ircd: Mask, httpd: Mask, fd: nat, busy: Busy) {
    && MaskOk(f, mask, fd, busy) && (!f.open ==> f == ZERO)
    && ircd == (if f.list.HttpdList? then NOTHING else mask)
    && httpd == (if f.list.HttpdList? then mask else NOTHING)
  }

  predicate Shape(st: State) {
    |st.mask| == |st.ircd| == |st.httpd| == |st.table|
  }

  ghost predicate Inv(st: State, busy: Busy) {
    && Shape(st)
    && forall fd :: 0 <= fd < |st.table| ==> FdOk(st.table[fd], st.mask[fd], st.ircd[fd], st.httpd[fd], fd, busy)
  }

  /** Outside of handlers the kernel is asked for exactly what there are handlers for. */
  lemma KernelIsAskedExactly(st: State, fd: nat)
    requires Inv(st, Quiet) && fd < |st.table|
    ensures st.ircd[fd] == (if st.table[fd].open && !st.table[fd].list.HttpdList? then Interest(st.table[fd].h) else NOTHING)
    ensures st.httpd[fd] == (if st.table[fd].open && st.table[fd].list.HttpdList? then Interest(st.table[fd].h) else NOTHING)
  {
    assert FdOk(st.table[fd], st.mask[fd], st.ircd[fd], st.httpd[fd], fd, Quiet);
  }

  // ------------------------------------------------------------------------------------
  // Registering
  // ------------------------------------------------------------------------------------

  /** devpoll_update_events; the handler that it is told of is set after it, or was set before. */
  function Updated(st: State, fd: nat, list: FdList, d: Dir, on: bool): State
    requires Shape(st) && fd < |st.table|
  {
    var h := st.table[fd].h;
    var mask := WithBit(Interest(h), d, on);
    var st' := st.(mask := st.mask[fd := mask]);
    if Of(h, d).Some? == on && st.mask[fd] == mask then st'
    else if list.HttpdList? then st'.(httpd := st.httpd[fd := mask])
    else st'.(ircd := st.ircd[fd := mask])
  }

  function WithFde(st: State, fd: nat, f: Entry): State
    requires fd < |st.table|
  {
    st.(table := st.table[fd := f])
  }

  function SetDir(st: State, fd: nat, list: FdList, d: Dir, h: Option<Handler>): State
    requires Shape(st) && fd < |st.table|
  {
    WithFde(Updated(st, fd, list, d, h.Some?), fd, st.table[fd].(h := With(st.table[fd].h, d, h)))
  }

  /** comm_setselect */
  function Selected(st: State, fd: nat, list: FdList, read: bool, write: bool, h: Option<Handler>): State
    requires Shape(st) && fd < |st.table|
  {
    var st0 := WithFde(st, fd, st.table[fd].(list := list));
    var st1 := if read then SetDir(st0, fd, list, Read, h) else st0;
    if write then SetDir(st1, fd, list, Write, h) else st1
  }

  /** fd_close */
  function Closed(st: State, fd: nat): State
    requires Shape(st) && fd < |st.table|
  {
    WithFde(Selected(st, fd, NoList, true, true, None), fd, ZERO)
  }

  /** fd_open */
  function Opened(st: State, fd: nat): State
    requires Shape(st) && fd < |st.table|
  {
    var st0 := if st.table[fd].open then Closed(st, fd) else st;
    WithFde(st0, fd, st0.table[fd].(open := true, list := NoList))
  }

  /** The descriptor may be registered on `list`: the kernel holds nothing for it, or holds it on that device. */
  predicate OneList(f: Entry, mask: Mask, list: FdList) {
    mask == NOTHING || f.list.HttpdList? == list.HttpdList?
  }

  predicate Allowed(table: seq<Entry>, mask: seq<Mask>, c: Call) {
    && c.fd < |table| && c.fd < |mask|
    && match c {
      case SetSelect(fd, list, _, _, _) => table[fd].open && OneList(table[fd], mask[fd], list)
      case Close(fd) => table[fd].open && OneList(table[fd], mask[fd], NoList)
      case Open(fd) => table[fd].open ==> OneList(table[fd], mask[fd], NoList)
    }
  }

  function Called(st: State, c: Call): State
    requires Shape(st) && c.fd < |st.table|
  {
    match c {
      case SetSelect(fd, list, read, write, h) => Selected(st, fd, list, read, write, h)
      case Close(fd) => Closed(st, fd)
      case Open(fd) => Opened(st, fd)
    }
  }

  /** A call that a handler makes, if it is allowed. */
  function Step(st: State, c: Call): State {
    if Shape(st) && Allowed(st.table, st.mask, c) then Called(st, c) else st
  }

  /** Only descriptor `fd` differs. */
  ghost predicate OnlyAt(st: State, st': State, fd: nat) {
    && Shape(st) && Shape(st') && |st'.table| == |st.table|
    && (forall k :: 0 <= k < |st.table| && k != fd ==>
         st'.table[k] == st.table[k] && st'.mask[k] == st.mask[k] && st'.ircd[k] == st.ircd[k] && st'.httpd[k] == st.httpd[k])
  }

  lemma InvAt(st: State, st': State, fd: nat, busy: Busy, busy': Busy)
    requires Inv(st, busy) && OnlyAt(st, st', fd) && fd < |st.table|
    requires busy' == busy || busy.Quiet? || busy.fd == fd
    ensures Inv(st', busy') <==> FdOk(st'.table[fd], st'.mask[fd], st'.ircd[fd], st'.httpd[fd], fd, busy')
  {
    forall k | 0 <= k < |st.table| && k != fd
      ensures FdOk(st'.table[k], st'.mask[k], st'.ircd[k], st'.httpd[k], k, busy')
    {
      assert FdOk(st.table[k], st.mask[k], st.ircd[k], st.httpd[k], k, busy);
    }
  }

  /** The device that `list` names, for the update that leaves the mask right for the handlers. */
  lemma SetDirEffect(st: State, fd: nat, list: FdList, d: Dir, h: Option<Handler>)
    requires Shape(st) && fd < |st.table|
    ensures var st' := SetDir(st, fd, list, d, h);
            var f := st.table[fd].(h := With(st.table[fd].h, d, h));
            && OnlyAt(st, st', fd) && st'.table[fd] == f && st'.mask[fd] == Interest(f.h)
            && (if list.HttpdList? then st'.ircd == st.ircd else st'.httpd == st.httpd)
            && ((if list.HttpdList? then st.httpd else st.ircd)[fd] == st.mask[fd] ==>
                (if list.HttpdList? then st'.httpd else st'.ircd)[fd] == st'.mask[fd])
  {
  }

  lemma EntryOk(st: State, fd: nat, busy: Busy)
    requires Inv(st, busy) && fd < |st.table|
    ensures Shape(st) && FdOk(st.table[fd], st.mask[fd], st.ircd[fd], st.httpd[fd], fd, busy)
  {
  }

  function Chosen(p: Pair, read: bool, write: bool, h: Option<Handler>): Pair {
    Pair(if read then h else p.read, if write then h else p.write)
  }

  lemma SelectedEffect(st: State, fd: nat, list: FdList, read: bool, write: bool, h: Option<Handler>)
    requires Shape(st) && fd < |st.table|
    ensures var st' := Selected(st, fd, list, read, write, h);
            && OnlyAt(st, st', fd) && st'.table[fd].list == list && st'.table[fd].open == st.table[fd].open
            && st'.table[fd].h == Chosen(st.table[fd].h, read, write, h)
            && st'.mask[fd] == (if read || write then Interest(st'.table[fd].h) else st.mask[fd])
            && (if list.HttpdList? then st'.ircd == st.ircd else st'.httpd == st.httpd)
            && ((if list.HttpdList? then st.httpd else st.ircd)[fd] == st.mask[fd] ==>
                (if list.HttpdList? then st'.httpd else st'.ircd)[fd] == st'.mask[fd])
            && (!read && !write ==> st' == WithFde(st, fd, st.table[fd].(list := list)))
  {
    hide SetDir;
    var st0 := WithFde(st, fd, st.table[fd].(list := list));
    var st1 := if read then SetDir(st0, fd, list, Read, h) else st0;
    SetDirEffect(st0, fd, list, Read, h);
    SetDirEffect(st1, fd, list, Write, h);
  }

  /** comm_setselect on an open descriptor: the device is right exactly when the descriptor stays on it. */
  lemma SelectedKeepsIff(st: State, fd: nat, list: FdList, read: bool, write: bool, h: Option<Handler>, busy: Busy)
    requires Inv(st, busy) && fd < |st.table| && st.table[fd].open
    ensures Shape(st)
    ensures var st' := Selected(st, fd, list, read, write, h);
            && (Inv(st', busy) <==> OneList(st.table[fd], st.mask[fd], list))
            && Handlers(st') == Registered(Handlers(st), SetSelect(fd, list, read, write, h))
  {
    hide Selected, Inv;
    EntryOk(st, fd, busy);
    SelectedEffect(st, fd, list, read, write, h);
    InvAt(st, Selected(st, fd, list, read, write, h), fd, busy, busy);
  }

  lemma ClosedKeepsIff(st: State, fd: nat, busy: Busy)
    requires Inv(st, busy) && fd < |st.table| && st.table[fd].open
    ensures Shape(st) && Shape(Closed(st, fd)) && |Closed(st, fd).table| == |st.table| && Closed(st, fd).table[fd] == ZERO
    ensures Inv(Closed(st, fd), busy) <==> OneList(st.table[fd], st.mask[fd], NoList)
    ensures Handlers(Closed(st, fd)) == Registered(Handlers(st), Close(fd))
  {
    hide Selected, Inv;
    EntryOk(st, fd, busy);
    SelectedEffect(st, fd, NoList, true, true, None);
    var st' := Selected(st, fd, NoList, true, true, None);
    InvAt(st, Closed(st, fd), fd, busy, busy);
    assert Handlers(Closed(st, fd)) == Handlers(st')[fd := None];
  }

  lemma OpenedKeepsIff(st: State, fd: nat, busy: Busy)
    requires Inv(st, busy) && fd < |st.table|
    ensures Shape(st)
    ensures Inv(Opened(st, fd), busy) <==> (st.table[fd].open ==> OneList(st.table[fd], st.mask[fd], NoList))
    ensures Handlers(Opened(st, fd)) == Registered(Handlers(st), Open(fd))
  {
    hide Closed, Inv;
    EntryOk(st, fd, busy);
    var st0 := if st.table[fd].open then Closed(st, fd) else st;
    if st.table[fd].open {
      ClosedKeepsIff(st, fd, busy);
    }
    if !st.table[fd].open || OneList(st.table[fd], st.mask[fd], NoList) {
      EntryOk(st0, fd, busy);
      InvAt(st0, Opened(st, fd), fd, busy, busy);
    } else {
      ReopenedStaysWrong(st, fd, busy);
    }
    assert Handlers(Opened(st, fd)) == Handlers(st0)[fd := Some(IDLE)];
  }

  lemma ReopenedStaysWrong(st: State, fd: nat, busy: Busy)
    requires Inv(st, busy) && fd < |st.table| && st.table[fd].open && !OneList(st.table[fd], st.mask[fd], NoList)
    ensures Shape(st) && !Inv(Opened(st, fd), busy)
  {
    hide Selected;
    EntryOk(st, fd, busy);
    SelectedEffect(st, fd, NoList, true, true, None);
    var st' := Opened(st, fd);
    assert !FdOk(st'.table[fd], st'.mask[fd], st'.ircd[fd], st'.httpd[fd], fd, busy);
  }

  /**
   Calls on open descriptors keep mask and kernel right exactly when a descriptor the kernel holds
   stays on its device, also while a handler runs. fd_close counts as the IRC device.
   */
  lemma CalledKeepsIff(st: State, c: Call, busy: Busy)
    requires Inv(st, busy) && c.fd < |st.table| && (st.table[c.fd].open || c.Open?)
    ensures Shape(st) && (Inv(Called(st, c), busy) <==> Allowed(st.table, st.mask, c))
    ensures Handlers(Called(st, c)) == Registered(Handlers(st), c)
  {
    hide Handlers, Registered, Selected, Closed, Opened;
    match c {
      case SetSelect(fd, list, read, write, h) => SelectedKeepsIff(st, fd, list, read, write, h, busy);
      case Close(fd) => ClosedKeepsIff(st, fd, busy);
      case Open(fd) => OpenedKeepsIff(st, fd, busy);
    }
  }

  /** It can break: a descriptor is opened, registered to read on the HTTP device, and closed. */
  lemma HttpCloseStrands(h: Handler)
    ensures var st1 := Called(Started(1), Open(0));
            && Shape(st1) && |st1.table| == 1
            && var st2 := Called(st1, SetSelect(0, HttpdList, true, false, Some(h)));
               Inv(st2, Quiet) && |st2.table| == 1 && !Inv(Called(st2, Close(0)), Quiet)
  {
    StartedInv(1);
    var st1 := Called(Started(1), Open(0));
    CalledKeepsIff(Started(1), Open(0), Quiet);
    assert st1.table[0] == Entry(true, IDLE, NoList) && st1.mask[0] == NOTHING;
    var st2 := Called(st1, SetSelect(0, HttpdList, true, false, Some(h)));
    CalledKeepsIff(st1, SetSelect(0, HttpdList, true, false, Some(h)), Quiet);
    assert st2.table[0].list == HttpdList && st2.table[0].open && st2.mask[0] == Mask(true, false);
    CalledKeepsIff(st2, Close(0), Quiet);
  }

  /** What init_netio and fdlist_init leave. */
  function Started(connections: nat): State {
    State(seq(connections, i => ZERO), seq(connections, i => NOTHING), seq(connections, i => NOTHING), seq(connections, i => NOTHING))
  }

  lemma StartedInv(connections: nat)
    ensures Inv(Started(connections), Quiet) && Handlers(Started(connections)) == seq(connections, i => None)
  {
  }

  /** The handler is taken out before it runs; the mask is not touched yet. */
  lemma TakenKeeps(st: State, fd: nat, d: Dir)
    requires Inv(st, Quiet) && fd < |st.table| && Of(st.table[fd].h, d).Some?
    ensures var st' := WithFde(st, fd, st.table[fd].(h := With(st.table[fd].h, d, None)));
            Inv(st', Running(fd, d)) && Handlers(st') == Fired(Handlers(st), fd, d)
  {
    EntryOk(st, fd, Quiet);
    InvAt(st, WithFde(st, fd, st.table[fd].(h := With(st.table[fd].h, d, None))), fd, Quiet, Running(fd, d));
  }

  /** The update after the handler has run makes everything exact again. */
  lemma SettledKeeps(st: State, fd: nat, d: Dir)
    requires Inv(st, Running(fd, d)) && fd < |st.table|
    ensures Shape(st)
    ensures var st' := Updated(st, fd, st.table[fd].list, d, Of(st.table[fd].h, d).Some?);
            Inv(st', Quiet) && Handlers(st') == Handlers(st)
  {
    EntryOk(st, fd, Running(fd, d));
    InvAt(st, Updated(st, fd, st.table[fd].list, d, Of(st.table[fd].h, d).Some?), fd, Running(fd, d), Quiet);
  }

  /** One branch of the dispatch loop: the handler runs, and its direction is brought up to date. */
  ghost function Taken(st: State, fd: nat, d: Dir, calls: seq<Call>): State
    requires Shape(st) && fd < |st.table|
  {
    if Of(st.table[fd].h, d).None? then st
    else
      var st' := Played(Step, WithFde(st, fd, st.table[fd].(h := With(st.table[fd].h, d, None))), calls);
      if Shape(st') && fd < |st'.table| then Updated(st', fd, st'.table[fd].list, d, Of(st'.table[fd].h, d).Some?) else st'
  }

  /** The lists after a call, after a handler is taken, and after the update that follows. */
  lemma CalledLists(st: State, c: Call)
    requires Shape(st) && Allowed(st.table, st.mask, c)
    ensures ListsOf(Called(st, c).table) == PlacedBy(ListsOf(st.table), Did(c))
  {
    hide Updated;
    if c.SetSelect? {
      SelectedEffect(st, c.fd, c.list, c.read, c.write, c.handler);
    } else {
      SelectedEffect(st, c.fd, NoList, true, true, None);
    }
  }

  lemma SameLists(table: seq<Entry>, table': seq<Entry>, fd: nat)
    requires fd < |table| == |table'| && table'[fd].list == table[fd].list
    requires forall k :: 0 <= k < |table| && k != fd ==> table'[k] == table[k]
    ensures ListsOf(table') == ListsOf(table)
  {
  }

  lemma WaitingIs(st: State, fd: nat, d: Dir)
    requires Inv(st, Quiet) && fd < |st.table|
    ensures Waiting(Handlers(st), fd, d) <==> Of(st.table[fd].h, d).Some?
  {
    EntryOk(st, fd, Quiet);
  }

  /** Only the descriptor whose handler runs may be held by the kernel without handlers. */
  lemma DueIsAllowed(st: State, c: Call, busy: Busy, fds: set<int>)
    requires Inv(st, busy) && Due(Handlers(st), ListsOf(st.table), c, fds) && (busy.Running? ==> busy.fd in fds)
    ensures Allowed(st.table, st.mask, c)
  {
    EntryOk(st, c.fd, busy);
  }

  // ------------------------------------------------------------------------------------
  // The code
  // ------------------------------------------------------------------------------------

  class Devpoll {
    const table: array<Entry>
    const fdmask: array<Mask>
    var dpfd: seq<Mask>
    var httpdpfd: seq<Mask>

    ghost function View(): State
      reads this, table, fdmask
    {
      State(table[..], fdmask[..], dpfd, httpdpfd)
    }

    /** init_netio and fdlist_init */
    constructor (connections: nat)
      ensures Inv(View(), Quiet) && View() == Started(connections)
    {
      table := new Entry[connections](i => ZERO);
      fdmask := new Mask[connections](i => NOTHING);
      dpfd := seq(connections, i => NOTHING);
      httpdpfd := seq(connections, i => NOTHING);
    }

    /** devpoll_update_events */
    method UpdateEvents(fd: nat, list: FdList, d: Dir, on: bool)
      requires Shape(View()) && fd < table.Length
      modifies this, fdmask
      ensures View() == Updated(old(View()), fd, list, d, on)
    {
      var current := fdmask[fd];
      var h := table[fd].h;
      var mask := NOTHING;
      mask := WithBit(mask, d, on);
      match d {
        case Read => if h.write.Some? { mask := mask.(wr := true); }
        case Write => if h.read.Some? { mask := mask.(rd := true); }
      }
      fdmask[fd] := mask;
      var required := Of(h, d).Some? != on;
      if current != mask {
        required := true;
      }
      if required {
        if list.HttpdList? {
          httpdpfd := httpdpfd[fd := NOTHING];
          if mask != NOTHING {
            httpdpfd := httpdpfd[fd := mask];
          }
        } else {
          dpfd := dpfd[fd := NOTHING];
          if mask != NOTHING {
            dpfd := dpfd[fd := mask];
          }
        }
      }
    }

    /** comm_setselect */
    method Register(fd: nat, list: FdList, read: bool, write: bool, h: Option<Handler>)
      requires Shape(View()) && fd < table.Length
      modifies this, table, fdmask
      ensures View() == Selected(old(View()), fd, list, read, write, h)
    {
      hide Updated;
      table[fd] := table[fd].(list := list);
      assert View() == WithFde(old(View()), fd, old(table[fd]).(list := list));
      if read {
        SetDirEffect(View(), fd, list, Read, h);
        UpdateEvents(fd, list, Read, h.Some?);
        table[fd] := table[fd].(h := With(table[fd].h, Read, h));
      }
      if write {
        SetDirEffect(View(), fd, list, Write, h);
        UpdateEvents(fd, list, Write, h.Some?);
        table[fd] := table[fd].(h := With(table[fd].h, Write, h));
      }
    }

    /** fd_close */
    method FdClose(fd: nat)
      requires Shape(View()) && fd < table.Length
      modifies this, table, fdmask
      ensures View() == Closed(old(View()), fd)
    {
      hide Selected;
      Register(fd, NoList, true, true, None);
      table[fd] := ZERO;
    }

    /** fd_open */
    method FdOpen(fd: nat)
      requires Shape(View()) && fd < table.Length
      modifies this, table, fdmask
      ensures View() == Opened(old(View()), fd)
    {
      hide Closed;
      if table[fd].open {
        FdClose(fd);
      }
      table[fd] := table[fd].(open := true, list := NoList);
    }

    /** A handler runs: it makes its calls, as far as they are allowed at that point. */
    method RunHandler(calls: seq<Call>, ghost busy: Busy) returns (did: seq<Event>)
      requires Inv(View(), busy) && busy.Running?
      modifies this, table, fdmask
      ensures Inv(View(), busy) && Handlers(View()) == Replay(old(Handlers(View())), did) && forall e :: e in did ==> !e.Fire?
      ensures ListsOf(table[..]) == Placed(old(ListsOf(table[..])), did) && View() == Played(Step, old(View()), calls)
      ensures Attempts(old(Handlers(View())), old(ListsOf(table[..])), did, calls, {busy.fd})
    {
      hide Handlers, Registered, Selected, Closed, Opened, Replay, FdOk, Placed, PlacedBy, ListsOf, Due, Attempts;
      ghost var p, l, fds := Handlers(View()), ListsOf(table[..]), {busy.fd as int};
      did := [];
      NothingPlays(p, l, k => [], fds);
      for i := 0 to |calls|
        invariant Inv(View(), busy) && Handlers(View()) == Replay(p, did) && forall e :: e in did ==> !e.Fire?
        invariant ListsOf(table[..]) == Placed(l, did) && Attempts(p, l, did, calls[..i], fds)
        invariant Played(Step, View(), calls[i..]) == Played(Step, old(View()), calls)
      {
        assert calls[i..][0] == calls[i] && calls[i..][1..] == calls[i + 1..];
        assert calls[..i + 1] == calls[..i] + [calls[i]];
        var c := calls[i];
        ghost var st := View();
        if c.fd < table.Length && Allowed(table[..], fdmask[..], c) {
          CalledKeepsIff(st, c, busy);
          CalledLists(st, c);
          match c {
            case SetSelect(fd, list, read, write, h) => Register(fd, list, read, write, h);
            case Close(fd) => FdClose(fd);
            case Open(fd) => FdOpen(fd);
          }
          Logged(p, l, did, calls[..i], Did(c), c, fds);
          did := did + [Did(c)];
        } else {
          if Due(Handlers(st), ListsOf(st.table), c, fds) {
            DueIsAllowed(st, c, busy, fds);
          }
          Logged(p, l, did, calls[..i], Refused(c), c, fds);
          did := did + [Refused(c)];
        }
      }
      assert calls[..|calls|] == calls;
    }

    /**
     One branch of the dispatch loop: the handler is taken out, runs, and its direction is brought
     up to date. While it runs, at most that one bit may be more than the handlers ask for.
     */
    method Take(fd: nat, d: Dir, calls: seq<Call>) returns (events: seq<Event>)
      requires Inv(View(), Quiet) && fd < table.Length
      modifies this, table, fdmask
      ensures Inv(View(), Quiet) && Handlers(View()) == Replay(old(Handlers(View())), events)
      ensures if Of(old(table[fd].h), d).Some? then Branch(events, fd, d) else events == []
      ensures events != [] ==> BranchPlays(old(Handlers(View())), old(ListsOf(table[..])), events, fd, d, calls, {})
      ensures ListsOf(table[..]) == Placed(old(ListsOf(table[..])), events) && View() == Taken(old(View()), fd, d, calls)
    {
      hide Handlers, Replay, Fired, FdOk, Updated, Played, Placed, ListsOf, Attempts, BranchPlays;
      ghost var p, l := Handlers(View()), ListsOf(table[..]);
      NothingPlays(p, l, k => [], {});
      WaitingIs(View(), fd, d);
      events := [];
      if Of(table[fd].h, d).Some? {
        TakenKeeps(View(), fd, d);
        table[fd] := table[fd].(h := With(table[fd].h, d, None));
        assert View() == WithFde(old(View()), fd, table[fd]);
        SameLists(old(table[..]), table[..], fd);
        var did := RunHandler(calls, Running(fd, d));
        AttemptsBusier(Fired(p, fd, d), l, did, calls, {fd}, {} + {fd});
        BranchIs(p, l, did, fd, d, calls, {});
        events := [Fire(fd, d)] + did;
        SettledKeeps(View(), fd, d);
        UpdateEvents(fd, table[fd].list, d, Of(table[fd].h, d).Some?);
      }
    }

    /** A branch, if the report takes it */
    method TakeIf(reported: bool, fd: nat, d: Dir, calls: seq<Call>) returns (events: seq<Event>)
      requires Inv(View(), Quiet) && fd < table.Length
      modifies this, table, fdmask
      ensures Inv(View(), Quiet) && Handlers(View()) == Replay(old(Handlers(View())), events)
      ensures if reported then View() == Taken(old(View()), fd, d, calls) else View() == old(View()) && events == []
      ensures events != [] ==> BranchPlays(old(Handlers(View())), old(ListsOf(table[..])), events, fd, d, calls, {})
      ensures ListsOf(table[..]) == Placed(old(ListsOf(table[..])), events)
      ensures reported && Waiting(old(Handlers(View())), fd, d) ==> Fire(fd, d) in events
      ensures forall e :: e in events && e.Fire? ==> reported && e == Fire(fd, d)
    {
      hide Replay, FdOk, Taken, Fired, Placed, ListsOf, BranchPlays;
      NothingPlays(Handlers(View()), ListsOf(table[..]), k => [], {});
      events := [];
      if reported {
        events := Take(fd, d, calls);
      }
    }

    /** comm_select, with the reports of the kernel: it is asked exactly again after every report. */
    method CommSelect(reports: seq<(nat, Mask)>, script: Script) returns (events: seq<Event>)
      requires Inv(View(), Quiet) && forall i :: 0 <= i < |reports| ==> reports[i].0 < table.Length
      modifies this, table, fdmask
      ensures Inv(View(), Quiet) && Handlers(View()) == Replay(old(Handlers(View())), events)
      ensures Reported(events, reports, |reports|)
      ensures ReportsServed(old(Handlers(View())), events, reports, |reports|)
      ensures Plays(old(Handlers(View())), old(ListsOf(table[..])), events, script, {})
    {
      hide Handlers, Replay, FdOk, Reported, Taken, ReportsServed, Serves, Placed, ListsOf, Plays, BranchPlays;
      ghost var p, l := Handlers(View()), ListsOf(table[..]);
      events := [];
      NothingPlays(p, l, script, {});
      NothingReported(reports);
      NothingToServe(p, reports);
      for i := 0 to |reports|
        invariant Inv(View(), Quiet) && Handlers(View()) == Replay(p, events)
        invariant Reported(events, reports, i) && ReportsServed(p, events, reports, i)
        invariant ListsOf(table[..]) == Placed(l, events) && Plays(p, l, events, script, {})
      {
        var fd, m := reports[i].0, reports[i].1;
        var rs := TakeIf(m.rd, fd, Read, script(|events|));
        ContinuesIf(p, l, events, rs, fd, Read, script, {});
        var ws := TakeIf(m.wr, fd, Write, script(|events + rs|));
        ContinuesIf(p, l, events + rs, ws, fd, Write, script, {});
        assert events + (rs + ws) == events + rs + ws;
        ReportedMore(events, rs + ws, reports, i);
        TwoBranches(Replay(p, events), rs, ws, fd, m);
        ReportServed(p, events, rs + ws, reports, i);
        events := events + rs + ws;
      }
    }
  }
}
