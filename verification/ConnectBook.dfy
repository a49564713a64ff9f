/** The connection roster: virtual fds, the socket index, the group index and the bounded change log. */
module ConnectBook {
  import opened Wrappers

  const MAX_CHANGES: nat := 4096

  type Fd = nat

  /** A connection object: its identity and its socket number. */
  datatype Conn = Conn(id: nat, sock: nat)

  datatype Entry = Entry(conn: Conn, group: int)

  datatype Change = Change(cmd: string, virtualFd: Fd, group: int, version: nat)

  type Entries = map<Fd, Entry>
  type Groups = map<int, set<Fd>>

  datatype Book = Book(
    entries: Entries, groups: Groups, bySock: map<nat, Fd>, version: nat, changes: seq<Change>)

  const EMPTY_BOOK := Book(map[], map[], map[], 0, [])

  // ---------------------------------------------------------------- specification of the operations

  function Members(groups: Groups, g: int): set<Fd> {
    if g in groups then groups[g] else {}
  }

  function Erased(groups: Groups, g: int, fd: Fd): Groups {
    if g !in groups then groups
    else if groups[g] - {fd} == {} then groups - {g}
    else groups[g := groups[g] - {fd}]
  }

  function Joined(groups: Groups, g: int, fd: Fd): Groups {
    groups[g := Members(groups, g) + {fd}]
  }

  /** Only groups from 0 upward are indexed when a single member moves. */
  function Moved(groups: Groups, fd: Fd, from: int, to: int, newFd: Fd): Groups {
    var left := Erased(groups, from, fd);
    if to >= 0 then Joined(left, to, newFd) else left
  }

  function Logged(log: seq<Change>, c: Change): seq<Change> {
    var longer := log + [c];
    if |longer| > MAX_CHANGES then longer[1..] else longer
  }

  function Notified(b: Book, cmd: string, fd: Fd, group: int): Book {
    b.(version := b.version + 1, changes := Logged(b.changes, Change(cmd, fd, group, b.version + 1)))
  }

  predicate Registers(b: Book, conn: Option<Conn>) {
    conn.Some? && conn.value.sock !in b.bySock
  }

  function Connected(b: Book, conn: Option<Conn>): Book {
    if !Registers(b, conn) then b
    else
      var fd := conn.value.sock;
      Notified(b.(entries := b.entries[fd := Entry(conn.value, -1)], bySock := b.bySock[fd := fd]), "add", fd, -1)
  }

  function Disconnected(b: Book, conn: Option<Conn>): Book {
    if conn.None? || conn.value.sock !in b.bySock then b
    else
      var fd := b.bySock[conn.value.sock];
      var c :=
        if fd in b.entries
        then b.(groups := Erased(b.groups, b.entries[fd].group, fd), entries := b.entries - {fd})
        else b;
      Notified(c.(bySock := c.bySock - {conn.value.sock}), "remove", fd, -1)
  }

  predicate Rebinds(b: Book, conn: Option<Conn>, fd: Fd) {
    && conn.Some?
    && conn.value.sock in b.bySock
    && var was := b.bySock[conn.value.sock];
       was in b.entries && (fd == was || fd !in b.entries)
  }

  function Rebound(b: Book, conn: Option<Conn>, fd: Fd, group: int): Book {
    if !Rebinds(b, conn, fd) then b
    else
      var was := b.bySock[conn.value.sock];
      var e := b.entries[was];
      var c :=
        if fd != was then
          b.(entries := (b.entries - {was})[fd := Entry(e.conn, group)],
             groups := Moved(b.groups, was, e.group, group, fd),
             bySock := b.bySock[conn.value.sock := fd])
        else if e.group != group then
          b.(entries := b.entries[fd := Entry(e.conn, group)],
             groups := Moved(b.groups, fd, e.group, group, fd))
        else b;
      Notified(c, "rebind", fd, group)
  }

  function GroupSet(b: Book, fd: Fd, group: int): Book {
    if fd !in b.entries || b.entries[fd].group == group then b
    else
      var e := b.entries[fd];
      Notified(b.(groups := Moved(b.groups, fd, e.group, group, fd),
                  entries := b.entries[fd := Entry(e.conn, group)]),
               "set_group", fd, group)
  }

  function DismissOne(entries: Entries, fd: Fd, g: int): Entries {
    if fd in entries && entries[fd].group == g then entries[fd := Entry(entries[fd].conn, -1)] else entries
  }

  /** Entries of the group's old members that still say they belong to it go back to no group. */
  ghost function Dismissed(entries: Entries, members: set<Fd>, g: int): (r: Entries)
    ensures r.Keys == entries.Keys
    ensures forall fd :: fd in entries ==>
      r[fd] == if fd in members && entries[fd].group == g then Entry(entries[fd].conn, -1) else entries[fd]
    decreases members
  {
    if members == {} then entries
    else
      var fd :| fd in members;
      Dismissed(DismissOne(entries, fd, g), members - {fd}, g)
  }

  datatype Grouping = Grouping(entries: Entries, groups: Groups)

  function AssignOne(s: Grouping, g: int, fd: Fd): Grouping {
    if fd !in s.entries then s
    else
      var e := s.entries[fd];
      Grouping(s.entries[fd := Entry(e.conn, g)], Joined(Erased(s.groups, e.group, fd), g, fd))
  }

  function AssignAll(s: Grouping, g: int, fds: seq<Fd>): Grouping
    decreases |fds|
  {
    if fds == [] then s else AssignAll(AssignOne(s, g, fds[0]), g, fds[1..])
  }

  ghost function Assigned(b: Book, g: int, fds: seq<Fd>): Book {
    var start := Grouping(Dismissed(b.entries, Members(b.groups, g), g), b.groups[g := {}]);
    var end := AssignAll(start, g, fds);
    Notified(b.(entries := end.entries, groups := end.groups), "divide_gp", 0, g)
  }

  /** `alive` are the connections whose object still exists: the others cannot be locked. */
  function Find(b: Book, fd: Fd, alive: set<nat>): Option<Conn> {
    if fd in b.entries && b.entries[fd].conn.id in alive then Some(b.entries[fd].conn) else None
  }

  function ConnectionInfo(b: Book, conn: Option<Conn>, alive: set<nat>): Option<(Fd, int)> {
    if conn.None? || conn.value.sock !in b.bySock then None
    else
      var fd := b.bySock[conn.value.sock];
      if fd !in b.entries || b.entries[fd].conn.id !in alive || b.entries[fd].conn.id != conn.value.id then None
      else Some((fd, b.entries[fd].group))
  }

  /** The reference form of a group query: look at every entry. */
  function Scan(b: Book, g: int, alive: set<nat>): set<Fd> {
    set fd | fd in b.entries && b.entries[fd].group == g && b.entries[fd].conn.id in alive
  }

  // ---------------------------------------------------------------- the code, on its own state

  class ConnectionBook {
    var virtualMap: Entries
    var groupMap: Groups
    var sockToVirtual: map<nat, Fd>
    var version: nat
    var changes: seq<Change>

    function View(): Book
      reads this
    {
      Book(virtualMap, groupMap, sockToVirtual, version, changes)
    }

    constructor ()
      ensures View() == EMPTY_BOOK
    {
      virtualMap, groupMap, sockToVirtual, version, changes := map[], map[], map[], 0, [];
    }

    method NotifyChange(cmd: string, fd: Fd, group: int)
      modifies this`version, this`changes
      ensures View() == Notified(old(View()), cmd, fd, group)
    {
      version := version + 1;
      changes := changes + [Change(cmd, fd, group, version)];
      if |changes| > MAX_CHANGES {
        changes := changes[1..];
      }
    }

    method EraseFromGroup(group: int, fd: Fd)
      modifies this`groupMap
      ensures groupMap == Erased(old(groupMap), group, fd)
      ensures group in groupMap <==> group in old(groupMap) && old(groupMap)[group] - {fd} != {}
    {
      if group !in groupMap {
        return;
      }
      groupMap := groupMap[group := groupMap[group] - {fd}];
      if groupMap[group] == {} {
        groupMap := groupMap - {group};
        assert groupMap == old(groupMap) - {group};
      }
    }

    method JoinGroup(group: int, fd: Fd)
      modifies this`groupMap
      ensures groupMap == Joined(old(groupMap), group, fd)
    {
      if group !in groupMap {
        groupMap := groupMap[group := {}];
      }
      groupMap := groupMap[group := groupMap[group] + {fd}];
    }

    method OnConnection(conn: Option<Conn>) returns (fd: Fd)
      modifies this
      ensures View() == Connected(old(View()), conn)
      ensures fd == if Registers(old(View()), conn) then conn.value.sock else 0
    {
      if conn.None? {
        return 0;
      }
      if conn.value.sock in sockToVirtual {
        return 0;
      }
      fd := conn.value.sock;
      virtualMap := virtualMap[fd := Entry(conn.value, -1)];
      sockToVirtual := sockToVirtual[conn.value.sock := fd];
      NotifyChange("add", fd, -1);
    }

    method DisConnection(conn: Option<Conn>)
      modifies this
      ensures View() == Disconnected(old(View()), conn)
    {
      if conn.None? {
        return;
      }
      if conn.value.sock !in sockToVirtual {
        return;
      }
      var fd := sockToVirtual[conn.value.sock];
      if fd in virtualMap {
        EraseFromGroup(virtualMap[fd].group, fd);
        virtualMap := virtualMap - {fd};
      }
      sockToVirtual := sockToVirtual - {conn.value.sock};
      NotifyChange("remove", fd, -1);
    }

    method Rebind(conn: Option<Conn>, businessFd: Fd, group: int) returns (ok: bool)
      modifies this
      ensures ok == Rebinds(old(View()), conn, businessFd)
      ensures View() == Rebound(old(View()), conn, businessFd, group)
    {
      if conn.None? {
        return false;
      }
      if conn.value.sock !in sockToVirtual {
        return false;
      }
      var oldFd := sockToVirtual[conn.value.sock];
      if oldFd !in virtualMap {
        return false;
      }
      if businessFd != oldFd {
        if businessFd in virtualMap {
          return false;
        }
        var entry := virtualMap[oldFd];
        virtualMap := virtualMap - {oldFd};
        EraseFromGroup(entry.group, oldFd);
        virtualMap := virtualMap[businessFd := Entry(entry.conn, group)];
        sockToVirtual := sockToVirtual[conn.value.sock := businessFd];
        if group >= 0 {
          JoinGroup(group, businessFd);
        }
        NotifyChange("rebind", businessFd, group);
        return true;
      }
      var oldGroup := virtualMap[oldFd].group;
      if oldGroup != group {
        EraseFromGroup(oldGroup, businessFd);
        virtualMap := virtualMap[oldFd := Entry(virtualMap[oldFd].conn, group)];
        if group >= 0 {
          JoinGroup(group, businessFd);
        }
      }
      NotifyChange("rebind", businessFd, group);
      ok := true;
    }

    method SetGroup(fd: Fd, group: int) returns (ok: bool)
      modifies this
      ensures ok == (fd in old(virtualMap))
      ensures View() == GroupSet(old(View()), fd, group)
    {
      if fd !in virtualMap {
        return false;
      }
      if virtualMap[fd].group == group {
        return true;
      }
      EraseFromGroup(virtualMap[fd].group, fd);
      virtualMap := virtualMap[fd := Entry(virtualMap[fd].conn, group)];
      if group >= 0 {
        JoinGroup(group, fd);
      }
      NotifyChange("set_group", fd, group);
      ok := true;
    }

    /** The first loop of `assign_group`, over the group's current members. */
    method DismissMembers(group: int)
      modifies this`virtualMap
      ensures virtualMap == Dismissed(old(virtualMap), Members(groupMap, group), group)
    {
      var members := Members(groupMap, group);
      var todo := members;
      while todo != {}
        invariant todo <= members
        invariant virtualMap == Dismissed(old(virtualMap), members - todo, group)
        decreases todo
      {
        var fd :| fd in todo;
        if fd in virtualMap && virtualMap[fd].group == group {
          virtualMap := virtualMap[fd := Entry(virtualMap[fd].conn, -1)];
        }
        todo := todo - {fd};
      }
      assert members - todo == members;
    }

    method AssignGroup(group: int, fds: seq<Fd>) returns (ok: bool)
      modifies this
      ensures ok && View() == Assigned(old(View()), group, fds)
    {
      DismissMembers(group);
      groupMap := groupMap[group := {}];
      ghost var start := Grouping(virtualMap, groupMap);
      var i := 0;
      while i < |fds|
        invariant 0 <= i <= |fds|
        invariant AssignAll(Grouping(virtualMap, groupMap), group, fds[i..]) == AssignAll(start, group, fds)
        invariant sockToVirtual == old(sockToVirtual) && version == old(version) && changes == old(changes)
      {
        var fd := fds[i];
        assert fds[i..][1..] == fds[i + 1..];
        i := i + 1;
        if fd !in virtualMap {
          continue;
        }
        EraseFromGroup(virtualMap[fd].group, fd);
        virtualMap := virtualMap[fd := Entry(virtualMap[fd].conn, group)];
        JoinGroup(group, fd);
      }
      NotifyChange("divide_gp", 0, group);
      ok := true;
    }

    /** The indexed group query: of the group's indexed members, each once, those a scan of all entries would find -
        for a group from 0 up of a coherent roster, that is the scan. */
    method GroupVirtualFds(group: int, alive: set<nat>) returns (fds: seq<Fd>)
      ensures (set fd | fd in fds) == Members(groupMap, group) * Scan(View(), group, alive)
      ensures Coherent(View()) && group >= 0 ==> (set fd | fd in fds) == Scan(View(), group, alive)
      ensures forall i, j :: 0 <= i < j < |fds| ==> fds[i] != fds[j]
    {
      fds := [];
      if group !in groupMap {
        return;
      }
      var todo := groupMap[group];
      while todo != {}
        invariant todo <= groupMap[group]
        invariant forall fd :: fd in fds <==> fd in groupMap[group] - todo && fd in Scan(View(), group, alive)
        invariant forall i, j :: 0 <= i < j < |fds| ==> fds[i] != fds[j]
        decreases todo
      {
        var fd :| fd in todo;
        assert fd !in fds;
        todo := todo - {fd};
        if fd !in virtualMap || virtualMap[fd].group != group {
          continue;
        }
        if virtualMap[fd].conn.id in alive {
          fds := fds + [fd];
        }
      }
    }

    method TakeChanges() returns (taken: seq<Change>)
      modifies this`changes
      ensures taken == old(changes) && changes == []
    {
      taken := changes;
      changes := [];
    }
  }

  // ---------------------------------------------------------------- coherence

  /** The socket index and the entries are inverse to each other. */
  ghost predicate Bijective(b: Book) {
    && (forall s :: s in b.bySock ==> b.bySock[s] in b.entries && b.entries[b.bySock[s]].conn.sock == s)
    && (forall fd :: fd in b.entries ==>
          b.entries[fd].conn.sock in b.bySock && b.bySock[b.entries[fd].conn.sock] == fd)
  }

  /** Every indexed member is an entry of that group, and every entry of a group from 0 up is indexed. */
  ghost predicate Indexed(entries: Entries, groups: Groups) {
    && MembersBelong(entries, groups)
    && (forall fd :: fd in entries && entries[fd].group >= 0 ==> fd in Members(groups, entries[fd].group))
  }

  ghost predicate MembersBelong(entries: Entries, groups: Groups) {
    forall g, fd :: fd in Members(groups, g) ==> fd in entries && entries[fd].group == g
  }

  ghost predicate Coherent(b: Book) {
    Bijective(b) && Indexed(b.entries, b.groups)
  }

  lemma ErasedMembers(groups: Groups, g: int, fd: Fd, h: int)
    ensures Members(Erased(groups, g, fd), h) == if h == g then Members(groups, g) - {fd} else Members(groups, h)
  {
  }

  lemma MovedMembers(groups: Groups, fd: Fd, from: int, to: int, newFd: Fd, h: int)
    ensures var left := if h == from then Members(groups, h) - {fd} else Members(groups, h);
            Members(Moved(groups, fd, from, to, newFd), h) == if h == to && to >= 0 then left + {newFd} else left
  {
    ErasedMembers(groups, from, fd, h);
  }

  /** Moving one fd, possibly under a new name, keeps the group index. */
  lemma MoveKeepsIndex(entries: Entries, groups: Groups, fd: Fd, newFd: Fd, to: int, conn: Conn)
    requires Indexed(entries, groups) && fd in entries && (newFd == fd || newFd !in entries)
    ensures Indexed((entries - {fd})[newFd := Entry(conn, to)], Moved(groups, fd, entries[fd].group, to, newFd))
  {
    var from := entries[fd].group;
    var entries' := (entries - {fd})[newFd := Entry(conn, to)];
    var groups' := Moved(groups, fd, from, to, newFd);
    forall h, v | v in Members(groups', h) ensures v in entries' && entries'[v].group == h {
      MovedMembers(groups, fd, from, to, newFd, h);
      assert v in Members(groups, h) || v == newFd;
    }
    forall v | v in entries' && entries'[v].group >= 0 ensures v in Members(groups', entries'[v].group) {
      MovedMembers(groups, fd, from, to, newFd, entries'[v].group);
    }
  }

  /** A new connection keeps the roster coherent exactly when it is refused or its socket number is not already
      in use as a virtual fd. */
  lemma NewConnectionCoherence(b: Book, c: Conn)
    requires Coherent(b)
    ensures Coherent(Connected(b, Some(c))) <==> c.sock in b.bySock || c.sock !in b.entries
  {
    var r := Connected(b, Some(c));
    if c.sock !in b.bySock {
      if c.sock in b.entries {
        var other := b.entries[c.sock].conn.sock;
        assert other in r.bySock && r.bySock[other] == c.sock && r.entries[c.sock].conn.sock != other;
      } else {
        assert forall g :: c.sock !in Members(b.groups, g);
      }
    }
  }

  /** A business fd equal to a socket number that is accepted later breaks the roster. */
  lemma CollisionBreaksRoster()
    ensures var b := Connected(EMPTY_BOOK, Some(Conn(1, 5)));
            var c := Rebound(b, Some(Conn(1, 5)), 7, -1);
            Coherent(c) && !Coherent(Connected(c, Some(Conn(2, 7))))
  {
    var b := Connected(EMPTY_BOOK, Some(Conn(1, 5)));
    NewConnectionCoherence(EMPTY_BOOK, Conn(1, 5));
    assert Coherent(b);
    RebindKeeps(b, Some(Conn(1, 5)), 7, -1);
    NewConnectionCoherence(Rebound(b, Some(Conn(1, 5)), 7, -1), Conn(2, 7));
  }

  lemma DisconnectKeeps(b: Book, conn: Option<Conn>)
    requires Coherent(b)
    ensures Coherent(Disconnected(b, conn))
  {
    if conn.Some? && conn.value.sock in b.bySock {
      var fd := b.bySock[conn.value.sock];
      var r := Disconnected(b, conn);
      forall h
        ensures Members(r.groups, h)
             == if h == b.entries[fd].group then Members(b.groups, h) - {fd} else Members(b.groups, h)
      {
        ErasedMembers(b.groups, b.entries[fd].group, fd, h);
      }
    }
  }

  lemma RebindKeeps(b: Book, conn: Option<Conn>, fd: Fd, group: int)
    requires Coherent(b)
    ensures Coherent(Rebound(b, conn, fd, group))
  {
    if Rebinds(b, conn, fd) {
      var was := b.bySock[conn.value.sock];
      var e := Entry(b.entries[was].conn, group);
      MoveKeepsIndex(b.entries, b.groups, was, fd, group, e.conn);
      if fd == was {
        assert (b.entries - {was})[fd := e] == b.entries[fd := e];
      }
    }
  }

  lemma SetGroupKeeps(b: Book, fd: Fd, group: int)
    requires Coherent(b)
    ensures Coherent(GroupSet(b, fd, group))
  {
    if fd in b.entries {
      var e := Entry(b.entries[fd].conn, group);
      MoveKeepsIndex(b.entries, b.groups, fd, fd, group, e.conn);
      assert (b.entries - {fd})[fd := e] == b.entries[fd := e];
    }
  }

  // ---------------------------------------------------------------- what an operation does to one entry

  /** The entry under `was` is now under fd and in the group; every other entry is as it was, and the group index
      has followed. */
  ghost predicate EntryMoved(b: Book, r: Book, was: Fd, fd: Fd, group: int) {
    && was in b.entries && (fd == was || fd !in b.entries)
    && r.entries.Keys == b.entries.Keys - {was} + {fd}
    && r.entries[fd] == Entry(b.entries[was].conn, group)
    && (forall v :: v in b.entries && v != was ==> v in r.entries && r.entries[v] == b.entries[v])
    && (forall h :: Members(r.groups, h) ==
          if fd == was && b.entries[was].group == group then Members(b.groups, h)
          else Members(b.groups, h) - {was} + if h == group && group >= 0 then {fd} else {})
  }

  /** A connection is registered under its socket number, in no group, unless that number is registered already. */
  lemma ConnectMeaning(b: Book, conn: Option<Conn>)
    ensures var r := Connected(b, conn);
      if conn.None? || conn.value.sock in b.bySock then r == b
      else
        var fd := conn.value.sock;
        && r.entries.Keys == b.entries.Keys + {fd} && r.entries[fd] == Entry(conn.value, -1)
        && r.bySock.Keys == b.bySock.Keys + {fd} && r.bySock[fd] == fd
        && (forall v :: v in b.entries && v != fd ==> r.entries[v] == b.entries[v])
        && (forall s :: s in b.bySock ==> r.bySock[s] == b.bySock[s])
        && r.groups == b.groups
  {
  }

  /** A connection that goes away takes its socket, its entry and its membership with it, and nothing else. */
  lemma DisconnectMeaning(b: Book, conn: Option<Conn>)
    requires Coherent(b)
    ensures var r := Disconnected(b, conn);
      if conn.None? || conn.value.sock !in b.bySock then r == b
      else
        var fd := b.bySock[conn.value.sock];
        && r.entries.Keys == b.entries.Keys - {fd} && r.bySock.Keys == b.bySock.Keys - {conn.value.sock}
        && (forall v :: v in r.entries ==> r.entries[v] == b.entries[v])
        && (forall s :: s in r.bySock ==> r.bySock[s] == b.bySock[s])
        && (forall h :: Members(r.groups, h) == Members(b.groups, h) - {fd})
  {
    if conn.Some? && conn.value.sock in b.bySock {
      var fd := b.bySock[conn.value.sock];
      forall h ensures Members(Disconnected(b, conn).groups, h) == Members(b.groups, h) - {fd} {
        ErasedMembers(b.groups, b.entries[fd].group, fd, h);
      }
    }
  }

  lemma MovedIsMembership(b: Book, was: Fd, fd: Fd, group: int)
    requires Coherent(b) && was in b.entries
    ensures forall h :: Members(Moved(b.groups, was, b.entries[was].group, group, fd), h)
              == Members(b.groups, h) - {was} + if h == group && group >= 0 then {fd} else {}
  {
    forall h
      ensures Members(Moved(b.groups, was, b.entries[was].group, group, fd), h)
              == Members(b.groups, h) - {was} + if h == group && group >= 0 then {fd} else {}
    {
      MovedMembers(b.groups, was, b.entries[was].group, group, fd, h);
    }
  }

  /** `rebind` refuses an unregistered connection and a business fd that another one has; otherwise it moves just the
      connection's own entry, to just that fd and group. */
  lemma RebindMeaning(b: Book, conn: Option<Conn>, fd: Fd, group: int)
    requires Coherent(b)
    ensures var r := Rebound(b, conn, fd, group);
      if conn.None? || conn.value.sock !in b.bySock || (fd in b.entries && fd != b.bySock[conn.value.sock])
      then r == b && !Rebinds(b, conn, fd)
      else
        && Rebinds(b, conn, fd)
        && EntryMoved(b, r, b.bySock[conn.value.sock], fd, group)
        && r.bySock.Keys == b.bySock.Keys && r.bySock[conn.value.sock] == fd
        && (forall s :: s in b.bySock && s != conn.value.sock ==> r.bySock[s] == b.bySock[s])
  {
    if Rebinds(b, conn, fd) {
      MovedIsMembership(b, b.bySock[conn.value.sock], fd, group);
    }
  }

  /** `set_group` moves just the entry under that fd, to just that group; an unknown fd, or one that is there already,
      changes nothing. */
  lemma SetGroupMeaning(b: Book, fd: Fd, group: int)
    requires Coherent(b)
    ensures var r := GroupSet(b, fd, group);
      if fd !in b.entries || b.entries[fd].group == group then r == b
      else EntryMoved(b, r, fd, fd, group) && r.bySock == b.bySock
  {
    if fd in b.entries {
      MovedIsMembership(b, fd, fd, group);
    }
  }

  // ---------------------------------------------------------------- assign_group

  function Listed(entries: Entries, fds: seq<Fd>): set<Fd> {
    set fd | fd in fds && fd in entries
  }

  /** The second loop, for any list: duplicates, unknown fds and fds of other groups included. */
  ghost predicate LoopMeaning(s: Grouping, r: Grouping, g: int, listed: set<Fd>) {
    && r.entries.Keys == s.entries.Keys
    && (forall fd :: fd in s.entries ==>
          r.entries[fd] == if fd in listed then Entry(s.entries[fd].conn, g) else s.entries[fd])
    && (forall h :: Members(r.groups, h) ==
          if h == g then Members(s.groups, g) + listed else Members(s.groups, h) - listed)
  }

  lemma AssignOneMeaning(s: Grouping, g: int, fd: Fd)
    requires MembersBelong(s.entries, s.groups)
    ensures LoopMeaning(s, AssignOne(s, g, fd), g, Listed(s.entries, [fd]))
    ensures MembersBelong(AssignOne(s, g, fd).entries, AssignOne(s, g, fd).groups)
  {
    if fd in s.entries {
      assert Listed(s.entries, [fd]) == {fd};
      var r := AssignOne(s, g, fd);
      forall h
        ensures Members(r.groups, h) == if h == g then Members(s.groups, g) + {fd} else Members(s.groups, h) - {fd}
      {
        ErasedMembers(s.groups, s.entries[fd].group, fd, h);
      }
    } else {
      assert Listed(s.entries, [fd]) == {};
    }
  }

  lemma LoopMeaningChains(s: Grouping, t: Grouping, r: Grouping, g: int, a: set<Fd>, b: set<Fd>)
    requires LoopMeaning(s, t, g, a) && LoopMeaning(t, r, g, b)
    ensures LoopMeaning(s, r, g, a + b)
  {
  }

  lemma {:induction false} AssignAllMeaning(s: Grouping, g: int, fds: seq<Fd>)
    requires MembersBelong(s.entries, s.groups)
    ensures LoopMeaning(s, AssignAll(s, g, fds), g, Listed(s.entries, fds))
    decreases |fds|
  {
    if fds != [] {
      var t := AssignOne(s, g, fds[0]);
      AssignOneMeaning(s, g, fds[0]);
      AssignAllMeaning(t, g, fds[1..]);
      LoopMeaningChains(s, t, AssignAll(s, g, fds), g, Listed(s.entries, [fds[0]]), Listed(t.entries, fds[1..]));
      assert Listed(s.entries, [fds[0]]) + Listed(t.entries, fds[1..]) == Listed(s.entries, fds);
    }
  }

  /** `assign_group` on a coherent roster: the new members are exactly the registered fds of the list; former
      members that are not listed are left without a group; no other entry moves; no other group loses anyone
      but a listed fd; sockets stay. */
  lemma AssignGroupMeaning(b: Book, g: int, fds: seq<Fd>)
    requires Coherent(b)
    ensures var r, listed := Assigned(b, g, fds), Listed(b.entries, fds);
            && Members(r.groups, g) == listed
            && (forall h :: h != g ==> Members(r.groups, h) == Members(b.groups, h) - listed)
            && r.entries.Keys == b.entries.Keys
            && (forall fd :: fd in b.entries ==>
                  && r.entries[fd].conn == b.entries[fd].conn
                  && r.entries[fd].group ==
                     if fd in listed then g
                     else if fd in Members(b.groups, g) then -1
                     else b.entries[fd].group)
            && r.bySock == b.bySock
  {
    var start := Grouping(Dismissed(b.entries, Members(b.groups, g), g), b.groups[g := {}]);
    forall h, fd | fd in Members(start.groups, h) ensures fd in start.entries && start.entries[fd].group == h {
      assert fd in Members(b.groups, h);
    }
    AssignAllMeaning(start, g, fds);
    assert Listed(start.entries, fds) == Listed(b.entries, fds);
  }

  lemma AssignKeeps(b: Book, g: int, fds: seq<Fd>)
    requires Coherent(b)
    ensures Coherent(Assigned(b, g, fds))
  {
    AssignGroupMeaning(b, g, fds);
  }

  /** Neither the order of the list nor repetitions in it matter. */
  lemma AssignOrderIrrelevant(b: Book, g: int, fds: seq<Fd>, others: seq<Fd>)
    requires Coherent(b) && forall fd :: fd in fds <==> fd in others
    ensures var r, s := Assigned(b, g, fds), Assigned(b, g, others);
            r.entries == s.entries && r.bySock == s.bySock && forall h :: Members(r.groups, h) == Members(s.groups, h)
  {
    AssignGroupMeaning(b, g, fds);
    AssignGroupMeaning(b, g, others);
    assert Listed(b.entries, fds) == Listed(b.entries, others);
  }

  // ---------------------------------------------------------------- queries

  /** The group index answers like a scan, and `find` and `connection_info` are inverse to each other. */
  lemma QueriesAgree(b: Book, alive: set<nat>, g: int, c: Conn, fd: Fd)
    requires Coherent(b)
    ensures g >= 0 ==> (set v | v in Members(b.groups, g) && Find(b, v, alive).Some?) == Scan(b, g, alive)
    ensures Find(b, fd, alive) == Some(c) <==> fd in b.entries && b.entries[fd].conn == c && c.id in alive
    ensures Find(b, fd, alive) == Some(c) <==> fd in b.entries && ConnectionInfo(b, Some(c), alive)
                                                                  == Some((fd, b.entries[fd].group))
    ensures ConnectionInfo(b, Some(c), alive) == None <==> forall v :: Find(b, v, alive) != Some(c)
    ensures ConnectionInfo(b, None, alive) == None
  {
    if g >= 0 {
      var indexed := set v | v in Members(b.groups, g) && Find(b, v, alive).Some?;
      forall v ensures v in indexed <==> v in Scan(b, g, alive) {
      }
    }
    var info := ConnectionInfo(b, Some(c), alive);
    if info.Some? {
      assert Find(b, info.value.0, alive) == Some(c);
    } else {
      forall v ensures Find(b, v, alive) != Some(c) {
      }
    }
  }

  // ---------------------------------------------------------------- whole runs

  datatype Op =
    | OnConnection(conn: Option<Conn>)
    | DisConnection(conn: Option<Conn>)
    | Rebind(conn: Option<Conn>, fd: Fd, group: int)
    | SetGroup(fd: Fd, group: int)
    | AssignGroup(group: int, fds: seq<Fd>)
    | TakeChanges

  ghost function Apply(b: Book, op: Op): Book {
    match op
    case OnConnection(conn) => Connected(b, conn)
    case DisConnection(conn) => Disconnected(b, conn)
    case Rebind(conn, fd, group) => Rebound(b, conn, fd, group)
    case SetGroup(fd, group) => GroupSet(b, fd, group)
    case AssignGroup(group, fds) => Assigned(b, group, fds)
    case TakeChanges => b.(changes := [])
  }

  ghost function Run(b: Book, ops: seq<Op>): Book
    decreases |ops|
  {
    if ops == [] then b else Run(Apply(b, ops[0]), ops[1..])
  }

  /** A socket number being accepted is not in use as a business fd. */
  predicate Fresh(b: Book, op: Op) {
    op.OnConnection? && op.conn.Some? && op.conn.value.sock !in b.bySock ==> op.conn.value.sock !in b.entries
  }

  ghost predicate FreshRun(b: Book, ops: seq<Op>)
    decreases |ops|
  {
    ops == [] || (Fresh(b, ops[0]) && FreshRun(Apply(b, ops[0]), ops[1..]))
  }

  lemma {:induction false} RosterStaysCoherent(b: Book, ops: seq<Op>)
    requires Coherent(b) && FreshRun(b, ops)
    ensures Coherent(Run(b, ops))
    decreases |ops|
  {
    if ops != [] {
      match ops[0] {
        case OnConnection(conn) => if conn.Some? { NewConnectionCoherence(b, conn.value); }
        case DisConnection(conn) => DisconnectKeeps(b, conn);
        case Rebind(conn, fd, group) => RebindKeeps(b, conn, fd, group);
        case SetGroup(fd, group) => SetGroupKeeps(b, fd, group);
        case AssignGroup(group, fds) => AssignKeeps(b, group, fds);
        case TakeChanges =>
      }
      RosterStaysCoherent(Apply(b, ops[0]), ops[1..]);
    }
  }

  /** The log holds the latest changes, numbered without a gap up to the current version, at most 4096. */
  ghost predicate LogInv(b: Book) {
    && |b.changes| <= MAX_CHANGES && |b.changes| <= b.version
    && forall i :: 0 <= i < |b.changes| ==> b.changes[i].version == b.version - |b.changes| + 1 + i
  }

  /** One more change, the latest, and of the earlier ones at most the oldest is gone. */
  predicate Logs(b: Book, r: Book, cmd: string, fd: Fd, group: int) {
    && r.version == b.version + 1
    && |r.changes| == (if |b.changes| < MAX_CHANGES then |b.changes| + 1 else |b.changes|)
    && r.changes != [] && r.changes[|r.changes| - 1] == Change(cmd, fd, group, r.version)
    && r.changes[..|r.changes| - 1] == b.changes[|b.changes| + 1 - |r.changes|..]
  }

  lemma LoggedMeaning(log: seq<Change>, c: Change)
    ensures var r := Logged(log, c);
      && |r| == (if |log| < MAX_CHANGES then |log| + 1 else |log|)
      && r != [] && r[|r| - 1] == c && r[..|r| - 1] == log[|log| + 1 - |r|..]
  {
    var longer := log + [c];
    if |longer| > MAX_CHANGES {
      assert longer[1..] == log[1..] + [c];
    } else {
      assert log[0..] == log;
    }
  }

  lemma NotifiedLogs(b: Book, c: Book, cmd: string, fd: Fd, group: int)
    requires c.version == b.version && c.changes == b.changes
    ensures Logs(b, Notified(c, cmd, fd, group), cmd, fd, group)
  {
    LoggedMeaning(b.changes, Change(cmd, fd, group, b.version + 1));
  }

  /** Every operation that succeeds is logged under its name, with the fd and the group it was about - even a `rebind`
      that changes nothing, but not such a `set_group` - and one that is refused is not. */
  lemma OperationsAreLogged(b: Book, op: Op)
    ensures var r := Apply(b, op);
      match op
      case OnConnection(conn) =>
        if conn.Some? && conn.value.sock !in b.bySock then Logs(b, r, "add", conn.value.sock, -1) else r == b
      case DisConnection(conn) =>
        if conn.Some? && conn.value.sock in b.bySock then Logs(b, r, "remove", b.bySock[conn.value.sock], -1)
        else r == b
      case Rebind(conn, fd, group) => if Rebinds(b, conn, fd) then Logs(b, r, "rebind", fd, group) else r == b
      case SetGroup(fd, group) =>
        if fd in b.entries && b.entries[fd].group != group then Logs(b, r, "set_group", fd, group) else r == b
      case AssignGroup(group, _) => Logs(b, r, "divide_gp", 0, group)
      case TakeChanges => r == b.(changes := [])
  {
    match op
    case OnConnection(conn) => ConnectIsLogged(b, conn);
    case DisConnection(conn) => DisconnectIsLogged(b, conn);
    case Rebind(conn, fd, group) => RebindIsLogged(b, conn, fd, group);
    case SetGroup(fd, group) => SetGroupIsLogged(b, fd, group);
    case AssignGroup(group, fds) => AssignIsLogged(b, group, fds);
    case TakeChanges =>
  }

  lemma ConnectIsLogged(b: Book, conn: Option<Conn>)
    ensures conn.Some? && conn.value.sock !in b.bySock ==> Logs(b, Connected(b, conn), "add", conn.value.sock, -1)
  {
    if Registers(b, conn) {
      var r := Connected(b, conn);
      NotifiedLogs(b, b.(entries := r.entries, bySock := r.bySock), "add", conn.value.sock, -1);
    }
  }

  lemma DisconnectIsLogged(b: Book, conn: Option<Conn>)
    ensures conn.Some? && conn.value.sock in b.bySock ==>
      Logs(b, Disconnected(b, conn), "remove", b.bySock[conn.value.sock], -1)
  {
    if conn.Some? && conn.value.sock in b.bySock {
      var r := Disconnected(b, conn);
      NotifiedLogs(b, r.(version := b.version, changes := b.changes), "remove", b.bySock[conn.value.sock], -1);
    }
  }

  lemma RebindIsLogged(b: Book, conn: Option<Conn>, fd: Fd, group: int)
    ensures Rebinds(b, conn, fd) ==> Logs(b, Rebound(b, conn, fd, group), "rebind", fd, group)
  {
    if Rebinds(b, conn, fd) {
      var r := Rebound(b, conn, fd, group);
      NotifiedLogs(b, r.(version := b.version, changes := b.changes), "rebind", fd, group);
    }
  }

  lemma SetGroupIsLogged(b: Book, fd: Fd, group: int)
    ensures fd in b.entries && b.entries[fd].group != group ==>
      Logs(b, GroupSet(b, fd, group), "set_group", fd, group)
  {
    if fd in b.entries && b.entries[fd].group != group {
      var r := GroupSet(b, fd, group);
      NotifiedLogs(b, r.(version := b.version, changes := b.changes), "set_group", fd, group);
    }
  }

  lemma AssignIsLogged(b: Book, g: int, fds: seq<Fd>)
    ensures Logs(b, Assigned(b, g, fds), "divide_gp", 0, g)
  {
    var r := Assigned(b, g, fds);
    NotifiedLogs(b, r.(version := b.version, changes := b.changes), "divide_gp", 0, g);
  }

  lemma NotifyKeepsLog(b: Book, c: Book, cmd: string, fd: Fd, group: int)
    requires LogInv(b) && c.version == b.version && c.changes == b.changes
    ensures LogInv(Notified(c, cmd, fd, group))
  {
  }

  lemma OpKeepsLog(b: Book, op: Op)
    requires LogInv(b)
    ensures LogInv(Apply(b, op)) && Apply(b, op).version >= b.version
  {
    var r := Apply(b, op);
    if r.version != b.version {
      var last := if |b.changes| == MAX_CHANGES then r.changes[MAX_CHANGES - 1] else r.changes[|b.changes|];
      NotifyKeepsLog(b, b, last.cmd, last.virtualFd, last.group);
    }
  }

  lemma {:induction false} ChangeLogIsGapless(b: Book, ops: seq<Op>)
    requires LogInv(b)
    ensures LogInv(Run(b, ops)) && Run(b, ops).version >= b.version
    decreases |ops|
  {
    if ops != [] {
      OpKeepsLog(b, ops[0]);
      ChangeLogIsGapless(Apply(b, ops[0]), ops[1..]);
    }
  }
}
