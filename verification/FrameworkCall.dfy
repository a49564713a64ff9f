/** Text commands of the framework: how `divide_gp` and its relatives print their arguments and how
    `handle_builtin` reads them back before it changes the roster. */
module FrameworkCall {
  import opened Decimal
  import opened ConnectBook
  import opened Sequences
  import opened Wrappers

  const TWO_TO_THE_31: int := 0x8000_0000
  const TWO_TO_THE_32: int := 0x1_0000_0000
  const TWO_TO_THE_64: int := 0x1_0000_0000_0000_0000

  predicate IsInt32(n: int) {
    -TWO_TO_THE_31 <= n < TWO_TO_THE_31
  }

  ghost predicate AllUint64(fds: seq<Fd>) {
    forall i :: 0 <= i < |fds| ==> fds[i] < TWO_TO_THE_64
  }

  /** `std::to_string` of a signed number. */
  function PrintInt(n: int): string {
    if n < 0 then "-" + Print(-n) else Print(n)
  }

  predicate IsSpace(c: char) {
    c == ' ' || 9 <= c as int <= 13
  }

  function SkipSpaces(s: string): string {
    if s != [] && IsSpace(s[0]) then SkipSpaces(s[1..]) else s
  }

  function DigitRun(s: string): (d: string)
    ensures AllDigits(d)
  {
    if s != [] && IsDigit(s[0]) then [s[0]] + DigitRun(s[1..]) else []
  }

  /** `strtoull(s, nullptr, 10)`, section 7.22.1.4 of ISO C11: white space, an optional sign, the longest run of
      digits; a magnitude out of range gives the largest value; a minus sign negates in the unsigned type. */
  function StrToUll(s: string): (n: nat)
    ensures n < TWO_TO_THE_64
  {
    Signed(SkipSpaces(s))
  }

  function Signed(t: string): (n: nat)
    ensures n < TWO_TO_THE_64
  {
    var negative := t != [] && t[0] == '-';
    var magnitude := Parse(DigitRun(if t != [] && (t[0] == '-' || t[0] == '+') then t[1..] else t));
    if magnitude >= TWO_TO_THE_64 then TWO_TO_THE_64 - 1
    else if negative then (TWO_TO_THE_64 - magnitude) % TWO_TO_THE_64
    else magnitude
  }

  function ParseU64(s: string): nat {
    if s == "" then 0 else StrToUll(s)
  }

  /** `static_cast<int>` of an unsigned 64-bit value: the low 32 bits, as two's complement. */
  function ToInt32(n: nat): (r: int)
    ensures IsInt32(r)
  {
    var low := n % TWO_TO_THE_32;
    if low < TWO_TO_THE_31 then low else low - TWO_TO_THE_32
  }

  /** The length of the text before the first comma. */
  function UpToComma(s: string): (n: nat)
    ensures n <= |s|
    ensures n < |s| ==> s[n] == ','
    ensures ',' !in s[..n]
  {
    if s == [] || s[0] == ',' then 0
    else
      var n := 1 + UpToComma(s[1..]);
      assert s[..n] == [s[0]] + s[1..][..n - 1];
      n
  }

  function AfterComma(s: string): (r: string)
    ensures s != [] ==> |r| < |s|
  {
    var n := UpToComma(s);
    if n < |s| then s[n + 1..] else []
  }

  /** The numbers of a comma-separated list; empty parts are skipped. */
  function ParsedFds(s: string): seq<Fd>
    decreases |s|
  {
    if s == [] then []
    else
      var part := s[..UpToComma(s)];
      (if part == [] then [] else [ParseU64(part)]) + ParsedFds(AfterComma(s))
  }

  method ParseFds(s: string) returns (result: seq<Fd>)
    ensures result == ParsedFds(s)
  {
    result := [];
    var rest := s;
    while rest != []
      invariant ParsedFds(s) == result + ParsedFds(rest)
      decreases |rest|
    {
      var part := rest[..UpToComma(rest)];
      ghost var later := ParsedFds(AfterComma(rest));
      if part != [] {
        var fd := ParseU64(part);
        assert result + ([fd] + later) == (result + [fd]) + later;
        result := result + [fd];
      } else {
        assert [] + later == later;
      }
      rest := AfterComma(rest);
    }
  }

  function JoinedFds(fds: seq<Fd>): string {
    if fds == [] then []
    else if |fds| == 1 then Print(fds[0])
    else Print(fds[0]) + "," + JoinedFds(fds[1..])
  }

  method JoinFds(fds: seq<Fd>) returns (joined: string)
    ensures joined == JoinedFds(fds)
  {
    joined := "";
    var i := 0;
    while i < |fds|
      invariant 0 <= i <= |fds|
      invariant joined == JoinedFds(fds[..i])
    {
      JoinedAppend(fds[..i], fds[i]);
      assert fds[..i] + [fds[i]] == fds[..i + 1];
      if i > 0 {
        joined := joined + ",";
      }
      joined := joined + Print(fds[i]);
      i := i + 1;
    }
    assert fds[..i] == fds;
  }

  // ---------------------------------------------------------------- the built-in commands

  datatype CallResult = CallResult(success: bool, err: string)

  /** What a command did besides changing the roster: handed a message to the connections under some fds, or a
      connection to the close handler. */
  datatype Effect = Nothing | Delivered(fds: set<Fd>, msg: string) | GaveUp(fd: Fd, reason: string)

  datatype Outcome = Outcome(book: Book, effect: Effect, result: CallResult)

  /** The objects behind the roster, by the identity of a connection: which still exist, which have a send function,
      and whose send function takes the message; the connection provider, if it is set, with its answer for the running
      task; whether a close handler is set; and what a handler registered for the command answers, if there is one. */
  datatype World = World(alive: set<nat>, senders: set<nat>, takers: set<nat>,
                         current: Option<Option<Conn>>, closes: bool, registered: Option<CallResult>)

  function Answer(book: Book, ok: bool, err: string): Outcome {
    Outcome(book, Nothing, CallResult(ok, if ok then "" else err))
  }

  predicate CanReach(b: Book, fd: Fd, world: World) {
    Find(b, fd, world.alive).Some? && b.entries[fd].conn.id in world.senders
  }

  /** The members of a group that get a message for it. */
  function Reached(b: Book, group: int, world: World): set<Fd> {
    set fd | fd in Members(b.groups, group) && CanReach(b, fd, world)
  }

  function SendToOne(b: Book, fd: Fd, msg: string, world: World): Outcome {
    if !CanReach(b, fd, world) then Answer(b, false, "send_to_sb failed")
    else Answer(b, b.entries[fd].conn.id in world.takers, "send_to_sb failed").(effect := Delivered({fd}, msg))
  }

  function CloseOne(b: Book, fd: Fd, reason: string, world: World): Outcome {
    if Find(b, fd, world.alive).None? then Answer(b, false, "connection not found")
    else Answer(b, true, "").(effect := GaveUp(fd, reason))
  }

  function BindCurrent(b: Book, args: seq<string>, current: Option<Conn>): Outcome
    requires args != []
  {
    if current.None? then Answer(b, false, "no current connection")
    else
      var fd := ParseU64(args[0]);
      var group := if |args| > 1 then ToInt32(ParseU64(args[1])) else -1;
      Answer(Rebound(b, current, fd, group), Rebinds(b, current, fd), "bind failed")
  }

  const BUILTINS := ["send_to_sb", "send_to_gp", "divide_gp", "bind", "set_group", "close_conn"]

  const NOT_BUILTIN := CallResult(false, "")

  ghost function Builtin(b: Book, cmd: string, args: seq<string>, world: World): Outcome {
    if cmd == "send_to_sb" then
      if |args| < 2 then Answer(b, false, "send_to_sb needs fd,msg")
      else SendToOne(b, ParseU64(args[0]), args[1], world)
    else if cmd == "send_to_gp" then
      if |args| < 2 then Answer(b, false, "send_to_gp needs group,msg")
      else Answer(b, true, "").(effect := Delivered(Reached(b, ToInt32(ParseU64(args[0])), world), args[1]))
    else if cmd == "divide_gp" then
      if args == [] then Answer(b, false, "divide_gp needs group,fds")
      else
        var fds := ParsedFds(if |args| > 1 then args[1] else "");
        Answer(Assigned(b, ToInt32(ParseU64(args[0])), fds), true, "divide_gp failed")
    else if cmd == "bind" then
      if args == [] || world.current.None? then Answer(b, false, "bind needs business fd")
      else BindCurrent(b, args, world.current.value)
    else if cmd == "set_group" then
      if |args| < 2 then Answer(b, false, "set_group needs fd,group")
      else
        var fd := ParseU64(args[0]);
        Answer(GroupSet(b, fd, ToInt32(ParseU64(args[1]))), fd in b.entries, "set_group failed")
    else if cmd == "close_conn" then
      if args == [] || !world.closes then Answer(b, false, "close handler not ready")
      else CloseOne(b, ParseU64(args[0]), if |args| > 1 then args[1] else "", world)
    else Outcome(b, Nothing, NOT_BUILTIN)
  }

  const STOPPED := CallResult(false, "framework stopped")
  const NOT_READY := CallResult(false, "connect_book not ready")

  /** A command goes to a registered handler only if no built-in took it. */
  function Dispatched(builtin: CallResult, cmd: string, world: World): CallResult {
    if builtin.err != "" || builtin.success then builtin
    else if world.registered.Some? then world.registered.value
    else CallResult(false, "unknown command: " + cmd)
  }

  class Framework {
    const book: ConnectionBook?
    var running: bool

    constructor (book: ConnectionBook?)
      ensures this.book == book && running
    {
      this.book := book;
      running := true;
    }

    /** `send_group`: the members are taken in any order. */
    method SendGroup(group: int, world: World) returns (to: set<Fd>)
      requires book != null
      ensures to == Reached(book.View(), group, world)
    {
      to := {};
      if group !in book.groupMap {
        return;
      }
      var todo := book.groupMap[group];
      while todo != {}
        invariant todo <= book.groupMap[group]
        invariant to == Reached(book.View(), group, world) - todo
        decreases todo
      {
        var fd :| fd in todo;
        todo := todo - {fd};
        if fd in book.virtualMap && book.virtualMap[fd].conn.id in world.alive
           && book.virtualMap[fd].conn.id in world.senders {
          to := to + {fd};
        }
      }
    }

    method SendTo(fd: Fd, world: World) returns (reached: bool, ok: bool)
      requires book != null
      ensures reached == CanReach(book.View(), fd, world)
      ensures ok == (reached && book.View().entries[fd].conn.id in world.takers)
    {
      if fd !in book.virtualMap {
        return false, false;
      }
      var conn := book.virtualMap[fd].conn;
      if conn.id !in world.alive || conn.id !in world.senders {
        return false, false;
      }
      return true, conn.id in world.takers;
    }

    method HandleBuiltin(cmd: string, args: seq<string>, world: World) returns (r: CallResult, effect: Effect)
      modifies book
      ensures book == null ==> r == NOT_READY && effect == Nothing
      ensures book != null ==> Outcome(book.View(), effect, r) == Builtin(old(book.View()), cmd, args, world)
    {
      if book == null {
        return NOT_READY, Nothing;
      }
      effect := Nothing;
      if cmd == "send_to_sb" {
        if |args| < 2 {
          return CallResult(false, "send_to_sb needs fd,msg"), Nothing;
        }
        var reached, ok := SendTo(ParseU64(args[0]), world);
        if reached {
          effect := Delivered({ParseU64(args[0])}, args[1]);
        }
        return CallResult(ok, if ok then "" else "send_to_sb failed"), effect;
      }
      if cmd == "send_to_gp" {
        if |args| < 2 {
          return CallResult(false, "send_to_gp needs group,msg"), Nothing;
        }
        var to := SendGroup(ToInt32(ParseU64(args[0])), world);
        return CallResult(true, ""), Delivered(to, args[1]);
      }
      if cmd == "close_conn" {
        if |args| == 0 || !world.closes {
          return CallResult(false, "close handler not ready"), Nothing;
        }
        if Find(book.View(), ParseU64(args[0]), world.alive).None? {
          return CallResult(false, "connection not found"), Nothing;
        }
        return CallResult(true, ""), GaveUp(ParseU64(args[0]), if |args| > 1 then args[1] else "");
      }
      r := HandleRoster(cmd, args, world.current);
    }

    /** The commands that change the roster. */
    method HandleRoster(cmd: string, args: seq<string>, current: Option<Option<Conn>>) returns (r: CallResult)
      requires book != null && cmd != "send_to_sb" && cmd != "send_to_gp" && cmd != "close_conn"
      modifies book
      ensures forall world: World :: world.current == current ==>
        Outcome(book.View(), Nothing, r) == Builtin(old(book.View()), cmd, args, world)
    {
      if cmd == "divide_gp" {
        if |args| == 0 {
          return CallResult(false, "divide_gp needs group,fds");
        }
        var fds := ParseFds(if |args| > 1 then args[1] else "");
        var ok := book.AssignGroup(ToInt32(ParseU64(args[0])), fds);
        return CallResult(ok, if ok then "" else "divide_gp failed");
      }
      if cmd == "bind" {
        if |args| < 1 || current.None? {
          return CallResult(false, "bind needs business fd");
        }
        if current.value.None? {
          return CallResult(false, "no current connection");
        }
        var group := if |args| > 1 then ToInt32(ParseU64(args[1])) else -1;
        var ok := book.Rebind(current.value, ParseU64(args[0]), group);
        return CallResult(ok, if ok then "" else "bind failed");
      }
      if cmd == "set_group" {
        if |args| < 2 {
          return CallResult(false, "set_group needs fd,group");
        }
        var ok := book.SetGroup(ParseU64(args[0]), ToInt32(ParseU64(args[1])));
        return CallResult(ok, if ok then "" else "set_group failed");
      }
      r := NOT_BUILTIN;
    }

    /** A stopped framework and a missing roster refuse every command, registered ones too. */
    method Call(cmd: string, args: seq<string>, world: World) returns (r: CallResult, effect: Effect)
      modifies book
      ensures !running ==> r == STOPPED && effect == Nothing && (book != null ==> book.View() == old(book.View()))
      ensures running && book == null ==> r == NOT_READY && effect == Nothing
      ensures running && book != null ==>
        var o := Builtin(old(book.View()), cmd, args, world);
        book.View() == o.book && effect == o.effect && r == Dispatched(o.result, cmd, world)
    {
      if !running {
        return STOPPED, Nothing;
      }
      r, effect := HandleBuiltin(cmd, args, world);
      if r.err != "" || r.success {
        return;
      }
      if world.registered.None? {
        return CallResult(false, "unknown command: " + cmd), effect;
      }
      r := world.registered.value;
    }

    /** Through text and back, `divide_gp` assigns exactly the group and the fds it was given. */
    method DivideGp(group: int, fds: seq<Fd>, world: World) returns (r: CallResult)
      requires IsInt32(group) && AllUint64(fds)
      modifies book
      ensures !running || book == null ==> r == if running then NOT_READY else STOPPED
      ensures book != null && !running ==> book.View() == old(book.View())
      ensures book != null && running ==>
        book.View() == Assigned(old(book.View()), group, fds) && r == CallResult(true, "")
    {
      var joined := JoinFds(fds);
      if book != null {
        DivideGpRoundTrip(book.View(), group, fds, world);
      }
      var effect;
      r, effect := Call("divide_gp", [PrintInt(group), joined], world);
    }

    /** Through text and back, `send_to_gp` reaches exactly the reachable members of the group it was given. */
    method SendToGp(group: int, msg: string, world: World) returns (r: CallResult, effect: Effect)
      requires IsInt32(group)
      modifies book
      ensures book != null ==> book.View() == old(book.View())
      ensures r == if !running then STOPPED else if book == null then NOT_READY else CallResult(true, "")
      ensures effect == if !running || book == null then Nothing
                        else Delivered(Reached(old(book.View()), group, world), msg)
    {
      GroupRoundTrip(group);
      r, effect := Call("send_to_gp", [PrintInt(group), msg], world);
    }

    method SendToSb(fd: Fd, msg: string, world: World) returns (r: CallResult, effect: Effect)
      requires fd < TWO_TO_THE_64
      modifies book
      ensures !running || book == null ==> r == (if running then NOT_READY else STOPPED) && effect == Nothing
      ensures book != null ==> book.View() == old(book.View())
      ensures book != null && running ==>
        var there := fd in old(book.virtualMap) && old(book.virtualMap)[fd].conn.id in world.alive * world.senders;
        && effect == (if there then Delivered({fd}, msg) else Nothing)
        && r == if there && old(book.virtualMap)[fd].conn.id in world.takers then CallResult(true, "")
                else CallResult(false, "send_to_sb failed")
    {
      PrintedIsParsed(fd);
      r, effect := Call("send_to_sb", [Print(fd), msg], world);
    }

    method CloseConn(fd: Fd, reason: string, world: World) returns (r: CallResult, effect: Effect)
      requires fd < TWO_TO_THE_64
      modifies book
      ensures !running || book == null ==> r == (if running then NOT_READY else STOPPED) && effect == Nothing
      ensures book != null ==> book.View() == old(book.View())
      ensures book != null && running && world.closes ==>
        var there := fd in old(book.virtualMap) && old(book.virtualMap)[fd].conn.id in world.alive;
        && effect == (if there then GaveUp(fd, reason) else Nothing)
        && r == if there then CallResult(true, "") else CallResult(false, "connection not found")
      ensures book != null && running && !world.closes ==>
        r == CallResult(false, "close handler not ready") && effect == Nothing
    {
      PrintedIsParsed(fd);
      r, effect := Call("close_conn", [Print(fd), reason], world);
    }
  }

  /** The six built-in commands are never passed on: whatever their arguments, whatever is registered under their
      names; every other command is, with the roster as it was. */
  lemma BuiltinsAreNotPassedOn(b: Book, cmd: string, args: seq<string>, world: World)
    ensures var o := Builtin(b, cmd, args, world);
      && (cmd in BUILTINS ==> Dispatched(o.result, cmd, world) == o.result)
      && (cmd !in BUILTINS ==> o == Outcome(b, Nothing, NOT_BUILTIN)
                               && Dispatched(o.result, cmd, world)
                                  == if world.registered.Some? then world.registered.value
                                     else CallResult(false, "unknown command: " + cmd))
  {
    assert cmd !in BUILTINS ==> forall i :: 0 <= i < |BUILTINS| ==> BUILTINS[i] != cmd;
    assert BUILTINS[0] == "send_to_sb" && BUILTINS[1] == "send_to_gp" && BUILTINS[2] == "divide_gp";
    assert BUILTINS[3] == "bind" && BUILTINS[4] == "set_group" && BUILTINS[5] == "close_conn";
  }

  /** On a coherent roster, a message for a group from 0 up reaches just the live connections that a scan finds in it
      and that can send. */
  lemma GroupSendIsScan(b: Book, group: int, world: World)
    requires Coherent(b) && group >= 0
    ensures Reached(b, group, world)
         == set fd | fd in Scan(b, group, world.alive) && b.entries[fd].conn.id in world.senders
  {
    forall fd
      ensures fd in Scan(b, group, world.alive)
         <==> fd in Members(b.groups, group) && Find(b, fd, world.alive).Some?
    {
    }
  }

  // ---------------------------------------------------------------- what a text stands for

  lemma {:induction false} SkipsSpaces(spaces: string, t: string)
    requires forall i :: 0 <= i < |spaces| ==> spaces[i] == ' ' || 9 <= spaces[i] as int <= 13
    requires t == "" || !(t[0] == ' ' || 9 <= t[0] as int <= 13)
    ensures SkipSpaces(spaces + t) == t
  {
    if spaces == "" {
      assert spaces + t == t;
    } else {
      SkipsSpaces(spaces[1..], t);
      assert (spaces + t)[1..] == spaces[1..] + t;
    }
  }

  lemma {:induction false} TakesDigits(digits: string, tail: string)
    requires AllDigits(digits) && (tail == "" || !IsDigit(tail[0]))
    ensures DigitRun(digits + tail) == digits
  {
    if digits == "" {
      assert digits + tail == tail;
    } else {
      TakesDigits(digits[1..], tail);
      assert (digits + tail)[1..] == digits[1..] + tail;
    }
  }

  /** Every text is white space, an optional sign, digits and a tail; the number it stands for is that of the digits,
      at most 2^64 - 1, negated in the unsigned type after a minus sign; without digits it is 0. */
  lemma TextIsItsNumber(spaces: string, sign: string, digits: string, tail: string)
    requires forall i :: 0 <= i < |spaces| ==> spaces[i] == ' ' || 9 <= spaces[i] as int <= 13
    requires sign == "" || sign == "-" || sign == "+"
    requires AllDigits(digits) && (tail == "" || !IsDigit(tail[0]))
    requires sign == "" && digits == "" && tail != "" ==>
               tail[0] != ' ' && !(9 <= tail[0] as int <= 13) && tail[0] != '-' && tail[0] != '+'
    ensures var n := Parse(digits);
      && (n >= TWO_TO_THE_64 ==> ParseU64(spaces + (sign + (digits + tail))) == TWO_TO_THE_64 - 1)
      && (n < TWO_TO_THE_64 ==> ParseU64(spaces + (sign + (digits + tail)))
                                == if sign == "-" && n > 0 then TWO_TO_THE_64 - n else n)
  {
    var t := sign + (digits + tail);
    TakesDigits(digits, tail);
    if sign == "" {
      assert t == digits + tail;
      assert digits != "" ==> IsDigit(t[0]);
    } else {
      assert t[0] == sign[0] && t[1..] == digits + tail;
    }
    SkipsSpaces(spaces, t);
    SignedReads(t, digits);
    assert spaces + t == "" ==> Parse(digits) == 0;
  }

  lemma SignedReads(t: string, digits: string)
    requires AllDigits(digits)
    requires DigitRun(if t != "" && (t[0] == '-' || t[0] == '+') then t[1..] else t) == digits
    ensures var n := Parse(digits);
      && (n >= TWO_TO_THE_64 ==> Signed(t) == TWO_TO_THE_64 - 1)
      && (n < TWO_TO_THE_64 ==> Signed(t) == if t != "" && t[0] == '-' && n > 0 then TWO_TO_THE_64 - n else n)
  {
  }

  lemma {:induction false} FirstComma(s: string, n: nat)
    requires n <= |s| && ',' !in s[..n] && (n < |s| ==> s[n] == ',')
    ensures UpToComma(s) == n
  {
    if n > 0 {
      assert s[..n][0] == s[0] && s[..n][1..] == s[1..][..n - 1];
      FirstComma(s[1..], n - 1);
    }
  }

  lemma ListAtComma(s: string, n: nat)
    requires n < |s| && s[n] == ',' && ',' !in s[..n]
    ensures ParsedFds(s) == ParsedFds(s[..n]) + ParsedFds(s[n + 1..])
  {
    FirstComma(s, n);
    OnePart(s[..n]);
    ListUnfolds(s);
    assert AfterComma(s) == s[n + 1..];
  }

  lemma ListUnfolds(s: string)
    requires s != ""
    ensures var part := s[..UpToComma(s)];
      ParsedFds(s) == (if part == "" then [] else [ParseU64(part)]) + ParsedFds(AfterComma(s))
  {
  }

  /** A list without a comma is one number, or none if it is empty. */
  lemma OnePart(s: string)
    requires ',' !in s
    ensures ParsedFds(s) == if s == "" then [] else [ParseU64(s)]
  {
    FirstComma(s, |s|);
    assert s[..|s|] == s;
  }

  /** And a comma separates two lists, whatever they are. */
  lemma {:induction false} CommaSeparates(a: string, b: string)
    ensures ParsedFds(a + "," + b) == ParsedFds(a) + ParsedFds(b)
    decreases |a|
  {
    var s, n := a + "," + b, UpToComma(a);
    CutAt(a, b, n);
    if n == |a| {
      ListAtComma(s, n);
    } else {
      CommaSeparates(a[n + 1..], b);
      CommaLater(a, s, n, ParsedFds(b));
    }
  }

  lemma CutAt(a: string, b: string, n: nat)
    requires n <= |a|
    ensures var s := a + "," + b;
      && s[..n] == a[..n] && s[n] == (if n < |a| then a[n] else ',')
      && s[n + 1..] == if n < |a| then a[n + 1..] + "," + b else b
    ensures a[..|a|] == a
  {
  }

  lemma CommaLater(a: string, s: string, n: nat, later: seq<Fd>)
    requires n < |a| && n < |s| && a[n] == s[n] == ',' && ',' !in a[..n] && s[..n] == a[..n]
    requires ParsedFds(s[n + 1..]) == ParsedFds(a[n + 1..]) + later
    ensures ParsedFds(s) == ParsedFds(a) + later
  {
    ListAtComma(s, n);
    ListAtComma(a, n);
    AppendAssociates(ParsedFds(a[..n]), ParsedFds(a[n + 1..]), later);
  }

  // ---------------------------------------------------------------- what a command means

  /** A command that fails names its error and changes nothing; one that succeeds had its arguments. */
  lemma FailuresChangeNothing(b: Book, cmd: string, args: seq<string>, world: World)
    requires cmd in BUILTINS
    ensures var o := Builtin(b, cmd, args, world);
      && (o.result.err == "" <==> o.result.success)
      && (!o.result.success ==> o.book == b)
      && (|args| < (if cmd == "send_to_sb" || cmd == "send_to_gp" || cmd == "set_group" then 2 else 1) ==>
            !o.result.success && o.effect == Nothing)
  {
  }

  /** Through text and back: `set_group` moves just the entry under the given fd, to just the given group. */
  lemma SetGroupRoundTrip(b: Book, fd: Fd, group: int, world: World)
    requires Coherent(b) && fd < TWO_TO_THE_64 && IsInt32(group)
    ensures var o := Builtin(b, "set_group", [Print(fd), PrintInt(group)], world);
      if fd !in b.entries then o == Outcome(b, Nothing, CallResult(false, "set_group failed"))
      else
        && o.effect == Nothing && o.result == CallResult(true, "") && o.book.bySock == b.bySock
        && if b.entries[fd].group == group then o.book == b else EntryMoved(b, o.book, fd, fd, group)
  {
    PrintedIsParsed(fd);
    GroupRoundTrip(group);
    SetGroupMeaning(b, fd, group);
  }

  /** A list, a group and a reason may be left out: no members, no group, an empty reason. */
  lemma ShortForms(b: Book, first: string, world: World)
    ensures Builtin(b, "divide_gp", [first], world) == Builtin(b, "divide_gp", [first, ""], world)
    ensures Builtin(b, "bind", [first], world) == Builtin(b, "bind", [first, PrintInt(-1)], world)
    ensures Builtin(b, "close_conn", [first], world) == Builtin(b, "close_conn", [first, ""], world)
  {
    GroupRoundTrip(-1);
  }

  /** And `bind` moves just the entry of the running task's connection, to just the given fd and group. */
  lemma BindRoundTrip(b: Book, fd: Fd, group: int, world: World)
    requires Coherent(b) && fd < TWO_TO_THE_64 && IsInt32(group)
    ensures var o := Builtin(b, "bind", [Print(fd), PrintInt(group)], world);
      if world.current == None then o == Outcome(b, Nothing, CallResult(false, "bind needs business fd"))
      else if world.current == Some(None) then o == Outcome(b, Nothing, CallResult(false, "no current connection"))
      else
        var sock := world.current.value.value.sock;
        if sock !in b.bySock || (fd in b.entries && fd != b.bySock[sock])
        then o == Outcome(b, Nothing, CallResult(false, "bind failed"))
        else
          && o.effect == Nothing && o.result == CallResult(true, "")
          && EntryMoved(b, o.book, b.bySock[sock], fd, group)
          && sock in o.book.bySock && o.book.bySock[sock] == fd
  {
    PrintedIsParsed(fd);
    GroupRoundTrip(group);
    if world.current.Some? {
      RebindMeaning(b, world.current.value, fd, group);
    }
  }

  // ---------------------------------------------------------------- round trips

  lemma {:induction false} JoinedAppend(fds: seq<Fd>, fd: Fd)
    ensures JoinedFds(fds + [fd]) == if fds == [] then Print(fd) else JoinedFds(fds) + "," + Print(fd)
  {
    if |fds| == 1 {
      assert (fds + [fd])[1..] == [fd];
    } else if |fds| > 1 {
      JoinedAppend(fds[1..], fd);
      assert (fds + [fd])[1..] == fds[1..] + [fd];
      var head, mid := Print(fds[0]) + ",", JoinedFds(fds[1..]);
      assert head + (mid + "," + Print(fd)) == (head + mid) + "," + Print(fd);
    }
  }

  /** What is printed for an unsigned 64-bit number is read back as that number. */
  lemma PrintedIsParsed(n: nat)
    requires n < TWO_TO_THE_64
    ensures ParseU64(Print(n)) == n
  {
    PrintThenParse(n);
    TextIsItsNumber("", "", Print(n), "");
    assert "" + ("" + (Print(n) + "")) == Print(n);
  }

  /** A printed negative number is read back as its unsigned negation. */
  lemma NegativeIsParsed(n: nat)
    requires 0 < n < TWO_TO_THE_64
    ensures ParseU64("-" + Print(n)) == TWO_TO_THE_64 - n
  {
    PrintThenParse(n);
    TextIsItsNumber("", "-", Print(n), "");
    assert "" + ("-" + (Print(n) + "")) == "-" + Print(n);
  }

  lemma GroupRoundTrip(group: int)
    requires IsInt32(group)
    ensures ToInt32(ParseU64(PrintInt(group))) == group
  {
    if group >= 0 {
      PrintedIsParsed(group);
    } else {
      NegativeIsParsed(-group);
      NarrowingIsModular(TWO_TO_THE_64 + group, TWO_TO_THE_32, group);
    }
  }

  /** The narrowing cast gives the one 32-bit number that differs by a multiple of 2^32. */
  lemma NarrowingIsModular(n: nat, k: int, r: int)
    requires n == k * TWO_TO_THE_32 + r && IsInt32(r)
    ensures ToInt32(n) == r
  {
    if r >= 0 {
      LowPart(n, k, r);
    } else {
      LowPart(n, k - 1, r + TWO_TO_THE_32);
    }
  }

  lemma LowPart(n: nat, k: int, low: nat)
    requires n == k * TWO_TO_THE_32 + low && low < TWO_TO_THE_32
    ensures n % TWO_TO_THE_32 == low
  {
  }

  lemma {:induction false} CommaAfterDigits(digits: string, rest: string)
    requires AllDigits(digits) && (rest == [] || rest[0] == ',')
    ensures UpToComma(digits + rest) == |digits|
  {
    if digits == [] {
      assert digits + rest == rest;
    } else {
      CommaAfterDigits(digits[1..], rest);
      assert (digits + rest)[1..] == digits[1..] + rest;
    }
  }

  lemma {:induction false} FdsRoundTrip(fds: seq<Fd>)
    requires AllUint64(fds)
    ensures ParsedFds(JoinedFds(fds)) == fds
  {
    if fds != [] {
      var first := Print(fds[0]);
      var rest := if |fds| == 1 then [] else "," + JoinedFds(fds[1..]);
      var s := JoinedFds(fds);
      assert s == first + rest;
      CommaAfterDigits(first, rest);
      PrintedIsParsed(fds[0]);
      assert s[..|first|] == first;
      FdsRoundTrip(fds[1..]);
      if |fds| > 1 {
        assert AfterComma(s) == JoinedFds(fds[1..]);
      }
    }
  }

  /** For every int group, negative ones through the unsigned negation and the narrowing cast included, and every
      list of unsigned 64-bit fds: the command that `divide_gp` sends is `assign_group` of just these. */
  lemma DivideGpRoundTrip(b: Book, group: int, fds: seq<Fd>, world: World)
    requires IsInt32(group) && AllUint64(fds)
    ensures Builtin(b, "divide_gp", [PrintInt(group), JoinedFds(fds)], world)
         == Outcome(Assigned(b, group, fds), Nothing, CallResult(true, ""))
  {
    GroupRoundTrip(group);
    FdsRoundTrip(fds);
  }
}
