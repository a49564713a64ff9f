/** The per-connection window: how many messages of one connection may be in flight. */
module FlowWindow {

  datatype Flow = Flow(window: int, inFlight: int, full: bool, resumePending: bool)

  function NewFlow(window: int): Flow {
    Flow(window, 0, false, false)
  }

  datatype Answer = Answer(flow: Flow, yes: bool)

  function Taking(f: Flow): Answer {
    if f.resumePending || f.full || f.inFlight >= f.window then Answer(f, false)
    else Answer(f.(inFlight := f.inFlight + 1, full := f.full || f.inFlight + 1 >= f.window), true)
  }

  function Finishing(f: Flow): Answer {
    var g := f.(inFlight := if f.inFlight > 0 then f.inFlight - 1 else f.inFlight);
    if g.full && g.inFlight < g.window && !g.resumePending
    then Answer(g.(full := false, resumePending := true), true)
    else Answer(g, false)
  }

  function Consuming(f: Flow): Answer {
    Answer(f.(resumePending := false), f.resumePending)
  }

  function Releasing(f: Flow): Flow {
    var g := f.(inFlight := if f.inFlight > 0 then f.inFlight - 1 else f.inFlight);
    if g.full && g.inFlight < g.window then g.(full := false) else g
  }

  class ConnectionFlow {
    var window: int
    var inFlight: int
    var full: bool
    var resumePending: bool

    function View(): Flow
      reads this
    {
      Flow(window, inFlight, full, resumePending)
    }

    constructor (w: int)
      ensures View() == NewFlow(w)
    {
      window, inFlight, full, resumePending := w, 0, false, false;
    }

    method TryTake() returns (ok: bool)
      modifies this
      ensures Answer(View(), ok) == Taking(old(View()))
      ensures ok <==> !old(resumePending) && !old(full) && old(inFlight) < window
      ensures inFlight == old(inFlight) + (if ok then 1 else 0) && full == (old(full) || (ok && inFlight >= window))
      ensures window == old(window) && resumePending == old(resumePending)
    {
      if resumePending || full || inFlight >= window {
        return false;
      }
      inFlight := inFlight + 1;
      if inFlight >= window {
        full := true;
      }
      ok := true;
    }

    method FinishOne() returns (needResume: bool)
      modifies this
      ensures Answer(View(), needResume) == Finishing(old(View()))
      ensures inFlight == old(inFlight) - (if old(inFlight) > 0 then 1 else 0) && window == old(window)
      ensures needResume <==> old(full) && inFlight < window && !old(resumePending)
      ensures full == (old(full) && !needResume) && resumePending == (old(resumePending) || needResume)
    {
      if inFlight > 0 {
        inFlight := inFlight - 1;
      }
      if full && inFlight < window && !resumePending {
        full := false;
        resumePending := true;
        return true;
      }
      needResume := false;
    }

    method ConsumeResume() returns (consumed: bool)
      modifies this
      ensures Answer(View(), consumed) == Consuming(old(View()))
      ensures consumed == old(resumePending) && !resumePending
      ensures window == old(window) && inFlight == old(inFlight) && full == old(full)
    {
      if !resumePending {
        return false;
      }
      resumePending := false;
      consumed := true;
    }

    method ReleaseSlot()
      modifies this
      ensures View() == Releasing(old(View()))
      ensures inFlight == old(inFlight) - (if old(inFlight) > 0 then 1 else 0) && window == old(window)
      ensures full == (old(full) && inFlight >= window) && resumePending == old(resumePending)
    {
      if inFlight > 0 {
        inFlight := inFlight - 1;
      }
      if full && inFlight < window {
        full := false;
      }
    }
  }

  // ---------------------------------------------------------------- the state machine over whole runs

  /** Full says exactly that the window is used up, and a connection is never both full and about to resume. */
  ghost predicate FlowInv(f: Flow) {
    && 0 <= f.inFlight <= f.window
    && (f.full <==> f.inFlight == f.window)
    && !(f.full && f.resumePending)
  }

  datatype FlowOp = Take | Finish | Consume | Release

  /** The flow with what its users see of it: slots they hold, resume notices they were told to send, and
      notices that were consumed. */
  datatype Ledger = Ledger(flow: Flow, held: int, notices: int, consumed: int)

  /** A slot is given back only by someone who holds one. */
  predicate Legal(l: Ledger, op: FlowOp) {
    op.Take? || op.Consume? || l.held > 0
  }

  function Apply(l: Ledger, op: FlowOp): Ledger {
    match op
    case Take =>
      var a := Taking(l.flow);
      l.(flow := a.flow, held := if a.yes then l.held + 1 else l.held)
    case Finish =>
      var a := Finishing(l.flow);
      l.(flow := a.flow, held := l.held - 1, notices := if a.yes then l.notices + 1 else l.notices)
    case Consume =>
      var a := Consuming(l.flow);
      l.(flow := a.flow, consumed := if a.yes then l.consumed + 1 else l.consumed)
    case Release => l.(flow := Releasing(l.flow), held := l.held - 1)
  }

  ghost predicate LegalRun(l: Ledger, ops: seq<FlowOp>)
    decreases |ops|
  {
    ops == [] || (Legal(l, ops[0]) && LegalRun(Apply(l, ops[0]), ops[1..]))
  }

  function AfterAll(l: Ledger, ops: seq<FlowOp>): Ledger
    decreases |ops|
  {
    if ops == [] then l else AfterAll(Apply(l, ops[0]), ops[1..])
  }

  /** The counter is the number of slots held; notices and consumptions match up to the pending one. */
  ghost predicate LedgerInv(l: Ledger) {
    && FlowInv(l.flow)
    && l.held == l.flow.inFlight
    && l.notices == l.consumed + (if l.flow.resumePending then 1 else 0)
  }

  lemma {:induction false} WindowLedgerHolds(l: Ledger, ops: seq<FlowOp>)
    requires LedgerInv(l) && LegalRun(l, ops) && l.flow.window >= 1
    ensures LedgerInv(AfterAll(l, ops)) && AfterAll(l, ops).flow.window == l.flow.window
    decreases |ops|
  {
    if ops != [] {
      WindowLedgerHolds(Apply(l, ops[0]), ops[1..]);
    }
  }

  /** From a new window of any positive size, over any legal run: at most `window` slots are held, the window
      refuses exactly when it is full or a resume is owed, the worker that frees a full window is the one told
      to resume, and each notice is consumed before the next is given. */
  lemma WindowOverRuns(window: int, ops: seq<FlowOp>)
    requires window >= 1
    requires LegalRun(Ledger(NewFlow(window), 0, 0, 0), ops)
    ensures var l := AfterAll(Ledger(NewFlow(window), 0, 0, 0), ops); var f := l.flow;
            && l.held == f.inFlight <= window
            && (Taking(f).yes <==> l.held < window && !f.resumePending)
            && (l.held > 0 ==> (Finishing(f).yes <==> l.held == window))
            && l.consumed <= l.notices <= l.consumed + 1
            && (f.resumePending ==> l.held < window)
  {
    WindowLedgerHolds(Ledger(NewFlow(window), 0, 0, 0), ops);
  }
}
