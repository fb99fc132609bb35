/** What becomes of one request, seen from the request alone (apps/cursor-extension/src/ipc/client.ts): the first thing
    that concerns it decides, and nothing else does. */
module IpcOutcomes {
  import opened Common
  import opened JsonlDecoder
  import opened IpcModel

  /** The message type a command is answered with. */
  predicate Answers(m: Message, command: Command) {
    if command == Hello then m.Ready?
    else if command == GetState then m.State?
    else if command == Shutdown then m.ShutdownAck?
    else m.Ack?
  }

  /** What a line means for the request with this id, if it concerns it. */
  function LineOutcome(p: Parsed, id: string, command: Command): Option<Outcome> {
    match p
    case InvalidJson => None
    case Malformed(about, text) =>
      if about == Some(id) then Some(Rejected(Protocol("malformed_response", text, about))) else None
    case Parsed(m) =>
      if m.Alert? || m.id != Some(id) then None
      else if m.Failure? then Some(Rejected(Protocol(m.code, m.text, m.id)))
      else if Answers(m, command) then Some(Resolved(m))
      else Some(Rejected(UnexpectedType(Expected(command), m)))
  }

  function LinesOutcome(parse: string -> Parsed, lines: seq<string>, id: string, command: Command): Option<Outcome> {
    if lines == [] then None
    else
      var first := LineOutcome(parse(lines[0]), id, command);
      if first.Some? then first else LinesOutcome(parse, lines[1..], id, command)
  }

  function OpOutcome(parse: string -> Parsed, op: Op, id: string, command: Command): Option<Outcome> {
    match op
    case Request(_) => None
    case Receive(lines) => LinesOutcome(parse, lines, id, command)
    case Fire(waited) => if waited == id then Some(Rejected(Timeout(id))) else None
    case NotifyClosed(reason) => Some(Rejected(Disconnected(reason)))
    case Dispose => Some(Rejected(Disconnected("client disposed")))
  }

  /** The first outcome of a run. */
  function RunOutcome(parse: string -> Parsed, ops: seq<Op>, id: string, command: Command): Option<Outcome> {
    if ops == [] then None
    else
      var before := RunOutcome(parse, ops[..|ops| - 1], id, command);
      if before.Some? then before else OpOutcome(parse, Last(ops), id, command)
  }

  /** The request waits, or has this outcome. */
  ghost predicate Stands(c: Client, id: string, command: Command, outcome: Option<Outcome>) {
    match outcome
    case None => id in c.pending && c.pending[id] == Expected(command) && id !in c.settled
    case Some(o) => id !in c.pending && id in c.settled && c.settled[id] == o
  }

  lemma ExpectedIsAnswer(m: Message, command: Command)
    ensures IsKind(m, Expected(command)) <==> Answers(m, command)
  {
  }

  lemma MessageFor(c: Client, m: Message, id: string, command: Command)
    requires Stands(c, id, command, None)
    ensures Stands(DispatchMessage(c, m), id, command, LineOutcome(Parsed(m), id, command))
  {
    ExpectedIsAnswer(m, command);
  }

  lemma LineFor(c: Client, p: Parsed, id: string, command: Command)
    requires Stands(c, id, command, None)
    ensures Stands(Dispatch(c, p), id, command, LineOutcome(p, id, command))
  {
    if p.Parsed? {
      MessageFor(c, p.message, id, command);
    }
  }

  lemma SettledStays(c: Client, d: Client, id: string, command: Command, o: Outcome)
    requires Stands(c, id, command, Some(o)) && Extends(c, d) && Inv(d)
    ensures Stands(d, id, command, Some(o))
  {
  }

  lemma {:induction false} LinesFor(c: Client, parse: string -> Parsed, lines: seq<string>, id: string,
                                    command: Command)
    requires Inv(c) && Stands(c, id, command, None)
    ensures Stands(DispatchAll(c, parse, lines), id, command, LinesOutcome(parse, lines, id, command))
    decreases |lines|
  {
    if lines != [] {
      var d, first := Dispatch(c, parse(lines[0])), LineOutcome(parse(lines[0]), id, command);
      LineFor(c, parse(lines[0]), id, command);
      DispatchKeeps(c, parse(lines[0]));
      DispatchAllKeeps(d, parse, lines[1..]);
      if first.Some? {
        SettledStays(d, DispatchAll(d, parse, lines[1..]), id, command, first.value);
      } else {
        LinesFor(d, parse, lines[1..], id, command);
      }
    }
  }

  lemma OpFor(c: Client, parse: string -> Parsed, op: Op, id: string, command: Command)
    requires Inv(c) && Stands(c, id, command, None)
    ensures Stands(Step(c, parse, op), id, command, OpOutcome(parse, op, id, command))
  {
    match op
    case Request(_) => NextIdIsNew(c);
    case Receive(lines) => LinesFor(c, parse, lines, id, command);
    case Fire(_) =>
    case NotifyClosed(_) =>
    case Dispose =>
  }

  lemma NextFor(c: Client, parse: string -> Parsed, op: Op, id: string, command: Command, before: Option<Outcome>)
    requires Inv(c) && Stands(c, id, command, before)
    ensures Stands(Step(c, parse, op), id, command,
                   if before.Some? then before else OpOutcome(parse, op, id, command))
  {
    StepKeeps(c, parse, op);
    if before.Some? {
      SettledStays(c, Step(c, parse, op), id, command, before.value);
    } else {
      OpFor(c, parse, op, id, command);
    }
  }

  lemma AfterNext(parse: string -> Parsed, ops: seq<Op>, op: Op)
    ensures After(parse, ops + [op]) == Step(After(parse, ops), parse, op) && Inv(After(parse, ops))
  {
    assert (ops + [op])[..|ops|] == ops && Last(ops + [op]) == op;
    RunKeeps(parse, ops);
  }

  lemma AskedWaits(parse: string -> Parsed, before: seq<Op>, command: Command)
    requires !After(parse, before).closed
    ensures Stands(After(parse, before + [Request(command)]), IdOf(After(parse, before).issued + 1), command, None)
  {
    AfterNext(parse, before, Request(command));
    AskWaits(After(parse, before), command);
  }

  lemma AskWaits(c: Client, command: Command)
    requires Inv(c) && !c.closed
    ensures Stands(Ask(c, command), IdOf(c.issued + 1), command, None)
  {
    NextIdIsNew(c);
  }

  lemma OneMore(parse: string -> Parsed, ops: seq<Op>, front: seq<Op>, op: Op, id: string, command: Command)
    requires Stands(After(parse, ops), id, command, RunOutcome(parse, front, id, command))
    ensures Stands(After(parse, ops + [op]), id, command, RunOutcome(parse, front + [op], id, command))
  {
    AfterNext(parse, ops, op);
    assert (front + [op])[..|front|] == front && Last(front + [op]) == op;
    NextFor(After(parse, ops), parse, op, id, command, RunOutcome(parse, front, id, command));
  }

  lemma Regroup(asked: seq<Op>, front: seq<Op>, op: Op, later: seq<Op>)
    requires later == front + [op]
    ensures (asked + front) + [op] == asked + later
  {
  }

  lemma {:induction false} StandsAfter(parse: string -> Parsed, asked: seq<Op>, later: seq<Op>, id: string,
                                       command: Command)
    requires Stands(After(parse, asked), id, command, None)
    ensures Stands(After(parse, asked + later), id, command, RunOutcome(parse, later, id, command))
    decreases |later|
  {
    if later == [] {
      ConcatEmpty(asked);
    } else {
      var front, op := later[..|later| - 1], Last(later);
      StandsAfter(parse, asked, front, id, command);
      assert later == front + [op];
      OneMore(parse, asked + front, front, op, id, command);
      Regroup(asked, front, op, later);
    }
  }

  /** A request made while the client is open waits until the first thing that concerns it, which decides its outcome
      for good: an answer of its own type resolves it, any other answer, an error, its timer or the end reject it. */
  lemma OutcomeExactly(parse: string -> Parsed, before: seq<Op>, command: Command, later: seq<Op>)
    requires !After(parse, before).closed
    ensures var id := IdOf(After(parse, before).issued + 1);
            Stands(After(parse, before + [Request(command)] + later), id, command,
                   RunOutcome(parse, later, id, command))
  {
    AskedWaits(parse, before, command);
    StandsAfter(parse, before + [Request(command)], later, IdOf(After(parse, before).issued + 1), command);
  }

  /** A message that concerns no waiting request, an alert, a state without an id or a line that is no JSON text reaches
      the handlers and no request. */
  lemma OthersAreNotices(c: Client, p: Parsed)
    requires match p
             case InvalidJson => true
             case Malformed(id, _) => !Waiting(c, id)
             case Parsed(m) => m.Alert? || !Waiting(c, m.id)
    ensures var d := Dispatch(c, p);
            && d.pending == c.pending && d.settled == c.settled && |d.notices| == |c.notices| + 1
            && (p.Parsed? && p.message.Alert? ==> Last(d.notices) == AlertNotice(p.message))
            && (p.Parsed? && p.message.State? && p.message.id.None? ==> Last(d.notices) == StateNotice(p.message))
            && (p.Parsed? && p.message.Failure? ==>
                  Last(d.notices) == ErrorNotice(Protocol(p.message.code, p.message.text, p.message.id)))
            && (p.Parsed? && !p.message.Alert? && !p.message.Failure? && !(p.message.State? && p.message.id.None?) ==>
                  Last(d.notices) == ErrorNotice(UnknownRequest(p.message.id)))
  {
  }

  /** Error texts name types as the messages do: a message has a type's name exactly when it is of this type. */
  lemma NamesMatch(m: Message, k: Kind)
    ensures TypeName(m) == KindName(k) <==> IsKind(m, k)
    ensures KindName(Expected(Hello)) == "ready" && KindName(Expected(GetState)) == "state"
    ensures KindName(Expected(Shutdown)) == "shutdown_ack" && KindName(Expected(Start)) == "ack"
    ensures m.Alert? ==> TypeName(m) == "alert"
    ensures m.Failure? ==> TypeName(m) == "error"
  {
  }
}
