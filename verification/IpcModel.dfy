/** The host's request client: which outcome each request gets, over whole runs
    (apps/cursor-extension/src/ipc/client.ts). */
module IpcModel {
  import opened Common
  import opened JsonlDecoder

  datatype Kind = ReadyKind | AckKind | StateKind | ShutdownAckKind

  /** A message from the core. Everything but its type and request id is opaque. */
  datatype Message =
    | Ready(id: Option<string>, body: string)
    | Ack(id: Option<string>, body: string)
    | State(id: Option<string>, body: string)
    | ShutdownAck(id: Option<string>, body: string)
    | Alert(id: Option<string>, body: string)
    | Failure(id: Option<string>, code: string, text: string)

  predicate IsKind(m: Message, k: Kind) {
    match k
    case ReadyKind => m.Ready?
    case AckKind => m.Ack?
    case StateKind => m.State?
    case ShutdownAckKind => m.ShutdownAck?
  }

  function KindName(k: Kind): string {
    match k
    case ReadyKind => "ready"
    case AckKind => "ack"
    case StateKind => "state"
    case ShutdownAckKind => "shutdown_ack"
  }

  function TypeName(m: Message): string {
    match m
    case Ready(_, _) => "ready"
    case Ack(_, _) => "ack"
    case State(_, _) => "state"
    case ShutdownAck(_, _) => "shutdown_ack"
    case Alert(_, _) => "alert"
    case Failure(_, _, _) => "error"
  }

  /** What JSON.parse and the message guard make of a line. */
  datatype Parsed = InvalidJson | Malformed(id: Option<string>, text: string) | Parsed(message: Message)

  datatype Error =
    | Protocol(code: string, text: string, id: Option<string>)
    | Timeout(waited: string)
    | Disconnected(reason: string)

  function UnexpectedType(k: Kind, m: Message): Error {
    Protocol("unexpected_type", "expected " + KindName(k) + ", got " + TypeName(m), m.id)
  }

  function UnknownRequest(id: Option<string>): Error {
    Protocol("unknown_request_id", "no pending request for " + (if id.Some? then id.value else "missing id"), id)
  }

  datatype Outcome = Resolved(message: Message) | Rejected(error: Error)

  datatype Command =
    Hello | Start | Pause | Resume | SetWatchlist | GetState | HostInteraction | UserFeedback | Shutdown

  function Expected(command: Command): Kind {
    match command
    case Hello => ReadyKind
    case GetState => StateKind
    case Shutdown => ShutdownAckKind
    case _ => AckKind
  }

  /** What reaches the registered handlers. */
  datatype Notice = AlertNotice(message: Message) | StateNotice(message: Message) | ErrorNotice(error: Error)

  /** `asked` is what was ever requested, `pending` what still waits (each entry with its timer), `settled` the outcome
      each promise got. */
  datatype Client = Client(
    asked: map<string, Kind>,
    pending: map<string, Kind>,
    settled: map<string, Outcome>,
    issued: nat,
    closed: bool,
    notices: seq<Notice>)

  const FRESH := Client(map[], map[], map[], 0, false, [])

  // ---- Request ids ----

  function Decimal(n: nat): (r: string)
    ensures r != []
  {
    var digit := [('0' as int + n % 10) as char];
    if n < 10 then digit else Decimal(n / 10) + digit
  }

  function Value(text: string): int {
    if text == [] then 0 else 10 * Value(text[..|text| - 1]) + (text[|text| - 1] as int - '0' as int)
  }

  lemma {:induction false} DecimalValue(n: nat)
    ensures Value(Decimal(n)) == n
  {
    var r := Decimal(n);
    if n < 10 {
      assert r[..0] == [];
    } else {
      DecimalValue(n / 10);
      assert r[..|r| - 1] == Decimal(n / 10);
    }
  }

  function IdOf(n: nat): string {
    "r" + Decimal(n)
  }

  lemma IdsDiffer(m: nat, n: nat)
    requires IdOf(m) == IdOf(n)
    ensures m == n
  {
    assert IdOf(m)[1..] == Decimal(m) && IdOf(n)[1..] == Decimal(n);
    DecimalValue(m);
    DecimalValue(n);
  }

  // ---- Steps ----

  /** Ends a pending request; a request that is not pending is left alone. */
  function Settle(c: Client, id: string, outcome: Outcome): Client {
    if id in c.pending then c.(pending := c.pending - {id}, settled := c.settled[id := outcome]) else c
  }

  function Notify(c: Client, n: Notice): Client {
    c.(notices := c.notices + [n])
  }

  predicate Waiting(c: Client, id: Option<string>) {
    id.Some? && id.value in c.pending
  }

  function DispatchMessage(c: Client, m: Message): Client {
    if m.Alert? then Notify(c, AlertNotice(m))
    else if m.State? && m.id.None? then Notify(c, StateNotice(m))
    else if Waiting(c, m.id) then
      var id := m.id.value;
      if m.Failure? then Settle(c, id, Rejected(Protocol(m.code, m.text, m.id)))
      else if !IsKind(m, c.pending[id]) then Settle(c, id, Rejected(UnexpectedType(c.pending[id], m)))
      else Settle(c, id, Resolved(m))
    else if m.Failure? then Notify(c, ErrorNotice(Protocol(m.code, m.text, m.id)))
    else Notify(c, ErrorNotice(UnknownRequest(m.id)))
  }

  function Dispatch(c: Client, p: Parsed): Client {
    match p
    case InvalidJson => Notify(c, ErrorNotice(Protocol("invalid_json", "line is not valid JSON", None)))
    case Malformed(id, text) =>
      var error := Protocol("malformed_response", text, id);
      if Waiting(c, id) then Settle(c, id.value, Rejected(error)) else Notify(c, ErrorNotice(error))
    case Parsed(m) => DispatchMessage(c, m)
  }

  function DispatchAll(c: Client, parse: string -> Parsed, lines: seq<string>): Client
    decreases |lines|
  {
    if lines == [] then c else DispatchAll(Dispatch(c, parse(lines[0])), parse, lines[1..])
  }

  function Ask(c: Client, command: Command): Client {
    if c.closed then c
    else
      var id := IdOf(c.issued + 1);
      c.(issued := c.issued + 1,
         asked := c.asked[id := Expected(command)],
         pending := c.pending[id := Expected(command)])
  }

  /** Every one of these ids rejected. */
  function Refused(settled: map<string, Outcome>, ids: set<string>, error: Error): map<string, Outcome> {
    settled + map id | id in ids :: Rejected(error)
  }

  lemma RefusedNext(settled: map<string, Outcome>, done: set<string>, id: string, error: Error)
    ensures Refused(settled, done + {id}, error) == Refused(settled, done, error)[id := Rejected(error)]
    ensures Refused(settled, {}, error) == settled
  {
  }

  function Close(c: Client, error: Error): Client {
    c.(pending := map[], closed := true, settled := Refused(c.settled, c.pending.Keys, error))
  }

  /** One step of a client: a request, the lines of a chunk, a timer, the end of the child process, disposal. */
  datatype Op =
    | Request(command: Command)
    | Receive(lines: seq<string>)
    | Fire(id: string)
    | NotifyClosed(reason: string)
    | Dispose

  function Step(c: Client, parse: string -> Parsed, op: Op): Client {
    match op
    case Request(command) => Ask(c, command)
    case Receive(lines) => DispatchAll(c, parse, lines)
    case Fire(id) => Settle(c, id, Rejected(Timeout(id)))
    case NotifyClosed(reason) => Close(c, Disconnected(reason))
    case Dispose => Close(c, Disconnected("client disposed"))
  }

  function After(parse: string -> Parsed, ops: seq<Op>): Client {
    if ops == [] then FRESH else Step(After(parse, ops[..|ops| - 1]), parse, Last(ops))
  }

  // ---- Invariant ----

  predicate Issued(c: Client, id: string) {
    exists n: nat :: 1 <= n <= c.issued && id == IdOf(n)
  }

  /** A resolved request got the answer it asked for. */
  predicate Answered(c: Client, id: string)
    requires id in c.settled && id in c.asked
  {
    c.settled[id].Resolved? ==>
      IsKind(c.settled[id].message, c.asked[id]) && c.settled[id].message.id == Some(id)
  }

  ghost predicate Inv(c: Client) {
    && (forall id :: id in c.asked <==> Issued(c, id))
    && (forall id :: id in c.asked <==> id in c.pending || id in c.settled)
    && (forall id :: id in c.pending ==> id !in c.settled && c.pending[id] == c.asked[id])
    && (forall id :: id in c.settled ==> Answered(c, id))
    && (c.closed ==> c.pending == map[])
  }

  /** What a step never takes back: requests asked, outcomes given, being closed. */
  ghost predicate Extends(c: Client, d: Client) {
    && (forall id :: id in c.asked ==> id in d.asked && d.asked[id] == c.asked[id])
    && (forall id :: id in c.settled ==> id in d.settled && d.settled[id] == c.settled[id])
    && (c.closed ==> d.closed && d.asked == c.asked)
    && c.notices <= d.notices
  }

  lemma SettleKeeps(c: Client, id: string, outcome: Outcome)
    requires Inv(c)
    requires id in c.pending && outcome.Resolved? ==>
               IsKind(outcome.message, c.pending[id]) && outcome.message.id == Some(id)
    ensures Inv(Settle(c, id, outcome)) && Extends(c, Settle(c, id, outcome))
  {
    var d := Settle(c, id, outcome);
    forall i
      ensures Issued(d, i) <==> Issued(c, i)
    {
    }
    forall i | i in d.settled
      ensures Answered(d, i)
    {
      assert i in c.settled ==> Answered(c, i);
    }
  }

  lemma NotifyKeeps(c: Client, n: Notice)
    requires Inv(c)
    ensures Inv(Notify(c, n)) && Extends(c, Notify(c, n))
  {
    var d := Notify(c, n);
    forall i
      ensures Issued(d, i) <==> Issued(c, i)
    {
    }
    forall i | i in d.settled
      ensures Answered(d, i)
    {
      assert Answered(c, i);
    }
  }

  lemma DispatchKeeps(c: Client, p: Parsed)
    requires Inv(c)
    ensures Inv(Dispatch(c, p)) && Extends(c, Dispatch(c, p))
  {
    match p
    case InvalidJson => NotifyKeeps(c, ErrorNotice(Protocol("invalid_json", "line is not valid JSON", None)));
    case Malformed(id, text) =>
      var error := Protocol("malformed_response", text, id);
      if Waiting(c, id) {
        SettleKeeps(c, id.value, Rejected(error));
      } else {
        NotifyKeeps(c, ErrorNotice(error));
      }
    case Parsed(m) => MessageKeeps(c, m);
  }

  lemma MessageKeeps(c: Client, m: Message)
    requires Inv(c)
    ensures Inv(DispatchMessage(c, m)) && Extends(c, DispatchMessage(c, m))
  {
    NotifyKeeps(c, AlertNotice(m));
    NotifyKeeps(c, StateNotice(m));
    NotifyKeeps(c, ErrorNotice(UnknownRequest(m.id)));
    if m.Failure? {
      NotifyKeeps(c, ErrorNotice(Protocol(m.code, m.text, m.id)));
    }
    if Waiting(c, m.id) {
      var id := m.id.value;
      if m.Failure? {
        SettleKeeps(c, id, Rejected(Protocol(m.code, m.text, m.id)));
      } else if !IsKind(m, c.pending[id]) {
        SettleKeeps(c, id, Rejected(UnexpectedType(c.pending[id], m)));
      } else {
        SettleKeeps(c, id, Resolved(m));
      }
    }
  }

  lemma ExtendsTrans(a: Client, b: Client, c: Client)
    requires Extends(a, b) && Extends(b, c)
    ensures Extends(a, c)
  {
  }

  lemma {:induction false} DispatchAllKeeps(c: Client, parse: string -> Parsed, lines: seq<string>)
    requires Inv(c)
    ensures Inv(DispatchAll(c, parse, lines)) && Extends(c, DispatchAll(c, parse, lines))
    decreases |lines|
  {
    if lines != [] {
      var d := Dispatch(c, parse(lines[0]));
      DispatchKeeps(c, parse(lines[0]));
      DispatchAllKeeps(d, parse, lines[1..]);
      ExtendsTrans(c, d, DispatchAll(d, parse, lines[1..]));
    }
  }

  lemma NextIdIsNew(c: Client)
    requires Inv(c)
    ensures IdOf(c.issued + 1) !in c.asked && IdOf(c.issued + 1) !in c.pending && IdOf(c.issued + 1) !in c.settled
  {
    if Issued(c, IdOf(c.issued + 1)) {
      var n: nat :| 1 <= n <= c.issued && IdOf(c.issued + 1) == IdOf(n);
      IdsDiffer(c.issued + 1, n);
    }
  }

  lemma AskKeeps(c: Client, command: Command)
    requires Inv(c)
    ensures Inv(Ask(c, command)) && Extends(c, Ask(c, command))
  {
    if !c.closed {
      NextIdIsNew(c);
      AskIssues(c, command);
      AskAnswered(c, command);
    }
  }

  lemma AskAnswered(c: Client, command: Command)
    requires Inv(c) && !c.closed
    ensures var d := Ask(c, command); forall i :: i in d.settled ==> i in d.asked && Answered(d, i)
  {
    var d := Ask(c, command);
    forall i | i in d.settled
      ensures i in d.asked && Answered(d, i)
    {
      assert i in c.asked && Answered(c, i) && i != IdOf(c.issued + 1) by { NextIdIsNew(c); }
    }
  }

  lemma AskIssues(c: Client, command: Command)
    requires !c.closed
    ensures forall i :: Issued(Ask(c, command), i) <==> Issued(c, i) || i == IdOf(c.issued + 1)
  {
    var d := Ask(c, command);
    forall i
      ensures Issued(d, i) <==> Issued(c, i) || i == IdOf(c.issued + 1)
    {
      assert i == IdOf(c.issued + 1) ==> Issued(d, i);
    }
  }

  lemma CloseKeeps(c: Client, error: Error)
    requires Inv(c)
    ensures Inv(Close(c, error)) && Extends(c, Close(c, error))
  {
    var d := Close(c, error);
    forall i
      ensures Issued(d, i) <==> Issued(c, i)
    {
    }
    forall i | i in d.settled
      ensures Answered(d, i)
    {
      assert i in c.settled ==> Answered(c, i);
    }
  }

  lemma StepKeeps(c: Client, parse: string -> Parsed, op: Op)
    requires Inv(c)
    ensures Inv(Step(c, parse, op)) && Extends(c, Step(c, parse, op))
  {
    match op
    case Request(command) => AskKeeps(c, command);
    case Receive(lines) => DispatchAllKeeps(c, parse, lines);
    case Fire(id) => SettleKeeps(c, id, Rejected(Timeout(id)));
    case NotifyClosed(reason) => CloseKeeps(c, Disconnected(reason));
    case Dispose => CloseKeeps(c, Disconnected("client disposed"));
  }

  lemma {:induction false} RunKeeps(parse: string -> Parsed, ops: seq<Op>)
    ensures Inv(After(parse, ops))
  {
    if ops != [] {
      RunKeeps(parse, ops[..|ops| - 1]);
      StepKeeps(After(parse, ops[..|ops| - 1]), parse, Last(ops));
    }
  }

  // ---- Theorems ----

  /** In every run each issued id is pending or has an outcome, never both; nothing else is; a closed client waits for
      nothing; a resolved request got an answer of its own id and of the type it asked for. */
  lemma ExactlyOneOutcome(parse: string -> Parsed, ops: seq<Op>, id: string)
    ensures var c := After(parse, ops);
            && (Issued(c, id) <==> id in c.pending || id in c.settled)
            && !(id in c.pending && id in c.settled)
            && (c.closed ==> id !in c.pending)
            && (id in c.settled && c.settled[id].Resolved? ==>
                  && id in c.asked && IsKind(c.settled[id].message, c.asked[id])
                  && c.settled[id].message.id == Some(id))
  {
    RunKeeps(parse, ops);
    var c := After(parse, ops);
    if id in c.settled {
      assert Answered(c, id);
    }
  }

  /** An outcome, once given, is final; what was asked is remembered; a closed client never opens again. */
  lemma {:induction false} OutcomesAreFinal(parse: string -> Parsed, ops: seq<Op>, more: seq<Op>)
    ensures Extends(After(parse, ops), After(parse, ops + more))
    decreases |more|
  {
    if more == [] {
      assert ops + more == ops;
      ExtendsSelf(After(parse, ops));
    } else {
      var front := more[..|more| - 1];
      OutcomesAreFinal(parse, ops, front);
      assert ops + more == (ops + front) + [Last(more)];
      StepExtends(parse, ops + front, Last(more));
      ExtendsTrans(After(parse, ops), After(parse, ops + front), After(parse, ops + more));
    }
  }

  lemma ExtendsSelf(c: Client)
    ensures Extends(c, c)
  {
  }

  lemma StepExtends(parse: string -> Parsed, ops: seq<Op>, op: Op)
    ensures Extends(After(parse, ops), After(parse, ops + [op]))
  {
    assert (ops + [op])[..|ops|] == ops;
    RunKeeps(parse, ops);
    StepKeeps(After(parse, ops), parse, op);
  }

  /** Closing gives every request still waiting an outcome, so all requests ever made have one. */
  lemma ClosingSettlesAll(parse: string -> Parsed, ops: seq<Op>, op: Op, id: string)
    requires op.NotifyClosed? || op.Dispose?
    ensures var c := After(parse, ops + [op]);
            c.closed && c.pending == map[] && (Issued(c, id) <==> id in c.settled)
  {
    var all := ops + [op];
    assert all[..|all| - 1] == ops && Last(all) == op;
    RunKeeps(parse, all);
  }

  lemma {:induction false} DispatchTwice(c: Client, parse: string -> Parsed, a: seq<string>, b: seq<string>)
    ensures DispatchAll(c, parse, a + b) == DispatchAll(DispatchAll(c, parse, a), parse, b)
    decreases |a|
  {
    if a == [] {
      assert a + b == b;
    } else {
      assert (a + b)[1..] == a[1..] + b;
      DispatchTwice(Dispatch(c, parse(a[0])), parse, a[1..], b);
    }
  }

  /** Feeding chunks: each chunk's lines are dispatched as soon as it is framed. */
  function FedAll(c: Client, parse: string -> Parsed, buffer: string, chunks: seq<string>): Client
    decreases |chunks|
  {
    if chunks == [] then c
    else
      var first := Frames(buffer + chunks[0]);
      FedAll(DispatchAll(c, parse, first.lines), parse, first.rest, chunks[1..])
  }

  lemma {:induction false} FedIsPushed(c: Client, parse: string -> Parsed, buffer: string, chunks: seq<string>)
    ensures FedAll(c, parse, buffer, chunks) == DispatchAll(c, parse, Pushed(buffer, chunks).lines)
    decreases |chunks|
  {
    if chunks != [] {
      var first := Frames(buffer + chunks[0]);
      FedIsPushed(DispatchAll(c, parse, first.lines), parse, first.rest, chunks[1..]);
      DispatchTwice(c, parse, first.lines, Pushed(first.rest, chunks[1..]).lines);
    }
  }

  /** What a client makes of a stream depends on the stream only, not on how it arrives in chunks. */
  lemma ChunkingIsInvisible(c: Client, parse: string -> Parsed, buffer: string, a: seq<string>, b: seq<string>)
    requires '\n' !in buffer && Joined(a) == Joined(b)
    ensures FedAll(c, parse, buffer, a) == FedAll(c, parse, buffer, b)
    ensures Pushed(buffer, a).rest == Pushed(buffer, b).rest
  {
    FedIsPushed(c, parse, buffer, a);
    FedIsPushed(c, parse, buffer, b);
    ChunksAgree(buffer, a);
    ChunksAgree(buffer, b);
  }
}
