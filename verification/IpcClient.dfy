/** The request client as the object the host holds (apps/cursor-extension/src/ipc/client.ts). */
module IpcClient {
  import opened Common
  import opened JsonlDecoder
  import opened IpcModel

  datatype Promise = Waiting(id: string) | RefusedAtOnce

  class Connection {
    const parse: string -> Parsed
    const decoder: Decoder
    var pending: map<string, Kind>
    var closed: bool
    var issued: nat
    ghost var asked: map<string, Kind>
    var settled: map<string, Outcome>
    var notices: seq<Notice>

    ghost function View(): Client
      reads this
    {
      Client(asked, pending, settled, issued, closed, notices)
    }

    constructor (parse: string -> Parsed)
      ensures fresh(decoder) && decoder.buffer == "" && this.parse == parse && View() == FRESH
    {
      this.parse := parse;
      decoder := new Decoder();
      pending := map[];
      closed := false;
      issued := 0;
      asked := map[];
      settled := map[];
      notices := [];
    }

    /** Frames a chunk and dispatches its lines one by one. */
    method Feed(chunk: string)
      modifies this`pending, this`settled, this`notices, decoder
      ensures decoder.buffer == Frames(old(decoder.buffer) + chunk).rest
      ensures View() == DispatchAll(old(View()), parse, Frames(old(decoder.buffer) + chunk).lines)
    {
      var lines := decoder.Push(chunk);
      ghost var whole := DispatchAll(View(), parse, lines);
      for i := 0 to |lines|
        invariant DispatchAll(View(), parse, lines[i..]) == whole
        invariant View().(pending := map[], settled := map[], notices := [])
               == old(View()).(pending := map[], settled := map[], notices := [])
        invariant decoder.buffer == Frames(old(decoder.buffer) + chunk).rest
      {
        assert lines[i..][0] == lines[i] && lines[i..][1..] == lines[i + 1..];
        DispatchLine(lines[i]);
      }
    }

    method DispatchLine(line: string)
      modifies this`pending, this`settled, this`notices
      ensures View() == Dispatch(old(View()), parse(line))
    {
      match parse(line)
      case InvalidJson =>
        Emit(ErrorNotice(Protocol("invalid_json", "line is not valid JSON", None)));
      case Malformed(id, text) =>
        var error := Protocol("malformed_response", text, id);
        if id.Some? && id.value in pending {
          RejectPending(id.value, error);
          return;
        }
        Emit(ErrorNotice(error));
      case Parsed(message) =>
        DispatchMessage(message);
    }

    method DispatchMessage(message: Message)
      modifies this`pending, this`settled, this`notices
      ensures View() == IpcModel.DispatchMessage(old(View()), message)
    {
      if message.Alert? {
        Emit(AlertNotice(message));
        return;
      }
      if message.State? && message.id.None? {
        Emit(StateNotice(message));
        return;
      }
      if message.id.Some? && message.id.value in pending {
        var id := message.id.value;
        if message.Failure? {
          RejectPending(id, Protocol(message.code, message.text, message.id));
          return;
        }
        if !IsKind(message, pending[id]) {
          RejectPending(id, UnexpectedType(pending[id], message));
          return;
        }
        pending := pending - {id};
        settled := settled[id := Resolved(message)];
        return;
      }
      if message.Failure? {
        Emit(ErrorNotice(Protocol(message.code, message.text, message.id)));
        return;
      }
      Emit(ErrorNotice(UnknownRequest(message.id)));
    }

    method Emit(notice: Notice)
      modifies this`notices
      ensures View() == Notify(old(View()), notice)
    {
      notices := notices + [notice];
    }

    method RejectPending(id: string, error: Error)
      modifies this`pending, this`settled
      ensures View() == Settle(old(View()), id, Rejected(error))
    {
      if id !in pending {
        return;
      }
      pending := pending - {id};
      settled := settled[id := Rejected(error)];
    }

    /** A closed client refuses without issuing an id. */
    method Request(command: Command) returns (promise: Promise)
      modifies this`pending, this`issued, this`asked
      ensures View() == Ask(old(View()), command)
      ensures promise == if old(closed) then RefusedAtOnce else Promise.Waiting(IdOf(old(issued) + 1))
    {
      if closed {
        return RefusedAtOnce;
      }
      issued := issued + 1;
      var id := IdOf(issued);
      asked := asked[id := Expected(command)];
      pending := pending[id := Expected(command)];
      promise := Promise.Waiting(id);
    }

    /** The timer of a request fires. */
    method OnTimer(id: string)
      modifies this`pending, this`settled
      ensures View() == Step(old(View()), parse, Fire(id))
    {
      RejectPending(id, Timeout(id));
    }

    method RejectAll(error: Error)
      modifies this`pending, this`settled
      ensures View() == Close(old(View()), error).(closed := closed)
    {
      var waiting := pending.Keys;
      pending := map[];
      RejectEach(waiting, error);
    }

    method RejectEach(waiting: set<string>, error: Error)
      modifies this`settled
      ensures settled == Refused(old(settled), waiting, error)
    {
      var left := waiting;
      ghost var done: set<string> := {};
      RefusedNext(settled, {}, "", error);
      while left != {}
        invariant done + left == waiting
        invariant settled == Refused(old(settled), done, error)
        decreases |left|
      {
        var id :| id in left;
        RefusedNext(old(settled), done, id, error);
        settled := settled[id := Rejected(error)];
        left := left - {id};
        done := done + {id};
      }
      assert done == waiting;
    }

    method NotifyClosed(reason: string)
      modifies this`pending, this`settled, this`closed
      ensures View() == Step(old(View()), parse, Op.NotifyClosed(reason))
    {
      RejectAll(Disconnected(reason));
      closed := true;
    }

    method Dispose()
      modifies this`pending, this`settled, this`closed
      ensures View() == Step(old(View()), parse, Op.Dispose)
    {
      RejectAll(Disconnected("client disposed"));
      closed := true;
    }
  }
}
