/**
 The helper-daemon protocol end to end: the client's pending table, the worker
 isolate that owns the pipe, the two byte streams, and the daemon's serve loop,
 with every interleaving of calls, reads of any size, timeouts, failures,
 teardown and reconnection.

 Replies are paired with requests by lockstep alone: the id inside a response is
 never looked at.
 */
module PipeProtocol {
  import opened Wrappers
  import opened LineFraming

  type Id = nat

  /** How a call's future ends. Answered covers ok, an error response and malformed text. */
  datatype Outcome = Answered(line: Bytes) | WriteFailed | PipeClosed | TimedOut | Disconnected

  /** `pending` are the ids in the completer table; `done` are the completed futures. */
  datatype Client = Client(connected: bool, nextId: Id, pending: set<Id>, done: map<Id, Outcome>)

  datatype Command = Command(id: Id, body: Bytes)

  datatype Reply = Reply(id: Id, outcome: Outcome)

  datatype Worker = Ready | Waiting(id: Id)

  /** What the daemon read for a call, and the line dispatch produced for it. */
  datatype Exchange = Exchange(request: Bytes, answer: Bytes)

  /**
   One connection: its worker, both streams and the daemon's buffer. `written`,
   `answers`, `output` and `delivered` are history: the requests written, the
   lines dispatch produced, all bytes the daemon wrote, all lines the worker cut.
   */
  datatype Link = Link(
    commands: seq<Command>, worker: Worker, leftover: Bytes, replies: seq<Reply>,
    toServer: Bytes, toClient: Bytes, broken: bool, inbox: Bytes,
    written: seq<Command>, answers: seq<Bytes>, output: Bytes, delivered: seq<Bytes>)

  /** `bodies` and `exchanges` are history across connections. */
  datatype System = System(client: Client, link: Link, bodies: map<Id, Bytes>, exchanges: map<Id, Exchange>)

  datatype Event =
    | Connect
    | Call(body: Bytes)             // jsonEncode: no raw newline (section 7 of RFC 8259)
    | OnReply                       // the UI isolate takes the next reply
    | Timeout(id: Id)
    | Teardown
    | TakeCommand(writeOk: bool)    // the worker takes a command and writes it
    | WorkerRead(count: nat)        // ReadFile returns `count` bytes
    | WorkerReadFails
    | WorkerReplies                 // a whole line is buffered: cut it and reply
    | ServerRead(count: nat)
    | Serve(answer: Bytes)          // a whole line is buffered: dispatch and write the answer
    | Break                         // the pipe is disconnected

  // ---- The client's table ---------------------------------------------------

  function Issue(c: Client): Client {
    c.(nextId := c.nextId + 1, pending := c.pending + {c.nextId})
  }

  /** Completes the future of `id` if it is still waited for; otherwise nothing. */
  function Complete(c: Client, id: Id, o: Outcome): Client {
    if id in c.pending then c.(pending := c.pending - {id}, done := c.done[id := o]) else c
  }

  function Failures(ids: set<Id>): map<Id, Outcome> {
    map id | id in ids :: Disconnected
  }

  function Disconnect(c: Client): Client {
    c.(connected := false, pending := {}, done := c.done + Failures(c.pending))
  }

  predicate CanCall(c: Client, body: Bytes) { c.connected && NEWLINE !in body }

  function ClientStep(c: Client, e: Event, replies: seq<Reply>): Client {
    match e
    case Connect => c.(connected := true)
    case Call(body) => if CanCall(c, body) then Issue(c) else c
    case OnReply => if replies == [] then c else Complete(c, replies[0].id, replies[0].outcome)
    case Timeout(id) => Complete(c, id, TimedOut)
    case Teardown => Disconnect(c)
    case _ => c
  }

  // ---- The connection -------------------------------------------------------

  const FRESH_LINK := Link([], Ready, [], [], [], [], false, [], [], [], [], [])

  function TakeNext(l: Link, writeOk: bool): Link {
    if l.worker != Ready || l.commands == [] then l
    else
      var c, rest := l.commands[0], l.commands[1..];
      if writeOk && !l.broken then
        l.(commands := rest, worker := Waiting(c.id), written := l.written + [c], toServer := l.toServer + c.body + [NEWLINE])
      else l.(commands := rest, replies := l.replies + [Reply(c.id, WriteFailed)])
  }

  function ReadChunk(l: Link, count: nat): Link {
    if l.worker == Ready || NEWLINE in l.leftover || !(0 < count <= |l.toClient|) then l
    else l.(leftover := l.leftover + l.toClient[..count], toClient := l.toClient[count..])
  }

  function FailRead(l: Link): Link {
    if l.worker == Ready || NEWLINE in l.leftover || !l.broken then l
    else l.(worker := Ready, replies := l.replies + [Reply(l.worker.id, PipeClosed)])
  }

  function CutAndReply(l: Link): Link {
    var nl := NewlineAt(l.leftover);
    if l.worker == Ready || nl == |l.leftover| then l
    else
      var line := l.leftover[..nl];
      l.(worker := Ready, leftover := l.leftover[nl + 1..], delivered := l.delivered + [line],
         replies := l.replies + [Reply(l.worker.id, Answered(line))])
  }

  function ServerChunk(l: Link, count: nat): Link {
    if count > |l.toServer| then l
    else l.(inbox := l.inbox + l.toServer[..count], toServer := l.toServer[count..])
  }

  predicate CanServe(l: Link, answer: Bytes) {
    NewlineAt(l.inbox) < |l.inbox| && NEWLINE !in answer
  }

  /** An answer written to a broken pipe is lost; the write error is ignored. */
  function ServeOne(l: Link, answer: Bytes): Link {
    if !CanServe(l, answer) then l
    else
      var served := l.(inbox := l.inbox[NewlineAt(l.inbox) + 1..], answers := l.answers + [answer]);
      if l.broken then served
      else served.(toClient := l.toClient + answer + [NEWLINE], output := l.output + answer + [NEWLINE])
  }

  function LinkStep(l: Link, e: Event, c: Client): Link {
    match e
    case Connect => if c.connected then l else FRESH_LINK
    case Call(body) => if CanCall(c, body) then l.(commands := l.commands + [Command(c.nextId, body)]) else l
    case OnReply => if l.replies == [] then l else l.(replies := l.replies[1..])
    case Timeout(_) => l
    case Teardown => FRESH_LINK
    case TakeCommand(writeOk) => TakeNext(l, writeOk)
    case WorkerRead(count) => ReadChunk(l, count)
    case WorkerReadFails => FailRead(l)
    case WorkerReplies => CutAndReply(l)
    case ServerRead(count) => ServerChunk(l, count)
    case Serve(answer) => ServeOne(l, answer)
    case Break => l.(broken := true)
  }

  // ---- The whole system -----------------------------------------------------

  /** The n-th line the daemon reads is accounted to the n-th request written. */
  function NoteExchange(x: map<Id, Exchange>, l: Link, answer: Bytes): map<Id, Exchange> {
    var n := |l.answers|;
    if CanServe(l, answer) && n < |l.written|
    then x[l.written[n].id := Exchange(l.inbox[..NewlineAt(l.inbox)], answer)]
    else x
  }

  function Step(s: System, e: Event): System {
    System(
      ClientStep(s.client, e, s.link.replies),
      LinkStep(s.link, e, s.client),
      if e.Call? && CanCall(s.client, e.body) then s.bodies[s.client.nextId := e.body] else s.bodies,
      if e.Serve? then NoteExchange(s.exchanges, s.link, e.answer) else s.exchanges)
  }

  const INITIAL := System(Client(false, 1, {}, map[]), FRESH_LINK, map[], map[])

  function Run(es: seq<Event>): System {
    if es == [] then INITIAL else Step(Run(es[..|es| - 1]), es[|es| - 1])
  }

  // ---- Lockstep -------------------------------------------------------------

  /** The worker waits for the last request written, and nothing of that exchange is lost. */
  predicate Outstanding(l: Link) {
    var w := |l.written|;
    && w > 0 && l.worker == Waiting(l.written[w - 1].id)
    && (|| (|l.answers| == w - 1 && l.inbox + l.toServer == l.written[w - 1].body + [NEWLINE]
            && l.leftover == [] && l.toClient == [])
        || (|l.answers| == w && l.inbox + l.toServer == []
            && l.leftover + l.toClient == l.answers[w - 1] + [NEWLINE]))
  }

  /** No request is on its way, and streams and buffers are empty. */
  predicate AtRest(l: Link) {
    && l.worker == Ready && |l.answers| == |l.written|
    && l.inbox == [] && l.toServer == [] && l.leftover == [] && l.toClient == []
  }

  /** The answer was written to a broken pipe: no line can arrive any more. */
  predicate Lost(l: Link) {
    var w := |l.written|;
    && l.broken && w > 0 && |l.answers| == w && l.worker == Waiting(l.written[w - 1].id)
    && l.leftover == [] && l.toClient == [] && l.inbox + l.toServer == []
  }

  /** A read has failed: the worker takes commands again but cannot write any. */
  predicate Dead(l: Link) {
    var w := |l.written|;
    && l.broken && l.worker == Ready
    && (|| (|l.answers| == w && l.inbox + l.toServer == [])
        || (w > 0 && |l.answers| == w - 1 && l.inbox + l.toServer == l.written[w - 1].body + [NEWLINE]))
  }

  predicate Plain(l: Link) {
    && (forall i :: 0 <= i < |l.commands| ==> NEWLINE !in l.commands[i].body)
    && (forall i :: 0 <= i < |l.written| ==> NEWLINE !in l.written[i].body)
    && (forall i :: 0 <= i < |l.answers| ==> NEWLINE !in l.answers[i])
  }

  predicate Lockstep(l: Link) {
    Plain(l) && (AtRest(l) || Outstanding(l) || Lost(l) || Dead(l))
  }

  lemma WholeLine(line: Bytes, b: Bytes)
    requires NEWLINE !in line && b == line + [NEWLINE]
    ensures NewlineAt(b) == |line| && b[..|line|] == line && b[|line| + 1..] == []
  {
    NewlineEndsLine(line, []);
    assert b == line + [NEWLINE] + [];
  }

  /** A newline shows up only once the line and its newline are there whole. */
  lemma NewlineMeansWhole(line: Bytes, a: Bytes, b: Bytes)
    requires NEWLINE !in line && a + b == line + [NEWLINE] && NewlineAt(a) < |a|
    ensures b == [] && a == line + [NEWLINE]
  {
    var n := NewlineAt(a);
    assert (line + [NEWLINE])[n] == (a + b)[n] == NEWLINE;
    assert forall i :: 0 <= i < |line| ==> line[i] != NEWLINE;
  }

  /** The daemon answers only the last request written, and reads exactly its body. */
  lemma ServesTheLastRequest(l: Link, answer: Bytes)
    requires Lockstep(l) && CanServe(l, answer)
    ensures var w := |l.written|;
            && w > 0 && |l.answers| == w - 1 && l.toServer == [] && (Outstanding(l) || Dead(l))
            && l.inbox[..NewlineAt(l.inbox)] == l.written[w - 1].body && l.inbox[NewlineAt(l.inbox) + 1..] == []
  {
    assert l.inbox + l.toServer != [];
    var body := l.written[|l.written| - 1].body;
    NewlineMeansWhole(body, l.inbox, l.toServer);
    WholeLine(body, l.inbox);
  }

  lemma ServeKeepsLockstep(l: Link, answer: Bytes)
    requires Lockstep(l)
    ensures Lockstep(ServeOne(l, answer))
  {
    if CanServe(l, answer) {
      ServesTheLastRequest(l, answer);
      var t := ServeOne(l, answer);
      assert t.inbox + t.toServer == [];
      if Outstanding(l) && !l.broken { assert t.leftover + t.toClient == answer + [NEWLINE]; }
    }
  }

  /** What the worker cuts is exactly the answer to the request it waits for. */
  lemma CutsTheAnswer(l: Link)
    requires Lockstep(l) && l.worker != Ready && NewlineAt(l.leftover) < |l.leftover|
    ensures var w := |l.written|;
            && w > 0 && |l.answers| == w && l.worker == Waiting(l.written[w - 1].id)
            && l.toClient == [] && l.inbox == [] && l.toServer == []
            && l.leftover == l.answers[w - 1] + [NEWLINE]
            && l.leftover[..NewlineAt(l.leftover)] == l.answers[w - 1] && l.leftover[NewlineAt(l.leftover) + 1..] == []
  {
    assert Outstanding(l);
    var answer := l.answers[|l.written| - 1];
    NewlineMeansWhole(answer, l.leftover, l.toClient);
    WholeLine(answer, l.leftover);
  }

  lemma CutKeepsLockstep(l: Link)
    requires Lockstep(l)
    ensures Lockstep(CutAndReply(l))
  {
    if l.worker != Ready && NewlineAt(l.leftover) < |l.leftover| { CutsTheAnswer(l); }
  }

  lemma TakeKeepsLockstep(l: Link, writeOk: bool)
    requires Lockstep(l)
    ensures Lockstep(TakeNext(l, writeOk))
  {
    if l.worker == Ready && l.commands != [] && writeOk && !l.broken {
      assert AtRest(l);
      var body := l.commands[0].body;
      assert [] + ([] + body + [NEWLINE]) == body + [NEWLINE];
    }
  }

  lemma ReadKeepsLockstep(l: Link, count: nat)
    requires Lockstep(l)
    ensures Lockstep(ReadChunk(l, count))
  {
    if count <= |l.toClient| { assert l.leftover + l.toClient == l.leftover + l.toClient[..count] + l.toClient[count..]; }
  }

  lemma ServerReadKeepsLockstep(l: Link, count: nat)
    requires Lockstep(l)
    ensures Lockstep(ServerChunk(l, count))
  {
    if count <= |l.toServer| { assert l.inbox + l.toServer == l.inbox + l.toServer[..count] + l.toServer[count..]; }
  }

  lemma StepKeepsLockstep(l: Link, e: Event, c: Client)
    requires Lockstep(l)
    ensures Lockstep(LinkStep(l, e, c))
  {
    match e
    case Serve(answer) => ServeKeepsLockstep(l, answer);
    case WorkerReplies => CutKeepsLockstep(l);
    case TakeCommand(writeOk) => TakeKeepsLockstep(l, writeOk);
    case WorkerRead(count) => ReadKeepsLockstep(l, count);
    case ServerRead(count) => ServerReadKeepsLockstep(l, count);
    case Connect =>
    case Call(_) =>
    case OnReply =>
    case Timeout(_) =>
    case Teardown =>
    case WorkerReadFails =>
    case Break =>
  }

  // ---- Whose answer it is ---------------------------------------------------

  /** `line` is what dispatch produced for the very request `id` was issued with. */
  ghost predicate Own(s: System, id: Id, line: Bytes) {
    id in s.exchanges && id in s.bodies && s.exchanges[id] == Exchange(s.bodies[id], line)
  }

  /** A command not served yet: known to the client, unknown to the daemon. */
  ghost predicate Unserved(s: System, c: Command) {
    && c.id < s.client.nextId && c.id !in s.exchanges
    && c.id in s.bodies && s.bodies[c.id] == c.body
  }

  /** Queued commands are unserved and in the order of their ids, after the last one written. */
  ghost predicate QueueFits(s: System) {
    && (forall i :: 0 <= i < |s.link.commands| ==> Unserved(s, s.link.commands[i]))
    && (forall i, j :: 0 <= i < j < |s.link.commands| ==> s.link.commands[i].id < s.link.commands[j].id)
    && (forall i :: 0 <= i < |s.link.commands| && s.link.written != [] ==>
          s.link.written[|s.link.written| - 1].id < s.link.commands[i].id)
  }

  /** The last request written is unserved, or its answer is its own. */
  ghost predicate LastFits(s: System) {
    var w := |s.link.written|;
    w > 0 ==>
      && s.link.written[w - 1].id < s.client.nextId
      && (|s.link.answers| == w - 1 ==> Unserved(s, s.link.written[w - 1]))
      && (|s.link.answers| == w ==> Own(s, s.link.written[w - 1].id, s.link.answers[w - 1]))
  }

  ghost predicate OutcomeOwn(s: System, id: Id, o: Outcome) {
    o.Answered? ==> Own(s, id, o.line)
  }

  ghost predicate OutcomesOwn(s: System) {
    && (forall i :: 0 <= i < |s.link.replies| ==> OutcomeOwn(s, s.link.replies[i].id, s.link.replies[i].outcome))
    && (forall id :: id in s.client.done ==> OutcomeOwn(s, id, s.client.done[id]))
  }

  ghost predicate KeysKnown(s: System) {
    && (forall id :: id in s.exchanges ==> id < s.client.nextId)
    && (forall id :: id in s.bodies ==> id < s.client.nextId)
  }

  ghost predicate Inv(s: System) {
    Lockstep(s.link) && KeysKnown(s) && QueueFits(s) && LastFits(s) && OutcomesOwn(s)
  }

  /** No event takes an answer away from its request. */
  lemma OwnIsKept(s: System, e: Event, id: Id, line: Bytes)
    requires Lockstep(s.link) && LastFits(s) && KeysKnown(s) && Own(s, id, line)
    ensures Own(Step(s, e), id, line)
  {
    if e.Serve? && CanServe(s.link, e.answer) { ServesTheLastRequest(s.link, e.answer); }
  }

  lemma OutcomesAreKept(s: System, e: Event)
    requires Inv(s)
    ensures forall id, o :: OutcomeOwn(s, id, o) ==> OutcomeOwn(Step(s, e), id, o)
  {
    forall id, o | OutcomeOwn(s, id, o) ensures OutcomeOwn(Step(s, e), id, o) {
      if o.Answered? { OwnIsKept(s, e, id, o.line); }
    }
  }

  lemma ServeKeepsOwners(s: System, answer: Bytes)
    requires Inv(s)
    ensures var t := Step(s, Serve(answer)); KeysKnown(t) && QueueFits(t) && LastFits(t)
  {
    if CanServe(s.link, answer) {
      ServesTheLastRequest(s.link, answer);
      var t := Step(s, Serve(answer));
      var last := s.link.written[|s.link.written| - 1];
      assert t.link.written == s.link.written && t.link.commands == s.link.commands;
      assert t.exchanges == s.exchanges[last.id := Exchange(last.body, answer)];
    }
  }

  lemma TakeKeepsOwners(s: System, writeOk: bool)
    requires Inv(s)
    ensures var t := Step(s, TakeCommand(writeOk)); KeysKnown(t) && QueueFits(t) && LastFits(t)
  {
    if s.link.worker == Ready && s.link.commands != [] {
      var t := Step(s, TakeCommand(writeOk));
      assert forall i :: 0 <= i < |t.link.commands| ==> t.link.commands[i] == s.link.commands[i + 1];
      assert t.bodies == s.bodies && t.exchanges == s.exchanges && t.client == s.client;
      if writeOk && !s.link.broken { assert AtRest(s.link); }
    }
  }

  lemma CallKeepsOwners(s: System, body: Bytes)
    requires Inv(s)
    ensures var t := Step(s, Call(body)); KeysKnown(t) && QueueFits(t) && LastFits(t)
  {
    var t := Step(s, Call(body));
    assert t.exchanges == s.exchanges && t.link.written == s.link.written && t.link.answers == s.link.answers;
  }

  /** Every other event leaves commands, requests and answers alone, or starts afresh. */
  lemma OthersLeaveTheQueue(l: Link, e: Event, c: Client)
    requires !e.Serve? && !e.TakeCommand? && !e.Call?
    ensures var t := LinkStep(l, e, c);
            t == FRESH_LINK || (t.commands == l.commands && t.written == l.written && t.answers == l.answers)
  {
  }

  lemma OwnersOfTheQueue(s: System, t: System)
    requires KeysKnown(s) && QueueFits(s) && LastFits(s)
    requires t.bodies == s.bodies && t.exchanges == s.exchanges && t.client.nextId == s.client.nextId
    requires t.link.commands == s.link.commands && t.link.written == s.link.written && t.link.answers == s.link.answers
    ensures KeysKnown(t) && QueueFits(t) && LastFits(t)
  {
  }

  lemma OthersKeepOwners(s: System, e: Event)
    requires Inv(s) && !e.Serve? && !e.TakeCommand? && !e.Call?
    ensures var t := Step(s, e); KeysKnown(t) && QueueFits(t) && LastFits(t)
  {
    var t := Step(s, e);
    OthersLeaveTheQueue(s.link, e, s.client);
    if t.link != FRESH_LINK { OwnersOfTheQueue(s, t); }
  }

  lemma RepliesStayOwn(s: System, e: Event)
    requires Inv(s)
    ensures OutcomesOwn(Step(s, e))
  {
    var t := Step(s, e);
    OutcomesAreKept(s, e);
    NewReplies(s, e);
    forall i | 0 <= i < |t.link.replies| ensures OutcomeOwn(t, t.link.replies[i].id, t.link.replies[i].outcome) {
      assert t.link.replies[i] in s.link.replies || OutcomeOwn(s, t.link.replies[i].id, t.link.replies[i].outcome);
    }
    forall id | id in t.client.done ensures OutcomeOwn(t, id, t.client.done[id]) {
      NewOutcome(s, e, id);
    }
  }

  lemma OtherRepliesAreFailures(l: Link, e: Event, c: Client)
    requires !e.WorkerReplies?
    ensures forall r :: r in LinkStep(l, e, c).replies ==> r in l.replies || !r.outcome.Answered?
  {
  }

  /** A reply is one that was there, or one whose answer is already its own. */
  lemma NewReplies(s: System, e: Event)
    requires Inv(s)
    ensures forall r :: r in Step(s, e).link.replies ==> r in s.link.replies || OutcomeOwn(s, r.id, r.outcome)
  {
    if !e.WorkerReplies? {
      OtherRepliesAreFailures(s.link, e, s.client);
    } else if s.link.worker != Ready && NewlineAt(s.link.leftover) < |s.link.leftover| {
      CutsTheAnswer(s.link);
    }
  }

  lemma NewOutcome(s: System, e: Event, id: Id)
    requires Inv(s) && id in Step(s, e).client.done
    ensures OutcomeOwn(s, id, Step(s, e).client.done[id])
  {
  }

  lemma {:induction false} RunKeepsInv(es: seq<Event>)
    ensures Inv(Run(es))
  {
    if es != [] {
      var s, e := Run(es[..|es| - 1]), es[|es| - 1];
      RunKeepsInv(es[..|es| - 1]);
      StepKeepsLockstep(s.link, e, s.client);
      RepliesStayOwn(s, e);
      match e
      case Serve(answer) => ServeKeepsOwners(s, answer);
      case TakeCommand(writeOk) => TakeKeepsOwners(s, writeOk);
      case Call(body) => CallKeepsOwners(s, body);
      case _ => OthersKeepOwners(s, e);
    }
  }

  /**
   In every run and for every chunking, a call that is answered is answered with
   exactly the line dispatch produced for that call's own request.
   */
  lemma {:induction false} AnswersAreOwn(es: seq<Event>, id: Id)
    ensures var s := Run(es);
            id in s.client.done && s.client.done[id].Answered? ==> Own(s, id, s.client.done[id].line)
  {
    RunKeepsInv(es);
    var s := Run(es);
    assert id in s.client.done ==> OutcomeOwn(s, id, s.client.done[id]);
  }

  // ---- Each call completes at most once, and none is forgotten --------------

  predicate TableFits(c: Client) {
    && (forall id :: id in c.pending ==> 1 <= id < c.nextId && id !in c.done)
    && (forall id :: id in c.done ==> 1 <= id < c.nextId)
  }

  ghost predicate TableFull(c: Client) {
    c.nextId >= 1 && TableFits(c) && forall id :: 1 <= id < c.nextId ==> id in c.pending || id in c.done
  }

  lemma ClientKeepsTable(c: Client, e: Event, replies: seq<Reply>)
    requires TableFull(c)
    ensures TableFull(ClientStep(c, e, replies))
    ensures forall id :: id in c.done ==> id in ClientStep(c, e, replies).done && ClientStep(c, e, replies).done[id] == c.done[id]
  {
  }

  /** Every call ever issued is still waiting or has completed, never both. */
  lemma {:induction false} EveryCallIsAccountedFor(es: seq<Event>)
    ensures TableFull(Run(es).client)
  {
    if es != [] {
      var s := Run(es[..|es| - 1]);
      EveryCallIsAccountedFor(es[..|es| - 1]);
      ClientKeepsTable(s.client, es[|es| - 1], s.link.replies);
    }
  }

  /** A completed future keeps its outcome through timeouts, late replies and teardown. */
  lemma {:induction false} CompletesOnce(es: seq<Event>, e: Event, id: Id)
    ensures var s := Run(es);
            id in s.client.done ==> id in Step(s, e).client.done && Step(s, e).client.done[id] == s.client.done[id]
  {
    EveryCallIsAccountedFor(es);
    ClientKeepsTable(Run(es).client, e, Run(es).link.replies);
  }

  /** Teardown leaves no call waiting. */
  lemma {:induction false} TeardownCompletesAll(es: seq<Event>, id: Id)
    ensures var c := Disconnect(Run(es).client);
            c.pending == {} && (1 <= id < c.nextId ==> id in c.done)
  {
    EveryCallIsAccountedFor(es);
  }

  // ---- No call is forgotten, and no failure comes from nowhere ---------------

  /** A call that is waited for is on its way somewhere. */
  ghost predicate OnItsWay(s: System, id: Id) {
    || (exists i :: 0 <= i < |s.link.commands| && s.link.commands[i].id == id)
    || s.link.worker == Waiting(id)
    || (exists i :: 0 <= i < |s.link.replies| && s.link.replies[i].id == id)
  }

  ghost predicate PendingOnTheirWay(s: System) {
    && (!s.client.connected ==> s.client.pending == {})
    && forall id :: id in s.client.pending ==> OnItsWay(s, id)
  }

  lemma StepKeepsOnItsWay(s: System, e: Event, id: Id)
    requires OnItsWay(s, id) && id in Step(s, e).client.pending && (e.Connect? ==> s.client.connected)
    ensures OnItsWay(Step(s, e), id)
  {
    var t := Step(s, e);
    if i :| 0 <= i < |s.link.commands| && s.link.commands[i].id == id {
      CommandStays(s.link, e, s.client, i);
    } else if s.link.worker == Waiting(id) {
      WaitingStays(s.link, e, s.client, id);
    } else {
      var i :| 0 <= i < |s.link.replies| && s.link.replies[i].id == id;
      if e.OnReply? {
        assert i > 0 ==> t.link.replies[i - 1] == s.link.replies[i];
      } else if !e.Teardown? {
        assert t.link.replies[i] == s.link.replies[i];
      }
    }
  }

  lemma CommandStays(l: Link, e: Event, c: Client, i: nat)
    requires i < |l.commands| && !e.Teardown? && (e.Connect? ==> c.connected)
    ensures var t := LinkStep(l, e, c);
            || (i < |t.commands| && t.commands[i] == l.commands[i])
            || (i > 0 && i - 1 < |t.commands| && t.commands[i - 1] == l.commands[i])
            || t.worker == Waiting(l.commands[i].id)
            || (t.replies != [] && t.replies[|t.replies| - 1].id == l.commands[i].id)
  {
  }

  lemma WaitingStays(l: Link, e: Event, c: Client, id: Id)
    requires l.worker == Waiting(id) && !e.Teardown? && (e.Connect? ==> c.connected)
    ensures var t := LinkStep(l, e, c);
            t.worker == Waiting(id) || (t.replies != [] && t.replies[|t.replies| - 1].id == id)
  {
  }

  lemma StepKeepsPending(s: System, e: Event)
    requires PendingOnTheirWay(s)
    ensures PendingOnTheirWay(Step(s, e))
  {
    var t := Step(s, e);
    forall id | id in t.client.pending ensures OnItsWay(t, id) {
      if id in s.client.pending {
        StepKeepsOnItsWay(s, e, id);
      } else {
        assert e.Call? && t.link.commands[|s.link.commands|].id == id;
      }
    }
  }

  lemma {:induction false} RunKeepsPending(es: seq<Event>)
    ensures PendingOnTheirWay(Run(es))
  {
    if es != [] {
      RunKeepsPending(es[..|es| - 1]);
      StepKeepsPending(Run(es[..|es| - 1]), es[|es| - 1]);
    }
  }

  /** Nothing is left to take, to wait for or to hand over. */
  predicate Idle(l: Link) { l.commands == [] && l.worker == Ready && l.replies == [] }

  /** In every run: once the connection is idle every call ever issued has completed. */
  lemma {:induction false} NoCallIsForgotten(es: seq<Event>, id: Id)
    ensures var s := Run(es); Idle(s.link) && 1 <= id < s.client.nextId ==> id in s.client.done
  {
    RunKeepsPending(es);
    EveryCallIsAccountedFor(es);
    var s := Run(es);
    assert id in s.client.pending ==> OnItsWay(s, id);
  }

  /** The event without which a call does not end so. */
  predicate HasCause(es: seq<Event>, id: Id, o: Outcome) {
    match o
    case Answered(_) => true
    case WriteFailed => TakeCommand(false) in es || (TakeCommand(true) in es && Break in es)
    case PipeClosed => WorkerReadFails in es && Break in es
    case TimedOut => Timeout(id) in es
    case Disconnected => Teardown in es
  }

  ghost predicate AllHaveCauses(es: seq<Event>) {
    var s := Run(es);
    && (s.link.broken ==> Break in es)
    && (forall i :: 0 <= i < |s.link.replies| ==>
          HasCause(es, s.link.replies[i].id, s.link.replies[i].outcome) && !s.link.replies[i].outcome.TimedOut?)
    && (forall id :: id in s.client.done ==> HasCause(es, id, s.client.done[id]))
  }

  lemma CauseIsKept(es: seq<Event>, e: Event, id: Id, o: Outcome)
    requires HasCause(es, id, o)
    ensures HasCause(es + [e], id, o)
  {
  }

  lemma NewReplyHasCause(es: seq<Event>, e: Event, r: Reply)
    requires AllHaveCauses(es) && r in Step(Run(es), e).link.replies && r !in Run(es).link.replies
    ensures HasCause(es + [e], r.id, r.outcome) && !r.outcome.TimedOut?
  {
    assert e in es + [e] && forall x :: x in es ==> x in es + [e];
  }

  lemma NewOutcomeHasCause(es: seq<Event>, e: Event, id: Id)
    requires AllHaveCauses(es) && id in Step(Run(es), e).client.done
    ensures HasCause(es + [e], id, Step(Run(es), e).client.done[id])
  {
    assert e in es + [e] && forall x :: x in es ==> x in es + [e];
  }

  lemma {:induction false} RunKeepsCauses(es: seq<Event>)
    ensures AllHaveCauses(es)
  {
    if es != [] {
      var before, e := es[..|es| - 1], es[|es| - 1];
      RunKeepsCauses(before);
      assert es == before + [e];
      var s, t := Run(before), Run(es);
      assert t.link.broken && !s.link.broken ==> e == Break;
      forall i | 0 <= i < |t.link.replies|
        ensures HasCause(es, t.link.replies[i].id, t.link.replies[i].outcome) && !t.link.replies[i].outcome.TimedOut?
      {
        var r := t.link.replies[i];
        if r in s.link.replies { CauseIsKept(before, e, r.id, r.outcome); } else { NewReplyHasCause(before, e, r); }
      }
      forall id | id in t.client.done ensures HasCause(es, id, t.client.done[id]) { NewOutcomeHasCause(before, e, id); }
    }
  }

  /**
   In every run a call fails only for a reason: a failed or broken write, a failed
   read of a broken pipe, its own timeout, or a teardown.
   */
  lemma {:induction false} FailuresHaveCauses(es: seq<Event>, id: Id)
    ensures var s := Run(es); id in s.client.done ==> HasCause(es, id, s.client.done[id])
  {
    RunKeepsCauses(es);
  }

  /** So with no such event every call, once the connection is idle, has been answered with its own line. */
  lemma {:induction false} UndisturbedCallsAreAnswered(es: seq<Event>, id: Id)
    requires Break !in es && TakeCommand(false) !in es && Teardown !in es && Timeout(id) !in es
    ensures var s := Run(es);
            Idle(s.link) && 1 <= id < s.client.nextId ==>
              id in s.client.done && s.client.done[id].Answered? && Own(s, id, s.client.done[id].line)
  {
    NoCallIsForgotten(es, id);
    FailuresHaveCauses(es, id);
    AnswersAreOwn(es, id);
  }

  // ---- One exchange, whatever the chunks ------------------------------------

  function Steps(s: System, es: seq<Event>): System
    decreases |es|
  {
    if es == [] then s else Steps(Step(s, es[0]), es[1..])
  }

  lemma {:induction false} StepsAppend(s: System, a: seq<Event>, b: seq<Event>)
    ensures Steps(s, a + b) == Steps(Steps(s, a), b)
    decreases |a|
  {
    if a == [] {
      assert a + b == b;
    } else {
      StepsAppend(Step(s, a[0]), a[1..], b);
      assert (a + b)[1..] == a[1..] + b;
    }
  }

  lemma OneStep(s: System, e: Event)
    ensures Steps(s, [e]) == Step(s, e)
  {
    assert [e][1..] == [];
  }

  function Sum(counts: seq<nat>): nat {
    if counts == [] then 0 else counts[0] + Sum(counts[1..])
  }

  /** Any way at all to cut `n` bytes into chunks of at least one. */
  predicate Cuts(counts: seq<nat>, n: nat) {
    Sum(counts) == n && forall c :: c in counts ==> c > 0
  }

  function ServerReads(counts: seq<nat>): seq<Event> {
    seq(|counts|, i requires 0 <= i < |counts| => ServerRead(counts[i]))
  }

  function WorkerReads(counts: seq<nat>): seq<Event> {
    seq(|counts|, i requires 0 <= i < |counts| => WorkerRead(counts[i]))
  }

  lemma {:induction false} ServerReadsAll(s: System, counts: seq<nat>)
    requires Sum(counts) == |s.link.toServer|
    ensures Steps(s, ServerReads(counts)) == s.(link := s.link.(inbox := s.link.inbox + s.link.toServer, toServer := []))
    decreases |counts|
  {
    if counts == [] {
      assert s.link.inbox + s.link.toServer == s.link.inbox && s.link.toServer == [];
    } else {
      var t := Step(s, ServerRead(counts[0]));
      assert ServerReads(counts)[1..] == ServerReads(counts[1..]);
      ServerReadsAll(t, counts[1..]);
      assert t.link.inbox + t.link.toServer == s.link.inbox + s.link.toServer;
    }
  }

  lemma {:induction false} WorkerReadsAll(s: System, counts: seq<nat>, line: Bytes)
    requires s.link.worker != Ready && NEWLINE !in line && Cuts(counts, |s.link.toClient|)
    requires s.link.leftover + s.link.toClient == line + [NEWLINE]
    ensures Steps(s, WorkerReads(counts)) == s.(link := s.link.(leftover := line + [NEWLINE], toClient := []))
    decreases |counts|
  {
    var l := s.link;
    if counts == [] {
      assert l.toClient == [] && l.leftover == line + [NEWLINE];
    } else {
      assert counts[0] in counts && forall c :: c in counts[1..] ==> c in counts;
      assert l.leftover == (line + [NEWLINE])[..|l.leftover|] && |l.leftover| <= |line|;
      assert l.leftover == line[..|l.leftover|];
      var t := Step(s, WorkerRead(counts[0]));
      assert WorkerReads(counts)[1..] == WorkerReads(counts[1..]);
      assert t.link.leftover + t.link.toClient == l.leftover + l.toClient;
      WorkerReadsAll(t, counts[1..], line);
    }
  }

  /** The request is written and read by the daemon. */
  lemma RequestArrives(s: System, body: Bytes, counts: seq<nat>)
    requires s.client.connected && Idle(s.link) && AtRest(s.link) && !s.link.broken && NEWLINE !in body
    requires Cuts(counts, |body| + 1)
    ensures var id := s.client.nextId;
            Steps(s, [Call(body)] + [TakeCommand(true)] + ServerReads(counts)) ==
            s.(client := Issue(s.client), bodies := s.bodies[id := body],
               link := s.link.(worker := Waiting(id), written := s.link.written + [Command(id, body)], inbox := body + [NEWLINE]))
  {
    var id := s.client.nextId;
    var a := Step(s, Call(body));
    var b := Step(a, TakeCommand(true));
    OneStep(s, Call(body));
    OneStep(a, TakeCommand(true));
    StepsAppend(s, [Call(body)], [TakeCommand(true)]);
    StepsAppend(s, [Call(body)] + [TakeCommand(true)], ServerReads(counts));
    assert a.link == s.link.(commands := [Command(id, body)]);
    assert [] + body + [NEWLINE] == body + [NEWLINE] && [] + (body + [NEWLINE]) == body + [NEWLINE];
    assert b.link.toServer == body + [NEWLINE];
    ServerReadsAll(b, counts);
  }

  /** The daemon answers the request it has read, and the worker reads the whole answer. */
  lemma AnswerIsRead(s: System, id: Id, body: Bytes, answer: Bytes, counts: seq<nat>)
    requires s.link.worker == Waiting(id) && !s.link.broken && s.link.leftover == [] && s.link.toClient == []
    requires NEWLINE !in body && NEWLINE !in answer && s.link.inbox == body + [NEWLINE]
    requires Cuts(counts, |answer| + 1)
    ensures var t := Steps(s, [Serve(answer)] + WorkerReads(counts));
            && t.client == s.client
            && t.link == s.link.(inbox := [], leftover := answer + [NEWLINE], answers := s.link.answers + [answer],
                                 output := s.link.output + (answer + [NEWLINE]))
  {
    var a := Step(s, Serve(answer));
    WholeLine(body, s.link.inbox);
    assert s.link.output + answer + [NEWLINE] == s.link.output + (answer + [NEWLINE]);
    assert a.link.toClient == answer + [NEWLINE] && a.link.leftover + a.link.toClient == answer + [NEWLINE];
    OneStep(s, Serve(answer));
    WorkerReadsAll(a, counts, answer);
    StepsAppend(s, [Serve(answer)], WorkerReads(counts));
  }

  /** The line the worker has read is handed to the client. */
  lemma AnswerIsHandedOver(s: System, id: Id, answer: Bytes)
    requires id in s.client.pending && s.link.worker == Waiting(id) && s.link.replies == []
    requires NEWLINE !in answer && s.link.leftover == answer + [NEWLINE]
    ensures Steps(s, [WorkerReplies] + [OnReply]) ==
            s.(client := Complete(s.client, id, Answered(answer)),
               link := s.link.(worker := Ready, leftover := [], delivered := s.link.delivered + [answer]))
  {
    var a := Step(s, WorkerReplies);
    WholeLine(answer, s.link.leftover);
    assert s.link.leftover[|answer| + 1..] == [];
    assert a.link.replies == [Reply(id, Answered(answer))];
    OneStep(s, WorkerReplies);
    OneStep(a, OnReply);
    StepsAppend(s, [WorkerReplies], [OnReply]);
  }

  /**
   A call on a connection at rest, its request and its answer each read in any chunks
   at all, is answered with exactly the line the daemon produced, and leaves the
   connection at rest for the next.
   */
  lemma {:induction false} ACallIsAnswered(s: System, body: Bytes, answer: Bytes, requestChunks: seq<nat>, answerChunks: seq<nat>)
    requires s.client.connected && Idle(s.link) && AtRest(s.link) && !s.link.broken
    requires NEWLINE !in body && NEWLINE !in answer
    requires Cuts(requestChunks, |body| + 1) && Cuts(answerChunks, |answer| + 1)
    ensures var id := s.client.nextId;
            var t := Steps(s, ([Call(body)] + [TakeCommand(true)] + ServerReads(requestChunks))
                              + (([Serve(answer)] + WorkerReads(answerChunks)) + ([WorkerReplies] + [OnReply])));
            && t.client.done == s.client.done[id := Answered(answer)]
            && t.client.connected && Idle(t.link) && AtRest(t.link) && !t.link.broken
  {
    var first := [Call(body)] + [TakeCommand(true)] + ServerReads(requestChunks);
    var second, third := [Serve(answer)] + WorkerReads(answerChunks), [WorkerReplies] + [OnReply];
    RequestArrives(s, body, requestChunks);
    var a := Steps(s, first);
    AnswerIsRead(a, s.client.nextId, body, answer, answerChunks);
    var b := Steps(a, second);
    AnswerIsHandedOver(b, s.client.nextId, answer);
    StepsAppend(s, first, second + third);
    StepsAppend(a, second, third);
  }

  // ---- When it fails --------------------------------------------------------

  /** A pipe that breaks before the write fails it; one that breaks after it fails the read. */
  lemma BrokenPipesFailCalls(s: System, body: Bytes, writeOk: bool)
    requires s.client.connected && Idle(s.link) && AtRest(s.link) && NEWLINE !in body
    ensures var id, called := s.client.nextId, Step(s, Call(body));
            var unwritten := Step(Step(Step(called, Break), TakeCommand(writeOk)), OnReply);
            var unread := Step(Step(Step(Step(called, TakeCommand(true)), Break), WorkerReadFails), OnReply);
            && unwritten.client == Complete(called.client, id, WriteFailed) && Idle(unwritten.link)
            && (!s.link.broken ==> unread.client == Complete(called.client, id, PipeClosed) && Idle(unread.link))
            && id in called.client.pending
  {
    var id, called := s.client.nextId, Step(s, Call(body));
    assert called.link.commands == [Command(id, body)];
    var a := Step(Step(called, Break), TakeCommand(writeOk));
    assert a.link.replies == [Reply(id, WriteFailed)] && a.link.commands == [];
    if !s.link.broken {
      var b := Step(Step(Step(called, TakeCommand(true)), Break), WorkerReadFails);
      assert b.link.replies == [Reply(id, PipeClosed)] && b.link.commands == [];
    }
  }

  /** The client is connected exactly if it has connected and not torn down since; otherwise a call has no effect. */
  lemma {:induction false} ConnectedExactly(es: seq<Event>, body: Bytes)
    ensures var s := Run(es);
            && (s.client.connected <==>
                exists i :: 0 <= i < |es| && es[i] == Connect && forall j :: i < j < |es| ==> es[j] != Teardown)
            && (!s.client.connected ==> Step(s, Call(body)) == s)
  {
    if es != [] {
      var before, e := es[..|es| - 1], es[|es| - 1];
      ConnectedExactly(before, body);
      assert es == before + [e] && es[|es| - 1] == e;
      assert forall i :: 0 <= i < |before| ==> es[i] == before[i];
    }
  }

  // ---- The stream -----------------------------------------------------------

  predicate Conserved(l: Link) {
    l.output == Unlines(l.delivered) + (l.leftover + l.toClient)
  }

  lemma {:induction false} UnlinesSnoc(lines: seq<Bytes>, line: Bytes)
    ensures Unlines(lines + [line]) == Unlines(lines) + (line + [NEWLINE])
  {
    if lines == [] {
      assert [line][1..] == [] && [] + [line] == [line];
    } else {
      UnlinesSnoc(lines[1..], line);
      assert (lines + [line])[1..] == lines[1..] + [line];
      assert lines[0] + [NEWLINE] + (Unlines(lines[1..]) + (line + [NEWLINE])) == Unlines(lines) + (line + [NEWLINE]);
    }
  }

  lemma Regroup(a: Bytes, b: Bytes, c: Bytes, d: Bytes)
    ensures a + ((b + c) + d) == (a + b) + (c + d)
  {
  }

  lemma ReadKeepsStream(l: Link, count: nat)
    requires Conserved(l)
    ensures Conserved(ReadChunk(l, count))
  {
    if count <= |l.toClient| { assert l.leftover + l.toClient == l.leftover + l.toClient[..count] + l.toClient[count..]; }
  }

  lemma CutKeepsStream(l: Link)
    requires Conserved(l)
    ensures Conserved(CutAndReply(l))
  {
    var nl := NewlineAt(l.leftover);
    if l.worker != Ready && nl < |l.leftover| {
      var line, left := l.leftover[..nl], l.leftover[nl + 1..];
      UnlinesSnoc(l.delivered, line);
      assert l.leftover == (line + [NEWLINE]) + left;
      Regroup(Unlines(l.delivered), line + [NEWLINE], left, l.toClient);
    }
  }

  lemma ServeKeepsStream(l: Link, answer: Bytes)
    requires Conserved(l)
    ensures Conserved(ServeOne(l, answer))
  {
    if CanServe(l, answer) && !l.broken {
      var u := Unlines(l.delivered);
      assert u + (l.leftover + l.toClient) + answer + [NEWLINE] == u + (l.leftover + (l.toClient + answer + [NEWLINE]));
    }
  }

  /** No byte the daemon wrote is lost, duplicated or reordered on its way to the worker's lines. */
  lemma {:induction false} StreamIsConserved(es: seq<Event>)
    ensures Conserved(Run(es).link)
  {
    if es != [] {
      var s, e := Run(es[..|es| - 1]), es[|es| - 1];
      StreamIsConserved(es[..|es| - 1]);
      match e
      case WorkerRead(count) => ReadKeepsStream(s.link, count);
      case WorkerReplies => CutKeepsStream(s.link);
      case Serve(answer) => ServeKeepsStream(s.link, answer);
      case _ =>
    }
  }

  // ---- The Dart object ------------------------------------------------------

  class DaemonIpcClient {
    var connected: bool
    var nextId: Id
    var pending: set<Id>
    var done: map<Id, Outcome>

    /** The command port of the worker: what has been sent to it. */
    var sent: seq<Command>

    function View(): Client
      reads this
    {
      Client(connected, nextId, pending, done)
    }

    constructor ()
      ensures View() == INITIAL.client && sent == []
    {
      connected, nextId, pending, done, sent := false, 1, {}, map[], [];
    }

    /** `body` is the encoded request for the id it is given; None when not connected. */
    method Call(body: Bytes) returns (id: Option<Id>)
      modifies this
      ensures !old(connected) ==> id.None? && View() == old(View()) && sent == old(sent)
      ensures old(connected) ==>
                id == Some(old(nextId)) && View() == Issue(old(View())) && sent == old(sent) + [Command(old(nextId), body)]
    {
      if !connected { return None; }
      var issued := nextId;
      nextId := nextId + 1;
      pending := pending + {issued};
      sent := sent + [Command(issued, body)];
      id := Some(issued);
    }

    method OnReply(r: Reply)
      modifies `pending, `done
      ensures View() == Complete(old(View()), r.id, r.outcome)
    {
      if r.id !in pending { return; }
      pending := pending - {r.id};
      done := done[r.id := r.outcome];
    }

    method OnTimeout(id: Id)
      requires id in pending
      modifies `pending, `done
      ensures View() == Complete(old(View()), id, TimedOut)
    {
      pending := pending - {id};
      done := done[id := TimedOut];
    }

    /** Fails every call still waiting, in whatever order the table yields them. */
    method Teardown()
      modifies `connected, `pending, `done
      ensures View() == Disconnect(old(View()))
    {
      connected := false;
      var left := pending;
      while left != {}
        invariant !connected && left <= pending == old(pending)
        invariant done == old(done) + Failures(pending - left)
        decreases left
      {
        var id := AnyOf(left);
        done := done[id := Disconnected];
        left := left - {id};
        assert pending - left == (pending - left - {id}) + {id};
      }
      assert pending - left == pending;
      pending := {};
    }
  }
}
