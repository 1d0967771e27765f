/** The relay's two threads, the host and the pipes between them, step by step
    in any order. */
module MspInterleaving {
  import opened Prelude
  import opened Json
  import opened ProviderPaths
  import opened MspProviders
  import opened MspRelay

  /** A frame the host has written, and the request it answers, if any. */
  datatype Reply = Reply(frame: Bytes, answers: Option<Ticket>)

  /** `staged` is a frame the input thread has adapted but not yet written;
      `waiting` are requests the host has read but not answered. */
  datatype World = World(
    pending: Table,
    staged: Option<Bytes>,
    toHost: seq<Bytes>,
    waiting: multiset<Ticket>,
    fromHost: seq<Reply>,
    halted: Option<Fault>)

  const START := World(map[], None, [], multiset{}, [], None)

  datatype Action =
    | Submit(frame: Bytes)
    | Write
    | Receive
    | Answer(ticket: Ticket, frame: Bytes)
    | Say(frame: Bytes)
    | Relay

  /** The id's key and whether it is a result, for a well-formed response. */
  function Correlation(c: Codec, frame: Bytes): Option<(string, bool)> {
    match ParseFrame(c, frame)
    case None => None
    case Some(v) =>
      if v.Obj? && MethodOf(v).None? && MessageKey(c, v).Some? && Get(v, "result").Some? != Get(v, "error").Some?
      then Some((MessageKey(c, v).value, Get(v, "result").Some?)) else None
  }

  /** A frame the host may write unasked: anything but a result. Errors of this
      kind may carry any id, as for input the host cannot parse. */
  predicate Unsolicited(c: Codec, frame: Bytes) {
    var correlation := Correlation(c, frame);
    correlation.None? || !correlation.value.1
  }

  /** When a step may happen. The host gives results only to what it has read
      and not yet answered. */
  predicate Enabled(cfg: Config, w: World, a: Action) {
    && w.halted.None?
    && match a
       case Submit(frame) => w.staged.None?
       case Write => w.staged.Some?
       case Receive => w.toHost != []
       case Answer(ticket, frame) =>
         ticket in w.waiting && Correlation(cfg.codec, frame).Some?
         && Correlation(cfg.codec, frame).value.0 == ticket.key
       case Say(frame) => Unsolicited(cfg.codec, frame)
       case Relay => w.fromHost != []
  }

  function Take(cfg: Config, w: World, a: Action): World
    requires Enabled(cfg, w, a)
  {
    match a
    case Submit(frame) =>
      var (table, out) := AdaptClient(cfg, w.pending, frame);
      w.(pending := table, staged := if out.Forward? then Some(out.bytes) else None)
    case Write => w.(staged := None, toHost := w.toHost + [w.staged.value])
    case Receive => w.(toHost := w.toHost[1..], waiting := w.waiting + Ticketed(cfg.codec, w.toHost[0]))
    case Answer(ticket, frame) =>
      w.(waiting := w.waiting - multiset{ticket}, fromHost := w.fromHost + [Reply(frame, Some(ticket))])
    case Say(frame) => w.(fromHost := w.fromHost + [Reply(frame, None)])
    case Relay =>
      match AdaptServer(cfg, w.pending, w.fromHost[0].frame)
      case Err(fault) => w.(halted := Some(fault))
      case Ok((table, bytes)) => w.(pending := table, fromHost := w.fromHost[1..])
  }

  /** The world after `actions`, if each was possible when its turn came. */
  function After(cfg: Config, actions: seq<Action>): Option<World> {
    if actions == [] then Some(START)
    else
      match After(cfg, actions[..|actions| - 1])
      case None => None
      case Some(w) =>
        var a := actions[|actions| - 1];
        if Enabled(cfg, w, a) then Some(Take(cfg, w, a)) else None
  }

  // ----- what is in flight -----

  function Ticketed(c: Codec, frame: Bytes): multiset<Ticket> {
    if TicketOf(c, frame).Some? then multiset{TicketOf(c, frame).value} else multiset{}
  }

  function Piped(c: Codec, frames: seq<Bytes>): multiset<Ticket> {
    if frames == [] then multiset{} else Ticketed(c, frames[0]) + Piped(c, frames[1..])
  }

  function Answered(replies: seq<Reply>): multiset<Ticket> {
    if replies == [] then multiset{}
    else (if replies[0].answers.Some? then multiset{replies[0].answers.value} else multiset{}) + Answered(replies[1..])
  }

  /** The requests forwarded and not yet answered to the client, wherever they
      or their answers are. */
  function InFlight(c: Codec, w: World): multiset<Ticket> {
    (if w.staged.Some? then Ticketed(c, w.staged.value) else multiset{})
    + Piped(c, w.toHost) + w.waiting + Answered(w.fromHost)
  }

  function Entries(pending: Table): (entries: set<Ticket>)
    ensures forall t :: t in entries <==> t.key in pending && pending[t.key] == t.name
  {
    var entries := set key | key in pending :: Ticket(key, pending[key]);
    assert forall t: Ticket :: t.key in pending && pending[t.key] == t.name ==> t == Ticket(t.key, pending[t.key]);
    entries
  }

  lemma {:induction false} PipedAppend(c: Codec, frames: seq<Bytes>, frame: Bytes)
    ensures Piped(c, frames + [frame]) == Piped(c, frames) + Ticketed(c, frame)
  {
    if frames == [] {
      assert [] + [frame] == [frame];
    } else {
      assert (frames + [frame])[1..] == frames[1..] + [frame];
      PipedAppend(c, frames[1..], frame);
    }
  }

  lemma {:induction false} AnsweredAppend(replies: seq<Reply>, reply: Reply)
    ensures Answered(replies + [reply])
         == Answered(replies) + if reply.answers.Some? then multiset{reply.answers.value} else multiset{}
  {
    if replies == [] {
      assert [] + [reply] == [reply];
    } else {
      assert (replies + [reply])[1..] == replies[1..] + [reply];
      AnsweredAppend(replies[1..], reply);
    }
  }

  lemma EntriesAdd(pending: Table, ticket: Ticket)
    requires ticket.key !in pending
    ensures multiset(Entries(pending[ticket.key := ticket.name])) == multiset(Entries(pending)) + multiset{ticket}
  {
    assert Entries(pending[ticket.key := ticket.name]) == Entries(pending) + {ticket};
  }

  lemma EntriesRemove(pending: Table, ticket: Ticket)
    requires ticket in Entries(pending)
    ensures multiset(Entries(pending - {ticket.key})) == multiset(Entries(pending)) - multiset{ticket}
  {
    assert Entries(pending - {ticket.key}) == Entries(pending) - {ticket};
  }

  // ----- the invariant -----

  predicate WellAnswered(c: Codec, reply: Reply) {
    if reply.answers.Some? then
      Correlation(c, reply.frame).Some? && Correlation(c, reply.frame).value.0 == reply.answers.value.key
    else Unsolicited(c, reply.frame)
  }

  /** The table holds exactly the requests in flight, each once, under its own
      method; it is bounded; and no result has an unknown id. */
  ghost predicate Correlated(cfg: Config, w: World) {
    && w.halted != Some(UnknownId)
    && |w.pending| <= MAX_PENDING
    && InFlight(cfg.codec, w) == multiset(Entries(w.pending))
    && forall i :: 0 <= i < |w.fromHost| ==> WellAnswered(cfg.codec, w.fromHost[i])
  }

  lemma SubmitKeeps(cfg: Config, w: World, frame: Bytes)
    requires Lawful(cfg.codec) && Correlated(cfg, w) && Enabled(cfg, w, Submit(frame))
    ensures Correlated(cfg, Take(cfg, w, Submit(frame)))
  {
    ClientEntersTicket(cfg, w.pending, frame);
    var ticket := TicketOf(cfg.codec, frame);
    var (table, out) := AdaptClient(cfg, w.pending, frame);
    if out.Forward? && ticket.Some? {
      EntriesAdd(w.pending, ticket.value);
    }
  }

  lemma WriteKeeps(cfg: Config, w: World)
    requires Correlated(cfg, w) && Enabled(cfg, w, Write)
    ensures Correlated(cfg, Take(cfg, w, Write))
  {
    PipedAppend(cfg.codec, w.toHost, w.staged.value);
  }

  lemma ReceiveKeeps(cfg: Config, w: World)
    requires Correlated(cfg, w) && Enabled(cfg, w, Receive)
    ensures Correlated(cfg, Take(cfg, w, Receive))
  {
    assert Piped(cfg.codec, w.toHost) == Ticketed(cfg.codec, w.toHost[0]) + Piped(cfg.codec, w.toHost[1..]);
  }

  lemma RepliesGrow(c: Codec, replies: seq<Reply>, reply: Reply)
    requires WellAnswered(c, reply) && forall i :: 0 <= i < |replies| ==> WellAnswered(c, replies[i])
    ensures forall i :: 0 <= i < |replies + [reply]| ==> WellAnswered(c, (replies + [reply])[i])
  {
  }

  lemma MovesToReplies(c: Codec, w: World, ticket: Ticket, frame: Bytes)
    requires ticket in w.waiting
    ensures InFlight(c,
                     w.(waiting := w.waiting - multiset{ticket}, fromHost := w.fromHost + [Reply(frame, Some(ticket))]))
         == InFlight(c, w)
  {
    AnsweredAppend(w.fromHost, Reply(frame, Some(ticket)));
    assert w.waiting == (w.waiting - multiset{ticket}) + multiset{ticket};
  }

  lemma AnswerKeeps(cfg: Config, w: World, ticket: Ticket, frame: Bytes)
    requires Correlated(cfg, w) && Enabled(cfg, w, Answer(ticket, frame))
    ensures Correlated(cfg, Take(cfg, w, Answer(ticket, frame)))
  {
    MovesToReplies(cfg.codec, w, ticket, frame);
    RepliesGrow(cfg.codec, w.fromHost, Reply(frame, Some(ticket)));
  }

  lemma SayKeeps(cfg: Config, w: World, frame: Bytes)
    requires Correlated(cfg, w) && Enabled(cfg, w, Say(frame))
    ensures Correlated(cfg, Take(cfg, w, Say(frame)))
  {
    AnsweredAppend(w.fromHost, Reply(frame, None));
    RepliesGrow(cfg.codec, w.fromHost, Reply(frame, None));
  }

  /** What the output thread does to the table with a frame of the host. */
  lemma ServerRemoves(cfg: Config, pending: Table, frame: Bytes)
    ensures var r := AdaptServer(cfg, pending, frame);
            match Correlation(cfg.codec, frame)
            case None => r != Err(UnknownId) && (r.Ok? ==> r.value.0 == pending)
            case Some((key, isResult)) =>
              if key in pending then r != Err(UnknownId) && (r.Ok? ==> r.value.0 == pending - {key})
              else if isResult then r == Err(UnknownId)
              else r.Ok? && r.value.0 == pending
  {
  }

  lemma HeadInFlight(c: Codec, w: World, ticket: Ticket)
    requires w.fromHost != [] && w.fromHost[0].answers == Some(ticket)
    ensures ticket in InFlight(c, w)
    ensures InFlight(c, w.(fromHost := w.fromHost[1..])) == InFlight(c, w) - multiset{ticket}
  {
    assert Answered(w.fromHost) == multiset{ticket} + Answered(w.fromHost[1..]);
  }

  lemma HeadNotInFlight(c: Codec, w: World)
    requires w.fromHost != [] && w.fromHost[0].answers.None?
    ensures InFlight(c, w.(fromHost := w.fromHost[1..])) == InFlight(c, w)
  {
    assert Answered(w.fromHost) == Answered(w.fromHost[1..]);
  }

  lemma AnswerLeaves(cfg: Config, w: World, ticket: Ticket)
    requires Correlated(cfg, w) && w.halted.None? && w.fromHost != [] && w.fromHost[0].answers == Some(ticket)
    ensures ticket.key in w.pending
    ensures Correlated(cfg, w.(pending := w.pending - {ticket.key}, fromHost := w.fromHost[1..]))
  {
    HeadInFlight(cfg.codec, w, ticket);
    assert ticket in Entries(w.pending);
    EntriesRemove(w.pending, ticket);
    Fewer(w.pending, ticket.key);
    assert forall i :: 0 <= i < |w.fromHost[1..]| ==> w.fromHost[1..][i] == w.fromHost[i + 1];
  }

  lemma RelayedAnswer(cfg: Config, w: World, ticket: Ticket)
    requires Correlated(cfg, w) && Enabled(cfg, w, Relay) && w.fromHost[0].answers == Some(ticket)
    ensures Correlated(cfg, Take(cfg, w, Relay))
  {
    AnswerLeaves(cfg, w, ticket);
    assert WellAnswered(cfg.codec, w.fromHost[0]);
    ServerRemoves(cfg, w.pending, w.fromHost[0].frame);
  }

  lemma Fewer(pending: Table, key: string)
    requires key in pending
    ensures |pending - {key}| < |pending|
  {
    assert (pending - {key}).Keys == pending.Keys - {key};
    assert |(pending - {key}).Keys| == |pending - {key}| && |pending.Keys| == |pending|;
  }

  /** The next host frame is an error that answers nothing, under an id in use. */
  predicate Forgets(c: Codec, w: World) {
    && w.fromHost != [] && w.fromHost[0].answers.None?
    && Correlation(c, w.fromHost[0].frame).Some?
    && !Correlation(c, w.fromHost[0].frame).value.1
    && Correlation(c, w.fromHost[0].frame).value.0 in w.pending
  }

  /** An error goes through, and what it names leaves the table. */
  lemma ErrorRemoves(cfg: Config, pending: Table, frame: Bytes, key: string)
    requires Correlation(cfg.codec, frame) == Some((key, false))
    ensures AdaptServer(cfg, pending, frame) == Ok((pending - {key}, frame))
  {
    assert key !in pending ==> pending - {key} == pending;
  }

  lemma RelayedSaying(cfg: Config, w: World)
    requires Correlated(cfg, w) && Enabled(cfg, w, Relay) && w.fromHost[0].answers.None? && !Forgets(cfg.codec, w)
    ensures Correlated(cfg, Take(cfg, w, Relay))
  {
    HeadNotInFlight(cfg.codec, w);
    assert WellAnswered(cfg.codec, w.fromHost[0]);
    ServerRemoves(cfg, w.pending, w.fromHost[0].frame);
    assert forall i :: 0 <= i < |w.fromHost[1..]| ==> w.fromHost[1..][i] == w.fromHost[i + 1];
  }

  /** Relaying such an error drops a request that is still in flight. */
  lemma RelayedForgetting(cfg: Config, w: World)
    requires Correlated(cfg, w) && Enabled(cfg, w, Relay) && Forgets(cfg.codec, w)
    ensures !Correlated(cfg, Take(cfg, w, Relay))
  {
    var key := Correlation(cfg.codec, w.fromHost[0].frame).value.0;
    var ticket := Ticket(key, w.pending[key]);
    HeadNotInFlight(cfg.codec, w);
    ErrorRemoves(cfg, w.pending, w.fromHost[0].frame, key);
    var next := Take(cfg, w, Relay);
    assert next.pending == w.pending - {key} && next.fromHost == w.fromHost[1..];
    assert next == w.(pending := w.pending - {key}, fromHost := w.fromHost[1..]);
    assert InFlight(cfg.codec, next) == InFlight(cfg.codec, w);
    assert ticket in multiset(Entries(w.pending));
    assert ticket !in multiset(Entries(next.pending));
  }

  /** A step keeps the table exact, unless it relays such an error. */
  lemma StepKeeps(cfg: Config, w: World, a: Action)
    requires Lawful(cfg.codec) && Correlated(cfg, w) && Enabled(cfg, w, a)
    ensures Correlated(cfg, Take(cfg, w, a)) <==> !(a.Relay? && Forgets(cfg.codec, w))
  {
    match a
    case Submit(frame) => SubmitKeeps(cfg, w, frame);
    case Write => WriteKeeps(cfg, w);
    case Receive => ReceiveKeeps(cfg, w);
    case Answer(ticket, frame) => AnswerKeeps(cfg, w, ticket, frame);
    case Say(frame) => SayKeeps(cfg, w, frame);
    case Relay =>
      if w.fromHost[0].answers.Some? {
        RelayedAnswer(cfg, w, w.fromHost[0].answers.value);
      } else if Forgets(cfg.codec, w) {
        RelayedForgetting(cfg, w);
      } else {
        RelayedSaying(cfg, w);
      }
  }

  // ----- whole runs -----

  lemma {:induction false} PrefixPossible(cfg: Config, actions: seq<Action>, n: nat)
    requires After(cfg, actions).Some? && n <= |actions|
    ensures After(cfg, actions[..n]).Some?
    decreases |actions|
  {
    if n == |actions| {
      assert actions[..n] == actions;
    } else {
      assert actions[..|actions| - 1][..n] == actions[..n];
      PrefixPossible(cfg, actions[..|actions| - 1], n);
    }
  }

  /** The world when the first `n` of a run's steps have been taken. */
  function Moment(cfg: Config, actions: seq<Action>, n: nat): World
    requires After(cfg, actions).Some? && n <= |actions|
  {
    PrefixPossible(cfg, actions, n);
    After(cfg, actions[..n]).value
  }

  ghost predicate ExactThroughout(cfg: Config, actions: seq<Action>)
    requires After(cfg, actions).Some?
  {
    forall n | 0 <= n <= |actions| :: Correlated(cfg, Moment(cfg, actions, n))
  }

  /** Step `n` relays an error that answers nothing, under an id in use. */
  predicate ForgetsAt(cfg: Config, actions: seq<Action>, n: nat)
    requires After(cfg, actions).Some? && n < |actions|
  {
    actions[n].Relay? && Forgets(cfg.codec, Moment(cfg, actions, n))
  }

  lemma MomentStep(cfg: Config, actions: seq<Action>, n: nat)
    requires After(cfg, actions).Some? && n < |actions|
    ensures Enabled(cfg, Moment(cfg, actions, n), actions[n])
    ensures Moment(cfg, actions, n + 1) == Take(cfg, Moment(cfg, actions, n), actions[n])
  {
    PrefixPossible(cfg, actions, n + 1);
    assert actions[..n + 1][..n] == actions[..n];
  }

  lemma StartExact(cfg: Config, actions: seq<Action>)
    requires After(cfg, actions).Some?
    ensures Correlated(cfg, Moment(cfg, actions, 0))
  {
    assert actions[..0] == [] && Entries(map[]) == {};
  }

  lemma MomentKeeps(cfg: Config, actions: seq<Action>, n: nat)
    requires Lawful(cfg.codec) && After(cfg, actions).Some? && n < |actions| && Correlated(cfg, Moment(cfg, actions, n))
    ensures Correlated(cfg, Moment(cfg, actions, n + 1)) <==> !ForgetsAt(cfg, actions, n)
  {
    MomentStep(cfg, actions, n);
    StepKeeps(cfg, Moment(cfg, actions, n), actions[n]);
  }

  lemma {:induction false} ExactSoFar(cfg: Config, actions: seq<Action>, n: nat)
    requires Lawful(cfg.codec) && After(cfg, actions).Some? && n <= |actions|
    requires forall m :: 0 <= m < n ==> !ForgetsAt(cfg, actions, m)
    ensures Correlated(cfg, Moment(cfg, actions, n))
    decreases n
  {
    if n == 0 {
      StartExact(cfg, actions);
    } else {
      ExactSoFar(cfg, actions, n - 1);
      MomentKeeps(cfg, actions, n - 1);
    }
  }

  /** Over every interleaving, with a host that may send errors nobody asked
      for: the table is exact at every moment if and only if no such error is
      relayed while its id is in use. */
  lemma CorrelationHolds(cfg: Config, actions: seq<Action>)
    requires Lawful(cfg.codec) && After(cfg, actions).Some?
    ensures ExactThroughout(cfg, actions) <==> forall n | 0 <= n < |actions| :: !ForgetsAt(cfg, actions, n)
  {
    if forall n | 0 <= n < |actions| :: !ForgetsAt(cfg, actions, n) {
      forall n | 0 <= n <= |actions| ensures Correlated(cfg, Moment(cfg, actions, n)) {
        ExactSoFar(cfg, actions, n);
      }
    } else {
      var n :| 0 <= n < |actions| && ForgetsAt(cfg, actions, n);
      if Correlated(cfg, Moment(cfg, actions, n)) {
        MomentKeeps(cfg, actions, n);
      }
    }
  }

  /** The relay never stops on an unknown id without such an error before. */
  lemma UnknownIdNeedsForgetting(cfg: Config, actions: seq<Action>)
    requires Lawful(cfg.codec) && After(cfg, actions).Some? && After(cfg, actions).value.halted == Some(UnknownId)
    ensures exists n | 0 <= n < |actions| :: ForgetsAt(cfg, actions, n)
  {
    CorrelationHolds(cfg, actions);
    assert actions[..|actions|] == actions;
    assert !Correlated(cfg, Moment(cfg, actions, |actions|));
  }

  /** No two requests in flight share an id, and each entry's method is the one
      its request was sent with. */
  lemma InFlightIdsDiffer(cfg: Config, w: World, a: Ticket, b: Ticket)
    requires Correlated(cfg, w) && a in InFlight(cfg.codec, w) && b in InFlight(cfg.codec, w)
    ensures a.key in w.pending && w.pending[a.key] == a.name
    ensures a.key == b.key ==> a == b && InFlight(cfg.codec, w)[a] == 1
  {
    assert a in Entries(w.pending) && b in Entries(w.pending);
  }

  // ----- a run in which it fails -----

  function Message(key: string, body: Value): Value {
    Obj(map["jsonrpc" := Str("2.0"), "id" := Num(1), key := body])
  }

  function Request(c: Codec): Bytes { EncodeFrame(c, Message("method", Str("session/list"))) }

  function Complaint(c: Codec): Bytes {
    EncodeFrame(c, Message("error", Obj(map["code" := Num(-32600), "message" := Str("Invalid Request")])))
  }

  function Success(c: Codec): Bytes { EncodeFrame(c, Message("result", Obj(map["sessions" := Arr([])]))) }

  /** Request 1 is sent, the host complains under id 1 of something else, and
      then answers request 1. */
  function ForgettingRun(c: Codec): seq<Action> {
    Forgetting(Request(c), Complaint(c), Success(c), Ticket(c.encode(Num(1)), "session/list"))
  }

  function Forgetting(request: Bytes, complaint: Bytes, success: Bytes, ticket: Ticket): seq<Action> {
    [Submit(request), Write, Say(complaint), Relay, Receive, Answer(ticket, success), Relay]
  }

  lemma RequestTicket(c: Codec)
    requires Lawful(c)
    ensures TicketOf(c, Request(c)) == Some(Ticket(c.encode(Num(1)), "session/list"))
  {
    EncodedFrameParses(c, Message("method", Str("session/list")));
    assert "method"[0] != "id"[0] && "method"[0] != "jsonrpc"[0];
  }

  lemma ResponseCorrelation(c: Codec, key: string, body: Value)
    requires Lawful(c) && key in {"error", "result"}
    ensures Correlation(c, EncodeFrame(c, Message(key, body))) == Some((c.encode(Num(1)), key == "result"))
  {
    EncodedFrameParses(c, Message(key, body));
    assert "error"[0] == 'e' && "result"[0] == 'r' && "id"[0] == 'i' && "jsonrpc"[0] == 'j' && "method"[0] == 'm';
  }

  lemma AfterStep(cfg: Config, before: seq<Action>, a: Action, w: World)
    requires After(cfg, before) == Some(w) && Enabled(cfg, w, a)
    ensures After(cfg, before + [a]) == Some(Take(cfg, w, a))
  {
    assert (before + [a])[..|before + [a]| - 1] == before;
  }

  lemma PlainRequestStaged(cfg: Config, frame: Bytes, v: Value, name: string, key: string)
    requires ParseFrame(cfg.codec, frame) == Some(v) && v.Obj? && MethodOf(v) == Some(name)
    requires ProviderField(name, v).None? && MessageKey(cfg.codec, v) == Some(key)
    ensures AdaptClient(cfg, map[], frame) == (map[key := name], Forward(frame))
  {
    assert Enter(cfg, map[], name, v) == (map[key := name], None);
  }

  lemma RequestStaged(cfg: Config)
    requires Lawful(cfg.codec)
    ensures AdaptClient(cfg, map[], Request(cfg.codec))
         == (map[cfg.codec.encode(Num(1)) := "session/list"], Forward(Request(cfg.codec)))
  {
    var v := Message("method", Str("session/list"));
    EncodedFrameParses(cfg.codec, v);
    assert ProviderField("session/list", v).None? by {
      assert "session/list"[8] == 'l' && "session/start"[8] == 's' && "session/setModel"[8] == 's';
    }
    assert "method"[0] != "id"[0] && "method"[0] != "jsonrpc"[0];
    PlainRequestStaged(cfg, Request(cfg.codec), v, "session/list", cfg.codec.encode(Num(1)));
  }

  lemma ComplaintRelayed(cfg: Config, w: World, complaint: Bytes, key: string)
    requires w.halted.None? && w.fromHost == [] && Correlation(cfg.codec, complaint) == Some((key, false))
    ensures Enabled(cfg, w, Say(complaint))
    ensures var said := Take(cfg, w, Say(complaint));
            Enabled(cfg, said, Relay) && Take(cfg, said, Relay) == w.(pending := w.pending - {key})
  {
    ErrorRemoves(cfg, w.pending, complaint, key);
    assert (w.fromHost + [Reply(complaint, None)])[1..] == w.fromHost;
  }

  lemma RequestArrives(cfg: Config, w: World, request: Bytes, key: string, name: string)
    requires w.halted.None? && w.staged.None? && w.pending == map[]
    requires AdaptClient(cfg, map[], request) == (map[key := name], Forward(request))
    ensures Enabled(cfg, w, Submit(request))
    ensures var submitted := Take(cfg, w, Submit(request));
            && Enabled(cfg, submitted, Write)
            && Take(cfg, submitted, Write) == w.(pending := map[key := name], toHost := w.toHost + [request])
  {
  }

  /** The request is sent, forgotten, and still waits at the host. */
  lemma RequestForgotten(cfg: Config, request: Bytes, complaint: Bytes, ticket: Ticket)
    requires AdaptClient(cfg, map[], request) == (map[ticket.key := ticket.name], Forward(request))
    requires Correlation(cfg.codec, complaint) == Some((ticket.key, false))
    ensures After(cfg, [] + [Submit(request)] + [Write] + [Say(complaint)] + [Relay])
         == Some(World(map[], None, START.toHost + [request], multiset{}, [], None))
  {
    RequestArrives(cfg, START, request, ticket.key, ticket.name);
    var written := START.(pending := map[ticket.key := ticket.name], toHost := START.toHost + [request]);
    AfterStep(cfg, [], Submit(request), START);
    AfterStep(cfg, [] + [Submit(request)], Write, Take(cfg, START, Submit(request)));
    ComplaintRelayed(cfg, written, complaint, ticket.key);
    AfterStep(cfg, [] + [Submit(request)] + [Write], Say(complaint), written);
    AfterStep(cfg, [] + [Submit(request)] + [Write] + [Say(complaint)], Relay, Take(cfg, written, Say(complaint)));
    assert map[ticket.key := ticket.name] - {ticket.key} == map[];
  }

  lemma HostAnswers(cfg: Config, w: World, request: Bytes, success: Bytes, ticket: Ticket)
    requires w.halted.None? && w.toHost == [request] && TicketOf(cfg.codec, request) == Some(ticket)
    requires Correlation(cfg.codec, success) == Some((ticket.key, true))
    ensures Enabled(cfg, w, Receive)
    ensures var received := Take(cfg, w, Receive);
            && Enabled(cfg, received, Answer(ticket, success))
            && Take(cfg, received, Answer(ticket, success))
               == w.(toHost := [], fromHost := w.fromHost + [Reply(success, Some(ticket))])
  {
    assert w.toHost[1..] == [];
    assert w.waiting + multiset{ticket} - multiset{ticket} == w.waiting;
  }

  /** Its result then stops the relay. */
  lemma ForgottenStops(cfg: Config, before: seq<Action>, w: World, request: Bytes, success: Bytes, ticket: Ticket)
    requires After(cfg, before) == Some(w) && w.halted.None? && w.toHost == [request] && w.fromHost == []
    requires w.pending == map[] && TicketOf(cfg.codec, request) == Some(ticket)
    requires Correlation(cfg.codec, success) == Some((ticket.key, true))
    ensures var last := After(cfg, before + [Receive] + [Answer(ticket, success)] + [Relay]);
            last.Some? && last.value.halted == Some(UnknownId)
  {
    HostAnswers(cfg, w, request, success, ticket);
    AfterStep(cfg, before, Receive, w);
    var received := Take(cfg, w, Receive);
    AfterStep(cfg, before + [Receive], Answer(ticket, success), received);
    var answered := Take(cfg, received, Answer(ticket, success));
    ServerRemoves(cfg, map[], success);
    AfterStep(cfg, before + [Receive] + [Answer(ticket, success)], Relay, answered);
  }

  /** Such frames, whatever else they hold, stop the relay. */
  lemma ForgettingStops(cfg: Config, request: Bytes, complaint: Bytes, success: Bytes, ticket: Ticket)
    requires AdaptClient(cfg, map[], request) == (map[ticket.key := ticket.name], Forward(request))
    requires TicketOf(cfg.codec, request) == Some(ticket)
    requires Correlation(cfg.codec, complaint) == Some((ticket.key, false))
    requires Correlation(cfg.codec, success) == Some((ticket.key, true))
    ensures var last := After(cfg, Forgetting(request, complaint, success, ticket));
            last.Some? && last.value.halted == Some(UnknownId)
  {
    var sent := [] + [Submit(request)] + [Write] + [Say(complaint)] + [Relay];
    RequestForgotten(cfg, request, complaint, ticket);
    ForgottenStops(cfg, sent, After(cfg, sent).value, request, success, ticket);
    RunSpelled(Submit(request), Say(complaint), Answer(ticket, success));
  }

  lemma RunSpelled(a: Action, b: Action, d: Action)
    ensures [] + [a] + [Write] + [b] + [Relay] + [Receive] + [d] + [Relay] == [a, Write, b, Relay, Receive, d, Relay]
  {
  }

  /** The relay stops on the result of a request it has forgotten. */
  lemma StrayErrorForgetsRequest(cfg: Config)
    requires Lawful(cfg.codec)
    ensures var last := After(cfg, ForgettingRun(cfg.codec));
            last.Some? && last.value.halted == Some(UnknownId)
  {
    var c := cfg.codec;
    RequestTicket(c);
    ResponseCorrelation(c, "error", Obj(map["code" := Num(-32600), "message" := Str("Invalid Request")]));
    ResponseCorrelation(c, "result", Obj(map["sessions" := Arr([])]));
    RequestStaged(cfg);
    ForgettingStops(cfg, Request(c), Complaint(c), Success(c), Ticket(c.encode(Num(1)), "session/list"));
  }
}
