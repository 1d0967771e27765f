/** A strict client of a Responses stream. It knows nothing of the synthesizer:
    it accepts an event only when the protocol allows it at that point, and
    rebuilds the response's items from what it reads. */
module Client {
  import opened Prelude
  import opened Responses

  /** How far an open item has come: announced, receiving text, its text
      complete, its part complete. */
  datatype Stage = Bare | Receiving | Said | Wrapped

  datatype OpenItem = OpenItem(added: Item, stage: Stage, text: string)

  /** `seen` holds every item index ever opened, `done` the finished items. */
  datatype View = View(
    next: nat,
    id: Option<string>,
    live: bool,
    ended: bool,
    seen: set<nat>,
    open: map<nat, OpenItem>,
    done: seq<Item>)

  const FRESH := View(0, None, false, false, {}, map[], [])

  predicate IsSuffix(a: string, b: string) {
    |a| <= |b| && b[|b| - |a|..] == a
  }

  /** An item as it may be announced: unfinished and empty. */
  predicate Empty(item: Item) {
    match item
    case Reasoning(_, summary) => summary == []
    case Message(_, done, content) => !done && content == []
    case FunctionCall(_, done, _, _, arguments) => !done && arguments == ""
    case CustomCall(_, done, _, _, input) => !done && input == ""
  }

  predicate TextItem(item: Item) { item.Reasoning? || item.Message? }

  /** The finished form of an announced item once its text is known. */
  function Finish(item: Item, text: string): Item {
    match item
    case Reasoning(id, _) => Reasoning(id, [text])
    case Message(id, _, _) => Message(id, true, [text])
    case FunctionCall(id, _, callId, name, _) => FunctionCall(id, true, callId, name, text)
    case CustomCall(id, _, callId, name, _) => CustomCall(id, true, callId, name, text)
  }

  predicate At(v: View, index: nat, id: string, stage: Stage) {
    index in v.open && v.open[index].stage == stage && v.open[index].added.id == id
  }

  function Update(v: View, index: nat, stage: Stage, text: string): View
    requires index in v.open
  {
    v.(open := v.open[index := v.open[index].(stage := stage, text := text)])
  }

  function Add(v: View, index: nat, item: Item): Option<View> {
    if index in v.seen || !Empty(item) then None
    else Some(v.(seen := v.seen + {index},
                 open := v.open[index := OpenItem(item, if TextItem(item) then Bare else Receiving, "")]))
  }

  /** Only an item whose last stage is complete may close, and as announced. */
  function Close(v: View, index: nat, item: Item): Option<View> {
    if index in v.open
       && v.open[index].stage == (if TextItem(item) then Wrapped else Said)
       && item == Finish(v.open[index].added, v.open[index].text)
    then Some(v.(open := v.open - {index}, done := v.done + [item]))
    else None
  }

  function Open(v: View, index: nat, id: string, reasoning: bool): Option<View> {
    if At(v, index, id, Bare) && v.open[index].added.Reasoning? == reasoning
    then Some(Update(v, index, Receiving, "")) else None
  }

  predicate Receives(item: Item, body: Body) {
    match body
    case SummaryDelta(_, _, _) => item.Reasoning?
    case TextDelta(_, _, _) => item.Message?
    case ArgumentsDelta(_, _, _) => item.FunctionCall?
    case InputDelta(_, _, _) => item.CustomCall?
    case _ => false
  }

  function Extend(v: View, index: nat, id: string, delta: string, body: Body): Option<View> {
    if At(v, index, id, Receiving) && Receives(v.open[index].added, body)
    then Some(Update(v, index, Receiving, v.open[index].text + delta)) else None
  }

  /** The full text must repeat what was received; function arguments may have
      begun before the call was announced, so there the received part must be
      their end. */
  function Say(v: View, index: nat, id: string, text: string, kindFits: bool): Option<View> {
    if At(v, index, id, Receiving) && kindFits
       && (if v.open[index].added.FunctionCall? then IsSuffix(v.open[index].text, text)
           else text == v.open[index].text)
    then Some(Update(v, index, Said, text)) else None
  }

  function Wrap(v: View, index: nat, id: string, text: string, reasoning: bool): Option<View> {
    if At(v, index, id, Said) && v.open[index].added.Reasoning? == reasoning && TextItem(v.open[index].added)
       && text == v.open[index].text
    then Some(Update(v, index, Wrapped, text)) else None
  }

  /** A response identifier every reader of the protocol accepts. */
  predicate GoodId(id: string) { id != "" && |id| <= 512 && Graphic(id) }

  function Conclude(v: View, response: Envelope, status: Status): Option<View> {
    if v.open == map[] && v.id == Some(response.id) && response.status == status && response.output == v.done
    then Some(v.(ended := true)) else None
  }

  function Act(v: View, body: Body): Option<View> {
    match body
    case Created(r) =>
      if v.id.None? && GoodId(r.id) && r.output == [] && r.status == Running then Some(v.(id := Some(r.id))) else None
    case InProgress(r) =>
      if !v.live && v.id == Some(r.id) && r.output == [] && r.status == Running then Some(v.(live := true)) else None
    case Error(_, id) =>
      if (v.id.None? || v.live) && id == v.id then Some(v.(ended := true)) else None
    case Completed(r) => if v.live then Conclude(v, r, Finished) else None
    case Incomplete(r) => if v.live then Conclude(v, r, Truncated) else None
    case ItemAdded(i, item) => if v.live then Add(v, i, item) else None
    case ItemDone(i, item) => Close(v, i, item)
    case SummaryPartAdded(id, i) => Open(v, i, id, true)
    case ContentPartAdded(id, i) => if i in v.open && v.open[i].added.Message? then Open(v, i, id, false) else None
    case SummaryDelta(id, i, d) => Extend(v, i, id, d, body)
    case TextDelta(id, i, d) => Extend(v, i, id, d, body)
    case ArgumentsDelta(id, i, d) => Extend(v, i, id, d, body)
    case InputDelta(id, i, d) => Extend(v, i, id, d, body)
    case SummaryDone(id, i, t) => Say(v, i, id, t, i in v.open && v.open[i].added.Reasoning?)
    case TextDone(id, i, t) => Say(v, i, id, t, i in v.open && v.open[i].added.Message?)
    case ArgumentsDone(id, i, t) => Say(v, i, id, t, i in v.open && v.open[i].added.FunctionCall?)
    case InputDone(id, i, t) => Say(v, i, id, t, i in v.open && v.open[i].added.CustomCall?)
    case SummaryPartDone(id, i, t) => Wrap(v, i, id, t, true)
    case ContentPartDone(id, i, t) => Wrap(v, i, id, t, false)
  }

  /** One event: sequence numbers count up from zero, and nothing follows the
      end. */
  function Step(v: View, e: Event): Option<View> {
    if v.ended || e.sequence != v.next then None
    else
      match Act(v, e.body)
      case None => None
      case Some(w) => Some(w.(next := v.next + 1))
  }

  /** What the client holds after a stream, if it accepts all of it. */
  function Replay(events: seq<Event>): Option<View> {
    if events == [] then Some(FRESH)
    else
      match Replay(events[..|events| - 1])
      case None => None
      case Some(v) => Step(v, events[|events| - 1])
  }

  lemma ReplayStep(events: seq<Event>, e: Event)
    ensures Replay(events + [e])
         == (match Replay(events)
             case None => None
             case Some(v) => Step(v, e))
  {
    assert (events + [e])[..|events|] == events;
  }

  // ----- what acceptance means -----

  lemma {:induction false} AcceptedPrefix(events: seq<Event>, n: nat)
    requires n <= |events| && Replay(events).Some?
    ensures Replay(events[..n]).Some?
    decreases |events|
  {
    if n == |events| {
      assert events[..n] == events;
    } else {
      AcceptedPrefix(events[..|events| - 1], n);
      assert events[..|events| - 1][..n] == events[..n];
    }
  }

  lemma {:induction false} ViewCounts(events: seq<Event>)
    requires Replay(events).Some?
    ensures Replay(events).value.next == |events|
  {
    if events != [] {
      AcceptedPrefix(events, |events| - 1);
      ViewCounts(events[..|events| - 1]);
    }
  }

  lemma NothingAfterEnd(events: seq<Event>, n: nat)
    requires n <= |events| && Replay(events).Some?
    ensures Replay(events[..n]).Some? && (Replay(events[..n]).value.ended ==> n == |events|)
  {
    AcceptedPrefix(events, n);
    if n < |events| {
      AcceptedPrefix(events, n + 1);
      assert events[..n + 1][..n] == events[..n];
    }
  }

  /** The i-th accepted event is numbered i, and only the last one can end the
      stream. */
  lemma AcceptedEvents(events: seq<Event>, i: nat)
    requires i < |events| && Replay(events).Some?
    ensures events[i].sequence == i
    ensures Ending(events[i].body) ==> i == |events| - 1
  {
    AcceptedPrefix(events, i);
    ViewCounts(events[..i]);
    NothingAfterEnd(events, i + 1);
    assert events[..i + 1][..i] == events[..i];
  }

  lemma EndedByEnding(events: seq<Event>)
    requires Replay(events).Some? && Replay(events).value.ended
    ensures events != [] && Ending(events[|events| - 1].body)
  {
    AcceptedPrefix(events, |events| - 1);
    NothingAfterEnd(events, |events| - 1);
    assert events[..|events| - 1] == events[..|events| - 1];
  }

  lemma EndedByLast(events: seq<Event>)
    requires Replay(events).Some? && events != [] && Ending(events[|events| - 1].body)
    ensures Replay(events).value.ended
  {
    AcceptedPrefix(events, |events| - 1);
  }

  /** How an accepted stream may begin. */
  lemma Opening(events: seq<Event>)
    requires Replay(events).Some? && Replay(events).value.ended
    ensures |events| == 1 ==> events[0].body.Error? && events[0].body.responseId.None?
    ensures |events| > 1 ==> |events| > 2 && events[0].body.Created? && events[1].body.InProgress?
  {
    EndedByEnding(events);
    AcceptedPrefix(events, 1);
    assert events[..1][..0] == [];
    assert Replay(events[..1]) == Step(FRESH, events[0]);
    if |events| == 1 {
      assert events[..1] == events;
    } else {
      NothingAfterEnd(events, 1);
      AcceptedPrefix(events, 2);
      assert events[..2][..1] == events[..1];
      assert Replay(events[..2]) == Step(Replay(events[..1]).value, events[1]);
    }
  }

  // ----- item lifetimes -----

  predicate Adds(body: Body, i: nat) { body.ItemAdded? && body.index == i }

  predicate Closes(body: Body, i: nat) { body.ItemDone? && body.index == i }

  function AddedTimes(events: seq<Event>, i: nat): nat {
    if events == [] then 0
    else AddedTimes(events[..|events| - 1], i) + if Adds(events[|events| - 1].body, i) then 1 else 0
  }

  function DoneTimes(events: seq<Event>, i: nat): nat {
    if events == [] then 0
    else DoneTimes(events[..|events| - 1], i) + if Closes(events[|events| - 1].body, i) then 1 else 0
  }

  /** The finished items in the order their `done` events came. */
  function DoneItems(events: seq<Event>): seq<Item> {
    if events == [] then []
    else DoneItems(events[..|events| - 1])
         + if events[|events| - 1].body.ItemDone? then [events[|events| - 1].body.item] else []
  }

  lemma ActOnItem(v: View, body: Body, i: nat)
    requires Act(v, body).Some? && (i in v.open ==> i in v.seen)
    ensures var w := Act(v, body).value;
            && (i in w.seen <==> i in v.seen || Adds(body, i))
            && (i in w.open <==> (i in v.open || Adds(body, i)) && !Closes(body, i))
            && (Adds(body, i) ==> i !in v.seen) && (Closes(body, i) ==> i in v.open)
            && w.done == v.done + if body.ItemDone? then [body.item] else []
  {
  }

  lemma {:induction false} Lifetimes(events: seq<Event>, i: nat)
    requires Replay(events).Some?
    ensures var v := Replay(events).value;
            && (i in v.open ==> i in v.seen)
            && AddedTimes(events, i) == (if i in v.seen then 1 else 0)
            && DoneTimes(events, i) == (if i in v.seen && i !in v.open then 1 else 0)
            && DoneItems(events) == v.done
  {
    if events != [] {
      var before := events[..|events| - 1];
      AcceptedPrefix(events, |events| - 1);
      Lifetimes(before, i);
      ActOnItem(Replay(before).value, events[|events| - 1].body, i);
    }
  }

  ghost predicate WasAdded(events: seq<Event>, i: nat, item: Item) {
    exists k :: 0 <= k < |events| && events[k].body == ItemAdded(i, item)
  }

  lemma {:induction false} OpenWasAdded(events: seq<Event>, i: nat)
    requires Replay(events).Some? && i in Replay(events).value.open
    ensures WasAdded(events, i, Replay(events).value.open[i].added)
  {
    var n := |events| - 1;
    var before := events[..n];
    AcceptedPrefix(events, n);
    var w := Replay(events).value;
    if events[n].body == ItemAdded(i, w.open[i].added) {
    } else {
      var v := Replay(before).value;
      assert Step(v, events[n]) == Some(w);
      assert i in v.open && v.open[i].added == w.open[i].added;
      OpenWasAdded(before, i);
      var k :| 0 <= k < |before| && before[k].body == ItemAdded(i, v.open[i].added);
      assert events[k].body == ItemAdded(i, v.open[i].added);
    }
  }

  lemma CloseFits(v: View, i: nat, item: Item)
    requires Act(v, ItemDone(i, item)).Some?
    ensures i in v.open && v.open[i].added.id == item.id
  {
  }

  /** A `done` item was announced before, under the same index and id. */
  lemma DoneWasAdded(events: seq<Event>, k: nat, i: nat, item: Item)
    requires Replay(events).Some? && k < |events| && events[k].body == ItemDone(i, item)
    ensures exists added :: WasAdded(events[..k], i, added) && added.id == item.id
  {
    var before := events[..k];
    AcceptedPrefix(events, k + 1);
    AcceptedPrefix(events, k);
    assert events[..k + 1] == before + [events[k]];
    ReplayStep(before, events[k]);
    CloseFits(Replay(before).value, i, item);
    OpenWasAdded(before, i);
    assert WasAdded(before, i, Replay(before).value.open[i].added);
  }

  /** In a completed stream every announced item is finished exactly once, and
      the response's `output` is the list of finished items. */
  lemma CompletedStream(events: seq<Event>, response: Envelope, i: nat)
    requires Replay(events).Some? && events != []
    requires events[|events| - 1].body == Completed(response) || events[|events| - 1].body == Incomplete(response)
    ensures AddedTimes(events, i) == DoneTimes(events, i) <= 1
    ensures response.output == DoneItems(events) == Replay(events).value.done
  {
    Lifetimes(events, i);
    AcceptedPrefix(events, |events| - 1);
  }
}
