/**
  The append-only event log of an operation: numbered lines, a writer that may
  be cut off anywhere and restarted, and a client that polls with a cursor.

  A line is readable when it is one complete JSON event. An event whose text
  contains a line separator other than the newline falls apart when the file is
  split into lines, and is never readable. A file that ends, or ever ended,
  inside a character of several bytes cannot be decoded at all: every reading
  of it raises.
*/
module EventStore {
  import opened Text

  datatype Event = Event(sequence: int, payload: string)

  datatype Line = Readable(event: Event) | Broken

  // What stands after the last line end: nothing, a whole event that only
  // lacks its newline, or an unreadable piece.
  datatype Tail = NoTail | Whole(event: Event) | Piece

  // How much of an appended line reached the file. `CutAtSeparator` is a cut
  // right behind a separator inside the event's text, `CutInCharacter` one
  // between the bytes of a character.
  datatype Written = Complete | AllButNewline | Partial | Nothing | CutAtSeparator | CutInCharacter

  datatype Log = Log(lines: seq<Line>, tail: Tail, decodable: bool, counter: Option<int>)

  // ----- Reading -----

  function EventsOf(lines: seq<Line>): seq<Event> {
    if lines == [] then []
    else
      var n := |lines| - 1;
      EventsOf(lines[..n]) + (if lines[n].Readable? then [lines[n].event] else [])
  }

  // All readable events in file order.
  function ReadRaw(log: Log): seq<Event> {
    EventsOf(log.lines) + (if log.tail.Whole? then [log.tail.event] else [])
  }

  // What reading the file yields; None where it raises.
  function Read(log: Log): Option<seq<Event>> {
    if log.decodable then Some(ReadRaw(log)) else None
  }

  function After(events: seq<Event>, cursor: int): seq<Event> {
    if events == [] then []
    else
      var n := |events| - 1;
      After(events[..n], cursor) + (if events[n].sequence > cursor then [events[n]] else [])
  }

  function Take(events: seq<Event>, limit: nat): seq<Event> {
    if |events| <= limit then events else events[..limit]
  }

  function ReadFrom(log: Log, cursor: int, limit: nat): Option<seq<Event>> {
    if log.decodable then Some(Take(After(ReadRaw(log), cursor), limit)) else None
  }

  function Latest(events: seq<Event>): int {
    if events == [] then 0 else events[|events| - 1].sequence
  }

  // ----- Appending -----

  // The number of the next event. With no counter yet it takes a reading.
  function NextNumber(log: Log): Option<int> {
    match log.counter
    case Some(n) => Some(n)
    case None => if log.decodable then Some(Latest(ReadRaw(log)) + 1) else None
  }

  // What the file looks like once a line was written, fully or in part. The
  // line continues whatever tail there is.
  function Write(lines: seq<Line>, tail: Tail, event: Event, clean: bool, written: Written): (seq<Line>, Tail) {
    match written
    case Nothing => (lines, tail)
    case Complete => (lines + [if tail.NoTail? && clean then Readable(event) else Broken], NoTail)
    case AllButNewline => (lines, if tail.NoTail? && clean then Whole(event) else Piece)
    case Partial => (lines, Piece)
    case CutAtSeparator => if clean then (lines, Piece) else (lines + [Broken], NoTail)
    case CutInCharacter => (lines, Piece)
  }

  // An append that cannot determine its number raises and writes nothing.
  function AppendSpec(log: Log, payload: string, clean: bool, written: Written): Log {
    var number := NextNumber(log);
    if number.None? then log
    else
      var (lines, tail) := Write(log.lines, log.tail, Event(number.value, payload), clean, written);
      Log(lines, tail, log.decodable && written != CutInCharacter, Some(number.value + 1))
  }

  function RestartSpec(log: Log): Log {
    log.(counter := None)
  }

  // ----- The store -----

  class Store {
    var lines: seq<Line>
    var tail: Tail
    var decodable: bool
    var counter: Option<int>

    constructor ()
      ensures View() == Log([], NoTail, true, None)
    {
      lines, tail, decodable, counter := [], NoTail, true, None;
    }

    function View(): Log
      reads this
    {
      Log(lines, tail, decodable, counter)
    }

    // On first use the counter starts after the last readable event. None
    // where the reading this takes raises.
    method NextSequence() returns (number: Option<int>)
      modifies this`counter
      ensures number == NextNumber(old(View()))
      ensures counter == if number.Some? then Some(number.value + 1) else old(counter)
    {
      if counter.None? {
        var events := ReadAll();
        if events.None? {
          return None;
        }
        counter := Some(if events.value != [] then events.value[|events.value| - 1].sequence + 1 else 1);
      }
      number := counter;
      counter := Some(number.value + 1);
    }

    method Append(payload: string, clean: bool, written: Written) returns (event: Option<Event>)
      modifies this
      ensures event == match NextNumber(old(View())) case Some(n) => Some(Event(n, payload)) case None => None
      ensures View() == AppendSpec(old(View()), payload, clean, written)
    {
      var number := NextSequence();
      if number.None? {
        return None;
      }
      event := Some(Event(number.value, payload));
      var file := Write(lines, tail, event.value, clean, written);
      lines, tail := file.0, file.1;
      decodable := decodable && written != CutInCharacter;
    }

    method Restart()
      modifies this`counter
      ensures View() == RestartSpec(old(View()))
    {
      counter := None;
    }

    method ReadAll() returns (events: Option<seq<Event>>)
      ensures events == Read(View())
    {
      if !decodable {
        return None;
      }
      var found := [];
      for i := 0 to |lines|
        invariant found == EventsOf(lines[..i])
      {
        assert lines[..i + 1][..i] == lines[..i];
        if lines[i].Readable? {
          found := found + [lines[i].event];
        }
      }
      assert lines[..|lines|] == lines;
      if tail.Whole? {
        found := found + [tail.event];
      } else {
        assert found == EventsOf(lines) + [];
      }
      events := Some(found);
    }

    method ReadAfter(cursor: int, limit: nat) returns (events: Option<seq<Event>>)
      ensures events == ReadFrom(View(), cursor, limit)
    {
      var read := ReadAll();
      if read.None? {
        return None;
      }
      var all, filtered := read.value, [];
      for i := 0 to |all|
        invariant filtered == After(all[..i], cursor)
      {
        assert all[..i + 1][..i] == all[..i];
        if all[i].sequence > cursor {
          filtered := filtered + [all[i]];
        }
      }
      assert all[..|all|] == all;
      events := Some(if |filtered| <= limit then filtered else filtered[..limit]);
    }

    // One request of a polling client: the events and its next cursor.
    method Poll(cursor: int, limit: nat) returns (events: Option<seq<Event>>, next: int)
      ensures events == ReadFrom(View(), cursor, limit)
      ensures next == if events == None || events == Some([]) then cursor else Latest(events.value)
    {
      events := ReadAfter(cursor, limit);
      next := cursor;
      if events.Some? && events.value != [] {
        next := events.value[|events.value| - 1].sequence;
      }
    }
  }

  // ----- Numbers only grow -----

  ghost predicate Ascending(events: seq<Event>) {
    && (forall i, j :: 0 <= i < j < |events| ==> events[i].sequence < events[j].sequence)
    && (forall i :: 0 <= i < |events| ==> events[i].sequence >= 1)
  }

  // If the file can be read, readable numbers ascend and the counter is beyond
  // all of them.
  ghost predicate Numbered(log: Log) {
    log.decodable ==> Ascending(ReadRaw(log)) && Latest(ReadRaw(log)) < NextNumber(log).value
  }

  lemma AscendingNext(events: seq<Event>, e: Event)
    requires Ascending(events) && Latest(events) < e.sequence
    ensures Ascending(events + [e]) && Latest(events + [e]) == e.sequence
  {
    if events != [] {
      assert forall i :: 0 <= i < |events| ==> events[i].sequence <= Latest(events);
    }
  }

  lemma AscendingPrefix(events: seq<Event>, n: nat)
    requires Ascending(events) && n <= |events|
    ensures Ascending(events[..n]) && Latest(events[..n]) <= Latest(events)
  {
  }

  // A write adds its event to the readable ones, leaves them, or takes the
  // unterminated one away.
  lemma WriteReads(log: Log, event: Event, clean: bool, written: Written)
    ensures var (lines, tail) := Write(log.lines, log.tail, event, clean, written);
      var before, after := ReadRaw(log), ReadRaw(Log(lines, tail, true, log.counter));
      if log.tail.Whole? && written != Nothing then before == after + [log.tail.event]
      else if log.tail.NoTail? && clean && (written == Complete || written == AllButNewline) then after == before + [event]
      else after == before
  {
    var (lines, tail) := Write(log.lines, log.tail, event, clean, written);
    if |lines| > |log.lines| {
      assert lines[..|log.lines|] == log.lines;
    }
  }

  // How an append changes what the lines and the tail hold.
  lemma AppendReads(log: Log, payload: string, clean: bool, written: Written)
    requires log.decodable
    ensures var event := Event(NextNumber(log).value, payload);
      var (before, after) := (ReadRaw(log), ReadRaw(AppendSpec(log, payload, clean, written)));
      if log.tail.Whole? && written != Nothing then before == after + [log.tail.event]
      else if log.tail.NoTail? && clean && (written == Complete || written == AllButNewline) then after == before + [event]
      else after == before
  {
    WriteReads(log, Event(NextNumber(log).value, payload), clean, written);
  }

  lemma AppendKeepsNumbered(log: Log, payload: string, clean: bool, written: Written)
    requires Numbered(log)
    ensures Numbered(AppendSpec(log, payload, clean, written))
  {
    if log.decodable {
      var event, before := Event(NextNumber(log).value, payload), ReadRaw(log);
      AppendReads(log, payload, clean, written);
      var after := ReadRaw(AppendSpec(log, payload, clean, written));
      if after == before + [event] {
        AscendingNext(before, event);
      } else if after != before {
        AscendingPrefix(before, |after|);
        assert before[..|after|] == after;
      }
    }
  }

  datatype Step = Append(payload: string, clean: bool, written: Written) | Restart

  function Apply(log: Log, step: Step): Log {
    match step
    case Append(payload, clean, written) => AppendSpec(log, payload, clean, written)
    case Restart => RestartSpec(log)
  }

  function Run(steps: seq<Step>): Log {
    if steps == [] then Log([], NoTail, true, None) else Apply(Run(steps[..|steps| - 1]), steps[|steps| - 1])
  }

  // After any mix of appends, cut-off writes and restarts the readable numbers
  // are strictly increasing in file order.
  lemma {:induction false} AlwaysAscending(steps: seq<Step>)
    ensures Numbered(Run(steps))
  {
    if steps != [] {
      var n := |steps| - 1;
      AlwaysAscending(steps[..n]);
      if steps[n].Append? {
        AppendKeepsNumbered(Run(steps[..n]), steps[n].payload, steps[n].clean, steps[n].written);
      }
    }
  }

  // The numbers of one lifetime of the writer are consecutive, whatever becomes
  // of the events; the first is one more than that of the last readable event,
  // and there is none if the file cannot be read.
  lemma NumbersConsecutive(log: Log, payload: string, clean: bool, written: Written)
    ensures NextNumber(log).Some? ==>
      NextNumber(AppendSpec(log, payload, clean, written)) == Some(NextNumber(log).value + 1)
    ensures NextNumber(RestartSpec(log)) ==
      if !log.decodable then None
      else if ReadRaw(log) == [] then Some(1)
      else Some(ReadRaw(log)[|ReadRaw(log)| - 1].sequence + 1)
    ensures NextNumber(log).None? ==> AppendSpec(log, payload, clean, written) == log
  {
  }

  // ----- Which events can be read -----

  // The step changes the file, and leaves it at the start of a line.
  predicate Writes(step: Step) {
    step.Append? && step.written != Nothing
  }

  predicate EndsItsLine(step: Step) {
    step.Append? && (step.written == Complete || (step.written == CutAtSeparator && !step.clean))
  }

  // Step i is the last one to change the file.
  ghost predicate LastWrite(steps: seq<Step>, i: int) {
    0 <= i < |steps| && Writes(steps[i]) && forall j :: i < j < |steps| ==> !Writes(steps[j])
  }

  // The next append starts a line of its own.
  ghost predicate AtLineStart(steps: seq<Step>) {
    forall i :: LastWrite(steps, i) ==> EndsItsLine(steps[i])
  }

  // The payloads of the appends that were written completely, in one line,
  // while the file stood at the start of a line.
  ghost function Kept(steps: seq<Step>): seq<string> {
    if steps == [] then []
    else
      var earlier, last := steps[..|steps| - 1], steps[|steps| - 1];
      Kept(earlier) + (if last.Append? && last.written == Complete && last.clean && AtLineStart(earlier) then [last.payload] else [])
  }

  // The last append only lost its newline, and would be readable with it.
  ghost predicate Unterminated(steps: seq<Step>, payload: string) {
    exists i :: LastWrite(steps, i) && steps[i].written == AllButNewline && steps[i].clean && steps[i].payload == payload
      && AtLineStart(steps[..i])
  }

  function Payloads(events: seq<Event>): seq<string> {
    seq(|events|, i requires 0 <= i < |events| => events[i].payload)
  }

  lemma LastWriteNext(earlier: seq<Step>, last: Step, i: int)
    ensures LastWrite(earlier + [last], i) <==> if Writes(last) then i == |earlier| else LastWrite(earlier, i)
  {
    var steps := earlier + [last];
    assert steps[|earlier|] == last;
    if LastWrite(steps, i) && !Writes(last) {
      assert i < |earlier|;
      forall j | i < j < |earlier| ensures !Writes(earlier[j]) {
        assert steps[j] == earlier[j];
      }
    }
  }

  lemma AtLineStartNext(earlier: seq<Step>, last: Step)
    ensures AtLineStart(earlier + [last]) <==> if Writes(last) then EndsItsLine(last) else AtLineStart(earlier)
  {
    var steps := earlier + [last];
    LastWriteNext(earlier, last, |earlier|);
    forall i | 0 <= i < |earlier| ensures steps[i] == earlier[i] && (LastWrite(steps, i) <==> !Writes(last) && LastWrite(earlier, i)) {
      LastWriteNext(earlier, last, i);
    }
    assert steps[|earlier|] == last;
  }

  lemma UnterminatedNext(earlier: seq<Step>, last: Step, payload: string)
    ensures Unterminated(earlier + [last], payload) <==>
      if Writes(last) then last.written == AllButNewline && last.clean && last.payload == payload && AtLineStart(earlier)
      else Unterminated(earlier, payload)
  {
    var steps := earlier + [last];
    forall i ensures LastWrite(steps, i) <==> if Writes(last) then i == |earlier| else LastWrite(earlier, i) {
      LastWriteNext(earlier, last, i);
    }
    assert steps[..|earlier|] == earlier;
    assert forall i :: LastWrite(earlier, i) ==> steps[i] == earlier[i] && steps[..i] == earlier[..i];
  }

  // What the lines and the tail of the file hold, told by the steps alone.
  ghost predicate Holds(log: Log, steps: seq<Step>) {
    && log.decodable
    && Payloads(EventsOf(log.lines)) == Kept(steps)
    && (log.tail.NoTail? <==> AtLineStart(steps))
    && (forall p :: Unterminated(steps, p) <==> log.tail.Whole? && log.tail.event.payload == p)
  }

  lemma HoldsNext(log: Log, earlier: seq<Step>, last: Step)
    requires Holds(log, earlier) && (last.Append? ==> last.written != CutInCharacter)
    ensures Holds(Apply(log, last), earlier + [last])
  {
    var steps, next := earlier + [last], Apply(log, last);
    assert steps[..|earlier|] == earlier;
    AtLineStartNext(earlier, last);
    forall p ensures Unterminated(steps, p) <==>
      if Writes(last) then last.written == AllButNewline && last.clean && last.payload == p && AtLineStart(earlier)
      else Unterminated(earlier, p)
    {
      UnterminatedNext(earlier, last, p);
    }
    if Writes(last) {
      LinesGrow(log, last);
    }
  }

  // The readable lines an append adds.
  lemma LinesGrow(log: Log, step: Step)
    requires log.decodable && Writes(step)
    ensures var next := Apply(log, step);
      Payloads(EventsOf(next.lines)) == Payloads(EventsOf(log.lines))
        + (if step.written == Complete && step.clean && log.tail.NoTail? then [step.payload] else [])
  {
    var next := Apply(log, step);
    if |next.lines| > |log.lines| {
      assert next.lines[..|log.lines|] == log.lines;
    }
  }

  lemma {:induction false} RunHolds(steps: seq<Step>)
    requires forall i :: 0 <= i < |steps| && steps[i].Append? ==> steps[i].written != CutInCharacter
    ensures Holds(Run(steps), steps)
  {
    if steps != [] {
      var n := |steps| - 1;
      RunHolds(steps[..n]);
      HoldsNext(Run(steps[..n]), steps[..n], steps[n]);
      assert steps[..n] + [steps[n]] == steps;
    }
  }

  // What reading the file yields after any steps: nothing but an error once a
  // write was cut off inside a character; otherwise the events appended
  // completely, in one line, at the start of a line, and at the end one that
  // only lacks its newline.
  lemma ReadsExactly(steps: seq<Step>)
    ensures Read(Run(steps)).None? <==> exists i :: 0 <= i < |steps| && steps[i].Append? && steps[i].written == CutInCharacter
    ensures Read(Run(steps)).Some? ==>
      var payloads := Payloads(Read(Run(steps)).value);
      || (payloads == Kept(steps) && forall p :: !Unterminated(steps, p))
      || (exists p :: Unterminated(steps, p) && payloads == Kept(steps) + [p])
  {
    if i :| 0 <= i < |steps| && steps[i].Append? && steps[i].written == CutInCharacter {
      CutIsForGood(steps, i);
    } else {
      RunHolds(steps);
      var log := Run(steps);
      if log.tail.Whole? {
        assert Payloads(ReadRaw(log)) == Kept(steps) + [log.tail.event.payload];
        assert Unterminated(steps, log.tail.event.payload);
      } else {
        assert ReadRaw(log) == EventsOf(log.lines);
      }
    }
  }

  lemma {:induction false} CutIsForGood(steps: seq<Step>, i: nat)
    requires i < |steps| && steps[i].Append? && steps[i].written == CutInCharacter
    ensures !Run(steps).decodable
  {
    var n := |steps| - 1;
    if i < n {
      CutIsForGood(steps[..n], i);
    }
  }

  // ----- Polling -----

  datatype Client = Client(cursor: int, delivered: seq<Event>)

  // A poll of a file that cannot be read raises and delivers nothing.
  function PollSpec(log: Log, client: Client, limit: nat): Client {
    match ReadFrom(log, client.cursor, limit)
    case None => client
    case Some(events) => Client(if events == [] then client.cursor else Latest(events), client.delivered + events)
  }

  // The file can be read, and the client has been given exactly the first so
  // many readable events.
  ghost predicate UpToDate(log: Log, client: Client) {
    log.decodable && client.delivered <= ReadRaw(log) && client.cursor == Latest(client.delivered)
  }

  lemma {:induction false} NothingAfter(events: seq<Event>, cursor: int)
    requires forall i :: 0 <= i < |events| ==> events[i].sequence <= cursor
    ensures After(events, cursor) == []
  {
    if events != [] {
      NothingAfter(events[..|events| - 1], cursor);
    }
  }

  lemma {:induction false} AfterIsSuffix(events: seq<Event>, k: nat, cursor: int)
    requires k <= |events|
    requires forall i :: 0 <= i < k ==> events[i].sequence <= cursor
    requires forall i :: k <= i < |events| ==> events[i].sequence > cursor
    ensures After(events, cursor) == events[k..]
  {
    if k == |events| {
      NothingAfter(events, cursor);
    } else {
      var n := |events| - 1;
      AfterIsSuffix(events[..n], k, cursor);
      assert events[k..] == events[..n][k..] + [events[n]];
    }
  }

  // The number of the k-th event lies between the first k events and the rest.
  lemma CursorAt(events: seq<Event>, k: nat) returns (cursor: int)
    requires Ascending(events) && k <= |events|
    ensures cursor == Latest(events[..k])
    ensures forall i :: 0 <= i < k ==> events[i].sequence <= cursor
    ensures forall i :: k <= i < |events| ==> events[i].sequence > cursor
  {
    cursor := if k == 0 then 0 else events[k - 1].sequence;
  }

  lemma AfterSplits(events: seq<Event>, k: nat)
    requires Ascending(events) && k <= |events|
    ensures After(events, Latest(events[..k])) == events[k..]
  {
    var cursor := CursorAt(events, k);
    AfterIsSuffix(events, k, cursor);
  }

  function Upto(k: nat, limit: nat, n: nat): nat {
    if k + limit <= n then k + limit else n
  }

  lemma TakeRest(all: seq<Event>, k: nat, limit: nat)
    requires k <= |all|
    ensures all[..k] + Take(all[k..], limit) == all[..Upto(k, limit, |all|)]
    ensures var taken := Take(all[k..], limit); taken != [] ==> Latest(taken) == Latest(all[..Upto(k, limit, |all|)])
    ensures var taken := Take(all[k..], limit); taken == [] ==> all[..k] == all[..Upto(k, limit, |all|)]
  {
    var upto := Upto(k, limit, |all|);
    assert Take(all[k..], limit) == all[k..upto];
  }

  // A poll hands over the next events, as many as the limit allows, and
  // nothing twice.
  lemma PollAdvances(log: Log, client: Client, limit: nat)
    requires Numbered(log) && UpToDate(log, client)
    ensures UpToDate(log, PollSpec(log, client, limit))
    ensures PollSpec(log, client, limit).delivered == ReadRaw(log)[..Upto(|client.delivered|, limit, |ReadRaw(log)|)]
  {
    var k, all := |client.delivered|, ReadRaw(log);
    assert client.delivered == all[..k];
    AfterSplits(all, k);
    TakeRest(all, k, limit);
  }

  // The file can still be read, and its readable events only grew at the end.
  ghost predicate Grows(before: Log, after: Log) {
    after.decodable && ReadRaw(before) <= ReadRaw(after)
  }

  // An append keeps what was readable exactly when it is not cut off inside a
  // character and does not write behind an event that lost its newline.
  lemma AppendGrowsExactly(log: Log, payload: string, clean: bool, written: Written)
    requires log.decodable
    ensures Grows(log, AppendSpec(log, payload, clean, written)) <==>
      written != CutInCharacter && !(log.tail.Whole? && written != Nothing)
  {
    AppendReads(log, payload, clean, written);
  }

  // Sessions: steps of the writer interleaved with polls.
  datatype Action = Writer(step: Step) | Poll(limit: nat)

  datatype Session = Session(log: Log, client: Client)

  function Act(s: Session, action: Action): Session {
    match action
    case Writer(step) => Session(Apply(s.log, step), s.client)
    case Poll(limit) => Session(s.log, PollSpec(s.log, s.client, limit))
  }

  function Play(actions: seq<Action>): Session {
    if actions == [] then Session(Log([], NoTail, true, None), Client(0, []))
    else Act(Play(actions[..|actions| - 1]), actions[|actions| - 1])
  }

  // The writer is about to lose what the client relies on: its write is cut
  // off inside a character, or destroys an event that lost its newline and that
  // the client has already received.
  ghost predicate Loses(s: Session, action: Action) {
    && action.Writer? && action.step.Append?
    && (action.step.written == CutInCharacter
        || (action.step.written != Nothing && s.log.tail.Whole? && s.client.delivered == ReadRaw(s.log)))
  }

  lemma {:induction false} PlayNumbered(actions: seq<Action>)
    ensures Numbered(Play(actions).log)
  {
    if actions != [] {
      var n := |actions| - 1;
      PlayNumbered(actions[..n]);
      if actions[n].Writer? && actions[n].step.Append? {
        var step := actions[n].step;
        AppendKeepsNumbered(Play(actions[..n]).log, step.payload, step.clean, step.written);
      }
    }
  }

  // One action keeps the client up to date exactly when it loses nothing.
  lemma ActUpToDate(s: Session, action: Action)
    requires Numbered(s.log) && UpToDate(s.log, s.client)
    ensures UpToDate(Act(s, action).log, Act(s, action).client) <==> !Loses(s, action)
  {
    match action
    case Poll(limit) => PollAdvances(s.log, s.client, limit);
    case Writer(step) =>
      if step.Append? {
        AppendReads(s.log, step.payload, step.clean, step.written);
        PrefixOfShorter(s.client.delivered, ReadRaw(s.log), ReadRaw(Apply(s.log, step)));
      }
  }

  lemma PrefixOfShorter(a: seq<Event>, before: seq<Event>, after: seq<Event>)
    requires a <= before
    ensures before <= after ==> a <= after
    ensures |before| == |after| + 1 && after <= before ==> (a <= after <==> a != before)
  {
    if |before| == |after| + 1 && after <= before && a != before {
      assert |a| <= |after|;
      assert a == before[..|a|] == after[..|a|];
    }
  }

  ghost predicate UpToDateAt(actions: seq<Action>, k: nat)
    requires k <= |actions|
  {
    UpToDate(Play(actions[..k]).log, Play(actions[..k]).client)
  }

  ghost predicate LosesAt(actions: seq<Action>, k: nat)
    requires k < |actions|
  {
    Loses(Play(actions[..k]), actions[k])
  }

  lemma StepUpToDate(actions: seq<Action>, k: nat)
    requires k < |actions|
    ensures UpToDateAt(actions, k) ==> (UpToDateAt(actions, k + 1) <==> !LosesAt(actions, k))
  {
    PlayNext(actions, k);
    PlayNumbered(actions[..k]);
    if UpToDateAt(actions, k) {
      ActUpToDate(Play(actions[..k]), actions[k]);
    }
  }

  // The first point at which the client is not up to date follows a loss.
  lemma {:induction false} UpToDateUntil(actions: seq<Action>, n: nat)
    requires n <= |actions|
    requires forall k :: 0 <= k < n ==> !LosesAt(actions, k)
    ensures forall k :: 0 <= k <= n ==> UpToDateAt(actions, k)
  {
    if n == 0 {
      assert actions[..0] == [];
    } else {
      UpToDateUntil(actions, n - 1);
      StepUpToDate(actions, n - 1);
    }
  }

  // At every point of a session the file can be read and the client has
  // received exactly the readable events up to its cursor, once each and in
  // order, if and only if no write is ever cut off inside a character or
  // destroys an event that lost its newline after it was received.
  lemma ExactlyOnce(actions: seq<Action>)
    ensures (forall k :: 0 <= k <= |actions| ==> UpToDateAt(actions, k)) <==>
      (forall k :: 0 <= k < |actions| ==> !LosesAt(actions, k))
  {
    if forall k :: 0 <= k < |actions| ==> !LosesAt(actions, k) {
      UpToDateUntil(actions, |actions|);
    }
    if forall k :: 0 <= k <= |actions| ==> UpToDateAt(actions, k) {
      forall k | 0 <= k < |actions| ensures !LosesAt(actions, k) {
        assert UpToDateAt(actions, k) && UpToDateAt(actions, k + 1);
        StepUpToDate(actions, k);
      }
    }
  }

  // Once a write was cut off inside a character the file stays unreadable: the
  // client receives nothing more, whatever happens, and after a restart
  // nothing more is written either.
  lemma {:induction false} UnreadableForGood(s: Session, actions: seq<Action>)
    requires !s.log.decodable
    ensures !PlayOn(s, actions).log.decodable && PlayOn(s, actions).client == s.client
    ensures s.log.counter.None? ==> PlayOn(s, actions) == s
  {
    if actions != [] {
      UnreadableForGood(s, actions[..|actions| - 1]);
    }
  }

  function PlayOn(s: Session, actions: seq<Action>): Session {
    if actions == [] then s else Act(PlayOn(s, actions[..|actions| - 1]), actions[|actions| - 1])
  }

  // Polling with any positive limit gets to the end.
  function Polls(log: Log, client: Client, limit: nat, times: nat): Client {
    if times == 0 then client else PollSpec(log, Polls(log, client, limit, times - 1), limit)
  }

  lemma {:induction false} PollingReaches(log: Log, client: Client, limit: nat, times: nat)
    requires Numbered(log) && UpToDate(log, client) && limit >= 1
    ensures UpToDate(log, Polls(log, client, limit, times))
    ensures |Polls(log, client, limit, times).delivered| >= Upto(|client.delivered|, times, |ReadRaw(log)|)
  {
    if times > 0 {
      PollingReaches(log, client, limit, times - 1);
      PollAdvances(log, Polls(log, client, limit, times - 1), limit);
    }
  }

  lemma PollingDrains(log: Log, client: Client, limit: nat, times: nat)
    requires Numbered(log) && UpToDate(log, client) && limit >= 1
    ensures UpToDate(log, Polls(log, client, limit, times))
    ensures |client.delivered| + times >= |ReadRaw(log)| ==> Polls(log, client, limit, times).delivered == ReadRaw(log)
  {
    PollingReaches(log, client, limit, times);
    var delivered := Polls(log, client, limit, times).delivered;
    assert delivered == ReadRaw(log)[..|delivered|];
  }

  // A session in which it fails. The first event loses its newline and is
  // polled; the next append destroys it together with itself; after a restart
  // its number is given out again, and the client never sees that event.
  function LostEvent(a: string, b: string, c: string): seq<Action> {
    [Writer(Append(a, true, AllButNewline)), Poll(1), Writer(Append(b, true, Complete)), Writer(Restart),
     Writer(Append(c, true, Complete))]
  }

  function Polled(a: string): Session {
    Session(Log([], Whole(Event(1, a)), true, Some(2)), Client(1, [Event(1, a)]))
  }

  lemma FirstEventPolled(a: string)
    ensures Act(Act(Play([]), Writer(Append(a, true, AllButNewline))), Poll(1)) == Polled(a)
  {
    var appended := Log([], Whole(Event(1, a)), true, Some(2));
    assert Act(Play([]), Writer(Append(a, true, AllButNewline))) == Session(appended, Client(0, []));
    assert ReadRaw(appended) == [Event(1, a)];
    OneEvent(Event(1, a), 0);
  }

  function Reused(a: string, c: string): Session {
    Session(Log([Broken, Readable(Event(1, c))], NoTail, true, Some(2)), Client(1, [Event(1, a)]))
  }

  lemma NumberReused(a: string, b: string, c: string)
    ensures Act(Act(Act(Polled(a), Writer(Append(b, true, Complete))), Writer(Restart)), Writer(Append(c, true, Complete)))
      == Reused(a, c)
  {
    var broken := Log([Broken], NoTail, true, None);
    assert [Broken][..0] == [];
    assert ReadRaw(broken) == [];
    assert Act(Act(Polled(a), Writer(Append(b, true, Complete))), Writer(Restart)) == Session(broken, Polled(a).client);
  }

  lemma ReusedNumberIsNeverSeen(a: string, b: string, c: string, limit: nat)
    ensures var s := Play(LostEvent(a, b, c));
      && ReadRaw(s.log) == [Event(1, c)]
      && s.client == Client(1, [Event(1, a)])
      && PollSpec(s.log, s.client, limit) == s.client
  {
    var actions := LostEvent(a, b, c);
    PlayFive(actions);
    FirstEventPolled(a);
    NumberReused(a, b, c);
    var lines := [Broken, Readable(Event(1, c))];
    assert lines[..1] == [Broken] && [Broken][..0] == [];
    assert ReadRaw(Reused(a, c).log) == [Event(1, c)];
    OneEvent(Event(1, c), 1);
  }

  lemma PlayFive(actions: seq<Action>)
    requires |actions| == 5
    ensures Play(actions) == Act(Act(Act(Act(Act(Play([]), actions[0]), actions[1]), actions[2]), actions[3]), actions[4])
  {
    assert actions[..0] == [] && actions[..5] == actions;
    PlayNext(actions, 0);
    PlayNext(actions, 1);
    PlayNext(actions, 2);
    PlayNext(actions, 3);
    PlayNext(actions, 4);
  }

  lemma OneEvent(e: Event, cursor: int)
    ensures After([e], cursor) == if e.sequence > cursor then [e] else []
  {
    assert [e][..0] == [];
  }

  lemma PlayNext(actions: seq<Action>, k: nat)
    requires k < |actions|
    ensures Play(actions[..k + 1]) == Act(Play(actions[..k]), actions[k])
  {
    assert actions[..k + 1][..k] == actions[..k];
  }
}
