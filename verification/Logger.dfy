/** The log kept in memory for its readers: logger.cpp. Message and peer ids are not bounded here. */
module Logger {

  const MAX_LOG_MESSAGES: nat := 20000

  datatype MsgType = Normal | Info | Warning | Critical

  datatype Message = Message(kind: MsgType, timestamp: int, text: string)

  datatype Peer = Peer(blocked: bool, timestamp: int, ip: string, reason: string)

  /** Log::Msg and Log::Peer: what was logged, and the id it got. */
  datatype Entry<T> = Entry(id: int, value: T)

  /** push_back of a circular buffer overwrites the oldest element when there is no room. */
  function Pushed<T>(buffer: seq<Entry<T>>, e: Entry<T>, capacity: nat): seq<Entry<T>>
    requires 0 < capacity
  {
    (if |buffer| < capacity then buffer else buffer[1..]) + [e]
  }

  /** The history from number `from` on, each element with its number as its id. */
  function Numbered<T>(history: seq<T>, from: nat): seq<Entry<T>>
    requires from <= |history|
  {
    seq(|history| - from, i requires 0 <= i < |history| - from => Entry(from + i, history[from + i]))
  }

  /** The number of the oldest element still in the buffer. */
  function Oldest(length: nat, capacity: nat): nat {
    if length <= capacity then 0 else length - capacity
  }

  function Retained<T>(history: seq<T>, capacity: nat): seq<Entry<T>> {
    Numbered(history, Oldest(|history|, capacity))
  }

  /** What a reader who knows everything up to an id has not seen. */
  function Newer<T>(entries: seq<Entry<T>>, lastKnownId: int): seq<Entry<T>> {
    if |entries| == 0 then []
    else (if entries[0].id > lastKnownId then [entries[0]] else []) + Newer(entries[1..], lastKnownId)
  }

  lemma PushKeepsNewest<T>(history: seq<T>, x: T, capacity: nat)
    requires 0 < capacity
    ensures Pushed(Retained(history, capacity), Entry(|history|, x), capacity) == Retained(history + [x], capacity)
  {
  }

  lemma NewerOfFirst<T>(entries: seq<Entry<T>>, e: Entry<T>, rest: seq<Entry<T>>, lastKnownId: int)
    requires entries == [e] + rest
    ensures Newer(entries, lastKnownId) == (if e.id > lastKnownId then [e] else []) + Newer(rest, lastKnownId)
  {
  }

  lemma NumberedFirst<T>(history: seq<T>, from: nat)
    requires from < |history|
    ensures Numbered(history, from) == [Entry(from, history[from])] + Numbered(history, from + 1)
  {
  }

  /** The number of the first element, from `from` on, that is newer than an id. */
  function FirstNewer(from: nat, lastKnownId: int, length: nat): (first: nat)
    requires from <= length
    ensures from <= first <= length
  {
    if lastKnownId < from then from else if lastKnownId < length then lastKnownId + 1 else length
  }

  lemma {:induction false} NewerNumbered<T>(history: seq<T>, from: nat, lastKnownId: int)
    requires from <= |history|
    ensures Newer(Numbered(history, from), lastKnownId) == Numbered(history, FirstNewer(from, lastKnownId, |history|))
    decreases |history| - from
  {
    if from < |history| {
      NumberedFirst(history, from);
      NewerOfFirst(Numbered(history, from), Entry(from, history[from]), Numbered(history, from + 1), lastKnownId);
      NewerNumbered(history, from + 1, lastKnownId);
    }
  }

  /** loadFromBuffer: the buffer without its first elements. */
  method LoadFromBuffer<T>(src: seq<Entry<T>>, offset: nat) returns (ret: seq<Entry<T>>)
    requires offset <= |src|
    ensures ret == src[offset..]
  {
    ret := [];
    for i := offset to |src|
      invariant ret == src[offset..i]
    {
      ret := ret + [src[i]];
    }
  }

  /** The common shape of getMessages and getPeers, for every id a caller may pass. */
  method GetNewer<T>(buffer: seq<Entry<T>>, counter: nat, lastKnownId: int, ghost history: seq<T>, ghost capacity: nat)
    returns (result: seq<Entry<T>>)
    requires counter == |history| && buffer == Retained(history, capacity)
    ensures result == Newer(buffer, lastKnownId)
  {
    var diff := counter - lastKnownId - 1;
    var size := |buffer|;
    NewerNumbered(history, Oldest(|history|, capacity), lastKnownId);
    if lastKnownId == -1 || diff >= size {
      result := LoadFromBuffer(buffer, 0);
    } else if diff <= 0 {
      result := [];
    } else {
      result := LoadFromBuffer(buffer, size - diff);
    }
  }

  class Logger {
    var messages: seq<Entry<Message>>
    var peers: seq<Entry<Peer>>
    var msgCounter: nat
    var peerCounter: nat
    ghost var messageHistory: seq<Message>
    ghost var peerHistory: seq<Peer>

    ghost predicate Valid()
      reads this
    {
      && msgCounter == |messageHistory| && messages == Retained(messageHistory, MAX_LOG_MESSAGES)
      && peerCounter == |peerHistory| && peers == Retained(peerHistory, MAX_LOG_MESSAGES)
    }

    constructor ()
      ensures Valid() && messageHistory == [] && peerHistory == []
    {
      messages, peers, msgCounter, peerCounter, messageHistory, peerHistory := [], [], 0, 0, [], [];
    }

    method AddMessage(message: string, kind: MsgType, now: int)
      requires Valid()
      modifies this`messages, this`msgCounter, this`messageHistory
      ensures Valid() && messageHistory == old(messageHistory) + [Message(kind, now, message)]
    {
      var msg := Entry(msgCounter, Message(kind, now, message));
      PushKeepsNewest(messageHistory, msg.value, MAX_LOG_MESSAGES);
      msgCounter := msgCounter + 1;
      messages := Pushed(messages, msg, MAX_LOG_MESSAGES);
      messageHistory := messageHistory + [msg.value];
    }

    method AddPeer(ip: string, blocked: bool, reason: string, now: int)
      requires Valid()
      modifies this`peers, this`peerCounter, this`peerHistory
      ensures Valid() && peerHistory == old(peerHistory) + [Peer(blocked, now, ip, reason)]
    {
      var msg := Entry(peerCounter, Peer(blocked, now, ip, reason));
      PushKeepsNewest(peerHistory, msg.value, MAX_LOG_MESSAGES);
      peerCounter := peerCounter + 1;
      peers := Pushed(peers, msg, MAX_LOG_MESSAGES);
      peerHistory := peerHistory + [msg.value];
    }

    method GetMessages(lastKnownId: int) returns (result: seq<Entry<Message>>)
      requires Valid()
      ensures result == Newer(Retained(messageHistory, MAX_LOG_MESSAGES), lastKnownId)
    {
      result := GetNewer(messages, msgCounter, lastKnownId, messageHistory, MAX_LOG_MESSAGES);
    }

    method GetPeers(lastKnownId: int) returns (result: seq<Entry<Peer>>)
      requires Valid()
      ensures result == Newer(Retained(peerHistory, MAX_LOG_MESSAGES), lastKnownId)
    {
      result := GetNewer(peers, peerCounter, lastKnownId, peerHistory, MAX_LOG_MESSAGES);
    }
  }

  // ----- A reader that polls with the last id it has seen -----

  datatype Event<T> = Logged(value: T) | Polled

  datatype System<T> = System(history: seq<T>, known: int, received: seq<Entry<T>>)

  function Step<T>(s: System<T>, e: Event<T>, capacity: nat): System<T> {
    match e
    case Logged(x) => s.(history := s.history + [x])
    case Polled =>
      var answer := Newer(Retained(s.history, capacity), s.known);
      s.(known := if |answer| == 0 then s.known else answer[|answer| - 1].id, received := s.received + answer)
  }

  function Run<T>(s: System<T>, events: seq<Event<T>>, capacity: nat): System<T>
    decreases |events|
  {
    if |events| == 0 then s else Run(Step(s, events[0], capacity), events[1..], capacity)
  }

  function Start<T>(): System<T> {
    System([], -1, [])
  }

  /** Everything received was logged under its id, ids only grow, and none is beyond the last known one. */
  ghost predicate Inv<T>(s: System<T>) {
    && -1 <= s.known < |s.history|
    && (forall i :: 0 <= i < |s.received| ==>
          0 <= s.received[i].id <= s.known && s.received[i].value == s.history[s.received[i].id])
    && (forall i, j :: 0 <= i < j < |s.received| ==> s.received[i].id < s.received[j].id)
  }

  function Pending<T>(s: System<T>): int {
    |s.history| - 1 - s.known
  }

  /** Nothing up to the last known id is missing. */
  predicate Complete<T(==)>(s: System<T>)
    requires -1 <= s.known < |s.history|
  {
    s.received == Numbered(s.history[..s.known + 1], 0)
  }

  /** No more is logged between two polls than the buffer holds. */
  predicate InTime<T>(events: seq<Event<T>>, pending: int, capacity: nat) {
    if |events| == 0 then true
    else match events[0]
    case Logged(_) => InTime(events[1..], pending + 1, capacity)
    case Polled => pending <= capacity && InTime(events[1..], 0, capacity)
  }

  lemma LoggedKeeps<T>(s: System<T>, x: T, capacity: nat)
    requires Inv(s)
    ensures var t := Step(s, Logged(x), capacity);
      Inv(t) && Pending(t) == Pending(s) + 1 && (Complete(t) <==> Complete(s))
  {
  }

  lemma PolledAnswer<T>(s: System<T>, capacity: nat)
    requires Inv(s) && 0 < capacity
    ensures
      var first := FirstNewer(Oldest(|s.history|, capacity), s.known, |s.history|);
      Step(s, Polled, capacity) == s.(known := |s.history| - 1, received := s.received + Numbered(s.history, first))
  {
    NewerNumbered(s.history, Oldest(|s.history|, capacity), s.known);
  }

  lemma PolledKeepsInv<T>(s: System<T>, capacity: nat)
    requires Inv(s) && 0 < capacity
    ensures var t := Step(s, Polled, capacity); Inv(t) && Pending(t) == 0
  {
    PolledAnswer(s, capacity);
  }

  lemma PolledCompletes<T>(history: seq<T>, known: int, first: nat, received: seq<Entry<T>>)
    requires Inv(System(history, known, received)) && known < first <= |history|
    ensures received + Numbered(history, first) == Numbered(history, 0)
            <==> received == Numbered(history[..known + 1], 0) && first == known + 1
  {
    if received + Numbered(history, first) == Numbered(history, 0) {
      assert |received| == first;
      assert received == Numbered(history, 0)[..first];
      assert 0 < first ==> received[first - 1] == Numbered(history, 0)[first - 1];
    }
  }

  lemma PolledKeeps<T>(s: System<T>, capacity: nat)
    requires Inv(s) && 0 < capacity
    ensures var t := Step(s, Polled, capacity);
      Inv(t) && Pending(t) == 0 && (Complete(t) <==> Complete(s) && Pending(s) <= capacity)
  {
    PolledKeepsInv(s, capacity);
    PolledAnswer(s, capacity);
    PolledCompletes(s.history, s.known, FirstNewer(Oldest(|s.history|, capacity), s.known, |s.history|), s.received);
    assert s.history[..|s.history|] == s.history;
  }

  lemma {:induction false} RunKeeps<T>(s: System<T>, events: seq<Event<T>>, capacity: nat)
    requires Inv(s) && 0 < capacity
    ensures Inv(Run(s, events, capacity))
    ensures Complete(Run(s, events, capacity)) <==> Complete(s) && InTime(events, Pending(s), capacity)
    ensures |events| > 0 && events[|events| - 1].Polled? ==> Pending(Run(s, events, capacity)) == 0
    decreases |events|
  {
    if |events| > 0 {
      if events[0].Logged? {
        LoggedKeeps(s, events[0].value, capacity);
      } else {
        PolledKeeps(s, capacity);
      }
      RunKeeps(Step(s, events[0], capacity), events[1..], capacity);
    }
  }

  /**
    Over every run of logging and polling that ends with a poll: the reader never gets an id twice or
    out of order, everything it got is what was logged, and it got the whole history exactly when it
    always polled before more was logged than the buffer holds.
  */
  lemma PollingReader<T>(events: seq<Event<T>>, capacity: nat)
    requires |events| > 0 && events[|events| - 1].Polled? && 0 < capacity
    ensures
      var s := Run(Start(), events, capacity);
      && (forall i, j :: 0 <= i < j < |s.received| ==> s.received[i].id < s.received[j].id)
      && (forall i :: 0 <= i < |s.received| ==>
            0 <= s.received[i].id < |s.history| && s.received[i].value == s.history[s.received[i].id])
      && (s.received == Numbered(s.history, 0) <==> InTime(events, 0, capacity))
  {
    RunKeeps(Start(), events, capacity);
    var s := Run(Start(), events, capacity);
    assert s.history[..s.known + 1] == s.history;
  }
}
