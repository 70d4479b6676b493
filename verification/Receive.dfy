/**
 The receive path: libuv reads every datagram into one shared buffer, binding.c decides what to report, and index.js
 copies the bytes out before anybody can overwrite them. Over any history, what the `message` and `error` listeners
 were given is a function of what arrived, and stays so whatever the shared buffer is used for later.
 */
module Receive {
  import N = Native
  import P = Protocol

  type byte = P.byte

  /** What the kernel and libuv report. A datagram without any data is still a datagram. */
  datatype Arrival = Packet(data: seq<byte>) | Failing(code: N.Code) | Nothing

  /** What a listener is given. */
  datatype Outcome = Got(data: seq<byte>) | Failed(code: N.Code)

  /** What listeners must be given for a history of arrivals, with a read buffer of `size` bytes. */
  function Expected(history: seq<Arrival>, size: nat): seq<Outcome> {
    if history == [] then []
    else
      Expected(history[..|history| - 1], size) +
      match history[|history| - 1]
      case Packet(data) => [if |data| <= size then Got(data) else Failed(N.EMSGSIZE)]
      case Failing(code) => [Failed(code)]
      case Nothing => []
  }

  /** A history reported without any loss: every datagram in full. */
  function Faithful(history: seq<Arrival>): seq<Outcome> {
    if history == [] then []
    else
      Faithful(history[..|history| - 1]) +
      match history[|history| - 1]
      case Packet(data) => [Got(data)]
      case Failing(code) => [Failed(code)]
      case Nothing => []
  }

  ghost predicate AllFit(history: seq<Arrival>, size: nat) {
    forall i | 0 <= i < |history| && history[i].Packet? :: |history[i].data| <= size
  }

  lemma {:induction false} SameLength(history: seq<Arrival>, size: nat)
    ensures |Expected(history, size)| == |Faithful(history)|
  {
    if history != [] { SameLength(history[..|history| - 1], size); }
  }

  /** Nothing is lost exactly when every datagram fits the read buffer. */
  lemma {:induction false} FaithfulIff(history: seq<Arrival>, size: nat)
    ensures Expected(history, size) == Faithful(history) <==> AllFit(history, size)
  {
    if history != [] {
      var n := |history| - 1;
      var front := history[..n];
      FaithfulIff(front, size);
      SameLength(front, size);
      assert AllFit(history, size) <==>
             AllFit(front, size) && (history[n].Packet? ==> |history[n].data| <= size) by {
        assert forall i | 0 <= i < n :: front[i] == history[i];
      }
      var a, b := Expected(history, size), Faithful(history);
      assert a[..|Expected(front, size)|] == Expected(front, size);
      assert b[..|Faithful(front)|] == Faithful(front);
      if history[n].Packet? {
        var data := history[n].data;
        assert a[|Expected(front, size)|] == if |data| <= size then Got(data) else Failed(N.EMSGSIZE);
        assert b[|Faithful(front)|] == Got(data);
      }
    }
  }

  const DEFAULT_READ_BUFFER_SIZE := 65536
  const UDP_HEADER_SIZE := 8

  /** RFC 768: the 16-bit Length field counts the header and the data. */
  ghost predicate FromUdp(history: seq<Arrival>) {
    forall i | 0 <= i < |history| && history[i].Packet? :: UDP_HEADER_SIZE + |history[i].data| < 0x1_0000
  }

  /** With the default read buffer nothing that UDP can carry is ever truncated. */
  lemma DefaultLosesNothing(history: seq<Arrival>)
    requires FromUdp(history)
    ensures Expected(history, DEFAULT_READ_BUFFER_SIZE) == Faithful(history)
  {
    FaithfulIff(history, DEFAULT_READ_BUFFER_SIZE);
  }

  lemma ExpectedSnoc(history: seq<Arrival>, a: Arrival, size: nat)
    ensures Expected(history + [a], size) == Expected(history, size) + Expected([a], size)
  {
  }

  lemma ExpectedOne(a: Arrival, size: nat)
    ensures Expected([a], size) ==
            match a
            case Packet(data) => [if |data| <= size then Got(data) else Failed(N.EMSGSIZE)]
            case Failing(code) => [Failed(code)]
            case Nothing => []
  {
    assert [a][..0] == [] && Expected([], size) == [];
  }

  datatype Event = Message(data: array<byte>) | Problem(code: N.Code)

  ghost function Arrays(events: seq<Event>): set<object> {
    set i | 0 <= i < |events| && events[i].Message? :: events[i].data
  }

  /** What the listeners hold, read now rather than when it was delivered. */
  ghost function Holding(events: seq<Event>): seq<Outcome>
    reads Arrays(events)
  {
    seq(|events|, i requires 0 <= i < |events| reads Arrays(events) =>
      if events[i].Message? then Got(events[i].data[..]) else Failed(events[i].code))
  }

  class Receiver {
    const buffer: array<byte>   // the shared read buffer
    const handle: N.NativeHandle
    var events: seq<Event>      // what was emitted, in order
    ghost var history: seq<Arrival>   // what arrived while the handle was open

    /** The messages are arrays of their own, none of them the read buffer. */
    ghost predicate Separate()
      reads `events
    {
      && (forall i | 0 <= i < |events| && events[i].Message? :: events[i].data != buffer)
      && (forall i, j | 0 <= i < j < |events| && events[i].Message? && events[j].Message? ::
            events[i].data != events[j].data)
    }

    ghost predicate Valid()
      reads `events, `history, Arrays(events)
    {
      Separate() && Holding(events) == Expected(history, buffer.Length)
    }

    constructor (readBufferSize: nat)
      ensures Valid() && history == [] && buffer.Length == readBufferSize && fresh(buffer) && fresh(handle)
    {
      buffer := new byte[readBufferSize](_ => 0);
      handle := new N.NativeHandle();
      events := [];
      history := [];
    }

    /** The kernel writes as much of a datagram as there is room for. */
    method Fill(data: seq<byte>) returns (read: N.Read)
      modifies buffer
      ensures read == if |data| <= buffer.Length then N.Datagram(|data|) else N.Truncated(buffer.Length)
      ensures |data| <= buffer.Length ==> buffer[..|data|] == data
    {
      var n := if |data| <= buffer.Length then |data| else buffer.Length;
      for i := 0 to n
        invariant buffer[..i] == data[..i]
      {
        buffer[i] := data[i];
      }
      read := if |data| <= buffer.Length then N.Datagram(n) else N.Truncated(n);
    }

    /** What libuv reports; only the read buffer is touched, so no message delivered before changes. */
    method Fetch(a: Arrival) returns (read: N.Read)
      requires Separate()
      modifies buffer
      ensures Separate() && Holding(events) == old(Holding(events))
      ensures match a
              case Packet(data) =>
                if |data| <= buffer.Length then read == N.Datagram(|data|) && buffer[..|data|] == data
                else read == N.Truncated(buffer.Length)
              case Failing(code) => read == N.ReadError(code)
              case Nothing => read == N.Nothing
    {
      read := N.Nothing;
      match a {
        case Packet(data) => read := Fill(data);
        case Failing(code) => read := N.ReadError(code);
        case Nothing =>
      }
      assert forall i | 0 <= i < |events| :: Holding(events)[i] == old(Holding(events))[i];
    }

    /** `_onmessage` for a message: a fresh copy of what was read. */
    method Deliver(length: nat)
      requires length <= buffer.Length && Separate()
      modifies `events
      ensures Separate() && Holding(events) == old(Holding(events)) + [Got(buffer[..length])]
      ensures old(events) <= events && |events| == |old(events)| + 1
      ensures events[|old(events)|].Message? && fresh(events[|old(events)|].data)
    {
      ghost var before := Holding(events);
      var message := new byte[length];
      forall i | 0 <= i < length { message[i] := buffer[i]; }
      assert message[..] == buffer[..length];
      events := events + [Message(message)];
      assert forall i | 0 <= i < |before| :: Holding(events)[i] == before[i];
    }

    method EmitError(code: N.Code)
      requires Separate()
      modifies `events
      ensures Separate() && old(events) <= events && Holding(events) == old(Holding(events)) + [Failed(code)]
    {
      ghost var before := Holding(events);
      events := events + [Problem(code)];
      assert forall i | 0 <= i < |before| :: Holding(events)[i] == before[i];
    }

    /** `bare_dgram__on_message` and `_onmessage` */
    method OnMessage(read: N.Read)
      requires Separate() && (read.Datagram? ==> read.length <= buffer.Length)
      modifies `events
      ensures Separate() && old(events) <= events
      ensures Holding(events) == old(Holding(events)) +
                match N.OnMessage(handle.View(), read)
                case Dropped => []
                case Failed(code) => [Failed(code)]
                case Delivered(length) => [Got(buffer[..length])]
    {
      match N.OnMessage(handle.View(), read) {
        case Dropped =>
          assert Holding(events) + [] == Holding(events);
        case Failed(code) => EmitError(code);
        case Delivered(length) => Deliver(length);
      }
    }

    /** One read, from the kernel to the listener; a closing handle reports nothing. */
    method Handle(a: Arrival)
      requires Separate()
      modifies `events, buffer
      ensures Separate() && old(events) <= events
      ensures Holding(events) == old(Holding(events)) +
                if handle.closing || handle.exiting then [] else Expected([a], buffer.Length)
    {
      hide Expected, Holding, Separate;
      var read := Fetch(a);
      OnMessage(read);
      ExpectedOne(a, buffer.Length);
    }

    /** The same with the history kept. Nothing delivered before changes. */
    method Read(a: Arrival)
      requires Valid()
      modifies `events, `history, buffer
      ensures Valid() && old(events) <= events
      ensures old(Holding(events)) <= Holding(events)
      ensures history == old(history) + (if handle.closing || handle.exiting then [] else [a])
    {
      hide Expected;
      ghost var before := Holding(events);
      Handle(a);
      ExpectedSnoc(history, a, buffer.Length);
      assert before + [] == before;
      if !handle.closing && !handle.exiting { history := history + [a]; }
    }
  }
}
