/**
 The arguments of `send`: six positional values that mean different things in different overloads and on connected
 and unconnected sockets. `Arguments` sorts them out the way index.js does; its contract is the overload table of
 index.d.ts with the meaning that README.md gives it.
 */
module SendArgs {
  import opened Sequences
  import opened IpForm
  import P = Protocol

  type byte = P.byte

  // JavaScript values, as far as `send` can tell them apart

  datatype Number = Finite(value: real) | Infinite(negative: bool) | NaN

  datatype Span = Span(store: seq<byte>, start: nat, length: nat)

  /** An ArrayBufferView: a window on the bytes of an ArrayBuffer. */
  type View = v: Span | v.start + v.length <= |v.store| witness Span([], 0, 0)

  datatype Value =
    | Undefined | Null | Bool(b: bool) | Num(n: Number) | Str(s: string)
    | Bytes(view: View) | List(items: seq<Value>) | Function(id: nat) | Object

  predicate Truthy(v: Value) {
    match v
    case Undefined => false
    case Null => false
    case Bool(b) => b
    case Num(n) => n.Infinite? || (n.Finite? && n.value != 0.0)
    case Str(s) => s != ""
    case _ => true
  }

  /** `ToNumber`; what objects, functions and texts convert to is not decided here but passed in. */
  function ToNumber(v: Value, convert: Value -> Number): Number {
    match v
    case Undefined => NaN
    case Null => Finite(0.0)
    case Bool(b) => Finite(if b then 1.0 else 0.0)
    case Num(n) => n
    case _ => convert(v)
  }

  /** `n >>> 0`: the fraction is dropped and the rest taken modulo 2^32. */
  function ToUint32(n: Number): nat {
    if !n.Finite? then 0
    else (if n.value >= 0.0 then n.value.Floor else -(-n.value).Floor) % 0x1_0000_0000
  }

  /** Offsets and lengths below 2^32 mean themselves; a negative one turns into a large one, out of every bound. */
  lemma SmallNumbers(n: int)
    ensures ToUint32(Finite(n as real)) == n <==> 0 <= n < 0x1_0000_0000
    ensures -0x8000_0000 <= n < 0 ==> ToUint32(Finite(n as real)) >= 0x8000_0000
  {
    assert (n as real).Floor == n && (-(n as real)).Floor == -n by { assert -(n as real) == (-n) as real; }
  }

  /** `n` is `x` without its fraction. */
  predicate Truncates(x: real, n: int) {
    if x >= 0.0 then n as real <= x < n as real + 1.0 else n as real - 1.0 < x <= n as real
  }

  /** `x >>> 0` is the one number below 2^32 that is congruent to the integer part of `x`. */
  lemma UnsignedIff(x: real, r: nat)
    ensures ToUint32(Finite(x)) == r <==>
            r < 0x1_0000_0000 && exists n :: Truncates(x, n) && (n - r) % 0x1_0000_0000 == 0
  {
    var t := if x >= 0.0 then x.Floor else -(-x).Floor;
    assert Truncates(x, t);
    assert forall n | Truncates(x, n) :: n == t;
    if ToUint32(Finite(x)) == r { assert (t - r) % 0x1_0000_0000 == 0; }
  }

  predicate IsInteger(n: Number, p: int) { n == Finite(p as real) }

  /** Ports are the integers from 1 to 65535. */
  lemma PortIff(n: Number)
    ensures IsPort(n) <==> exists p :: IsInteger(n, p) && 1 <= p <= 65535
  {
    if IsPort(n) { assert IsInteger(n, n.value.Floor); }
  }

  predicate IsPort(n: Number) {
    n.Finite? && n.value == n.value.Floor as real && 1 <= n.value.Floor <= 0xffff
  }

  // Bytes

  function EncodeChar(c: char): (bytes: seq<byte>)
    ensures c < 0x80 as char ==> bytes == [c as int as byte]
  {
    var n := c as int;
    if n < 0x80 then [n as byte]
    else if n < 0x800 then [(0xc0 + n / 0x40) as byte, (0x80 + n % 0x40) as byte]
    else if n < 0x1_0000 then
      [(0xe0 + n / 0x1000) as byte, (0x80 + n / 0x40 % 0x40) as byte, (0x80 + n % 0x40) as byte]
    else
      [(0xf0 + n / 0x4_0000) as byte, (0x80 + n / 0x1000 % 0x40) as byte,
       (0x80 + n / 0x40 % 0x40) as byte, (0x80 + n % 0x40) as byte]
  }

  /** `Buffer.from(string)` */
  function Utf8(s: string): seq<byte> {
    if s == "" then [] else Utf8(s[..|s| - 1]) + EncodeChar(s[|s| - 1])
  }

  /** `Buffer.byteLength` counts the bytes of the encoding, by which the length of a host is judged. */
  lemma {:induction false} Utf8Length(s: string)
    ensures |Utf8(s)| == P.ByteLength(s)
  {
    if s != "" { Utf8Length(s[..|s| - 1]); }
  }

  // Reading an encoding back

  predicate Trails(b: byte) { 0x80 <= b < 0xc0 }

  /** The first code point of a UTF-8 text and its length in bytes; only shortest forms are allowed (RFC 3629). */
  function DecodeFirst(b: seq<byte>): Option<(int, nat)> {
    if b == [] then None
    else if b[0] < 0x80 then Some((b[0] as int, 1))
    else if 0xc0 <= b[0] < 0xe0 && |b| >= 2 && Trails(b[1]) then
      var n := (b[0] as int - 0xc0) * 0x40 + (b[1] as int - 0x80);
      if n >= 0x80 then Some((n, 2)) else None
    else if 0xe0 <= b[0] < 0xf0 && |b| >= 3 && Trails(b[1]) && Trails(b[2]) then
      var n := (b[0] as int - 0xe0) * 0x1000 + (b[1] as int - 0x80) * 0x40 + (b[2] as int - 0x80);
      if n >= 0x800 then Some((n, 3)) else None
    else if 0xf0 <= b[0] < 0xf8 && |b| >= 4 && Trails(b[1]) && Trails(b[2]) && Trails(b[3]) then
      var n := (b[0] as int - 0xf0) * 0x4_0000 + (b[1] as int - 0x80) * 0x1000
               + (b[2] as int - 0x80) * 0x40 + (b[3] as int - 0x80);
      if n >= 0x1_0000 then Some((n, 4)) else None
    else None
  }

  function Decode(b: seq<byte>): Option<seq<int>>
    decreases |b|
  {
    if b == [] then Some([])
    else
      var first := DecodeFirst(b);
      if first.None? then None
      else
        assert 0 < first.value.1 <= |b|;
        var rest := Decode(b[first.value.1..]);
        if rest.None? then None else Some([first.value.0] + rest.value)
  }

  lemma CharRoundTrip(c: char, rest: seq<byte>)
    ensures DecodeFirst(EncodeChar(c) + rest) == Some((c as int, |EncodeChar(c)|))
  {
    var n := c as int;
    assert n == n / 0x40 * 0x40 + n % 0x40;
    assert n / 0x40 == n / 0x1000 * 0x40 + n / 0x40 % 0x40;
    assert n / 0x1000 == n / 0x4_0000 * 0x40 + n / 0x1000 % 0x40;
  }

  lemma {:induction false} Utf8Cons(c: char, s: string)
    ensures Utf8([c] + s) == EncodeChar(c) + Utf8(s)
  {
    hide EncodeChar;
    if s == "" {
      assert [c] + s == [c] && [c][..0] == "" && [] + EncodeChar(c) == EncodeChar(c) + [];
    } else {
      var n := |s| - 1;
      assert ([c] + s)[..|s|] == [c] + s[..n];
      Utf8Cons(c, s[..n]);
      Bracket(EncodeChar(c), Utf8(s[..n]), EncodeChar(s[n]));
    }
  }

  function CodePoints(s: string): seq<int> { seq(|s|, i requires 0 <= i < |s| => s[i] as int) }

  /** The bytes of a string are its UTF-8 encoding: they read back as its code points. */
  lemma {:induction false} Utf8RoundTrip(s: string)
    ensures Decode(Utf8(s)) == Some(CodePoints(s))
  {
    hide EncodeChar, DecodeFirst;
    if s == "" {
      assert CodePoints(s) == [];
    } else {
      var c, rest := s[0], s[1..];
      assert s == [c] + rest;
      Utf8Cons(c, rest);
      CharRoundTrip(c, Utf8(rest));
      NotEmpty(c);
      assert (EncodeChar(c) + Utf8(rest))[|EncodeChar(c)|..] == Utf8(rest);
      Utf8RoundTrip(rest);
      assert [c as int] + CodePoints(rest) == CodePoints(s);
    }
  }

  lemma NotEmpty(c: char)
    ensures EncodeChar(c) != []
  {
  }

  function ViewBytes(v: View): seq<byte> { v.store[v.start..v.start + v.length] }

  /** `Buffer.from` for a string, `Buffer.coerce` for a view. */
  function AsView(v: Value): Option<View> {
    match v
    case Str(s) => Some(Span(Utf8(s), 0, |Utf8(s)|))
    case Bytes(view) => Some(view)
    case _ => None
  }

  function Concat(list: seq<View>): seq<byte> {
    if list == [] then [] else ViewBytes(list[0]) + Concat(list[1..])
  }

  datatype ArgError = BadBuffer | OutOfBounds | AlreadyConnected | BadPort | BadHost

  datatype Result<+T> = Ok(value: T) | Err(error: ArgError)

  /** `sliceBuffer`, given the offset and the length as unsigned 32-bit numbers. */
  function SliceBuffer(buffer: Value, offset: nat, length: nat): (r: Result<Value>)
    ensures AsView(buffer).None? <==> r == Err(BadBuffer)
    ensures AsView(buffer).Some? ==>
              var bytes := ViewBytes(AsView(buffer).value);
              if offset + length > |bytes| then r == Err(OutOfBounds)
              else r.Ok? && r.value.Bytes? && ViewBytes(r.value.view) == bytes[offset..offset + length]
  {
    var v := AsView(buffer);
    if v.None? then Err(BadBuffer)
    else if offset > v.value.length then Err(OutOfBounds)
    else if offset + length > v.value.length then Err(OutOfBounds)
    else
      assert v.value.start + offset + length <= |v.value.store|;
      Ok(Bytes(Span(v.value.store, v.value.start + offset, length)))
  }

  /** `coerceBufferList` */
  method CoerceBufferList(list: seq<Value>) returns (r: Option<seq<View>>)
    ensures r.None? <==> exists i | 0 <= i < |list| :: AsView(list[i]).None?
    ensures r.Some? ==> |r.value| == |list| && forall i | 0 <= i < |list| :: AsView(list[i]) == Some(r.value[i])
  {
    var result: seq<View> := [];
    var i := 0;
    while i < |list|
      invariant i == |result| <= |list|
      invariant forall k | 0 <= k < i :: AsView(list[k]) == Some(result[k])
    {
      var view := AsView(list[i]);
      if view.None? { return None; }
      result := result + [view.value];
      i := i + 1;
    }
    return Some(result);
  }

  // What a call means

  /** `DgramMessage`: a string, a view, or an array of these. */
  predicate IsMessage(msg: Value) {
    AsView(msg).Some? || (msg.List? && forall i | 0 <= i < |msg.items| :: AsView(msg.items[i]).Some?)
  }

  function ItemBytes(items: seq<Value>): seq<byte>
    requires forall i | 0 <= i < |items| :: AsView(items[i]).Some?
  {
    if items == [] then [] else ViewBytes(AsView(items[0]).value) + ItemBytes(items[1..])
  }

  function MessageBytes(msg: Value): seq<byte>
    requires IsMessage(msg)
  {
    if msg.List? then ItemBytes(msg.items) else ViewBytes(AsView(msg).value)
  }

  /** The overloads of `send` in index.d.ts, top to bottom. */
  datatype Overload =
    | Sliced(msg: Value, offset: Number, length: Number, port: Option<int>, address: Option<string>, cb: Option<nat>)
    | SlicedPort(msg: Value, offset: Number, length: Number, to: int, callback: nat)
    | SlicedOnly(msg: Value, offset: Number, length: Number, cb: Option<nat>)
    | Whole(msg: Value, to: int, address: Option<string>, cb: Option<nat>)
    | WholePort(msg: Value, to: int, callback: nat)
    | WholeOnly(msg: Value, cb: Option<nat>)

  datatype Call = Call(buffer: Value, offset: Value, length: Value, port: Value, address: Value, cb: Value)

  function PortValue(port: int): Value { Num(Finite(port as real)) }

  function AddressValue(address: Option<string>): Value {
    if address.Some? then Str(address.value) else Undefined
  }

  function CallbackValue(cb: Option<nat>): Value { if cb.Some? then Function(cb.value) else Undefined }

  /** The positional arguments of a call. */
  function Raw(ov: Overload): Call {
    match ov
    case Sliced(msg, offset, length, port, address, cb) =>
      Call(msg, Num(offset), Num(length), if port.Some? then PortValue(port.value) else Undefined,
           AddressValue(address), CallbackValue(cb))
    case SlicedPort(msg, offset, length, to, callback) =>
      Call(msg, Num(offset), Num(length), PortValue(to), Function(callback), Undefined)
    case SlicedOnly(msg, offset, length, cb) =>
      Call(msg, Num(offset), Num(length), CallbackValue(cb), Undefined, Undefined)
    case Whole(msg, to, address, cb) =>
      Call(msg, PortValue(to), AddressValue(address), CallbackValue(cb), Undefined, Undefined)
    case WholePort(msg, to, callback) =>
      Call(msg, PortValue(to), Function(callback), Undefined, Undefined, Undefined)
    case WholeOnly(msg, cb) => Call(msg, CallbackValue(cb), Undefined, Undefined, Undefined, Undefined)
  }

  predicate TakesSlice(ov: Overload) { ov.Sliced? || ov.SlicedPort? || ov.SlicedOnly? }

  function From(ov: Overload): nat { if TakesSlice(ov) then ToUint32(ov.offset) else 0 }

  function Size(ov: Overload): nat { if TakesSlice(ov) then ToUint32(ov.length) else 0 }

  function PortOf(ov: Overload): Option<int> {
    if ov.SlicedOnly? || ov.WholeOnly? then None else if ov.Sliced? then ov.port else Some(ov.to)
  }

  /** The address asked for; none and "" both stand for the loopback address. */
  function AddressOf(ov: Overload): string {
    if (ov.Sliced? || ov.Whole?) && ov.address.Some? then ov.address.value else ""
  }

  function CallbackOf(ov: Overload): Option<nat> {
    if ov.SlicedPort? || ov.WholePort? then Some(ov.callback) else ov.cb
  }

  /** The calls that are documented: to a port from an unconnected socket, to the peer from a connected one. */
  predicate Documented(connected: bool, ov: Overload) {
    && IsMessage(ov.msg)
    && if connected then PortOf(ov).None? && AddressOf(ov) == ""
       else PortOf(ov).Some? && 1 <= PortOf(ov).value <= 0xffff
  }

  /**
   Without a port an unconnected socket should refuse to send. It does, except that an offset that could be a port,
   with a length that counts as missing, is taken for a port: the whole message then goes to the loopback address.
   */
  predicate Misread(ov: Overload) {
    (ov.Sliced? || ov.SlicedOnly?) && AddressOf(ov) == "" && IsPort(ov.offset) && !Truthy(Num(ov.length))
  }

  datatype Request = Request(list: seq<View>, port: int, address: string, cb: Option<nat>)

  /** The bytes that a call asks to send: a subrange of its message, or all of it. */
  function BytesOf(ov: Overload): seq<byte>
    requires IsMessage(ov.msg)
  {
    var whole := MessageBytes(ov.msg);
    if TakesSlice(ov) && From(ov) + Size(ov) <= |whole| then whole[From(ov)..From(ov) + Size(ov)] else whole
  }

  /** The outcome a documented call must have: the bytes asked for, and everything else in its place. */
  ghost predicate Means(connected: bool, ov: Overload, r: Result<Request>)
    requires Documented(connected, ov)
  {
    var whole := MessageBytes(ov.msg);
    var from, size := From(ov), Size(ov);
    if TakesSlice(ov) && ov.msg.List? then r == Err(BadBuffer)
    else if TakesSlice(ov) && from + size > |whole| then r == Err(OutOfBounds)
    else
      if AddressOf(ov) != "" && !P.HostOk(AddressOf(ov)) then r == Err(BadHost)
      else
        && r.Ok? && r.value.list != [] && Concat(r.value.list) == BytesOf(ov)
        && r.value.port == (if connected then 0 else PortOf(ov).value)
        && r.value.address == AddressOf(ov) && r.value.cb == CallbackOf(ov)
  }

  /** The rest of `send` can rely on this. */
  predicate Checked(connected: bool, request: Request) {
    && request.list != []
    && (if connected then request.port == 0 && request.address == "" else 1 <= request.port <= 0xffff)
    && (request.address != "" ==> P.HostOk(request.address))
  }

  /** What `r` must be for a call: right for every overload it can be, and an error where one is due. */
  ghost predicate Reads(connected: bool, call: Call, r: Result<Request>) {
    && (forall ov | call == Raw(ov) && Documented(connected, ov) :: Means(connected, ov, r))
    && (forall ov | call == Raw(ov) && connected && Documented(false, ov) :: r.Err?)
    && (forall ov | call == Raw(ov) && !connected && PortOf(ov).None? && IsMessage(ov.msg) ::
          if Misread(ov) then
            && r.Ok? && r.value.port == ov.offset.value.Floor && r.value.address == ""
            && Concat(r.value.list) == MessageBytes(ov.msg)
          else r.Err?)
    && (r.Ok? ==> Checked(connected, r.value))
  }

  /** The buffers of a documented call that is accepted make exactly the bytes it asks to send. */
  lemma SendsItsBytes(connected: bool, call: Call, r: Result<Request>, ov: Overload)
    requires Reads(connected, call, r) && r.Ok? && call == Raw(ov) && Documented(connected, ov)
    ensures P.Flat(Buffers(r.value.list)) == BytesOf(ov)
  {
    hide Raw, BytesOf, Concat, P.HostOk, Buffers;
    FlatIsConcat(r.value.list);
    assert Means(connected, ov, r);
  }

  lemma Ready(connected: bool, call: Call, r: Result<Request>)
    requires Reads(connected, call, r) && r.Ok?
    ensures Checked(connected, r.value)
  {
  }

  /** The buffers as the native layer sees them. */
  function Buffers(list: seq<View>): (buffers: seq<seq<byte>>)
    ensures |buffers| == |list|
  {
    if list == [] then [] else Buffers(list[..|list| - 1]) + [ViewBytes(list[|list| - 1])]
  }

  /** The size of a request, which its callback reports on success, is the length of the datagram. */
  lemma {:induction false} SizeOfDatagram(list: seq<View>)
    ensures P.Total(Buffers(list)) == |Concat(list)|
  {
    if list != [] {
      var n := |list| - 1;
      SizeOfDatagram(list[..n]);
      assert Buffers(list)[..n] == Buffers(list[..n]) && Buffers(list)[n] == ViewBytes(list[n]);
      ConcatSnoc(list[..n], list[n]);
      assert list == list[..n] + [list[n]];
    }
  }

  /** The native layer gets the bytes of the views, in order. */
  lemma {:induction false} FlatIsConcat(list: seq<View>)
    ensures P.Flat(Buffers(list)) == Concat(list)
  {
    if list != [] {
      var n := |list| - 1;
      FlatIsConcat(list[..n]);
      FlatSnoc(Buffers(list[..n]), ViewBytes(list[n]));
      ConcatSnoc(list[..n], list[n]);
      assert list == list[..n] + [list[n]];
    }
  }

  lemma {:induction false} FlatSnoc(list: seq<seq<byte>>, b: seq<byte>)
    ensures P.Flat(list + [b]) == P.Flat(list) + b
  {
    if list == [] {
      assert [b][1..] == [] && [] + [b] == [b];
    } else {
      assert (list + [b])[1..] == list[1..] + [b];
      FlatSnoc(list[1..], b);
    }
  }

  lemma {:induction false} ConcatSnoc(list: seq<View>, v: View)
    ensures Concat(list + [v]) == Concat(list) + ViewBytes(v)
  {
    if list == [] {
      assert [v][1..] == [];
    } else {
      assert (list + [v])[1..] == list[1..] + [v];
      ConcatSnoc(list[1..], v);
    }
  }

  const Empty: View := Span([], 0, 0)

  /** The buffers of a message; an empty array is sent as one empty buffer. */
  method BufferList(buffer: Value) returns (r: Result<seq<View>>)
    ensures r.Ok? <==> IsMessage(buffer)
    ensures r.Ok? ==> r.value != [] && Concat(r.value) == MessageBytes(buffer)
    ensures r.Err? ==> r.error == BadBuffer
  {
    if buffer.List? {
      var list := CoerceBufferList(buffer.items);
      if list.None? { return Err(BadBuffer); }
      ConcatItems(buffer.items, list.value);
      if list.value == [] {
        assert Concat([Empty]) == ViewBytes(Empty) + Concat([Empty][1..]);
        return Ok([Empty]);
      }
      return Ok(list.value);
    }
    var view := AsView(buffer);
    if view.None? { return Err(BadBuffer); }
    assert [view.value][1..] == [];
    return Ok([view.value]);
  }

  lemma {:induction false} ConcatItems(items: seq<Value>, list: seq<View>)
    requires |items| == |list| && forall i | 0 <= i < |items| :: AsView(items[i]) == Some(list[i])
    ensures Concat(list) == ItemBytes(items)
  {
    if items != [] { ConcatItems(items[1..], list[1..]); }
  }

  /** The outcome once every argument is in its place and the bytes are known. */
  ghost predicate Validated(connected: bool, bytes: seq<byte>, port: Value, address: Value, cb: Value,
                            r: Result<Request>)
  {
    if !connected && !(port.Num? && IsPort(port.n)) then r == Err(BadPort)
    else if !address.Function? && Truthy(address) && !(address.Str? && P.HostOk(address.s)) then r == Err(BadHost)
    else
      && r.Ok? && r.value.list != [] && Concat(r.value.list) == bytes
      && r.value.port == (if connected then 0 else port.n.value.Floor)
      && r.value.address == (if address.Str? then address.s else "")
      && r.value.cb == (if address.Function? then Some(address.id) else if cb.Function? then Some(cb.id) else None)
  }

  /** The second half of `send`'s argument handling. */
  method Validate(connected: bool, buffer: Value, port: Value, address: Value, cb: Value) returns (r: Result<Request>)
    ensures if IsMessage(buffer) then Validated(connected, MessageBytes(buffer), port, address, cb, r)
            else r == Err(BadBuffer)
  {
    var list := BufferList(buffer);
    if list.Err? { return Err(list.error); }
    var to := 0;
    if !connected {
      if !port.Num? || !IsPort(port.n) { return Err(BadPort); }
      to := port.n.value.Floor;
    }
    var callback := if cb.Function? then Some(cb.id) else None;
    var host := "";
    if address.Function? {
      callback := Some(address.id);
    } else if Truthy(address) {
      if !address.Str? || !P.HostOk(address.s) { return Err(BadHost); }
      host := address.s;
    }
    return Ok(Request(list.value, to, host, callback));
  }

  /** The outcome of slicing first. */
  ghost predicate SlicedOutcome(connected: bool, buffer: Value, from: nat, size: nat,
                                port: Value, address: Value, cb: Value, r: Result<Request>) {
    if AsView(buffer).None? then r == Err(BadBuffer)
    else
      var bytes := ViewBytes(AsView(buffer).value);
      if from + size > |bytes| then r == Err(OutOfBounds)
      else if connected && (Truthy(port) || Truthy(address)) then r == Err(AlreadyConnected)
      else Validated(connected, bytes[from..from + size], port, address, cb, r)
  }

  ghost predicate WholeOutcome(connected: bool, buffer: Value, port: Value, address: Value, cb: Value,
                               r: Result<Request>)
  {
    if connected && (Truthy(port) || Truthy(address)) then r == Err(AlreadyConnected)
    else if !IsMessage(buffer) then r == Err(BadBuffer)
    else Validated(connected, MessageBytes(buffer), port, address, cb, r)
  }

  method SendSlice(connected: bool, buffer: Value, from: nat, size: nat, port: Value, address: Value, cb: Value)
    returns (r: Result<Request>)
    ensures SlicedOutcome(connected, buffer, from, size, port, address, cb, r)
  {
    var slice := SliceBuffer(buffer, from, size);
    if slice.Err? { return Err(slice.error); }
    if connected && (Truthy(port) || Truthy(address)) { return Err(AlreadyConnected); }
    r := Validate(connected, slice.value, port, address, cb);
  }

  method SendWhole(connected: bool, buffer: Value, port: Value, address: Value, cb: Value) returns (r: Result<Request>)
    ensures WholeOutcome(connected, buffer, port, address, cb, r)
  {
    if connected && (Truthy(port) || Truthy(address)) { return Err(AlreadyConnected); }
    r := Validate(connected, buffer, port, address, cb);
  }

  ghost predicate ConnectedOutcome(call: Call, convert: Value -> Number, r: Result<Request>, port: Value, cb: Value) {
    if call.length.Num? then
      && port == (if call.port.Function? then Null else call.port)
      && cb == (if call.port.Function? then call.port else call.cb)
      && SlicedOutcome(true, call.buffer, ToUint32(ToNumber(call.offset, convert)),
                       ToUint32(ToNumber(call.length, convert)), port, call.address, cb, r)
    else
      && (if call.offset.Undefined? || call.offset.Function? then port == call.port && cb == call.offset
          else port == call.offset && cb == call.cb)
      && WholeOutcome(true, call.buffer, port, call.address, cb, r)
  }

  lemma ConnectedReads(call: Call, convert: Value -> Number, r: Result<Request>, port: Value, cb: Value)
    requires ConnectedOutcome(call, convert, r, port, cb)
    ensures Reads(true, call, r)
  {
    hide ToUint32, Concat, ItemBytes, Utf8, ViewBytes, P.HostOk;
    forall ov | call == Raw(ov) && Documented(true, ov) ensures Means(true, ov, r) {
      ConnectedMeans(call, convert, r, port, cb, ov);
    }
  }

  lemma ConnectedMeans(call: Call, convert: Value -> Number, r: Result<Request>, port: Value, cb: Value, ov: Overload)
    requires ConnectedOutcome(call, convert, r, port, cb)
    requires call == Raw(ov) && Documented(true, ov)
    ensures Means(true, ov, r)
  {
    hide ToUint32, Concat, ItemBytes, Utf8, ViewBytes, P.HostOk;
  }

  ghost predicate UnconnectedOutcome(call: Call, convert: Value -> Number, r: Result<Request>) {
    if Truthy(call.address) || (Truthy(call.port) && !call.port.Function?) then
      SlicedOutcome(false, call.buffer, ToUint32(ToNumber(call.offset, convert)),
                    ToUint32(ToNumber(call.length, convert)), call.port, call.address, call.cb, r)
    else WholeOutcome(false, call.buffer, call.offset, call.length, call.port, r)
  }

  lemma UnconnectedReads(call: Call, convert: Value -> Number, r: Result<Request>)
    requires UnconnectedOutcome(call, convert, r)
    ensures Reads(false, call, r)
  {
    hide ToUint32, Concat, ItemBytes, Utf8, ViewBytes, P.HostOk;
    forall ov | call == Raw(ov) && Documented(false, ov) ensures Means(false, ov, r) {
      UnconnectedMeans(call, convert, r, ov);
    }
  }

  lemma UnconnectedMeans(call: Call, convert: Value -> Number, r: Result<Request>, ov: Overload)
    requires UnconnectedOutcome(call, convert, r)
    requires call == Raw(ov) && Documented(false, ov)
    ensures Means(false, ov, r)
  {
    hide ToUint32, Concat, ItemBytes, Utf8, ViewBytes, P.HostOk;
  }

  /** The argument handling of `send`. */
  method Arguments(connected: bool, call: Call, convert: Value -> Number) returns (r: Result<Request>)
    ensures Reads(connected, call, r)
  {
    hide Truthy, ToUint32, SlicedOutcome, WholeOutcome, Reads;
    var port, address, cb := call.port, call.address, call.cb;
    var from, size := ToUint32(ToNumber(call.offset, convert)), ToUint32(ToNumber(call.length, convert));
    if connected {
      if call.length.Num? {
        if port.Function? {
          cb := port;
          port := Null;
        }
        r := SendSlice(true, call.buffer, from, size, port, address, cb);
      } else {
        if call.offset.Undefined? || call.offset.Function? {
          cb := call.offset;
        } else {
          port := call.offset;
        }
        r := SendWhole(true, call.buffer, port, address, cb);
      }
      ConnectedReads(call, convert, r, port, cb);
    } else {
      if Truthy(address) || (Truthy(port) && !port.Function?) {
        r := SendSlice(false, call.buffer, from, size, port, address, cb);
      } else {
        cb := port;
        port := call.offset;
        address := call.length;
        r := SendWhole(false, call.buffer, port, address, cb);
      }
      UnconnectedReads(call, convert, r);
    }
  }
}
