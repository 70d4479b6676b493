/**
 The memory of one `bare_dgram_send` of binding.c: two temporary arrays and a request block, any of which malloc may
 refuse. Whatever fails, everything is freed that libuv does not keep, nothing is freed twice, and the buffers
 handed to libuv are those of the list, in order.
 */
module SendMemory {
  import opened IpForm

  /** What malloc returns: the address of a block, or NULL. */
  type Allocation = Option<nat>

  class Heap {
    var live: set<nat>
    var next: nat

    ghost predicate Valid()
      reads this
    {
      forall p | p in live :: p < next
    }

    constructor ()
      ensures Valid() && live == {}
    {
      live, next := {}, 0;
    }

    method Malloc(fails: bool) returns (p: Allocation)
      requires Valid()
      modifies this
      ensures Valid() && p.None? == fails
      ensures live == old(live) + if p.Some? then {p.value} else {}
      ensures p.Some? ==> p.value !in old(live)
    {
      if fails { return None; }
      p := Some(next);
      live := live + {next};
      next := next + 1;
    }

    /** Freeing what is not allocated is an error, except for NULL, which does nothing. */
    method Free(p: Allocation)
      requires Valid() && (p.Some? ==> p.value in live)
      modifies this
      ensures Valid() && live == old(live) - if p.Some? then {p.value} else {}
    {
      if p.Some? { live := live - {p.value}; }
    }
  }

  /** A typed array of the list, as seen from C, and a `uv_buf_t`. */
  datatype TypedArray = TypedArray(base: int, length: nat)

  datatype UvBuf = UvBuf(base: int, len: nat)

  /** Which of the three allocations are refused, and what uv_udp_send answers. */
  datatype Faults = Faults(bufs: bool, elements: bool, req: bool, send: int)

  /** `bare_dgram__buffers` */
  method Buffers(heap: Heap, list: seq<TypedArray>, faults: Faults)
    returns (ok: bool, p: Allocation, bufs: array<UvBuf>)
    requires heap.Valid()
    modifies heap
    ensures heap.Valid() && fresh(bufs)
    ensures ok <==> list == [] || (!faults.bufs && !faults.elements)
    ensures heap.live == old(heap.live) + if ok && p.Some? then {p.value} else {}
    ensures p.Some? ==> p.value !in old(heap.live)
    ensures ok ==> bufs.Length == |list| &&
                   forall i | 0 <= i < |list| :: bufs[i] == UvBuf(list[i].base, list[i].length)
  {
    p := heap.Malloc(faults.bufs);
    var elements := heap.Malloc(faults.elements);
    if (p.None? || elements.None?) && |list| > 0 {
      heap.Free(p);
      heap.Free(elements);
      bufs := new UvBuf[0](_ => UvBuf(0, 0));
      return false, p, bufs;
    }
    bufs := new UvBuf[|list|](_ => UvBuf(0, 0));
    for i := 0 to |list|
      modifies bufs
      invariant forall k | 0 <= k < i :: bufs[k] == UvBuf(list[k].base, list[k].length)
    {
      bufs[i] := UvBuf(list[i].base, list[i].length);
    }
    heap.Free(elements);
    return true, p, bufs;
  }

  /** The buffers of a list, as given to libuv. */
  function Sent(list: seq<TypedArray>): seq<UvBuf> {
    seq(|list|, i requires 0 <= i < |list| => UvBuf(list[i].base, list[i].length))
  }

  /** The call: `req` is the block libuv keeps, and `sent` is what it was given, if it was called at all. */
  method SendCall(heap: Heap, list: seq<TypedArray>, faults: Faults)
    returns (req: Allocation, threw: bool, sent: Option<seq<UvBuf>>)
    requires heap.Valid()
    modifies heap
    ensures heap.Valid()
    ensures heap.live == old(heap.live) + if req.Some? then {req.value} else {}
    ensures req.Some? ==> req.value !in old(heap.live)
    ensures threw <==> req.None?
    ensures threw <==> (list != [] && (faults.bufs || faults.elements)) || faults.req || faults.send < 0
    ensures sent.Some? ==> sent.value == Sent(list)
    ensures !threw ==> sent.Some?
  {
    var ok, bufs, entries := Buffers(heap, list, faults);
    if !ok { return None, true, None; }
    req := heap.Malloc(faults.req);
    if req.None? {
      heap.Free(bufs);
      return None, true, None;
    }
    sent := Some(entries[..]);
    heap.Free(bufs);
    if faults.send < 0 {
      heap.Free(req);
      return None, true, sent;
    }
    threw := false;
  }
}
