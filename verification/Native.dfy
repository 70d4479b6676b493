/**
 The lifecycle and ownership part of binding.c: the handle's `closing` and `exiting` fields, the request blocks
 that are malloc'ed for a send and freed when libuv is done with them, and the references and the deferred
 teardown that are released when libuv has closed the handle.

 `Native` is the abstract state; `NativeHandle` is the mutable struct, and each of its methods is proved to
 take the abstract step named after it.
 */
module Native {
  import opened Sequences

  /** A native failure code. */
  type Code = int

  /** A `bare_dgram_send_t`. `tok` names the `send()` call it serves and `draw` numbers the ids; neither is in C. */
  datatype Block = Block(addr: nat, id: nat, tok: nat, draw: nat)

  /** How `bare_dgram_send` can end: before its block is allocated, after it, or with the request queued. */
  datatype SendResult = NotAllocated(code: Code) | Rejected(code: Code) | Queued

  datatype Native = Native(
    closing: bool,
    exiting: bool,
    reading: bool,            // receiving was started and not stopped
    uvCloses: nat,            // calls of uv_close
    closesDone: nat,          // close callbacks that have run
    refsDeleted: nat,         // times the four references were deleted
    teardownsFinished: nat,   // times the deferred teardown was finished
    queue: seq<Block>,        // requests held by libuv
    mallocs: nat,             // blocks ever allocated; also the next address
    freed: seq<nat>           // addresses passed to free, in order
  )

  const Fresh := Native(false, false, false, 0, 0, 0, 0, [], 0, [])

  function Remove<T>(xs: seq<T>, k: nat): seq<T>
    requires k < |xs|
  {
    xs[..k] + xs[k + 1..]
  }

  function Send(n: Native, id: nat, tok: nat, draw: nat, result: SendResult): Native {
    match result
    case NotAllocated(_) => n
    case Rejected(_) => n.(mallocs := n.mallocs + 1, freed := n.freed + [n.mallocs])
    case Queued => n.(mallocs := n.mallocs + 1, queue := n.queue + [Block(n.mallocs, id, tok, draw)])
  }

  /** libuv is done with the k-th request: its block is freed, whatever happens next. */
  function OnSend(n: Native, k: nat): Native
    requires k < |n.queue|
  {
    n.(queue := Remove(n.queue, k), freed := n.freed + [n.queue[k].addr])
  }

  /** uv_close, which also stops receiving. */
  function UvClose(n: Native): Native {
    n.(uvCloses := n.uvCloses + 1, reading := false)
  }

  function Close(n: Native): Native {
    if n.closing then n else UvClose(n.(closing := true))
  }

  function OnTeardown(n: Native): Native {
    var n1 := n.(exiting := true);
    if n.closing then n1 else UvClose(n1)
  }

  /** libuv runs the close callback once per uv_close, after every queued request has been completed. */
  predicate CanClose(n: Native) {
    n.closesDone < n.uvCloses && n.queue == []
  }

  function OnClose(n: Native): Native
    requires CanClose(n)
  {
    n.(closesDone := n.closesDone + 1, refsDeleted := n.refsDeleted + 1,
       teardownsFinished := n.teardownsFinished + 1)
  }

  /** A read reported by libuv: a datagram, a truncated one, an error, or nothing to read. */
  datatype Read = Datagram(length: nat) | Truncated(length: nat) | ReadError(code: Code) | Nothing

  const EMSGSIZE: Code := -90

  /** What `on_message` passes to JavaScript: nothing, an error, or the first `length` bytes of the read buffer. */
  datatype Delivery = Dropped | Failed(code: Code) | Delivered(length: nat)

  function OnMessage(n: Native, read: Read): Delivery {
    if read.Nothing? || n.closing || n.exiting then Dropped
    else match read
      case Truncated(_) => Failed(EMSGSIZE)
      case ReadError(code) => Failed(code)
      case Datagram(length) => Delivered(length)
      case Nothing => Dropped
  }

  // Ownership

  function Addresses(queue: seq<Block>): multiset<nat> {
    if queue == [] then multiset{} else Addresses(queue[..|queue| - 1]) + multiset{queue[|queue| - 1].addr}
  }

  /** Every block ever allocated is either queued or has been freed, and exactly one of the two, once. */
  ghost predicate OwnershipOk(n: Native) {
    forall a: nat :: Owned(n)[a] == if a < n.mallocs then 1 else 0
  }

  function Owned(n: Native): multiset<nat> {
    Addresses(n.queue) + multiset(n.freed)
  }

  /** The close protocol, as long as JavaScript does not close the handle once its teardown has begun. */
  ghost predicate CloseOk(n: Native) {
    && n.uvCloses == (if n.closing || n.exiting then 1 else 0)
    && n.closesDone == n.refsDeleted == n.teardownsFinished <= n.uvCloses
    && (n.closesDone > 0 ==> n.queue == [])
  }

  lemma {:induction false} AddressesAppend(xs: seq<Block>, ys: seq<Block>)
    ensures Addresses(xs + ys) == Addresses(xs) + Addresses(ys)
  {
    if ys == [] {
      assert xs + ys == xs;
    } else {
      assert (xs + ys)[..|xs + ys| - 1] == xs + ys[..|ys| - 1];
      AddressesAppend(xs, ys[..|ys| - 1]);
    }
  }

  lemma AddressesSnoc(queue: seq<Block>, b: Block)
    ensures Addresses(queue + [b]) == Addresses(queue) + multiset{b.addr}
  {
    assert (queue + [b])[..|queue|] == queue;
  }

  lemma AddressesRemove(queue: seq<Block>, k: nat)
    requires k < |queue|
    ensures Addresses(queue) == Addresses(Remove(queue, k)) + multiset{queue[k].addr}
  {
    hide Addresses;
    CutAt(queue, k);
    AddressesSnoc(queue[..k], queue[k]);
    AddressesAppend(queue[..k] + [queue[k]], queue[k + 1..]);
    AddressesAppend(queue[..k], queue[k + 1..]);
  }

  lemma SendOwnership(n: Native, id: nat, tok: nat, draw: nat, result: SendResult)
    requires OwnershipOk(n)
    ensures OwnershipOk(Send(n, id, tok, draw, result))
  {
    assert multiset(n.freed + [n.mallocs]) == multiset(n.freed) + multiset{n.mallocs};
    assert (n.queue + [Block(n.mallocs, id, tok, draw)])[..|n.queue|] == n.queue;
    assert !result.NotAllocated? ==> Owned(Send(n, id, tok, draw, result)) == Owned(n) + multiset{n.mallocs};
  }

  lemma OnSendOwnership(n: Native, k: nat)
    requires OwnershipOk(n) && k < |n.queue|
    ensures OwnershipOk(OnSend(n, k))
  {
    AddressesRemove(n.queue, k);
    var addr := n.queue[k].addr;
    assert multiset(n.freed + [addr]) == multiset(n.freed) + multiset{addr};
    assert Owned(OnSend(n, k)) == Owned(n);
  }

  /** Closing from JavaScript after the teardown has begun calls uv_close a second time. */
  lemma CloseAfterTeardownClosesTwice()
    ensures CloseOk(OnTeardown(Fresh)) && Close(OnTeardown(Fresh)).uvCloses == 2
  {
  }

  /** The exact condition: a JavaScript close keeps the protocol unless it is the first one and comes too late. */
  lemma CloseKeepsProtocol(n: Native)
    requires CloseOk(n)
    ensures CloseOk(Close(n)) <==> n.closing || !n.exiting
  {
  }

  /** The handle of binding.c: a mutable struct. */
  class NativeHandle {
    var closing: bool
    var exiting: bool
    var reading: bool
    var uvCloses: nat
    var closesDone: nat
    var refsDeleted: nat
    var teardownsFinished: nat
    var queue: seq<Block>
    var mallocs: nat
    var freed: seq<nat>

    function View(): Native
      reads this
    {
      Native(closing, exiting, reading, uvCloses, closesDone, refsDeleted, teardownsFinished, queue, mallocs, freed)
    }

    constructor ()
      ensures View() == Fresh
    {
      closing, exiting, reading := false, false, false;
      uvCloses, closesDone, refsDeleted, teardownsFinished := 0, 0, 0, 0;
      queue, mallocs, freed := [], 0, [];
    }

    /** Returns whether it throws. */
    method SendRequest(id: nat, tok: nat, draw: nat, result: SendResult) returns (threw: bool)
      modifies this
      ensures View() == Send(old(View()), id, tok, draw, result)
      ensures threw == !result.Queued?
    {
      if result.NotAllocated? {
        return true;
      }
      var block := mallocs;
      mallocs := mallocs + 1;
      if result.Rejected? {
        freed := freed + [block];
        return true;
      }
      queue := queue + [Block(block, id, tok, draw)];
      return false;
    }

    method Receive(on: bool)
      modifies this
      ensures View() == old(View()).(reading := on)
    {
      reading := on;
    }

    /** Returns whether the completion is passed on to JavaScript. */
    method RequestDone(k: nat) returns (id: nat, tell: bool)
      requires k < |queue|
      modifies this
      ensures View() == OnSend(old(View()), k)
      ensures id == old(queue[k].id) && tell == !exiting
    {
      var block := queue[k];
      queue := queue[..k] + queue[k + 1..];
      id := block.id;
      freed := freed + [block.addr];
      tell := !exiting;
    }

    method CloseUv()
      modifies this
      ensures View() == UvClose(old(View()))
    {
      uvCloses := uvCloses + 1;
      reading := false;
    }

    method CloseHandle()
      modifies this
      ensures View() == Close(old(View()))
    {
      if closing { return; }
      closing := true;
      CloseUv();
    }

    method Teardown()
      modifies this
      ensures View() == OnTeardown(old(View()))
    {
      exiting := true;
      if closing { return; }
      CloseUv();
    }

    /** Returns whether the completion is passed on to JavaScript. */
    method HandleClosed() returns (tell: bool)
      requires CanClose(View())
      modifies this
      ensures View() == OnClose(old(View())) && tell == !exiting
    {
      closesDone := closesDone + 1;
      refsDeleted := refsDeleted + 1;
      tell := !exiting;
      teardownsFinished := teardownsFinished + 1;
    }
  }
}
