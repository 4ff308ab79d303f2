/** `deliver` as it works: the caller's bytes are moved to the front of the buffer. */
module Delivery {
  import opened Base
  import opened LogicalRead

  method DeliverInPlace(p: Pending, buf: array<byte>, open: bool) returns (out: seq<byte>)
    requires p.Shaped(buf.Length)
    modifies buf
    ensures out == Deliver(p, old(buf[..]), open)
    ensures !open ==> buf[..] == old(buf[..])
  {
    if !open {
      return [];
    }
    var avail := Avail(p);
    var start := p.pad + p.head;
    if start != 0 && avail != 0 {
      for i := 0 to avail
        invariant forall k :: 0 <= k < i ==> buf[k] == old(buf[start + k])
        invariant forall k :: i <= k < buf.Length ==> buf[k] == old(buf[k])
      {
        buf[i] := buf[start + i];
      }
    }
    out := buf[..avail];
    ghost var was := old(buf[..]);
    assert forall k :: 0 <= k < avail ==> out[k] == was[start..start + avail][k];
  }
}
