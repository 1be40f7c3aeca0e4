// The intrusive singly linked list of list.h, on which co_event_t keeps its waiters.

module IntrusiveList {

  // list_el_t: the link embedded in every element
  class ListEl {
    var next: ListEl?

    constructor ()
      ensures next == null
    {
      next := null;
    }
  }

  // list_head_t, with the elements it links in ghost field `els`
  class ListHead {
    var first: ListEl?
    ghost var els: seq<ListEl>

    ghost predicate Valid()
      reads this, els
    {
      && first == LinkAt(0)
      && (forall i :: 0 <= i < |els| ==> els[i].next == LinkAt(i + 1))
      && (forall i, j :: 0 <= i < j < |els| ==> els[i] != els[j])
    }

    // What the link in front of position i must point to
    ghost function LinkAt(i: nat): ListEl?
      reads this
    {
      if i < |els| then els[i] else null
    }

    constructor ()
      ensures Valid() && els == []
    {
      first := null;
      els := [];
    }

    // The element must come in unlinked: list_append never writes el.next.
    method Append(el: ListEl)
      requires Valid() && el !in els && el.next == null
      modifies this, els
      ensures Valid() && els == old(els) + [el]
      ensures el.next == null
    {
      if first == null {
        first := el;
      } else {
        var last: ListEl := first;
        ghost var i := 0;
        while last.next != null
          invariant 0 <= i < |els| && last == els[i]
          decreases |els| - i
        {
          last := last.next;
          i := i + 1;
        }
        assert i == |els| - 1;
        last.next := el;
      }
      els := els + [el];
    }

    method PopFront() returns (el: ListEl?)
      requires Valid()
      modifies this, els
      ensures Valid()
      ensures old(els) == [] ==> el == null && els == []
      ensures old(els) != [] ==> el == old(els)[0] && el.next == null && els == old(els)[1..]
    {
      el := first;
      if el != null {
        first := el.next;
        el.next := null;
        els := els[1..];
      }
    }

    // Every dropped element leaves unlinked, ready to be appended again.
    method Clear()
      requires Valid()
      modifies this, els
      ensures Valid() && els == []
      ensures forall el :: el in old(els) ==> el.next == null
    {
      ghost var n, all := 0, els;
      while first != null
        invariant Valid()
        invariant 0 <= n <= |all| && els == all[n..]
        invariant forall i :: 0 <= i < n ==> all[i].next == null
        decreases |els|
      {
        assert forall i :: 0 <= i < n ==> all[i] !in els;
        var _ := PopFront();
        n := n + 1;
      }
      first := null;
    }
  }
}
