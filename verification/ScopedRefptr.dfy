/**
 * scoped_refptr over a counted object: each operation leaves, for every object, the difference between its
 * count and the pointers to it as it was, and an object is deleted by the release that brings its count to 0.
 */
module ScopedRefptrs {
  class Counted {
    var refs: int
    var deleted: bool

    constructor ()
      ensures refs == 0 && !deleted
    {
      refs, deleted := 0, false;
    }

    method AddRef()
      requires !deleted
      modifies this`refs
      ensures refs == old(refs) + 1
    {
      refs := refs + 1;
    }

    method Release()
      requires !deleted
      modifies this
      ensures refs == old(refs) - 1 && (deleted <==> refs == 0)
    {
      refs := refs - 1;
      if refs == 0 {
        deleted := true;
      }
    }
  }

  function PointsTo(p: Counted?, c: Counted): int {
    if p == c then 1 else 0
  }

  /** The references of c that are not accounted for by the pointer p. */
  function Others(p: Counted?, c: Counted): int
    reads c
  {
    c.refs - PointsTo(p, c)
  }

  class ScopedRefptr {
    var ptr: Counted?

    /** A pointer owns one of the references of a live object. */
    ghost predicate Valid()
      reads this, ptr
    {
      ptr != null ==> !ptr.deleted && ptr.refs >= 1
    }

    constructor Empty()
      ensures ptr == null
    {
      ptr := null;
    }

    constructor FromRaw(p: Counted?)
      requires p != null ==> !p.deleted && p.refs >= 0
      modifies p
      ensures ptr == p && Valid()
      ensures p != null ==> Others(ptr, p) == old(p.refs)
    {
      ptr := p;
      new;
      if ptr != null {
        ptr.AddRef();
      }
    }

    constructor Copy(r: ScopedRefptr)
      requires r.Valid()
      modifies r.ptr
      ensures ptr == r.ptr == old(r.ptr) && Valid() && r.Valid()
      ensures ptr != null ==> Others(ptr, ptr) == old(r.ptr.refs)
    {
      ptr := r.ptr;
      new;
      if ptr != null {
        ptr.AddRef();
      }
    }

    /** Takes over the reference of r, which is left empty; no count changes. */
    constructor Move(r: ScopedRefptr)
      requires r.Valid()
      modifies r
      ensures ptr == old(r.ptr) && r.ptr == null && Valid()
    {
      var p := r.ptr;
      ptr := p;
      new;
      r.ptr := null;
    }

    /** The destructor. */
    method Destroy()
      requires Valid()
      modifies this, ptr
      ensures ptr == null
      ensures old(ptr) != null ==>
                old(ptr).refs == old(Others(ptr, ptr)) && (old(ptr).deleted <==> old(Others(ptr, ptr)) == 0)
    {
      if ptr != null {
        ptr.Release();
      }
      ptr := null;
    }

    /** Hands the reference to the caller. */
    method Release() returns (p: Counted?)
      modifies this
      ensures p == old(ptr) && ptr == null
    {
      p := ptr;
      ptr := null;
    }

    /** AddRef comes first, so assigning a pointer to itself deletes nothing. */
    method Assign(p: Counted?)
      requires Valid() && (p != null ==> !p.deleted && p.refs >= 0)
      modifies this, ptr, p
      ensures ptr == p && Valid()
      ensures forall c: Counted :: c == p || c == old(ptr) ==> Others(ptr, c) == old(Others(ptr, c))
      ensures p != null ==> !p.deleted
      ensures old(ptr) != null && old(ptr) != p ==> (old(ptr).deleted <==> old(Others(ptr, ptr)) == 0)
    {
      if p != null {
        p.AddRef();
      }
      if ptr != null {
        ptr.Release();
      }
      ptr := p;
    }

    method AssignFrom(r: ScopedRefptr)
      requires Valid() && r.Valid()
      modifies this, ptr, r.ptr
      ensures ptr == r.ptr == old(r.ptr) && Valid() && r.Valid()
      ensures forall c: Counted :: c == old(r.ptr) || c == old(ptr) ==> Others(ptr, c) == old(Others(ptr, c))
      ensures old(ptr) != null && old(ptr) != old(r.ptr) ==> (old(ptr).deleted <==> old(Others(ptr, ptr)) == 0)
    {
      Assign(r.ptr);
    }

    method Swap(r: ScopedRefptr)
      modifies this, r
      ensures ptr == old(r.ptr) && r.ptr == old(ptr)
    {
      var p := ptr;
      ptr := r.ptr;
      r.ptr := p;
    }

    /** Move assignment: what this held goes with a temporary, what r held comes here. */
    method MoveFrom(r: ScopedRefptr)
      requires Valid() && r.Valid() && (r != this && ptr != null && ptr == r.ptr ==> ptr.refs >= 2)
      modifies this, r, ptr, r.ptr
      ensures ptr == old(r.ptr) && Valid() && (r != this ==> r.ptr == null)
      ensures r != this ==>
                forall c: Counted :: c == old(r.ptr) || c == old(ptr) ==> Others(ptr, c) == old(Others(ptr, c)) - old(PointsTo(r.ptr, c))
      ensures r == this ==> ptr == null || (ptr.refs == old(ptr.refs) && !ptr.deleted)
      ensures r != this && old(ptr) != null ==> (old(ptr).deleted <==> old(ptr.refs) == 1)
    {
      var temporary := new ScopedRefptr.Move(r);
      temporary.Swap(this);
      temporary.Destroy();
    }
  }
}
