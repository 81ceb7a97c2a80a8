/** Go slices of hook entries on the heap: a backing array with spare capacity, shared by
    every slice value taken from it. */
module GoSlices {
  import opened RegistrySpec

  /** A slice starting at its array's first element; the capacity is the array's length.
      The nil slice is a slice of capacity zero. */
  datatype Slice = Slice(arr: array<HookEntry>, len: nat)

  ghost predicate Fits(s: Slice) { s.len <= s.arr.Length }

  ghost function Elems(s: Slice): seq<HookEntry>
    requires Fits(s)
    reads s.arr
  {
    s.arr[..s.len]
  }

  method Grow(s: Slice, capacity: nat) returns (r: Slice)
    requires Fits(s) && s.len <= capacity
    ensures fresh(r.arr) && r.arr.Length == capacity && r.len == s.len && Elems(r) == Elems(s)
  {
    var arr := new HookEntry[capacity];
    for i := 0 to s.len
      invariant arr[..i] == s.arr[..i]
    {
      arr[i] := s.arr[i];
    }
    r := Slice(arr, s.len);
  }

  /** append writes in place while there is room and reallocates otherwise. Only the
      element just past the slice can change. */
  method Append(s: Slice, e: HookEntry) returns (r: Slice)
    requires Fits(s)
    modifies if s.len < s.arr.Length then {s.arr} else {}
    ensures Fits(r) && Elems(r) == old(Elems(s)) + [e]
    ensures r.len == s.len + 1
    ensures if s.len < s.arr.Length then r.arr == s.arr else fresh(r.arr)
    ensures s.arr[..s.len] == old(s.arr[..s.len])
  {
    if s.len < s.arr.Length {
      s.arr[s.len] := e;
      r := Slice(s.arr, s.len + 1);
    } else {
      var capacity: nat :| capacity > s.len;
      var grown := Grow(s, capacity);
      grown.arr[s.len] := e;
      r := Slice(grown.arr, s.len + 1);
    }
  }

  method Contains(s: Slice, e: HookEntry) returns (found: bool)
    requires Fits(s)
    ensures found <==> e in Elems(s)
  {
    for i := 0 to s.len
      invariant e !in s.arr[..i]
    {
      if s.arr[i] == e {
        assert Elems(s)[i] == e;
        return true;
      }
    }
    found := false;
  }

  /** removeFrom clones before it deletes: no existing array is written. */
  method RemoveFrom(s: Slice, e: HookEntry) returns (r: Slice)
    requires Fits(s)
    ensures Fits(r) && Elems(r) == Without(Elems(s), e)
    ensures r == s || fresh(r.arr)
  {
    var found := Contains(s, e);
    if !found {
      WithoutAbsent(Elems(s), e);
      return s;
    }
    var capacity: nat :| capacity >= s.len;
    var clone := Grow(s, capacity);
    var kept := Delete(clone, e);
    r := Slice(clone.arr, kept);
  }

  /** slices.DeleteFunc compacts the slice in place. */
  method Delete(s: Slice, e: HookEntry) returns (kept: nat)
    requires Fits(s)
    modifies s.arr
    ensures kept <= s.len && s.arr[..kept] == Without(old(Elems(s)), e)
  {
    ghost var xs := Elems(s);
    kept := 0;
    for i := 0 to s.len
      invariant kept <= i
      invariant s.arr[..kept] == Without(xs[..i], e)
      invariant forall k :: i <= k < s.len ==> s.arr[k] == xs[k]
    {
      WithoutNext(xs, i, e);
      if s.arr[i] != e {
        s.arr[kept] := s.arr[i];
        kept := kept + 1;
      }
    }
    assert xs[..s.len] == xs;
  }

  lemma WithoutNext(xs: seq<HookEntry>, i: nat, e: HookEntry)
    requires i < |xs|
    ensures Without(xs[..i + 1], e) == if xs[i] == e then Without(xs[..i], e) else Without(xs[..i], e) + [xs[i]]
  {
    assert xs[..i + 1] == xs[..i] + [xs[i]];
    WithoutAppend(xs[..i], xs[i], e);
  }
}
