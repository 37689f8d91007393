// Editing an object's finalizer list.

module Finalizers {
  import Kube

  /** The list with every occurrence of name removed, the other entries in their order. */
  function Without(s: seq<string>, name: string): seq<string>
    decreases |s|
  {
    if s == [] then [] else (if s[0] == name then [] else [s[0]]) + Without(s[1..], name)
  }

  /** The list with name appended unless it is already there. */
  function Added(s: seq<string>, name: string): seq<string> {
    if name in s then s else s + [name]
  }

  /** HasFinalizer: whether the object carries the finalizer. */
  method HasFinalizer(obj: Kube.Object, finalizer: string) returns (found: bool)
    ensures found <==> finalizer in obj.finalizers
  {
    var f := obj.finalizers;
    for i := 0 to |f|
      invariant finalizer !in f[..i]
    {
      if f[i] == finalizer {
        return true;
      }
    }
    return false;
  }

  /** AddFinalizer: append the finalizer unless it is already present. */
  method AddFinalizer(obj: Kube.Object, finalizer: string)
    modifies obj`finalizers
    ensures obj.finalizers == Added(old(obj.finalizers), finalizer)
  {
    var f := obj.finalizers;
    for i := 0 to |f|
      invariant finalizer !in f[..i]
    {
      if f[i] == finalizer {
        return;
      }
    }
    assert f[..|f|] == f;
    obj.finalizers := f + [finalizer];
  }

  /**
   * RemoveFinalizer: splice out each matching entry; stepping the index back re-examines
   * the entry that moved into the freed place, so adjacent copies all go.
   */
  method RemoveFinalizer(obj: Kube.Object, finalizer: string)
    modifies obj`finalizers
    ensures obj.finalizers == Without(old(obj.finalizers), finalizer)
  {
    var f := obj.finalizers;
    var i: int := 0;
    while i < |f|
      invariant 0 <= i <= |f|
      invariant Without(old(obj.finalizers), finalizer) == f[..i] + Without(f[i..], finalizer)
      decreases |f| - i
    {
      if f[i] == finalizer {
        WithoutSplice(f, i, finalizer);
        f := f[..i] + f[i + 1..];
        i := i - 1;
      } else {
        WithoutKeep(f, i, finalizer);
      }
      i := i + 1;
    }
    assert f[i..] == [] && f[..i] == f;
    assert Without(f[i..], finalizer) == [];
    obj.finalizers := f;
  }

  /** RemoveFinalizer's splice of a matching entry keeps what the loop has still to remove. */
  lemma WithoutSplice(f: seq<string>, i: nat, name: string)
    requires i < |f| && f[i] == name
    ensures var f' := f[..i] + f[i + 1..]; f[..i] + Without(f[i..], name) == f'[..i] + Without(f'[i..], name)
  {
    var f' := f[..i] + f[i + 1..];
    assert f[i..][1..] == f[i + 1..] == f'[i..];
    assert f'[..i] == f[..i];
  }

  /** RemoveFinalizer's step past an entry that does not match. */
  lemma WithoutKeep(f: seq<string>, i: nat, name: string)
    requires i < |f| && f[i] != name
    ensures f[..i] + Without(f[i..], name) == f[..i + 1] + Without(f[i + 1..], name)
  {
    assert f[i..][1..] == f[i + 1..];
    assert f[..i + 1] == f[..i] + [f[i]];
  }

  /** After RemoveFinalizer the name is gone. */
  lemma {:induction false} WithoutRemovesAll(s: seq<string>, name: string)
    ensures name !in Without(s, name)
    decreases |s|
  {
    if s != [] {
      WithoutRemovesAll(s[1..], name);
    }
  }

  /** Every other entry keeps its number of occurrences. */
  lemma {:induction false} WithoutCounts(s: seq<string>, name: string)
    ensures forall x :: multiset(Without(s, name))[x] == if x == name then 0 else multiset(s)[x]
    decreases |s|
  {
    if s != [] {
      WithoutCounts(s[1..], name);
      assert s == [s[0]] + s[1..];
    }
  }

  /** Removal distributes over concatenation, so the remaining entries keep their relative order. */
  lemma {:induction false} WithoutAppend(a: seq<string>, b: seq<string>, name: string)
    ensures Without(a + b, name) == Without(a, name) + Without(b, name)
    decreases |a|
  {
    if a != [] {
      assert (a + b)[1..] == a[1..] + b;
      WithoutAppend(a[1..], b, name);
    } else {
      assert a + b == b;
    }
  }

  /** Removing an absent name leaves the list unchanged. */
  lemma {:induction false} WithoutAbsent(s: seq<string>, name: string)
    requires name !in s
    ensures Without(s, name) == s
    decreases |s|
  {
    if s != [] {
      WithoutAbsent(s[1..], name);
      assert s == [s[0]] + s[1..];
    }
  }

  /** Removing twice is removing once. */
  lemma WithoutIdempotent(s: seq<string>, name: string)
    ensures Without(Without(s, name), name) == Without(s, name)
  {
    WithoutRemovesAll(s, name);
    WithoutAbsent(Without(s, name), name);
  }

  /** Adding twice is adding once, and the name is present afterwards. */
  lemma AddedIdempotent(s: seq<string>, name: string)
    ensures name in Added(s, name)
    ensures Added(Added(s, name), name) == Added(s, name)
  { }

  /** Adding then removing a name is removing it. */
  lemma WithoutAdded(s: seq<string>, name: string)
    ensures Without(Added(s, name), name) == Without(s, name)
  {
    if name !in s {
      WithoutAppend(s, [name], name);
      assert Without([name], name) == [];
    }
  }
}
