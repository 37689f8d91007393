// The registry of the resources a reconciliation manages, in registration order.

module Registry {
  import opened Wrappers
  import opened Errors
  import RO = ResourceObjects
  import MO = MutableObjects

  /** A registered resource: a plain resource object or a mutable one. */
  datatype Resource = Immutable(plain: RO.ResourceObject) | Mutable(mutable: MO.MutableResourceObject) {
    /** The underlying resource object. */
    function Object(): RO.ResourceObject {
      match this
      case Immutable(o) => o
      case Mutable(m) => m.res
    }

    function Index(): string {
      Object().Index()
    }
  }

  /** The position of the first entry with that index, if any. */
  function FirstWithIndex(elems: seq<Resource>, index: string): (p: Option<nat>)
    ensures p.Some? ==> p.value < |elems| && elems[p.value].Index() == index
    ensures p.Some? ==> forall j :: 0 <= j < p.value ==> elems[j].Index() != index
    ensures p.None? ==> forall j :: 0 <= j < |elems| ==> elems[j].Index() != index
    decreases |elems|
  {
    if elems == [] then None
    else if elems[0].Index() == index then Some(0)
    else match FirstWithIndex(elems[1..], index)
      case None => None
      case Some(p) => Some(p + 1)
  }

  /** getEntry: the first entry, in order, with that index, or nothing. */
  method GetEntryOf(elems: seq<Resource>, index: string) returns (r: Option<Resource>)
    ensures r == match FirstWithIndex(elems, index) case None => None case Some(p) => Some(elems[p])
  {
    for i := 0 to |elems|
      invariant forall j :: 0 <= j < i ==> elems[j].Index() != index
    {
      if elems[i].Index() == index {
        FirstIsUnique(elems, index, i);
        return Some(elems[i]);
      }
    }
    return None;
  }

  /** An entry with the index that no earlier entry has is the first one. */
  lemma FirstIsUnique(elems: seq<Resource>, index: string, i: nat)
    requires i < |elems| && elems[i].Index() == index
    requires forall j :: 0 <= j < i ==> elems[j].Index() != index
    ensures FirstWithIndex(elems, index) == Some(i)
  { }

  class Registry {
    var elems: seq<Resource>

    /** New: an empty registry. */
    constructor New()
      ensures elems == []
    {
      elems := [];
    }

    /** Reset: drop every entry. */
    method Reset()
      modifies this
      ensures elems == []
    {
      elems := [];
    }

    /** AddEntry: always appends (duplicates included) and never fails. */
    method AddEntry(entry: Resource) returns (err: Error)
      modifies this
      ensures elems == old(elems) + [entry] && err == Nil
    {
      elems := elems + [entry];
      return Nil;
    }

    method GetEntry(index: string) returns (r: Option<Resource>)
      ensures r == match FirstWithIndex(elems, index) case None => None case Some(p) => Some(elems[p])
    {
      r := GetEntryOf(elems, index);
    }

    /** Entries: every entry in insertion order. */
    function Entries(): seq<Resource>
      reads this
    {
      elems
    }
  }

  /** A registered entry is found by its index unless an earlier entry has the same index. */
  lemma AddedEntryIsFound(elems: seq<Resource>, entry: Resource)
    requires forall j :: 0 <= j < |elems| ==> elems[j].Index() != entry.Index()
    ensures FirstWithIndex(elems + [entry], entry.Index()) == Some(|elems|)
  {
    FirstIsUnique(elems + [entry], entry.Index(), |elems|);
  }

  /** Appending never changes what an existing index finds. */
  lemma {:induction false} AppendKeepsFirst(elems: seq<Resource>, entry: Resource, index: string)
    requires FirstWithIndex(elems, index).Some?
    ensures FirstWithIndex(elems + [entry], index) == FirstWithIndex(elems, index)
  {
    var p := FirstWithIndex(elems, index).value;
    FirstIsUnique(elems + [entry], index, p);
  }
}
