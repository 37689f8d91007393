// The Secret mutation helper: before the hash is taken over a Secret's Data, the
// StringData entries are merged into it.

module SecretHelpers {
  import opened Wrappers
  import opened Errors

  type Byte = x: int | 0 <= x < 256
  /** Go strings are byte sequences, so converting a string value to []byte keeps its bytes. */
  type Bytes = seq<Byte>

  class Secret {
    var data: Option<map<string, Bytes>>
    var stringData: Option<map<string, Bytes>>

    constructor (data: Option<map<string, Bytes>>, stringData: Option<map<string, Bytes>>)
      ensures this.data == data && this.stringData == stringData
    {
      this.data, this.stringData := data, stringData;
    }
  }

  /** A Go map's contents: a nil map has none. */
  function Entries(m: Option<map<string, Bytes>>): map<string, Bytes> {
    if m.None? then map[] else m.value
  }

  /** The Data map after the merge: StringData entries win, a nil Data stays nil when there is nothing to merge. */
  function Merged(data: Option<map<string, Bytes>>, stringData: Option<map<string, Bytes>>): Option<map<string, Bytes>> {
    if data.None? && Entries(stringData) == map[] then None else Some(Entries(data) + Entries(stringData))
  }

  /** Every StringData key lands in Data with its bytes, and every other Data entry is kept. */
  lemma MergedMeaning(data: Option<map<string, Bytes>>, stringData: Option<map<string, Bytes>>)
    ensures forall k :: k in Entries(stringData) ==> k in Entries(Merged(data, stringData)) && Entries(Merged(data, stringData))[k] == Entries(stringData)[k]
    ensures forall k :: k !in Entries(stringData) ==> (k in Entries(Merged(data, stringData)) <==> k in Entries(data))
    ensures forall k :: k !in Entries(stringData) && k in Entries(data) ==> Entries(Merged(data, stringData))[k] == Entries(data)[k]
  { }

  /** With nothing in StringData, Data is unchanged (nil included). */
  lemma MergedEmpty(data: Option<map<string, Bytes>>, stringData: Option<map<string, Bytes>>)
    requires Entries(stringData) == map[]
    ensures Merged(data, stringData) == data
  {
    if data.Some? {
      assert data.value + map[] == data.value;
    }
  }

  /** Merging twice is merging once. */
  lemma MergedIdempotent(data: Option<map<string, Bytes>>, stringData: Option<map<string, Bytes>>)
    ensures Merged(Merged(data, stringData), stringData) == Merged(data, stringData)
  {
    if Merged(data, stringData).Some? {
      var once := Entries(data) + Entries(stringData);
      assert once + Entries(stringData) == once;
    }
  }

  /** Part way through the merge: the keys in done are copied, every other entry is the original. */
  ghost predicate PartlyMerged(base: map<string, Bytes>, sd: map<string, Bytes>, done: set<string>, d: map<string, Bytes>) {
    (forall k :: k in d <==> k in base || k in done)
    && (forall k :: k in done && k in sd ==> k in d && d[k] == sd[k])
    && (forall k :: k in d && k !in done && k in base ==> d[k] == base[k])
  }

  lemma MergedAll(base: map<string, Bytes>, sd: map<string, Bytes>, done: set<string>, d: map<string, Bytes>)
    requires done == sd.Keys && PartlyMerged(base, sd, done, d)
    ensures d == base + sd
  { }

  class SecretMutationHelper {
    const expected: Secret

    constructor (expected: Secret)
      ensures this.expected == expected
    {
      this.expected := expected;
    }

    /** GetObjectSpec: the part of the Secret its hash is taken over. */
    function GetObjectSpec(): Option<map<string, Bytes>>
      reads expected
    {
      expected.data
    }

    /** PreMutate: a nil StringData becomes an empty map; anything else is kept. */
    method PreMutate() returns (err: Reason)
      modifies expected`stringData
      ensures err == Nil
      ensures expected.stringData == if old(expected.stringData).None? then Some(map[]) else old(expected.stringData)
    {
      if expected.stringData.None? {
        expected.stringData := Some(map[]);
      }
      return Nil;
    }

    /** PostMutate: copy every StringData entry into Data, in whatever order the keys come. */
    method PostMutate() returns (err: Reason)
      modifies expected`data
      ensures err == Nil
      ensures expected.data == Merged(old(expected.data), expected.stringData)
    {
      var sd := Entries(expected.stringData);
      if expected.data.None? && sd != map[] {
        expected.data := Some(map[]);
      }
      ghost var base := Entries(expected.data);
      ghost var nothing := expected.data.None?;
      var keys := sd.Keys;
      ghost var done: set<string> := {};
      while keys != {}
        invariant keys !! done && keys + done == sd.Keys
        invariant nothing ==> expected.data == None && keys == {}
        invariant !nothing ==> expected.data.Some? && PartlyMerged(base, sd, done, expected.data.value)
        decreases keys
      {
        var key :| key in keys;
        expected.data := Some(expected.data.value[key := sd[key]]);
        keys, done := keys - {key}, done + {key};
      }
      if !nothing {
        MergedAll(base, sd, done, expected.data.value);
      }
      return Nil;
    }
  }
}
