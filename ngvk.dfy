// The NGVK key (namespace, group, version, kind and name) that identifies a resource
// object, and its string forms.

module Ngvk {
  import Kube

  datatype NamespacedName = NamespacedName(namespace: string, name: string) {
    /** types.NamespacedName's string form: namespace, a slash, name. */
    function String(): string {
      namespace + "/" + name
    }
  }

  datatype GroupVersionKind = GroupVersionKind(group: string, version: string, kind: string)

  /** The space-and-slash separated key string. */
  function Compose(gvk: GroupVersionKind, key: NamespacedName): string {
    key.namespace + " " + gvk.kind + "/" + key.name + " " + gvk.group + "/" + gvk.version
  }

  datatype NGVK = NGVK(key: NamespacedName, gvk: GroupVersionKind) {
    function String(): string {
      Compose(gvk, key)
    }

    /** Kind, a slash, name. */
    function KN(): string {
      gvk.kind + "/" + key.name
    }

    /** Two keys are equal when their key strings are. */
    predicate Equal(cmp: NGVK) {
      cmp.String() == String()
    }

    /** The key is for obj when it equals the key built from obj; building one never fails. */
    predicate IsFor(obj: Kube.Object)
      reads obj`namespace, obj`name, obj`group, obj`version, obj`kind
    {
      Equal(New(obj))
    }
  }

  /** New: the key of an object, from its namespace, name and group/version/kind. */
  function New(obj: Kube.Object): (k: NGVK)
    reads obj`namespace, obj`name, obj`group, obj`version, obj`kind
    ensures k.key == NamespacedName(obj.namespace, obj.name)
    ensures k.gvk == GroupVersionKind(obj.group, obj.version, obj.kind)
  {
    NGVK(NamespacedName(obj.namespace, obj.name), GroupVersionKind(obj.group, obj.version, obj.kind))
  }

  /** Equal is an equivalence: reflexive, symmetric and transitive. */
  lemma EqualIsEquivalence(a: NGVK, b: NGVK, c: NGVK)
    ensures a.Equal(a)
    ensures a.Equal(b) ==> b.Equal(a)
    ensures a.Equal(b) && b.Equal(c) ==> a.Equal(c)
  { }

  /** A field of a key that contains neither separator, as Kubernetes names and kinds do not. */
  predicate NoSeparator(s: string) {
    ' ' !in s && '/' !in s
  }

  predicate WellFormed(k: NGVK) {
    NoSeparator(k.key.namespace) && NoSeparator(k.key.name)
    && NoSeparator(k.gvk.group) && NoSeparator(k.gvk.version) && NoSeparator(k.gvk.kind)
  }

  /** A separator that does not occur in the part before it splits a string in one way only. */
  lemma SplitAtSeparator(a: string, b: string, a': string, b': string, c: char)
    requires c !in a && c !in a'
    requires a + [c] + b == a' + [c] + b'
    ensures a == a' && b == b'
  {
    var s, s' := a + [c] + b, a' + [c] + b';
    assert s[|a|] == c && s'[|a'|] == c;
    assert forall i :: 0 <= i < |a| ==> s[i] == a[i];
    assert forall i :: 0 <= i < |a'| ==> s'[i] == a'[i];
    assert |a| == |a'|;
    assert a == s[..|a|] && a' == s'[..|a'|];
    assert b == s[|a| + 1..] && b' == s'[|a'| + 1..];
  }

  /** The key string is spelled as nested separations. */
  lemma ComposeNested(k: NGVK)
    ensures k.String() == k.key.namespace + [' '] + (k.gvk.kind + ['/'] + (k.key.name + [' '] + (k.gvk.group + ['/'] + k.gvk.version)))
  { }

  /** For well-formed keys, Equal is exactly equality of the keys. */
  lemma EqualIffSame(a: NGVK, b: NGVK)
    requires WellFormed(a) && WellFormed(b)
    ensures a.Equal(b) <==> a == b
  {
    if a.Equal(b) {
      ComposeNested(a);
      ComposeNested(b);
      var ra := a.gvk.kind + ['/'] + (a.key.name + [' '] + (a.gvk.group + ['/'] + a.gvk.version));
      var rb := b.gvk.kind + ['/'] + (b.key.name + [' '] + (b.gvk.group + ['/'] + b.gvk.version));
      SplitAtSeparator(a.key.namespace, ra, b.key.namespace, rb, ' ');
      var qa := a.key.name + [' '] + (a.gvk.group + ['/'] + a.gvk.version);
      var qb := b.key.name + [' '] + (b.gvk.group + ['/'] + b.gvk.version);
      SplitAtSeparator(a.gvk.kind, qa, b.gvk.kind, qb, '/');
      SplitAtSeparator(a.key.name, a.gvk.group + ['/'] + a.gvk.version, b.key.name, b.gvk.group + ['/'] + b.gvk.version, ' ');
      SplitAtSeparator(a.gvk.group, a.gvk.version, b.gvk.group, b.gvk.version, '/');
    }
  }

  /** IsFor holds exactly when the key is the object's own key (for well-formed keys). */
  lemma IsForIffOwnKey(k: NGVK, obj: Kube.Object)
    requires WellFormed(k) && WellFormed(New(obj))
    ensures k.IsFor(obj) <==> k == New(obj)
  {
    EqualIffSame(k, New(obj));
  }

  /**
   * Without WellFormed, composing is not injective: a key whose name holds a space has
   * the key string of another key, whose name stops at the space and whose group starts
   * with the rest.
   */
  lemma SpaceInNameCollides(a: NGVK, before: string, after: string)
    requires a.key.name == before + " " + after
    ensures var b := NGVK(NamespacedName(a.key.namespace, before), GroupVersionKind(after + " " + a.gvk.group, a.gvk.version, a.gvk.kind));
      a != b && a.Equal(b)
  {
    var b := NGVK(NamespacedName(a.key.namespace, before), GroupVersionKind(after + " " + a.gvk.group, a.gvk.version, a.gvk.kind));
    assert |b.key.name| < |a.key.name|;
    var tail := " " + a.gvk.group + "/" + a.gvk.version;
    var head := a.key.namespace + " " + a.gvk.kind + "/" + before + " ";
    assert a.String() == head + after + tail;
    assert b.String() == head + after + tail;
  }

  /** The Kind/Name string of a well-formed key determines its kind and name. */
  lemma KNDeterminesKindAndName(a: NGVK, b: NGVK)
    requires WellFormed(a) && WellFormed(b)
    ensures a.KN() == b.KN() <==> a.gvk.kind == b.gvk.kind && a.key.name == b.key.name
  {
    if a.KN() == b.KN() {
      assert a.KN() == a.gvk.kind + ['/'] + a.key.name;
      assert b.KN() == b.gvk.kind + ['/'] + b.key.name;
      SplitAtSeparator(a.gvk.kind, a.key.name, b.gvk.kind, b.key.name, '/');
    }
  }

  /** The namespaced-name string of a well-formed key determines its namespace and name. */
  lemma NamespacedNameStringInjective(a: NamespacedName, b: NamespacedName)
    requires NoSeparator(a.namespace) && NoSeparator(b.namespace)
    ensures a.String() == b.String() <==> a == b
  {
    if a.String() == b.String() {
      assert a.String() == a.namespace + ['/'] + a.name;
      assert b.String() == b.namespace + ['/'] + b.name;
      SplitAtSeparator(a.namespace, a.name, b.namespace, b.name, '/');
    }
  }
}
