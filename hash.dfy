// The template-hash annotation an object carries to tell whether its template changed.

module Hash {
  import opened Wrappers
  import opened Errors
  import Decimal
  import Kube

  const HashAnnotationName: string := "operator.k8s.orange.com/okt-hash"

  /** The error meta.Accessor reports for an object without object metadata. */
  const NoMetadataMessage: string := "object does not implement the Object interfaces"

  type Sum32 = x: nat | x < 0x1_0000_0000

  /**
   * A template, known here only through the 32-bit FNV sum of its printed form;
   * the printing and the FNV function are not part of this model.
   */
  datatype Template = Template(fnv32: Sum32)

  /** Compute: the sum in decimal, hence never empty. */
  function Compute(template: Template): (h: string)
    ensures h != [] && Decimal.IsDigits(h)
  {
    Decimal.NatToString(template.fnv32)
  }

  /** Reading a key of a Go map: absent keys and nil maps give "". */
  function Lookup(annotations: Option<map<string, string>>, key: string): string {
    if annotations.Some? && key in annotations.value then annotations.value[key] else ""
  }

  /** setHashAnnotation: a map (created when nil) with the key set to the template's hash. */
  function SetHashAnnotation(annotationName: string, annotations: Option<map<string, string>>, template: Template)
    : (r: map<string, string>)
    ensures annotationName in r && r[annotationName] == Compute(template)
    ensures forall k :: k != annotationName ==> Lookup(Some(r), k) == Lookup(annotations, k)
    ensures forall k :: k != annotationName ==> (k in r <==> annotations.Some? && k in annotations.value)
  {
    (if annotations.None? then map[] else annotations.value)[annotationName := Compute(template)]
  }

  function SetTemplateHashAnnotation(annotations: Option<map<string, string>>, template: Template)
    : map<string, string>
  {
    SetHashAnnotation(HashAnnotationName, annotations, template)
  }

  /** GetTemplateHashAnnotation: the stored hash, or "" when there is none. */
  function GetTemplateHashAnnotation(annotations: Option<map<string, string>>): string {
    Lookup(annotations, HashAnnotationName)
  }

  /** What GenerateNew stores: the annotations with the hash key set to the template's hash. */
  function Regenerated(annotations: Option<map<string, string>>, template: Template): map<string, string> {
    SetTemplateHashAnnotation(if annotations.None? then None else Some(annotations.value - {HashAnnotationName}), template)
  }

  /** The annotation read back after it was set is the template's hash. */
  lemma GetAfterSet(annotations: Option<map<string, string>>, template: Template)
    ensures GetTemplateHashAnnotation(Some(SetTemplateHashAnnotation(annotations, template))) == Compute(template)
  { }

  /** Regenerating writes the hash and keeps every other annotation. */
  lemma RegeneratedMeaning(annotations: Option<map<string, string>>, template: Template)
    ensures GetTemplateHashAnnotation(Some(Regenerated(annotations, template))) == Compute(template)
    ensures forall k :: k != HashAnnotationName ==> Lookup(Some(Regenerated(annotations, template)), k) == Lookup(annotations, k)
  {
    var a := if annotations.None? then None else Some(annotations.value - {HashAnnotationName});
    forall k | k != HashAnnotationName
      ensures Lookup(a, k) == Lookup(annotations, k)
    { }
  }

  /**
   * GenerateNew: replace the stored hash by the template's and report whether it changed.
   * A null object stands for one without object metadata, which the accessor rejects.
   */
  method GenerateNew(obj: Kube.Object?, template: Template) returns (isNew: bool, err: Reason)
    modifies (if obj == null then {} else {obj})`annotations
    ensures obj == null ==> !isNew && err != Nil
    ensures obj != null ==> err == Nil
    ensures obj != null ==> obj.annotations == Some(Regenerated(old(obj.annotations), template))
    ensures obj != null ==> (isNew <==> GetTemplateHashAnnotation(old(obj.annotations)) != Compute(template))
  {
    if obj == null {
      return false, Plain(NoMetadataMessage);
    }
    var annotations := obj.annotations;
    var curHash := "";
    if annotations.Some? {
      curHash := GetTemplateHashAnnotation(annotations);
      annotations := Some(annotations.value - {HashAnnotationName});
    }
    var newAnnotations := SetTemplateHashAnnotation(annotations, template);
    obj.annotations := Some(newAnnotations);
    var newHash := GetTemplateHashAnnotation(obj.annotations);
    return curHash != newHash, Nil;
  }

  /** The first time, on an object without a hash, GenerateNew reports a change. */
  lemma FirstGenerationIsNew(annotations: Option<map<string, string>>, template: Template)
    requires GetTemplateHashAnnotation(annotations) == ""
    ensures GetTemplateHashAnnotation(annotations) != Compute(template)
  { }

  /** Right after it, the same template reports no change and stores the same annotations. */
  lemma SecondGenerationIsNotNew(annotations: Option<map<string, string>>, template: Template)
    ensures var once := Some(Regenerated(annotations, template));
      GetTemplateHashAnnotation(once) == Compute(template)
      && Regenerated(once, template) == once.value
  {
    var once := Regenerated(annotations, template);
    RegeneratedMeaning(annotations, template);
    assert Regenerated(Some(once), template) == once;
  }
}
