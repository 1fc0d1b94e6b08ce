/** Kubernetes labels and annotations folded into one map of docker labels, and taken apart again. */
module Labels {
  import opened Wrappers
  import opened Strings

  type StringMap = map<string, string>

  const ANNOTATION_PREFIX := "annotation."

  predicate IsAnnotation(key: string) { HasPrefix(key, ANNOTATION_PREFIX) }

  function AnnotationKey(key: string): string { ANNOTATION_PREFIX + key }

  function TrimPrefix(key: string): string {
    if IsAnnotation(key) then key[|ANNOTATION_PREFIX|..] else key
  }

  function Prefixed(annotations: StringMap): set<string> { set a | a in annotations :: AnnotationKey(a) }

  function Trimmed(input: StringMap): set<string> { set k | k in input && IsAnnotation(k) :: TrimPrefix(k) }

  /** What MakeLabels returns: every label, and over it every annotation under its prefixed key. */
  function Merged(labels: StringMap, annotations: StringMap): StringMap {
    labels + map k | k in Prefixed(annotations) && TrimPrefix(k) in annotations :: annotations[TrimPrefix(k)]
  }

  /** What ExtractLabels returns. */
  function PlainLabels(input: StringMap): StringMap {
    map k | k in input && !IsAnnotation(k) :: input[k]
  }

  function Annotations(input: StringMap): StringMap {
    map a | a in Trimmed(input) && AnnotationKey(a) in input :: input[AnnotationKey(a)]
  }

  lemma KeyLaws(a: string)
    ensures IsAnnotation(AnnotationKey(a)) && TrimPrefix(AnnotationKey(a)) == a
  {
    assert AnnotationKey(a)[|ANNOTATION_PREFIX|..] == a;
  }

  lemma TrimLaws(k: string)
    ensures IsAnnotation(k) ==> AnnotationKey(TrimPrefix(k)) == k
  {
  }

  /** MakeLabels, key by key. */
  lemma MergedAt(labels: StringMap, annotations: StringMap, k: string)
    ensures var m := Merged(labels, annotations);
            if IsAnnotation(k) && TrimPrefix(k) in annotations then k in m && m[k] == annotations[TrimPrefix(k)]
            else (k in m <==> k in labels) && (k in m ==> m[k] == labels[k])
  {
    TrimLaws(k);
    forall a | a in annotations && AnnotationKey(a) == k ensures IsAnnotation(k) && TrimPrefix(k) == a { KeyLaws(a); }
  }

  lemma AnnotationsAt(input: StringMap, a: string)
    ensures var x := Annotations(input);
            (a in x <==> AnnotationKey(a) in input) && (a in x ==> x[a] == input[AnnotationKey(a)])
  {
    KeyLaws(a);
    if AnnotationKey(a) in input { assert TrimPrefix(AnnotationKey(a)) in Trimmed(input); }
  }

  /** Taking a map apart and merging it again changes nothing, whatever its keys. */
  lemma MergeOfExtract(x: StringMap)
    ensures Merged(PlainLabels(x), Annotations(x)) == x
  {
    var m := Merged(PlainLabels(x), Annotations(x));
    forall k ensures (k in m <==> k in x) && (k in m && k in x ==> m[k] == x[k]) {
      MergedAt(PlainLabels(x), Annotations(x), k);
      AnnotationsAt(x, TrimPrefix(k));
      TrimLaws(k);
    }
  }

  /** Merging and taking apart gives back labels and annotations exactly when no label key has the prefix. */
  lemma ExtractOfMerge(labels: StringMap, annotations: StringMap)
    ensures (PlainLabels(Merged(labels, annotations)) == labels
             && Annotations(Merged(labels, annotations)) == annotations)
            <==> forall k | k in labels :: !IsAnnotation(k)
  {
    var m := Merged(labels, annotations);
    forall k ensures k in PlainLabels(m) <==> k in labels && !IsAnnotation(k)
             ensures k in PlainLabels(m) && k in labels ==> PlainLabels(m)[k] == labels[k]
    {
      MergedAt(labels, annotations, k);
    }
    if forall k | k in labels :: !IsAnnotation(k) {
      forall a ensures a in Annotations(m) <==> a in annotations
               ensures a in Annotations(m) && a in annotations ==> Annotations(m)[a] == annotations[a]
      {
        AnnotationsAt(m, a);
        KeyLaws(a);
        MergedAt(labels, annotations, AnnotationKey(a));
      }
      assert PlainLabels(m) == labels;
      assert Annotations(m) == annotations;
    } else {
      var k :| k in labels && IsAnnotation(k);
      assert k !in PlainLabels(m);
    }
  }

  // ---------- The two loops ----------

  /** The part of x that a loop over its keys has seen while left is still to come. */
  function Seen(x: StringMap, left: set<string>): StringMap { map k | k in x && k !in left :: x[k] }

  lemma SeenEnds(x: StringMap)
    ensures Seen(x, x.Keys) == map[] && Seen(x, {}) == x
  {
  }

  lemma SeenStep(x: StringMap, left: set<string>, k: string)
    requires k in left && k in x
    ensures Seen(x, left - {k}) == Seen(x, left)[k := x[k]]
  {
  }

  method MakeLabels(labels: StringMap, annotations: StringMap) returns (merged: StringMap)
    ensures merged == Merged(labels, annotations)
  {
    merged := CopyLabels(labels);
    var left := annotations.Keys;
    SeenEnds(annotations);
    assert Merged(labels, map[]) == labels by { assert Prefixed(map[]) == {}; }
    while left != {}
      invariant left <= annotations.Keys
      invariant merged == Merged(labels, Seen(annotations, left))
      decreases left
    {
      var k :| k in left;
      MergeOne(labels, Seen(annotations, left), k, annotations[k]);
      SeenStep(annotations, left, k);
      merged := merged[AnnotationKey(k) := annotations[k]];
      left := left - {k};
    }
  }

  method CopyLabels(labels: StringMap) returns (copy: StringMap)
    ensures copy == labels
  {
    copy := map[];
    var left := labels.Keys;
    SeenEnds(labels);
    while left != {}
      invariant left <= labels.Keys
      invariant copy == Seen(labels, left)
      decreases left
    {
      var k :| k in left;
      SeenStep(labels, left, k);
      copy := copy[k := labels[k]];
      left := left - {k};
    }
  }

  lemma MergeOne(labels: StringMap, annotations: StringMap, a: string, v: string)
    ensures Merged(labels, annotations[a := v]) == Merged(labels, annotations)[AnnotationKey(a) := v]
  {
    var m, m' := Merged(labels, annotations)[AnnotationKey(a) := v], Merged(labels, annotations[a := v]);
    KeyLaws(a);
    forall k ensures (k in m' <==> k in m) && (k in m && k in m' ==> m'[k] == m[k]) {
      MergedAt(labels, annotations, k);
      MergedAt(labels, annotations[a := v], k);
      TrimLaws(k);
    }
  }

  method ExtractLabels(input: StringMap) returns (labels: StringMap, annotations: StringMap)
    ensures labels == PlainLabels(input) && annotations == Annotations(input)
  {
    labels, annotations := map[], map[];
    var left := input.Keys;
    SeenEnds(input);
    while left != {}
      invariant left <= input.Keys
      invariant labels == PlainLabels(Seen(input, left))
      invariant annotations == Annotations(Seen(input, left))
      decreases left
    {
      var k :| k in left;
      ExtractOne(Seen(input, left), k, input[k]);
      SeenStep(input, left, k);
      if IsAnnotation(k) {
        annotations := annotations[TrimPrefix(k) := input[k]];
      } else {
        labels := labels[k := input[k]];
      }
      left := left - {k};
    }
  }

  lemma ExtractOne(input: StringMap, k: string, v: string)
    ensures PlainLabels(input[k := v]) == if IsAnnotation(k) then PlainLabels(input) else PlainLabels(input)[k := v]
    ensures Annotations(input[k := v])
            == if IsAnnotation(k) then Annotations(input)[TrimPrefix(k) := v] else Annotations(input)
  {
    ExtractOneLabel(input, k, v);
    ExtractOneAnnotation(input, k, v);
  }

  lemma ExtractOneLabel(input: StringMap, k: string, v: string)
    ensures PlainLabels(input[k := v]) == if IsAnnotation(k) then PlainLabels(input) else PlainLabels(input)[k := v]
  {
    var x := if IsAnnotation(k) then PlainLabels(input) else PlainLabels(input)[k := v];
    var x' := PlainLabels(input[k := v]);
    forall a ensures (a in x' <==> a in x) && (a in x && a in x' ==> x'[a] == x[a]) {}
  }

  lemma ExtractOneAnnotation(input: StringMap, k: string, v: string)
    ensures Annotations(input[k := v])
            == if IsAnnotation(k) then Annotations(input)[TrimPrefix(k) := v] else Annotations(input)
  {
    var x := if IsAnnotation(k) then Annotations(input)[TrimPrefix(k) := v] else Annotations(input);
    var x' := Annotations(input[k := v]);
    forall a ensures (a in x' <==> a in x) && (a in x && a in x' ==> x'[a] == x[a]) {
      AnnotationsAt(input, a);
      AnnotationsAt(input[k := v], a);
      KeyLaws(a);
      TrimLaws(k);
    }
  }
}
