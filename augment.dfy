/**
 * The merge step of `tools/augment_results_with_meta.py`: build the DQN
 * training annotation from the metadata object and store it under the key
 * "DQN_training" of the summary object.
 */
module Augmenter {
  import opened Wrappers
  import opened Json

  /** The top-level summary key the annotation is stored under. */
  const AnnotationKey: string := "DQN_training"
  /** The metadata key read for the number of training steps actually run. */
  const TotalStepsKey: string := "total_steps"
  /** The algorithm label; it is fixed and does not come from the metadata. */
  const Algorithm: string := "DQN"
  /** Training steps reported when the metadata has no `total_steps`. */
  const DefaultTrainingSteps: int := 50000
  /** The training budget that was originally planned. */
  const OriginalPlannedSteps: int := 200000
  const Note: string := "Training steps reduced due to hardware constraints"

  /**
   * The annotation record: four members in this order, every one of them a
   * constant except `training_steps`, which is `meta.get("total_steps", 50000)`.
   */
  function Annotation(meta: seq<Member>): (r: Json)
    ensures r.JObject? && |r.members| == 4
    ensures r.members[0].key == "algorithm" && r.members[1].key == "training_steps"
    ensures r.members[2].key == "original_planned_steps" && r.members[3].key == "note"
    ensures r.members[1].value ==
      if TotalStepsKey in Keys(meta) then Get(meta, TotalStepsKey).value else JNumber(50000)
  {
    JObject([
      Member("algorithm", JString(Algorithm)),
      Member("training_steps", GetOr(meta, TotalStepsKey, JNumber(DefaultTrainingSteps))),
      Member("original_planned_steps", JNumber(OriginalPlannedSteps)),
      Member("note", JString(Note))
    ])
  }

  /**
   * Whatever the metadata, the annotation is an object with exactly the four
   * keys, and its algorithm, planned steps and note are the fixed constants.
   */
  lemma AnnotationFixedFields(meta: seq<Member>)
    ensures Annotation(meta).JObject?
    ensures KeysUnique(Annotation(meta).members)
    ensures Keys(Annotation(meta).members) == {"algorithm", "training_steps", "original_planned_steps", "note"}
    ensures Get(Annotation(meta).members, "algorithm") == Some(JString("DQN"))
    ensures Get(Annotation(meta).members, "original_planned_steps") == Some(JNumber(200000))
    ensures Get(Annotation(meta).members, "note") == Some(JString("Training steps reduced due to hardware constraints"))
  {
    var ms := Annotation(meta).members;
    assert Keys(ms[3..]) == {"note"} by { assert ms[3..][1..] == []; }
    assert Keys(ms[2..]) == {"original_planned_steps", "note"} by { assert ms[2..][1..] == ms[3..]; }
    assert Keys(ms[1..]) == {"training_steps", "original_planned_steps", "note"} by { assert ms[1..][1..] == ms[2..]; }
  }

  /** The reported training steps are `total_steps` exactly as the metadata holds it, whatever its kind. */
  lemma TrainingStepsPassThrough(meta: seq<Member>, steps: Json)
    requires KeysUnique(meta)
    requires Member(TotalStepsKey, steps) in meta
    ensures Get(Annotation(meta).members, "training_steps") == Some(steps)
  {
    MemberIsLookup(meta, TotalStepsKey, steps);
  }

  /** Without `total_steps` in the metadata the reported training steps are 50000. */
  lemma TrainingStepsDefault(meta: seq<Member>)
    requires TotalStepsKey !in Keys(meta)
    ensures Get(Annotation(meta).members, "training_steps") == Some(JNumber(50000))
  {
  }

  /** Only `total_steps` of the metadata matters: metadata that agree on it give the same annotation. */
  lemma AnnotationOnlyReadsTotalSteps(meta1: seq<Member>, meta2: seq<Member>)
    requires Get(meta1, TotalStepsKey) == Get(meta2, TotalStepsKey)
    ensures Annotation(meta1) == Annotation(meta2)
  {
  }

  /** `summary["DQN_training"] = annotation`, on the summary's member list. */
  function Augment(summary: seq<Member>, meta: seq<Member>): (r: seq<Member>)
    ensures |summary| <= |r| <= |summary| + 1
    ensures forall i :: 0 <= i < |summary| && summary[i].key != AnnotationKey ==> r[i] == summary[i]
    ensures AnnotationKey !in Keys(summary) ==> r == summary + [Member(AnnotationKey, Annotation(meta))]
  {
    Set(summary, AnnotationKey, Annotation(meta))
  }

  /** After augmenting, "DQN_training" holds the annotation, whatever it held before. */
  lemma AugmentStoresAnnotation(summary: seq<Member>, meta: seq<Member>)
    ensures Get(Augment(summary, meta), AnnotationKey) == Some(Annotation(meta))
  {
    SetGet(summary, AnnotationKey, Annotation(meta), AnnotationKey);
  }

  /** Every other key reads as before, and the keys are the old ones plus "DQN_training". */
  lemma AugmentKeepsOthers(summary: seq<Member>, meta: seq<Member>, k: string)
    requires k != AnnotationKey
    ensures Get(Augment(summary, meta), k) == Get(summary, k)
    ensures Keys(Augment(summary, meta)) == Keys(summary) + {AnnotationKey}
  {
    SetGet(summary, AnnotationKey, Annotation(meta), k);
    SetKeys(summary, AnnotationKey, Annotation(meta));
  }

  /** Order forgotten, augmenting is the map update of the one key. */
  lemma AugmentIsMapUpdate(summary: seq<Member>, meta: seq<Member>)
    ensures ToMap(Augment(summary, meta)) == ToMap(summary)[AnnotationKey := Annotation(meta)]
  {
    ToMapOfSet(summary, AnnotationKey, Annotation(meta));
  }

  /** Augmenting again with the same metadata changes nothing. */
  lemma AugmentIdempotent(summary: seq<Member>, meta: seq<Member>)
    ensures Augment(Augment(summary, meta), meta) == Augment(summary, meta)
  {
    SetIdempotent(summary, AnnotationKey, Annotation(meta));
  }

  /** Augmenting a parsed (well-formed) summary with parsed metadata yields a well-formed object. */
  lemma AugmentWellFormed(summary: seq<Member>, meta: seq<Member>)
    requires WellFormed(JObject(summary)) && WellFormed(JObject(meta))
    ensures WellFormed(JObject(Augment(summary, meta)))
  {
    var a := Annotation(meta);
    assert WellFormed(a) by {
      forall m | m in a.members ensures WellFormed(m.value) {
        if m.key == "training_steps" && TotalStepsKey in Keys(meta) {
          assert Member(TotalStepsKey, m.value) in meta;
        }
      }
    }
    SetKeepsUnique(summary, AnnotationKey, a);
    SetMembers(summary, AnnotationKey, a);
  }

  /** An example: one unrelated entry is kept and the annotation is appended after it. */
  lemma Example()
    ensures
      var score := JObject([Member("score", JNumber(1))]);
      Augment([Member("other_algo", score)], [Member("total_steps", JNumber(75000))])
      == [
        Member("other_algo", score),
        Member("DQN_training", JObject([
          Member("algorithm", JString("DQN")),
          Member("training_steps", JNumber(75000)),
          Member("original_planned_steps", JNumber(200000)),
          Member("note", JString("Training steps reduced due to hardware constraints"))
        ]))
      ]
  {
  }
}
