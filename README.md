# Report augmenter: a Dafny model

The repository's one piece of logic is `tools/augment_results_with_meta.py`.
It loads the experiment summary (`results/compare/summary.json`) and the DQN
training metadata (`results/DQN/train_meta.json`). It builds a training
annotation and stores it under the summary key `"DQN_training"`. Then it
writes the summary back. The annotation has four members:

- `algorithm`: always `"DQN"`. The label is hard-coded and does not come from
  the metadata. The model keeps it that way.
- `training_steps`: `meta.get("total_steps", 50000)`.
- `original_planned_steps`: always `200000`.
- `note`: always `"Training steps reduced due to hardware constraints"`.

The project has four modules:

- `Wrappers` (`wrappers.dfy`): `Option` and `Result`.
- `Json` (`json.dfy`): parsed JSON values. An object is the ordered list of
  its members, because a Python `dict` keeps insertion order and `json.dump`
  writes members in that order. The script uses two dict operations:
  `GetOr` is `d.get(k, default)` (line 18), and `Set` is `d[k] = v`
  (line 16), which keeps a present key in its position and appends an
  absent one. `Get` is the model's own lookup, used to state the contracts.
  `ToMap` gives the order-free view of an object.
- `Augmenter` (`augment.dfy`): the annotation and the merge, as pure functions
  with lemmas.
- `Store` (`store.dfy`): the whole run. `Outcome` and `Trace` are pure
  functions that say what a run writes and which files it opens, in order.
  `FileStore` is a class that holds the two files and a log of every file
  opening. Its `Run` method performs load, load, merge, save, and is proved
  against `Outcome` and `Trace`.

Points where the script's behaviour is easy to misread:

- Errors. The script can fail in four ways before it writes, and the model
  keeps all four:
  - a file cannot be opened (lines 9, 12);
  - a file is not JSON (lines 10, 13);
  - the metadata root has no `.get` (line 18);
  - the summary root does not take item assignment (line 16).
- Which error wins. Python evaluates the right-hand side of line 16 before it
  assigns. So when both roots are non-objects, the metadata error is raised
  first. `Outcome` keeps that order.
- `training_steps` is whatever value `total_steps` holds, even `null` or a
  string, and the model copies it the same way.

## Model

| member | source | states |
|---|---|---|
| Json.GetOr | tools/augment_results_with_meta.py:18 | `d.get(k, default)` gives the default when the key is absent, and otherwise a value stored under the key |
| Json.GetUnique | tools/augment_results_with_meta.py:18 | in an object with unique keys, looking up a member's key finds exactly that member's value |
| Json.MemberIsLookup | tools/augment_results_with_meta.py:18 | with unique keys, a key/value pair is in the object if and only if the lookup of the key gives that value |
| Json.Set | tools/augment_results_with_meta.py:16 | `d[k] = v`: every existing key keeps its position, and every member with another key is unchanged; an absent key is appended at the end |
| Json.SetGet | tools/augment_results_with_meta.py:16 | after `d[k] = v`, reading `k` gives `v` and reading any other key gives what it gave before |
| Json.SetKeys | tools/augment_results_with_meta.py:16 | `d[k] = v` adds `k` to the key set and no other key |
| Json.SetKeepsUnique | tools/augment_results_with_meta.py:16 | the assignment keeps the keys unique |
| Json.SetAtKeyPosition | tools/augment_results_with_meta.py:16 | the first position holding key `k` gets the new member `k: v`, and any later position with that key is left as it was |
| Json.SetIdempotent | tools/augment_results_with_meta.py:16 | assigning the same key and value twice is the same as assigning it once |
| Json.ToMapOfSet | tools/augment_results_with_meta.py:16 | with order forgotten, the assignment is exactly the map update `m[k := v]` |
| Augmenter.Annotation | tools/augment_results_with_meta.py:16-21 | the annotation is an object whose keys are algorithm, training_steps, original_planned_steps and note, in the order the literal writes them; training_steps is the metadata's `total_steps` value when that key is present and the number 50000 otherwise |
| Augmenter.AnnotationFixedFields | tools/augment_results_with_meta.py:16-21 | for any metadata, the annotation is an object with exactly the keys algorithm, training_steps, original_planned_steps and note; algorithm is "DQN", original_planned_steps is 200000, and note is the fixed sentence |
| Augmenter.TrainingStepsPassThrough | tools/augment_results_with_meta.py:18 | when the metadata holds `total_steps`, training_steps is that value exactly, with no coercion |
| Augmenter.TrainingStepsDefault | tools/augment_results_with_meta.py:18 | when the metadata lacks `total_steps`, training_steps is 50000 |
| Augmenter.AnnotationOnlyReadsTotalSteps | tools/augment_results_with_meta.py:16-21 | two metadata objects that agree on `total_steps` give the same annotation, so the label never depends on the metadata |
| Augmenter.Augment | tools/augment_results_with_meta.py:16 | the result is as long as the old summary, or one member longer; every member whose key is not "DQN_training" stays in place unchanged; without a prior "DQN_training", the annotation is appended at the end |
| Augmenter.AugmentStoresAnnotation | tools/augment_results_with_meta.py:16-21 | after augmenting, "DQN_training" holds the annotation, and any earlier value there is fully overwritten |
| Augmenter.AugmentKeepsOthers | tools/augment_results_with_meta.py:16 | every other key reads as before, and the key set is the old key set plus "DQN_training" |
| Augmenter.AugmentIsMapUpdate | tools/augment_results_with_meta.py:16 | with order forgotten, augmenting is the map update of "DQN_training" to the annotation |
| Augmenter.AugmentIdempotent | tools/augment_results_with_meta.py:16-21 | augmenting an augmented summary with the same metadata changes nothing |
| Augmenter.AugmentWellFormed | tools/augment_results_with_meta.py:16-21 | a summary and metadata with unique keys at every depth give a result with unique keys at every depth |
| Augmenter.Example | tools/augment_results_with_meta.py:16-21 | the summary `{"other_algo": {"score": 1}}` with `total_steps` 75000 becomes that entry followed by the full annotation with 75000 training steps |
| Store.Outcome | tools/augment_results_with_meta.py:9-21 | a run succeeds if and only if both files load and both roots are objects, and then it writes the augmented summary; otherwise it reports the first failure in the script's order: summary open, summary parse, metadata open, metadata parse, metadata root, summary root |
| Store.Trace | tools/augment_results_with_meta.py:9-25 | a run first opens the summary for reading; it opens the metadata for reading if and only if the summary loaded; it opens the summary for writing if and only if the run succeeds, and then as its last step |
| Store.TraceOrder | tools/augment_results_with_meta.py:9-25 | the metadata is never opened for writing; the summary is opened for writing if and only if the run succeeds, and that happens only as the last step, after both reads |
| Store.RerunIsIdempotent | tools/augment_results_with_meta.py:9-25 | running the script again on the summary it wrote, with the same metadata, writes the same document |
| Store.OutcomeWellFormed | tools/augment_results_with_meta.py:9-25 | when both parsed documents have unique keys at every depth, the written document does too |
| Store.FileStore.Load | tools/augment_results_with_meta.py:9-13 | opening a file for reading is logged; the result is the parsed document, or an open or parse error for that file |
| Store.FileStore.Save | tools/augment_results_with_meta.py:24-25 | opening the summary for writing is logged, and afterwards the summary holds the new document |
| Store.FileStore.Run | tools/augment_results_with_meta.py:9-25 | the result is `Outcome` of the files as they were before the run; the metadata file never changes; the summary file changes only on success, and then holds the written document; the log grows by exactly `Trace` |

## Left out

- JSON text. `json.load` and `json.dump(..., indent=2)` (lines 10, 13, 25) are
  not modelled. Files hold already-parsed documents, and an unparseable file
  is the abstract state `NotJson`. The model assumes that reading back what
  `json.dump` wrote gives the same document.
- Duplicate keys in JSON text. `json.load` keeps the last value for a repeated
  key. The model assumes that parsed objects have unique keys (`WellFormed`),
  and the lemmas state that assumption where they need it.
- Floating-point numbers. JSON numbers are integers. The script only passes
  `total_steps` through, so no arithmetic is lost.
- The fixed relative paths (lines 5-6). The two files are the named slots
  `Summary` and `Metadata` of the store.
- Write failures and how `open(path, "w")` truncates. `Save` always succeeds.
  A run that fails while writing is not modelled.
- The confirmation message (line 27). It is console output only.
