# YOLO backend for Label Studio, in Dafny

This project models the prediction pipeline of a Label Studio ML backend
built on Ultralytics YOLO. It has three parts.

- **Annotation building.** `YOLO.predict` takes the detector's boxes for the
  first task and turns each into a `rectanglelabels` region:
  - the pixel corners become percentages of the image size;
  - the label is looked up by class index;
  - the id is the box's index within its own result.

  The regions go into one prediction, together with an aggregate score and
  the MODEL_VERSION setting. The packaged copy under
  `dist/label-studio-ml-backend` repeats this code line for line.
- **Control-tag selection.** `YOLO.detect_control_models` picks, for each
  control tag of the labeling config, the first registered control-model
  class that matches the tag and builds an instance with a non-empty label
  map.
- **Batch orchestration.** `cli.py` does three things:
  - `prepare_tasks` resolves the `--tasks` argument (a JSON file, or a
    comma-separated id list) into task records;
  - `postprocess_response` reconciles what the model returned;
  - `run` sends one `ls.predictions.create` call per prediction, task by
    task.

Modules follow the program's structure:

- `Geometry`: box normalisation.
- `Text`: `str()`, `int()` and `str.split`.
- `JsonValues`: dict values.
- `YoloBackend`: `predict` and `fit` of model.py.
- `DistBackend`: the dist copy of `predict`, written as the source's nested
  loops and proved equal to `YoloBackend.Predict`.
- `ControlSelection`: `detect_control_models`.
- `TaskResolver`: `prepare_tasks`.
- `ResponseReconciler`: `postprocess_response`.
- `BatchRunner`: `run`.

Python's failures are values, never preconditions: `Result` and `Option`
carry every raise of the modelled operations. The setup and SDK calls
listed under "Left out" are the exception.

Some of what the code does differs from what one would expect of it. The
model follows the code in each case:

- **The score is not always a mean.** It is the sum of the confidences
  divided by `i + 1`, where `i` is the last index the inner `enumerate`
  assigned. With one result (one image) that is the mean. With several
  results the divisor is the size of the last non-empty result
  (`YoloBackend.ScoreNotMeanAcrossResults`).
- **A negative class index does not fail.** `labels[cls]` is Python list
  indexing, so a negative index counts from the end; only an index outside
  `-len(labels) .. len(labels)-1` raises.
- **A zero image size is not checked up front.** Nothing tests W or H.
  A zero width or height raises ZeroDivisionError only when there is a box
  to normalise; with no boxes the call succeeds. The model carries this as
  the error `ZeroDivision` rather than as a precondition.
- **A response that reconciles to None ends the run.** `run` then iterates
  over None, which raises, so the run stops; it does not skip that task.
  Submissions already made stand.
- **Region ids repeat across results.** Ids restart at "0" for each result.

The collaborators are parameters:

- `detect`: the image download, its decoding and YOLO inference. It gives
  the image size and the per-result box lists, or None where any of those
  raise.
- `fetch`: the SDK's `ls.tasks.get(id).data`.
- `predict`: the model's `predict([task])`.
- `create`: whether `ls.predictions.create` returns for a submission (false
  where the SDK call raises, which ends the run).
- The class hooks `is_control_matched` and `create` of the control-model
  package.
- `file`: what `os.path.exists` and `json.load` make of the tasks path.

## Model

| member | source | states |
|---|---|---|
| Geometry.ToPercent | model.py:148-151 | scaling the four percentages back by W and H gives exactly x1, x2 (from x and x + width), y1 and y2 (from y and y + height) |
| Geometry.CornersRoundTrip | model.py:148-151 | normalising a box and denormalising it with the same image size returns the box's four corners |
| Geometry.PercentRoundTrip | model.py:148-151 | every percentage rectangle is the normalisation of the corners it denotes, so normalisation is a bijection for W, H > 0 |
| Geometry.ExampleBox | model.py:148-151 | box (100,100)-(300,200) on a 1000 x 500 image gives x = 10, y = 20, width = 20, height = 20 |
| Geometry.NoClamping | model.py:148 | a box starting right of the image's edge gets x > 100: nothing is clamped to [0, 100] |
| YoloBackend.LabelAt | model.py:152 | the label is found exactly when -len(labels) <= cls < len(labels); it is labels[cls] for a non-negative index and labels[len(labels) + cls] for a negative one, i.e. always labels[cls mod len(labels)] |
| YoloBackend.Predict | model.py:121-161 | an empty task list fails (`tasks[0]` raises); a successful call returns exactly one prediction, whose model version is MODEL_VERSION |
| YoloBackend.PredictUsesFirstTaskOnly | model.py:121 | two task lists with the same first task get the same answer, which is the answer for that task alone |
| YoloBackend.BuildRegionsElementwise | model.py:134-154 | region building succeeds exactly when every box's region can be made; region k is then box k's, and otherwise the error is that of the first failing box |
| YoloBackend.BuildRegionsAt | model.py:134-154 | the k-th region built is the region of the k-th visited box |
| YoloBackend.FlattenPosition | model.py:134-135 | box m of result j is visited after all boxes of the earlier results, as the m-th box of its own result |
| YoloBackend.FlattenMembers | model.py:134-135 | every visited item is box m of some result j, paired with its index m |
| YoloBackend.MakeRegionDescribes | model.py:137-154 | a region that can be made carries the box's id, tag names, type "rectanglelabels", confidence, image size, zero rotations, percentages and looked-up label |
| YoloBackend.RegionOfBox | model.py:134-154 | the region at position (boxes of earlier results + m) describes box m of result j |
| YoloBackend.PredictRegions | model.py:134-154 | one region per box (the result's length is the total box count), results in order and boxes in order within each, each describing its box |
| YoloBackend.BuiltRegionsDescribe | model.py:134-154 | the regions built from all visited boxes are one per box, each describing its box |
| YoloBackend.PredictSucceedsExactly | model.py:121-161 | the call succeeds if and only if there is a task, detection is available, the image size is non-zero unless there are no boxes, and every class index has a label |
| YoloBackend.BuildSucceedsExactly | model.py:134-154 | all regions can be built if and only if the image size is non-zero (unless there are no boxes) and every class index has a label |
| YoloBackend.SingleResultIds | model.py:135-138 | with a single result the ids are "0", "1", ... in box order and pairwise distinct |
| YoloBackend.IdsRepeatAcrossResults | model.py:133-138 | two results of one box each give two regions that both have id "0" |
| YoloBackend.ScoreIsSumOverDivisor | model.py:133-159 | the sum of the region scores equals the sum of all confidences, and the score is that sum over (last enumerate index + 1) |
| YoloBackend.ScoreWithoutBoxes | model.py:124-159 | with no boxes the call succeeds with no regions and score 0, and nothing is divided by zero |
| YoloBackend.ScoreIsMeanForOneResult | model.py:133-159 | one result of N >= 1 boxes: N regions, and the score is the mean of their scores |
| YoloBackend.LastIndexOfLastNonEmpty | model.py:133-135 | the divisor is the size of the last non-empty result |
| YoloBackend.ScoreNotMeanAcrossResults | model.py:133-159 | two results of one box each: the score is the sum of both confidences, not their mean |
| YoloBackend.EndToEndExample | model.py:121-161 | one 1000 x 500 image with box (100,100)-(300,200), confidence 0.9 and class 0 labelled "cat" gives one region (10, 20, 20, 20) labelled "cat" with id "0", and score 0.9 |
| YoloBackend.SumConfIsSumOfVisited | model.py:155 | the running score is the sum of the confidences of all visited boxes |
| YoloBackend.Fit | model.py:187 | `fit` fails with NotImplementedError whatever its event and data |
| DistBackend.Predict | dist/label-studio-ml-backend/model.py:83-123 | the dist copy's nested loops return exactly what model.py's `predict` returns for the same backend, tasks and detector; on success that is one prediction carrying MODEL_VERSION |
| DistBackend.VisitResults | dist/label-studio-ml-backend/model.py:95-117 | the outer loop yields the regions of all boxes, the sum of all confidences and the final `i`, or the first box's error |
| DistBackend.VisitBoxes | dist/label-studio-ml-backend/model.py:97-117 | the inner loop extends the regions by those of the result's boxes, adds their confidences to the score, and leaves `i` at the result's last index, or stops with the first failing box's error |
| ControlSelection.FirstAccepting | model.py:68-96 | an instance is found exactly when some class accepts the control; it is the instance of the first accepting class in registration order |
| ControlSelection.DetectControlModels | model.py:53-105 | fails exactly when no control is usable; otherwise returns the non-empty list with one first-accepting instance per usable control, in control order |
| ControlSelection.SelectedEmpty | model.py:98-103 | nothing is selected if and only if no control has a toName and an accepting class |
| ControlSelection.SelectedAtIndices | model.py:59-96 | position k of the output is the first accepting instance of the k-th usable control |
| ControlSelection.SelectedIndicesOrdered | model.py:59-96 | the selected controls are in increasing position (control order, at most one instance each); a control is selected exactly when it is usable, and never when it has no toName |
| ControlSelection.FirstAcceptingAt | model.py:68-96 | when class c accepts and no earlier class does, class c's instance is the one taken |
| Text.NatToStringRoundTrip | model.py:138 | the digits `str(i)` writes read back as i |
| Text.NatToStringInjective | model.py:138 | distinct indices give distinct ids |
| Text.ParseIntOfIntToString | cli.py:112 | `int(str(i)) == i` for every integer |
| Text.ParseIntRejectsBlank | cli.py:112 | `int` of an empty or all-whitespace piece raises |
| Text.Split | cli.py:111 | `split(",")` gives at least one piece, and no piece contains the separator |
| Text.SplitPieceCount | cli.py:111 | k separators give k + 1 pieces |
| Text.JoinSplit | cli.py:111 | joining the pieces with the separator restores the string |
| Text.SplitJoin | cli.py:111 | splitting a join of separator-free pieces gives the pieces back |
| Text.RemoveUnderscores | cli.py:112 | dropping the underscores of digit groups leaves only digits and no underscore, is shorter by exactly the number of underscores, and leaves plain digits unchanged |
| Text.RemoveUnderscoresKeepsOthers | cli.py:112 | every other character is kept, in order: character k lands at position k minus the underscores before it |
| Text.GroupedDigitsExample | cli.py:112 | `int("1_000") == 1000` |
| JsonValues.Lookup | cli.py:71 | `d[key]` succeeds exactly on a dict holding the key, and gives its value |
| JsonValues.GetOr | cli.py:72-73 | `d.get(key, default)` fails only on a non-dict; it gives the key's value when present (even null) and the default otherwise |
| TaskResolver.ParseIds | cli.py:111-112 | on success one integer per piece, in order, each the piece's `int()`; on failure the error names the first piece that is not an integer |
| TaskResolver.Hydrate | cli.py:120-126 | succeeds exactly when every id can be fetched; then one {id, data} record per id, in order; otherwise the error names the first id that failed |
| TaskResolver.PrepareTasks | cli.py:105-133 | a resolved task list is non-empty and its first element is a dict with "id" and "data" |
| TaskResolver.FileMustHoldNonEmptyList | cli.py:113-114 | file content that is not a list, or an empty list, is rejected with the matching error |
| TaskResolver.RecordListPassesThrough | cli.py:117-119 | a list whose first element is a dict comes back unchanged when that dict has "id" and "data", whatever the later elements are, and is rejected otherwise |
| TaskResolver.IdListIsHydrated | cli.py:120-126 | a list whose first element is an int (or bool) becomes one {id, data} record per element, in order, with ids kept and later elements not type-checked |
| TaskResolver.OtherFirstElementRejected | cli.py:128-132 | a first element that is neither a dict nor an int is an unknown task format |
| TaskResolver.NoCommaInNatToString | cli.py:111 | a rendered id never contains the separator |
| TaskResolver.InlineIdsRoundTrip | cli.py:107-126 | with no such file, the comma-joined renderings of any non-empty id list resolve to one record per id, in order |
| TaskResolver.InlineFormErrors | cli.py:110-114 | the inline form can fail only on a piece that is not an integer or on a fetch, and never on the list or emptiness checks; on success it gives (commas + 1) tasks |
| TaskResolver.EmptyInlineSpec | cli.py:111-112 | an empty --tasks value with no such file fails on the piece "" |
| ResponseReconciler.Postprocess | cli.py:80-102 | None and unrecognised shapes give None; a list passes through unchanged; a ModelResponse gives one dict per prediction |
| ResponseReconciler.RunVersionStamped | cli.py:88-90 | an unversioned response with a truthy model version: each prediction keeps its own version or takes the model's, so every dict carries a non-empty version; result and score are untouched |
| ResponseReconciler.UnversionedLeftAlone | cli.py:88-89 | with no version on the response and a falsy model version, the predictions are dumped as they are |
| ResponseReconciler.ResponseVersionPropagated | cli.py:91-92 | a versioned response ignores the model's version; each prediction keeps its own version or takes the response's |
| BatchRunner.SubmissionFor | cli.py:70-75 | the `create` call succeeds exactly when the task record has an "id" and the prediction is a dict with "result"; it carries them, the score (0 if absent) and the model version ("none" if absent) |
| BatchRunner.Submit | cli.py:70-75 | a submission is logged exactly when its arguments evaluate and the `create` call returns; a call that raises ends with CreateFailed naming the submission, and an argument that raises with that argument's error |
| BatchRunner.SubmitEach | cli.py:69-75 | the inner loop logs one entry per prediction when nothing raises, and fewer when something does |
| BatchRunner.SubmitEachElementwise | cli.py:69-75 | entry k is the submission for prediction k; the loop ends early exactly at the first prediction whose arguments or `create` call raise |
| BatchRunner.Run | cli.py:50-77 | the loops' log and error are those of the run's reference definition; a rejected task specification ends the run with nothing submitted |
| BatchRunner.RunTaskLoop | cli.py:64-75 | the outer loop's log and error are those of the reference definition over the resolved tasks |
| BatchRunner.SubmitAll | cli.py:69-75 | the inner loop's submissions and error are those of the reference definition |
| BatchRunner.ErrorEndsRun | cli.py:64-75 | once a task's iteration raises, later tasks are not looked at |
| BatchRunner.SubmissionsStand | cli.py:64-75 | the log after the first j tasks is a prefix of the final log |
| BatchRunner.NoneResponseAbortsRun | cli.py:66-69 | a response that reconciles to None ends the run with NoPredictions instead of being skipped; the log is what the earlier tasks submitted |
| BatchRunner.CompleteRunLog | cli.py:64-75 | a run without error makes one submission per prediction, so the log length is the total prediction count; prediction k of task j is entry k after all earlier tasks' entries |
| BatchRunner.YoloTaskSubmission | cli.py:65-75 | with model.py's backend, a task with an id that predicts successfully gets exactly one `create` call, carrying the prediction's score, regions and MODEL_VERSION (null when unset, since the key is present), logged if the call returns and ending the run with CreateFailed if it raises; a task whose prediction raises ends the run with nothing submitted |

## Left out

- The image download, PIL decoding and YOLO inference (model.py:126-131) are the parameter `detect`. So are loading the model and moving it to CUDA (dist/label-studio-ml-backend/model.py:63-65).
- `setup` (model.py:42-51) is not modelled: it parses the labeling config, reads environment variables and loads the model. Its outcome is the `Backend` value: tag names, MODEL_VERSION and the label table `Backend.labels`, which `setup` fills from `model.names` (model.py:51).
- `load_dotenv`, the environment prints and reading `LABEL_STUDIO_URL` / `LABEL_STUDIO_API_KEY` are not modelled: they are configuration and I/O.
- `ls.projects.get` and the construction of `YOLO` inside `run` (cli.py:53-61) are not modelled: they are SDK and setup calls. `ls.tasks.get` is the parameter `fetch`. `ls.predictions.create` is the parameter `create`, and the calls that return form the submission log.
- The argparse front end (cli.py:19-42), logging and tqdm progress bars are not modelled: they are I/O only.
- Floating point is left out: coordinates, confidences and the score are exact reals, so float rounding is not modelled.
- `int(prediction.cls.item())` is left out: the class index is taken as an integer, and truncating a float class value is not modelled.
- Text.ParseInt: accepts ASCII whitespace, the four ASCII information separators and ASCII digits only. Python's `int()` also strips Unicode whitespace and accepts other Unicode decimal digits.
- `assert` statements in `prepare_tasks` are modelled as always active. Running Python with `-O` would disable them.
- label_studio_ml's `ModelResponse` is not part of this model. `has_model_version`, `set_version`, `update_predictions_version` and `model_dump` follow that library's behaviour, as stated in the `ResponseReconciler` module comment. Nested prediction lists inside a response are not modelled.
- The control-model classes' `is_control_matched`, `create` and label-map building are parameters (`Registry`). Their own logic lives outside the core.
- The dist copy's `fit` (dist/label-studio-ml-backend/model.py:125-149) is identical to model.py's and is covered by `YoloBackend.Fit`.
