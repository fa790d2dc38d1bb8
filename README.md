# Brain tumour MRI classifier: a Dafny model of its decision logic

The application classifies a brain MRI scan into one of four labels: `glioma`, `meningioma`,
`pituitary` and `notumor`. It works in three steps:

- the browser's upload widget checks the chosen file and sends it for analysis;
- the analysis is either the FastAPI inference endpoint `/predict` or, when no API URL is
  configured, a client-side simulator;
- the results panel shows the answer.

This project models the parts of those steps that decide something and proves what they
promise. The models cover:

- the simulator and the gateway (`prediction.dfy`);
- the endpoint's validation and decision logic (`backend.dfy`);
- the panel's choice of view, bucketing, naming, colouring and sorting (`results_panel.dfy`);
- the upload widget as a class with the five fields it updates (`upload_section.dfy`).

`consistency.dfy` proves facts that span these parts. `common.dfy` holds the shared pieces:
the rounding, `Sum`, and `Option`/`Result`.

Inputs the code cannot see become parameters:

- Every `Math.random()` the simulator calls is a field of `Draws`.
- Whether the image decodes and the vector the model returns are inputs to
  `HandlePredict`.
- The HTTP answer the gateway receives is an input to `Predict`.
- The outcome of the awaited prediction is an input to the widget's `Analyze`.

Rounding to four decimals (`toFixed(4)` in the client, `round(x, 4)` in the API) is the
concrete function `Round4`, which rounds half up on exact reals. The general bounds, such as
the simulator's total and the confidence range, use only three of its properties: it is off
by at most half a unit in the fourth decimal, it is monotone, and it leaves grid values
unchanged. The contracts of `MockPredict` and `HandlePredict` state equality with `Round4`
itself. The two concrete witnesses, `UnroundedEntryWitness` and
`LowConfidenceLabelWithMediumLevel`, evaluate it at 0.880005 and at 0.59996. Neither value
is a rounding tie, so `toFixed` and Python's `round` give the same results there.

The simulator does not store the rounded confidence under the winning label. The winner's
entry in the probability map holds the unrounded draw
(`frontend/src/lib/prediction.ts:37`). Only the reported `confidence` is rounded (line 42).
`MockPredict` states both, and `UnroundedEntryWitness` exhibits draws for which the two
values differ. Both the drawn entry and the reported confidence lie in [0.82, 0.98].

JavaScript objects keep their keys in insertion order, but a Dafny map has no order. The
panel therefore receives the key order of the probability object as a parameter, a list
that must name each key of the map exactly once (`IsKeyOrder`).

## Model

| member | source | states |
|---|---|---|
| Common.Round4 | frontend/src/lib/prediction.ts:42 | rounding to four decimals moves a value by at most 0.00005 |
| Common.Round4Monotone | frontend/src/lib/prediction.ts:42 | rounding preserves order |
| Common.Round4OnGrid | frontend/src/lib/prediction.ts:42 | a value with four decimals rounds to itself |
| Common.Round4NonNegative | frontend/src/lib/prediction.ts:39 | a non-negative value rounds to a non-negative value |
| Common.Round4Between | frontend/src/lib/prediction.ts:42 | a value between two four-decimal bounds stays between them after rounding |
| Common.SumBoundsElements | frontend/src/lib/prediction.ts:35 | each of a run of non-negative weights is at most their `Sum`, which adds left to right as the `reduce` does |
| Common.SumNonNegative | frontend/src/lib/prediction.ts:35 | the sum of non-negative weights is non-negative |
| Prediction.ClassSetListsTumorClasses | frontend/src/lib/prediction.ts:8 | the label set `ClassSet` holds exactly the four labels of the list, none repeated |
| Prediction.LabelRangesPartition | frontend/src/lib/prediction.ts:14-30 | every draw in [0, 1) selects exactly one of the four labels |
| Prediction.DrawLabel | frontend/src/lib/prediction.ts:14-30 | the label is the one whose range holds the first draw, and the confidence is its window's low end plus the second draw times the window's span, in [0.82, 0.98) |
| Prediction.Without | frontend/src/lib/prediction.ts:33 | the filter keeps exactly the other elements; on a list without repeats it stays repeat-free and is one shorter when the element occurs |
| Prediction.WithoutDeletesPosition | frontend/src/lib/prediction.ts:33 | filtering an element out of a repeat-free list deletes exactly its position, keeping the order of the rest |
| Prediction.Others | frontend/src/lib/prediction.ts:33 | for a label, the other three labels, each once, without the label itself |
| Prediction.SharesSum | frontend/src/lib/prediction.ts:35-39 | the shares `Shares` add up to the sum of the weights divided by `wSum`, times the remaining mass. Each share (`Share`) is a weight divided by `wSum` and multiplied by the remaining mass. With `wSum` the weights' own `Sum`, the shares hand out exactly the remaining mass |
| Prediction.SharesNonNegative | frontend/src/lib/prediction.ts:39 | a share of a non-negative weight is non-negative |
| Prediction.RoundedTotal | frontend/src/lib/prediction.ts:37-40 | values each within half a unit of the exact ones total within one half-unit per value of the exact total |
| Prediction.OthersCoverClasses | frontend/src/lib/prediction.ts:33-37 | the winner together with the other labels is the whole label set |
| Prediction.ResidualsNonNegative | frontend/src/lib/prediction.ts:38-40 | every entry of the probability map is non-negative |
| Prediction.ResidualMass | frontend/src/lib/prediction.ts:32-40 | the map's total is the winner's entry plus the remaining mass, up to one half-unit per other label |
| Prediction.FillResiduals | frontend/src/lib/prediction.ts:37-40 | the loop yields the four labels as keys, keeps the winner's entry as drawn, gives each other label its rounded share, keeps all values non-negative, and leaves a total within 0.00015 of 1 |
| Prediction.DrawnWinnerResult | frontend/src/lib/prediction.ts:42 | rounding the drawn confidence keeps it within [0.82, 0.98], and the result built from the draw satisfies the winner half of `Simulates` (`DrawnWinner`) |
| Prediction.MockPredict | frontend/src/lib/prediction.ts:11-43 | `Simulates(d, res)`, made of `DrawnWinner` and `SharedRest`: the label is the one whose range holds the first draw; its entry is its window's low end plus the second draw times the window's span, in [0.82, 0.98); the confidence is that entry rounded, in [0.82, 0.98]; the other labels get rounded shares of the remaining mass; values are non-negative and total 1 within 0.00015; there is no Grad-CAM URL |
| Prediction.UnroundedEntryWitness | frontend/src/lib/prediction.ts:37-42 | some draws give a winner's entry of 0.880005 with a reported confidence of 0.88, so the entry and the confidence can differ |
| Prediction.Predict | frontend/src/lib/prediction.ts:45-56 | with no API URL it sends nothing and returns a result that satisfies `Simulates` for the draws, with every property `MockPredict` proves; otherwise it posts the file once to the URL plus `/predict` in the form field `file`, passes a 2xx body through unchanged and rejects any other status with "Prediction failed" |
| ResultsPanel.LevelPresentationDistinct | frontend/src/components/ResultsPanel.tsx:10-14 | the three buckets differ in their label, their colour and their explanation |
| ResultsPanel.ConfidenceLevel | frontend/src/components/ResultsPanel.tsx:10-14 | High exactly from 0.85 up, Medium exactly on [0.6, 0.85), Low exactly below 0.6 |
| ResultsPanel.ConfidenceLevelMonotone | frontend/src/components/ResultsPanel.tsx:10-14 | a higher confidence never falls in a lower bucket |
| ResultsPanel.DisplayName | frontend/src/components/ResultsPanel.tsx:16-25 | known labels get their fixed names; any other label is shown as it is |
| ResultsPanel.DisplayNamesDistinct | frontend/src/components/ResultsPanel.tsx:16-25 | the four classes are shown under four different names |
| ResultsPanel.BarColor | frontend/src/components/ResultsPanel.tsx:27-35 | each class gets its own colour; a label gets the default colour exactly when it is not one of the four classes |
| ResultsPanel.BarColorsDistinct | frontend/src/components/ResultsPanel.tsx:27-35 | the four classes get four different colours |
| ResultsPanel.ClassBarsDistinguishable | frontend/src/components/ResultsPanel.tsx:84-96 | bars (`Entry`) of two different classes differ both in the name (`Entry.Name`) and in the colour (`Entry.Color`) they are drawn with |
| ResultsPanel.Insert | frontend/src/components/ResultsPanel.tsx:63 | inserting into a list sorted largest first keeps it sorted and adds exactly the new entry |
| ResultsPanel.SortByProbability | frontend/src/components/ResultsPanel.tsx:63 | the result is sorted largest probability first and is a permutation of the input |
| ResultsPanel.SortedEntriesOfMap | frontend/src/components/ResultsPanel.tsx:63 | `Entries`, the model of `Object.entries` for a given key order, once sorted: the entries have one entry per key, each carrying its own probability, and every key of the map appears |
| ResultsPanel.Render | frontend/src/components/ResultsPanel.tsx:37-99 | a placeholder exactly when there is no result and nothing is loading; a skeleton exactly while loading; otherwise the card, with the result's display name, confidence and bucket, and bars that are the map's entries sorted largest first |
| Backend.LowerChar | backend/main.py:79 | a lowered character is never an ASCII capital, and only ASCII capitals change, each to the letter 32 code points later |
| Backend.Lower | backend/main.py:79 | lowering works character by character and keeps the length |
| Backend.LowerIdempotent | backend/main.py:79 | lowering twice equals lowering once |
| Backend.AfterLastDot | backend/main.py:79 | the longest dot-free suffix of the name: it is preceded by a dot whenever it is not the whole name, and it is the whole name when there is no dot |
| Backend.LowerAfterLastDot | backend/main.py:79 | splitting at the last dot commutes with lowering |
| Backend.Extension | backend/main.py:79 | a missing or empty file name gives the empty extension; an extension never contains a dot |
| Backend.ExtensionIgnoresCase | backend/main.py:79 | the extension does not depend on the case of the file name |
| Backend.ValidateFile | backend/main.py:77-87 | a file passes exactly when its extension is allowed and its content type starts with "image/" (`StartsWith`, Python's `startswith`); a disallowed extension is reported with that extension, before the content type is looked at |
| Backend.ValidateFileIgnoresCase | backend/main.py:77-87 | upper-case and lower-case spellings of a file name are judged alike |
| Backend.ArgMax | backend/main.py:143 | the index of a largest element, and the first such index |
| Backend.ProbabilityMap | backend/main.py:148-150 | the keys are exactly the class names |
| Backend.ProbabilityMapLastWins | backend/main.py:148-150 | a class name maps to the rounded probability of its last occurrence |
| Backend.ProbabilityMapOfDistinct | backend/main.py:148-150 | class names without repeats each map to their own rounded probability |
| Backend.HandlePredict | backend/main.py:120-169 | errors come in order: validation, then size, then decoding; the response succeeds exactly when all three pass and the model output can be read (`Readable`); when all three pass but the output cannot be read, the answer is the internal error behind an uncaught exception (status 500). That covers an empty vector, an index past the class list, and a vector shorter than the class list; every handled error has status 400; a success reports the class of the first largest probability, or the low-confidence label when that probability is below 0.60, with the confidence rounded and the probability map of all classes |
| UploadSection.Widget.constructor | frontend/src/components/UploadSection.tsx:11-15 | the widget starts with no file, preview, result or error, and not loading |
| UploadSection.Widget.HandleFile | frontend/src/components/UploadSection.tsx:19-36 | the result is always cleared; an unaccepted type or an oversized file sets its message and keeps the previous file; an accepted file clears the error and becomes the current file |
| UploadSection.Widget.PreviewLoaded | frontend/src/components/UploadSection.tsx:33-35 | the file reader's data URL becomes the preview and nothing else changes |
| UploadSection.Widget.BeginAnalyze | frontend/src/components/UploadSection.tsx:48-51 | it starts exactly when a file is present, and then sets loading, clears the error and hides the Analyze button; otherwise nothing changes |
| UploadSection.Widget.FinishAnalyze | frontend/src/components/UploadSection.tsx:52-59 | a resolved prediction becomes the result; a rejection sets the fixed failure message; loading ends in both cases |
| UploadSection.Widget.Analyze | frontend/src/components/UploadSection.tsx:48-60 | without a file nothing changes; otherwise loading ends with the result or with the failure message; starting from no result, exactly one of result and error is set |
| UploadSection.Widget.Reset | frontend/src/components/UploadSection.tsx:62-67 | file, preview, result and error are cleared, and loading is kept |
| UploadSection.Widget.UploadPane | frontend/src/components/UploadSection.tsx:93-158 | the drop zone exactly when there is no preview; over a preview, the Analyze button exactly when there is no result and nothing is loading, and the spinner exactly while loading |
| Consistency.ShareAtMostRemaining | frontend/src/lib/prediction.ts:39 | a weight's share of the remaining mass is at most the remaining mass |
| Consistency.SimulatedRunnersUp | frontend/src/lib/prediction.ts:32-40 | each label the simulator did not pick gets at most 0.18005 |
| Consistency.SimulatedWinnerOutweighs | frontend/src/lib/prediction.ts:18-40 | the picked label's entry is larger than every other label's |
| Consistency.LargestKeyLeads | frontend/src/components/ResultsPanel.tsx:63 | a key that outweighs all the others is the first bar of the sorted list |
| Consistency.MockKeyOrder | frontend/src/lib/prediction.ts:37-40 | the simulator's insertion order, the winner and then the other labels, names each key of its map exactly once |
| Consistency.RenderSimulated | frontend/src/components/ResultsPanel.tsx:62-63 | a simulated result is shown as a card in the Medium or High bucket with four bars, the first being the predicted label |
| Consistency.LowConfidenceLabelWithMediumLevel | backend/main.py:143-166 | a top probability of 0.59996 yields the low-confidence label with confidence 0.6, which the panel files under Medium: the threshold applies to the unrounded value, the panel's bucket to the rounded one |

## Left out

- MockPredict: requires the three weight draws to have a positive sum. If all three draws
  are exactly 0, the source divides 0 by 0 and stores NaN, which reals cannot express.
- Common.Round4: IEEE-754 doubles are not modelled. `toFixed(4)` rounds the exact binary
  value of the double, and Python's `round` rounds half to even on it. Both can differ from
  round-half-up on exact reals in the last place, so every bound is stated with
  half-a-unit slack.
- Prediction.Predict: fetch failures (network errors) and malformed JSON bodies are not
  modelled. A 2xx body is taken to be a prediction result, as the source assumes without
  checking. The widget's `Analyze` takes any outcome, so a rejected fetch is covered there.
- The simulator's 2000 ms delay: time is not modelled.
- UploadSection.Widget.PreviewLoaded: the file reader's callback arrives asynchronously.
  The model lets it run at any time. It does not rule out a stale callback that fires after
  `Reset`, and neither does the source.
- UploadSection.Widget.Analyze: it is the composition of `BeginAnalyze` and
  `FinishAnalyze`. Interleaving other events while the prediction is awaited is not shown.
  The hidden Analyze button is what prevents a second start (`BeginAnalyze`).
- The exact wording of messages that the model does not keep verbatim:
  - the backend's error details;
  - the backend's list of allowed extensions, which follows Python's set iteration order;
  - the percentages the panel prints with `toFixed(1)`.
- Backend.Lower: lowers ASCII letters only. Python's Unicode case mapping is not modelled.
- ResultsPanel.DisplayName: lookups of inherited JavaScript object keys such as
  `constructor` are not modelled. The same holds for ResultsPanel.BarColor.
- ResultsPanel.SortByProbability: the source's sort is stable, and so is the insertion sort
  used here, but stability is not stated. A comparator result of NaN is not modelled.
- Backend.HandlePredict:
  - not modelled: the model not being loaded (a call on `None`, answered with 500);
  - NaN in the probability vector is not modelled;
  - the image preprocessing (`preprocess_image`) and `model.predict` are inputs;
  - the server startup (`lifespan`), CORS, logging, and the `/` and `/health` routes are not
    modelled.
- The drag-over highlight (`dragOver`, `onDrop`) and the demo-mode banner of the upload
  widget are presentation only.
- The static sections of the page are not part of this model: the hero, the navigation bar,
  the about and technology sections, the footer and the index page.
- No Grad-CAM image: `gradcam_url` is never set by the code modelled here. It is always
  `None`.
