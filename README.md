# presenter: the structure-review workflow and its string builders, in Dafny

This project models the core of *presenter*, a tool that turns a topic into a narrated slide deck. It covers three parts:

* **The workflow** (`workflow.py`, module `Workflow`). `PresenterWorkflow` is an event-driven state machine. `start` stores the topic under `"topic"` in the run's context. A creator makes a slide structure. A validator judges it. If the verdict is not perfect, an updater revises the structure once. The final structure is the run's result. Each step is the pure function `Step`, and `Execute` is the run it specifies. The class `PresenterWorkflow` holds the context and drives the steps in a loop (`Run`). That loop is proved to compute what `Execute` computes, and `Execute` is proved to end with the planned structure after the planned collaborator calls.
* **The data models** (`models.py`, module `Models`). These are `SlideInfo`, `PresentationStructure` and `StructureFeedback`, together with the validation pydantic performs when it builds them from keyed data:
  * required fields;
  * `feedback` defaulting to `None`;
  * strict types;
  * unknown keys ignored.
  Dumping a model and validating the dump round-trips.
* **The string builders** (`utils.py`, modules `Utils` and `Ffmpeg`; shared helpers in `Strings`):
  * the safe folder name;
  * the markdown clean-up;
  * the slide-deck configuration header;
  * the FFmpeg command line.
  The command is built by a method with the source's two loops, proved equal to a declarative definition. Lemmas then describe the resulting filter graph.

Python's semantics are written out where they matter:
* `sep.join` and `str.replace` (leftmost, non-overlapping);
* f-string formatting of integers, negative ones included, so the final map of an empty input list names `[outv-1]`;
* the `\s` class of a `str` pattern (`str.isspace()`);
* `^` under `re.M`, which holds at the start of the text and after every newline.

## Model

| member | source | states |
|---|---|---|
| Models.ParseSlideInfo | models.py:5-9 | A `SlideInfo` is built exactly when the input is an object whose `title` and `atomic_core_idea` are strings, and it holds those two strings. A missing `title` is reported first, then a missing `atomic_core_idea`. |
| Models.ParseSlides | models.py:13-15 | The `slides` list validates exactly when every element does. The result has the same length, and element i is element i's parse. A refusal names the index of an element inside the list. |
| Models.ParseStructure | models.py:12-15 | A `PresentationStructure` is built exactly when `slides` is present, is a list and validates. It has one slide per list element, and slide i is the parse of element i. A missing `slides` is reported as missing. |
| Models.ParseOptionalString | models.py:23-26 | `Optional[str] = Field(None)`: absent or null gives `None`, a string gives `Some` of exactly that string, and anything else is refused. |
| Models.ParseFeedback | models.py:18-26 | A `StructureFeedback` is built exactly when `is_perfect` is a boolean and `feedback` is absent, null or a string. `isPerfect` is the given flag, and `feedback` is the validated optional string: `None` when the key is absent or null, the text when it is a string. A missing `is_perfect` is reported. |
| Models.SlideInfoRoundTrip | models.py:5-9 | Validating the dump of a `SlideInfo` gives it back. |
| Models.StructureRoundTrip | models.py:12-15 | Validating the dump of a `PresentationStructure` gives it back, slide for slide. |
| Models.FeedbackRoundTrip | models.py:18-26 | Validating the dump of a `StructureFeedback` gives it back, both with and without feedback text. |
| Models.SlideInfoIgnoresExtraKeys | models.py:5-9 | Adding a key other than the two fields does not change the outcome of validation. |
| Models.FeedbackIgnoresExtraKeys | models.py:18-26 | Adding a key other than the two fields does not change the outcome of validation. |
| Workflow.Step | workflow.py:54-94 | The step that accepts an event always moves strictly forward, so no route leads back to validation. Only `start` writes the context. Each step calls at most one collaborator, and a call's kind belongs to the step's stage. Validator and updater receive the topic read back from the context. With the collaborators total, a step fails exactly for an event no step accepts, or when validation or update finds no topic. |
| Workflow.StepCount | workflow.py:54-94 | A step adds one call of a kind to the run's count exactly when its single call is of that kind. |
| Workflow.Execute | workflow.py:44-94 | From any event and context, the creator, validator and updater are each called at most once, and never once the run is past their step. A run that does not start at `start` ends with the context unchanged. |
| Workflow.ExecuteEmit | workflow.py:44-94 | Running from an accepted event is taking its step, then running from the event it emits, after that step's calls. |
| Workflow.RunFromStart | workflow.py:55-94 | A run started with `query`: <br>• is not aborted: no step lacks the topic, and every event it emits has a step (collaborator exceptions are not modelled); <br>• returns the created structure if the validator finds it perfect, and otherwise the single update of it; <br>• leaves `topic` = `query` in the context; <br>• makes exactly the calls create(query), validate(query, created) and, only when the verdict is not perfect, update(query, created, verdict). |
| Workflow.RevisionBound | workflow.py:68-89 | In a run, creator and validator are each called exactly once. The updater is called once exactly when the verdict is not perfect. The validator only ever sees the created structure, and every call gets the run's topic. |
| Workflow.StartRecordsTopic | workflow.py:55-58 | `start` stores the query under `topic` and emits a structure request for it. |
| Workflow.CreateRequestsValidation | workflow.py:61-66 | The create step asks the creator for the event's topic and sends its structure to validation. |
| Workflow.PerfectStructureFinalized | workflow.py:69-76 | A perfect verdict finalizes the structure unchanged, after one validator call with the stored topic. |
| Workflow.ImperfectStructureUpdated | workflow.py:69-77 | Any other verdict emits an update request carrying the structure and the verdict. |
| Workflow.UpdateFinalizes | workflow.py:80-89 | The update step finalizes the updater's result for the stored topic, structure and feedback. |
| Workflow.MissingTopicRaises | workflow.py:69-89 | Without a stored topic, the validate and update steps fail with the missing key. |
| Workflow.FinalizedStructureReturned | workflow.py:92-94 | A finalized structure is the run's result, unchanged, with no further calls. |
| Workflow.PresenterWorkflow.constructor | workflow.py:45-52 | A new workflow holds its collaborators, an empty context and no calls. |
| Workflow.PresenterWorkflow.Run | workflow.py:44-94 | The dispatch loop returns the planned structure, leaves the context holding just `topic` = `query`, and has made exactly the planned calls. |
| Utils.ReplaceChar | utils.py:16 | `s.replace(" ", "_")`: same length, and each space becomes `_` and nothing else changes. |
| Utils.Lower | utils.py:16 | `s.lower()`, character by character, with the same length. |
| Utils.SafeFolderName | utils.py:15-16 | Same length as the topic. Each character is the topic's, with a space turned into `_`, then lowercased. |
| Utils.SafeFolderNameIsSafe | utils.py:15-16 | The folder name has no space and no upper-case ASCII letter. |
| Utils.SafeFolderNameIdempotent | utils.py:15-16 | Applying the conversion twice is applying it once. |
| Utils.HeadingMatch | utils.py:29 | `(#{1,2})\s` matches at a position exactly as `##`+whitespace (length 3) or `#`+whitespace (length 2), trying the longer alternative first. |
| Utils.Headings | utils.py:29-30 | `re.sub(r"^(#{1,2})\s", "### ", text, flags=re.M)` scanned left to right, where a consumed newline keeps the next position a line start. Each rewrite replaces two or three characters by four, so the result is never shorter than the text. `Utils.RewriteHeadings` applies it from the text's start. |
| Utils.NoHashUnchanged | utils.py:29-30 | A text without `#` is left exactly as it is. |
| Utils.MidLineUnchanged | utils.py:29-30 | In the middle of a line, nothing is rewritten. |
| Utils.HeadingLineRewritten | utils.py:29-30 | A line starting with `#` or `##` and a whitespace character starts over as `### `. |
| Utils.UnmatchedLineKept | utils.py:29-30 | A line the pattern does not match at its start is kept verbatim, up to and including its newline. |
| Utils.TripleHashLineKept | utils.py:29-30 | A line that already starts with `###` is kept verbatim, whatever follows it. This covers a last line with no newline after it (`rest` empty), and a line followed by a newline and more text, where the newline makes the next line a line start again. |
| Utils.ReplaceAll | utils.py:33 | Python's `str.replace`: leftmost, non-overlapping occurrences, scanned left to right. A replacement as long as the pattern keeps the length. |
| Utils.ReplaceAllAbsent | utils.py:33 | A text in which the pattern does not occur is left as it is. |
| Utils.FlowchartLeftToRight | utils.py:33 | `replace("flowchart TD", "flowchart LR")` keeps the length of the text. |
| Utils.PrefixWithoutF | utils.py:33 | No replacement of `flowchart TD` begins inside a rewritten prefix that has no `f`. |
| Utils.ReplacedFree | utils.py:33 | A `flowchart LR` followed by text free of `flowchart TD` is free of it. |
| Utils.KeptFree | utils.py:33 | Keeping a character that starts no `flowchart TD` does not create one. |
| Utils.NoFlowchartTD | utils.py:33 | After `replace("flowchart TD", "flowchart LR")`, no `flowchart TD` is left anywhere in the text. |
| Utils.FreeAfterNewlines | utils.py:34 | Appending the two newlines creates no `flowchart TD`. |
| Utils.SanitizeMarkdown | utils.py:19-34 | The cleaned markdown always ends in a blank line (`\n\n`) and never contains `flowchart TD`, for every input. |
| Utils.GetPresentationConfig | utils.py:3-12 | The header is the constant, line by line: it is 105 characters long, its first line is blank, the code-theme, controls and keyboard settings follow in that order on lines of their own, and it ends in a blank line. |
| Ffmpeg.LabelShape | utils.py:57-69 | The text of a label tells its kind by a few characters: the second tells input, trimmed and output labels apart, the fifth tells the two outputs apart, and the fourth from last the two inputs. |
| Ffmpeg.LabelTextInjective | utils.py:57-69 | Two stream labels with the same text are the same stream, so the text-level labels of the filter graph name streams without ambiguity. |
| Ffmpeg.LabelsTextAppend | utils.py:62 | The text of a list of labels is the text of its parts, in order. |
| Ffmpeg.TrimFilterStreams | utils.py:55-57 | The trim filter of input i reads `[i:v:0]` and writes `[vi]`. |
| Ffmpeg.XfadeFilterStreams | utils.py:58-63 | Transition i reads `[vi]`, `[i:a:0]`, `[v{i+1}]` and `[{i+1}:a:0]`, and writes `[outv{i+1}]` and `[outa{i+1}]`. Its offset is `i*5`. |
| Ffmpeg.TrimSegmentsGrow | utils.py:55-57 | Each pass of the first loop appends the next input's trim segment. |
| Ffmpeg.Transitions | utils.py:58-63 | The first `count` transitions: `count` of them, transition k at index k, as the second loop appends them. |
| Ffmpeg.FfmpegCommand | utils.py:51-72 | The command line starts with `ffmpeg ` and ends with the output file. |
| Ffmpeg.GenerateFfmpegCommand | utils.py:37-73 | The two loops and the final assembly produce exactly the declarative command: `ffmpeg`, the inputs, the quoted filter graph, the final map and the output file. |
| Ffmpeg.FilterComplexLayout | utils.py:55-66 | The filter graph is the n trim filters followed by the n-1 transitions, separated by single `;`. Only a single input leaves a trailing `;`. |
| Ffmpeg.FilterAt | utils.py:55-66 | Filter k sits in index order between the join of the filters before it and the join of those after it, each separated by a single `;`. |
| Ffmpeg.FilterKind | utils.py:55-66 | Filters below n are the trim filters of inputs 0 to n-1, and filter k from n on is transition k-n. |
| Ffmpeg.FinalMapResolved | utils.py:55-69 | The streams named by the final `-map` are written by some filter exactly when there are at least two inputs. With one input the map names `[outv0]`/`[outa0]`, which nothing writes. |
| Ffmpeg.FinalMapTextResolved | utils.py:55-69 | At the level of text: some filter writes a stream labelled with the text the final `-map` names exactly when there are at least two inputs. With one input, no filter writes `[outv0]` or `[outa0]`. |
| Ffmpeg.InputAt | utils.py:51-72 | Input k's `-i <file>` appears in the given order, separated from its neighbours by single spaces. |
| Strings.Join | utils.py:66 | `sep.join` of no parts is empty, and of one part is that part. |
| Strings.JoinAppend | utils.py:66 | Joining two non-empty lists puts exactly one separator between their joins. |
| Strings.JoinSplitAt | utils.py:66 | Each part of a join sits between the joins before and after it, with exactly one separator on each side. |
| Strings.ConcatTerminated | utils.py:55-57 | Concatenating parts that each end in `;` is joining them by `;` and adding a trailing `;`. |
| Strings.IntToString | utils.py:57-69 | The decimal text of an integer is non-empty and starts with `-` exactly for negative values. |
| Strings.IntToStringRoundTrip | utils.py:57-69 | The decimal text of an integer reads back as that integer. |
| Strings.IntToStringInjective | utils.py:57-69 | Different integers have different decimal texts. `Ffmpeg.LabelTextInjective` builds on this. |

## Left out

- The collaborators (`create_presentation_structure`, `validate_presentation_structure`, `update_presentation_structure`) call a language model. They are opaque functions with no contract, and the `llm` handle they receive is not modelled. Their modules are not part of this model.
- Collaborator exceptions and the run's timeout are not modelled. In the source, an exception raised inside `create_presentation_structure`, `validate_presentation_structure` or `update_presentation_structure` (workflow.py:65, 74, 86) leaves its step and aborts the run, and so does the timeout given at run.py:15. Here `Agents` holds total functions, so `Workflow.RunFromStart` and `Workflow.Step` say nothing about those failures.
- The llama_index runtime is replaced by `Step` and `PresenterWorkflow.Run`. That covers async step execution, routing by the annotated event type, `verbose`, `timeout` and the awaitable context. The context is a plain string map.
- `Workflow.SlideCreated`: the event is declared (workflow.py:38-41) but no step accepts it. `create_slide` (workflow.py:92-94) only returns the finalized structure as the run's result, so no slides are produced, joined or cached, and the model has no such operations either.
- The video and narration pipeline (video_creator.py) and the command-line entry point (run.py) are not part of this model.
- `Utils.SanitizeMarkdown` leaves two regular-expression stages as function parameters. One is the mermaid `Note over` removal (utils.py:20-28), whose matching is non-greedy and DOTALL. The other is the image-link rewrite (utils.py:31-32), whose matching mixes a greedy `.+` with a non-greedy `.*?` and has no DOTALL. The heading rewrite, the flowchart replacement and the suffix are modelled exactly.
- `Utils.Lower` and `Utils.SafeFolderName`: lowercase ASCII letters only, because Unicode case mapping is not modelled.
- `Models.ParseSlideInfo`, `Models.ParseStructure` and `Models.ParseFeedback` leave out pydantic's lax coercions (such as `"true"` to `True`, or numbers to strings) and report only the first error, where pydantic collects all of them.
- `Ffmpeg.GenerateFfmpegCommand`: `duration` is an integer. A float duration, which the source would format with a decimal point, is not modelled. Executing the command is not modelled.
- The `Field` title of `feedback` (models.py:25) describes it as present whenever the slides are not perfect, but its `None` default does not enforce that. The model follows the code: `feedback` may be `None` with `is_perfect` false.
- `Ffmpeg.FinalMapResolved`: with a single input, the source maps `[outv0]`/`[outa0]`, which no filter defines. The model keeps that behaviour as written, and `Ffmpeg.FinalMapTextResolved` shows it at the level of the label text.
