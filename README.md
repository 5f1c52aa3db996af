# ESC-50 sound classifier: sequential core

The application listens to audio, live or from a file, and classifies each
two-second window into one of the 50 categories of the ESC-50 environmental
sound dataset. It keeps a detection history and settings, times each
processing phase, and raises notifications and an emergency alert for
dangerous sounds. It also offers a searchable reference library of the 50
sounds with Vietnamese labels.

This project models, in Dafny, the logic around the neural network:

- `state.dfy`: the application state. It holds the detection history
  (append, newest-first view with an optional limit, clear, statistics) and a
  settings map that accepts only known keys.
- `metrics.dfy`: the performance recorder. It keeps phase marks, the latest
  duration of each phase, a bounded history of inference durations, the
  inference rate and a reset.
- `model_handler.dfy`: classifier post-processing.
  - The sorted 50-label catalogue and the icon table.
  - Argmax to label, confidence and alert flag, and the mock result.
  - The top-k ranking.
  - Loading a checkpoint, and the fallback to mock mode on any failure.
- `checkpoints.dfy`: shared by the loader and the converter. It selects the
  state dict from a checkpoint and rewrites its keys, including stripping the
  `module.` prefix.
- `convert_model.dfy`: renames timm-style checkpoint keys to torchvision
  ConvNeXt names.
- `audio_processor.dfy`: down-mix to mono, the resample branch, and
  padding or cropping to 431 time frames, then the (1, 1, rows, 431) shape.
- `live_monitor.dfy`: the recording flags, the frame assembler that collects
  88,200 samples per window, and the inclusive confidence gate.
- `emergency_alert.dfy`: the emergency test, and the overlay state machine
  that shows at most one alert.
- `sound_library.dfy`: the 5 × 10 reference catalogue, and its
  case-insensitive search over English and Vietnamese labels.
- `wrappers.dfy`, `sequences.dfy`, `text.dfy`, `dicts.dfy`: Python semantics
  the core relies on. These are `Option`/`Result`, slices with clamping,
  `sum`, `list.index`/`list.remove`, `str` search, `replace`, `split`/`join`,
  `int()`/`str()`, string ordering, and insertion-ordered dicts as
  association lists.

Several things become parameters or enumerated inputs instead of being computed:

- Clock readings (`time.perf_counter()`, `datetime.now()`) are the parameter
  `now`.
- Random draws of the mock predictor are a `MockDraw`: an index into the six
  mock labels, and a fraction in [0, 1] of the way from 65 to 95.
- The network's softmax output, or the exception raised on the way to it, is
  an `outcome` parameter.
- `np.argsort` is a permutation `order` constrained to sort the
  probabilities ascending. NumPy's default sort is not stable, so any such
  permutation is allowed.
- `str.lower()` is an abstract character map `lower` applied character by
  character.
- The audio stream and queue become the sequence of things the prediction
  loop observes.
- The mel transform, the resampler and the normalisation are function
  parameters.

Floats are modelled as mathematical reals.

A failing prediction returns a mock result for that call only: `predict`
never sets `use_mock`, and the model follows the code in this.

## Model

| member | source | states |
|---|---|---|
| State.AppState.constructor | src/utils/state.py:25-39 | empty history; settings are the defaults (threshold 50.0, notifications and visual alerts on, sound alerts and recording off) |
| State.AppState.AddToHistory | src/utils/state.py:54-69 | exactly one entry (now, label, confidence, source, default "file") is appended at the end; earlier entries and settings unchanged |
| State.AppState.GetHistory | src/utils/state.py:71-76 | result is a prefix of the stable newest-first order; sorted non-increasing by timestamp; a sub-multiset of the history, all of it for no limit or 0, min(limit, n) entries for a positive limit |
| State.NewestFirstSorted | src/utils/state.py:73 | the newest-first order is sorted by timestamp non-increasing and is a permutation of the history |
| State.NewestFirstStable | src/utils/state.py:73 | entries with equal timestamps keep their insertion order (sorting is stable) |
| State.PrefixProps | src/utils/state.py:74-75 | a `[:limit]` prefix of the sorted view stays sorted, is a sub-multiset, and keeps a prefix of each timestamp's entries |
| State.AppState.ClearHistory | src/utils/state.py:78-80 | history becomes empty, settings unchanged |
| State.AppState.UpdateSetting | src/utils/state.py:82-85 | a known key gets the value; an unknown key leaves settings unchanged; the key set never changes; history unchanged |
| State.AppState.GetSetting | src/utils/state.py:87-89 | the stored value for a known key, None otherwise |
| State.AppState.GetStats | src/utils/state.py:95-122 | the one-pass loop returns exactly StatsOf(history): (0, None, 0) when empty, else (n, the most common label, sum/n) |
| State.Tally | src/utils/state.py:107-113 | the loop builds exactly `label_counts` and `confidences` of the history, entry by entry |
| State.LabelCountsKeys | src/utils/state.py:107-112 | the keys of `label_counts` are the labels in first-seen order |
| State.LabelCountsGet | src/utils/state.py:110-112 | `label_counts.get(l)` is the number of occurrences of l, None for an unseen label |
| State.LabelCountsItem | src/utils/state.py:107-112 | item j of `label_counts` is the j-th label first seen, with its count |
| State.MaxItemIndex | src/utils/state.py:115 | `max(d, key=d.get)` picks an item of greatest count, and no earlier item is as great |
| State.MostCommonIsMode | src/utils/state.py:115 | for a non-empty history, most_common is present, occurs in the history, and no label occurs more often |
| State.MostCommonSeenFirst | src/utils/state.py:115 | ties go to the label seen first: any prefix holding an equally common label holds the reported one |
| State.AverageInRange | src/utils/state.py:116 | with confidences in [0, 100], the average lies in [0, 100] |
| Metrics.BoundedAppend | src/utils/performance_metrics.py:29 | `deque(maxlen).append`: never longer than maxlen, grows by one until full, and is the newest suffix of old + [x] |
| Metrics.BoundedAppendKeepsLast | src/utils/performance_metrics.py:72-73 | appending to the last n values gives the last n values of the longer sequence |
| Metrics.PerformanceMetrics.constructor | src/utils/performance_metrics.py:13-44 | history size (default 100) stored; timings 0; history empty; no start time; no phase marks |
| Metrics.PerformanceMetrics.StartMeasurement | src/utils/performance_metrics.py:46-53 | start time is now; the three phases read 0 in the phase dict; every pending start mark is discarded; fields unchanged |
| Metrics.PerformanceMetrics.MarkPhaseStart | src/utils/performance_metrics.py:55-57 | only the `<phase>_start` mark is set to now |
| Metrics.PerformanceMetrics.MarkPhaseEnd | src/utils/performance_metrics.py:59-75 | no start mark: nothing changes; otherwise duration = (now - start) * 1000 is stored for the phase and in that phase's field only; only inference enters the history, which remains the last history_size inference durations |
| Metrics.PerformanceMetrics.AppendInference | src/utils/performance_metrics.py:73 | the history gains the duration and keeps at most history_size values, the newest last; no other field changes |
| Metrics.PerformanceMetrics.EndMeasurement | src/utils/performance_metrics.py:77-80 | total time is updated only when a start time exists |
| Metrics.PerformanceMetrics.GetFps | src/utils/performance_metrics.py:82-97 | 0 when the history is empty, its last entry is 0, or the mean is not positive; otherwise positive, with fps × mean = 1000 |
| Metrics.PerformanceMetrics.GetCurrentMetrics | src/utils/performance_metrics.py:99-112 | exactly five fixed keys carrying the four stored timings unchanged and the current fps |
| Metrics.PerformanceMetrics.Reset | src/utils/performance_metrics.py:127-135 | timings 0, history empty, no start time, no phase marks, and the fps reads 0 |
| ModelHandler.CatalogueSorted | src/ai/model_handler.py:15-40 | 50 labels, strictly ascending and so pairwise distinct, each with an icon |
| ModelHandler.MockAndAlertInCatalogue | src/ai/model_handler.py:43 | every alert label and every mock label is a catalogue label |
| ModelHandler.CatalogueIcon | src/ai/model_handler.py:29-40 | a catalogue label has an entry in SOUND_ICONS, so `SOUND_ICONS.get(label, "🔊")` gives its own icon rather than the default |
| ModelHandler.MockPredict | src/ai/model_handler.py:166-180 | label among the six mock classes (all in the catalogue), confidence in [65, 95], no probabilities, alert flag iff an alert label |
| ModelHandler.ArgMax | src/ai/model_handler.py:150 | an index of a greatest probability, and the first one |
| ModelHandler.FromProbabilities | src/ai/model_handler.py:147-160 | empty vector fails (ValueError), an argmax past the catalogue fails (IndexError); otherwise the label at the argmax, confidence 100 × its probability (no smaller than any other), in [0, 100] for probabilities in [0, 1], alert iff in ALERT_SOUNDS |
| ModelHandler.SoundClassifier.Predict | src/ai/model_handler.py:120-164 | never fails: the mock result exactly when in mock mode or the real path raises, otherwise the real-path result; the label is always a catalogue label |
| ModelHandler.TopIndices | src/ai/model_handler.py:201 | `argsort[-k:][::-1]`: the last k indices of the sort, largest first, with Python's slice clamping |
| ModelHandler.TopIndicesDescending | src/ai/model_handler.py:201 | the chosen indices are valid, distinct and by non-increasing probability |
| ModelHandler.TopIndicesDominate | src/ai/model_handler.py:201 | no index left out has a higher probability than a chosen one |
| ModelHandler.TopIndicesRanked | src/ai/model_handler.py:201 | k indices for 1 ≤ k ≤ n, all for k = 0, n + k for negative k; distinct, descending and dominating |
| ModelHandler.SoundClassifier.GetTopKPredictions | src/ai/model_handler.py:182-212 | the mock result alone in mock mode; otherwise one entry per top-k index, in order, each label with confidence 100 × probability; IndexError exactly when an index is past the catalogue |
| ModelHandler.RankIndices | src/ai/model_handler.py:203-212 | the loop yields one entry per index, in order, and fails exactly when some index is past the catalogue |
| ModelHandler.TopKRanking | src/ai/model_handler.py:199-212 | over a 50-way output, for 1 ≤ k ≤ 50: k entries, distinct catalogue labels, non-increasing confidences, none left out more confident |
| ModelHandler.LoadOutcomeStrips | src/ai/model_handler.py:85-108 | a successful load has an existing file, a loaded dict state dict, and exactly its `module.`-stripped keys; stripping itself never fails |
| ModelHandler.SoundClassifier.constructor | src/ai/model_handler.py:59-68 | mock mode iff requested or the load fails; weights are stored only after a successful load |
| ModelHandler.SoundClassifier.LoadModel | src/ai/model_handler.py:70-118 | any failure (missing file, load error, non-dict state dict, key mismatch) sets mock mode; success keeps the mode and stores the stripped state dict |
| Checkpoints.SelectStateDict | src/ai/model_handler.py:88-96 | `model_state_dict` entry if present, else `state_dict` entry, else the checkpoint itself (also for a non-dict) |
| Checkpoints.Items | src/ai/model_handler.py:100 | `.items()` succeeds exactly on a dict and yields its items |
| Checkpoints.StripModulePrefixKey | src/ai/model_handler.py:101-105 | a `module.` key loses exactly that prefix; any other key is unchanged; never fails |
| Checkpoints.StripModulePrefix | src/ai/model_handler.py:98-105 | the loop builds exactly the item-by-item rewrite of the state dict |
| Checkpoints.StripModulePrefixPointwise | convert_model.py:46-53 | without key collisions, one item per old item, in order, each value unchanged under its stripped key |
| Checkpoints.RekeyFailsAtFirstBadKey | convert_model.py:57-80 | rewriting fails iff some key's rewrite fails, and then with the first such failure |
| Checkpoints.RekeyOkIff | convert_model.py:57-80 | the rewrite succeeds exactly when every key's rewrite succeeds |
| Checkpoints.RekeyFirstError | convert_model.py:57-80 | a failing rewrite fails with the error of the first key whose rewrite fails, all keys before it rewriting |
| Checkpoints.RekeyKeepsValues | convert_model.py:57-80 | values are never altered: each stored value came from an item rewritten to that key |
| Checkpoints.RekeyWithoutCollisions | convert_model.py:47-53 | with distinct rewritten keys, the new dict pairs each rewritten key with its old value, in order |
| ConvertModel.RemapKey | convert_model.py:58-80 | only a `stages.` key can fail; a key with none of the three prefixes passes unchanged |
| ConvertModel.ReplaceLeading | convert_model.py:61 | `replace` rewrites a leading occurrence and carries on after it |
| ConvertModel.RemapStem | convert_model.py:60-62 | `stem.rest` becomes `features.0.rest` |
| ConvertModel.RemapStage | convert_model.py:64-70 | `stages.N.rest` becomes `features.(N+1).rest` |
| ConvertModel.StagePart | convert_model.py:66-67 | the second dot-separated part of `stages.part...` is `part` |
| ConvertModel.RemapStageNotInteger | convert_model.py:66-67 | a stage part that is not an integer makes the renaming fail |
| ConvertModel.RenameHeadFc | convert_model.py:72-78 | the three replaces turn `head.fc.rest` into `classifier.2.rest` |
| ConvertModel.RenameHeadNorm | convert_model.py:72-78 | the three replaces turn `head.norm.rest` into `classifier.0.rest` |
| ConvertModel.RemapHead | convert_model.py:72-78 | `head.fc.` keys map to `classifier.2.` and `head.norm.` keys to `classifier.0.` |
| ConvertModel.RemapStateDict | convert_model.py:57-80 | the renaming loop builds exactly the item-by-item rewrite, stopping at the first failing key |
| ConvertModel.ConvertedStateDictFails | convert_model.py:35-80 | conversion fails exactly on a non-dict state dict or a `stages.` key without an integer stage |
| ConvertModel.ConvertStateDict | convert_model.py:35-80 | selection and both loops give the converted state dict or its first exception |
| AudioProcessor.PadOrCrop | src/ai/audio_processor.py:221-225 | rows kept, every row exactly the target width; existing columns kept in place; padding columns are 0; a wider input is cut to its first columns |
| AudioProcessor.PadOrCropIdempotent | src/ai/audio_processor.py:222-225 | an input already at the target width comes back unchanged; applying it twice equals once |
| AudioProcessor.AddBatchAndChannel | src/ai/audio_processor.py:228 | `unsqueeze(0).unsqueeze(0)` wraps the matrix into a batch of one with one channel |
| AudioProcessor.PreprocessForModel | src/ai/audio_processor.py:209-230 | shape (1, 1, rows, target width) holding the padded or cropped spectrogram |
| AudioProcessor.ToMono | src/ai/audio_processor.py:46-47 | more than one channel is averaged per instant into one; mono input is unchanged |
| AudioProcessor.MonoOfEqualChannels | src/ai/audio_processor.py:46-47 | averaging identical channels gives that channel |
| AudioProcessor.ResampleIfNeeded | src/ai/audio_processor.py:50-51 | resampled exactly when the rate differs from 44,100 |
| AudioProcessor.LoadAndPreprocess | src/ai/audio_processor.py:45-80 | down-mix, resample, spectrogram, then fixed width: shape (1, 1, rows, 431), (1, 1, 128, 431) for a 128-band spectrogram |
| LiveMonitor.Truncate | src/ui/live_monitor.py:28 | `int(x)` drops the fractional part of a non-negative real |
| LiveMonitor.BufferSizeValue | src/ui/live_monitor.py:26-28 | the window length is 88,200 samples |
| LiveMonitor.LiveMonitorView.constructor | src/ui/live_monitor.py:26-45 | buffer size 88,200; not recording; no stop request; no stream; empty buffer |
| LiveMonitor.LiveMonitorView.StartRecording | src/ui/live_monitor.py:162-198 | with a stream: recording, stop cleared, stream open, and the new prediction loop's buffer empty; when opening fails, stopped as by stop_recording and the buffer untouched |
| LiveMonitor.LiveMonitorView.StopRecording | src/ui/live_monitor.py:200-209 | stop set, recording cleared, stream released |
| LiveMonitor.LiveMonitorView.CollectWindow | src/ui/live_monitor.py:228-245 | chunks enter flattened and in order; no window before 88,200 samples; a window is the first 88,200 samples and window + remainder = old buffer + delivered samples; a stop seen while collecting ends with no window |
| LiveMonitor.LiveMonitorView.Gate | src/ui/live_monitor.py:259-278 | confidence ≥ threshold (inclusive) appends exactly one "live" entry; below it nothing changes; notify iff accepted and notifications on; visual alert iff accepted, an alert sound and visual alerts on |
| EmergencyAlert.EmergencyVersusAlert | src/ui/emergency_alert.py:241 | the emergency list and ALERT_SOUNDS differ only in crackling_fire (emergency only) and clock_alarm (alert only); all are catalogue labels |
| EmergencyAlert.IsEmergencySound | src/ui/emergency_alert.py:223-243 | `is_emergency_sound`: an emergency needs the lowered label among the six and confidence at least the threshold in force; every emergency but `crackling_fire` is also a label the classifier flags as an alert |
| EmergencyAlert.EmergencyIff | src/ui/emergency_alert.py:223-243 | an emergency iff the lowered label is one of the six and confidence ≥ the given threshold, else ≥ the configured one |
| EmergencyAlert.EmergencyAlertOverlay.constructor | src/ui/emergency_alert.py:15-17 | inactive with no overlay |
| EmergencyAlert.EmergencyAlertOverlay.ShowAlert | src/ui/emergency_alert.py:23-45 | while active nothing changes; otherwise active, with exactly one new overlay for this alert appended to the page |
| EmergencyAlert.EmergencyAlertOverlay.DismissAlert | src/ui/emergency_alert.py:200-211 | inactive afterwards; the alert's overlay is removed once if on the page, other overlays untouched; a later show can activate again |
| SoundLibrary.LibraryShape | src/ui/sound_library.py:9-70 | five categories in order, ten entries each, fifty entries in all |
| SoundLibrary.LibraryMatchesCatalogue | src/ui/sound_library.py:9-70 | the library names exactly the catalogue's 50 labels, each once |
| SoundLibrary.FilterMembers | src/ui/sound_library.py:239-245 | an entry is in the result iff it is in the library and its lowered name or Vietnamese label contains the query |
| SoundLibrary.FilterPositions | src/ui/sound_library.py:240-245 | results keep catalogue order and skip no matching entry |
| SoundLibrary.FilterDatabase | src/ui/sound_library.py:239-245 | the nested loops collect exactly the matching entries, category by category, in list order |
| SoundLibrary.SoundLibraryView.constructor | src/ui/sound_library.py:76-78 | empty query, every tab shown |
| SoundLibrary.SoundLibraryView.OnSearchChange | src/ui/sound_library.py:226-229 | the query is the lowered input, and the view is the one it selects |
| SoundLibrary.SoundLibraryView.FilterSounds | src/ui/sound_library.py:231-251 | empty query: all tabs; otherwise the matches, or the no-results view when there are none |
| SoundLibrary.AsWrittenDogNotFound | src/ui/sound_library.py:11 | with the label as written, the query "chó" does not find the dog entry |
| SoundLibrary.AsWrittenDogNotListed | src/ui/sound_library.py:11-68 | searching the library as written for "chó" leaves the dog entry out of the results |
| SoundLibrary.IntendedDogFound | src/ui/sound_library.py:11 | with the label as intended, the query "chó" finds the dog entry |

## Left out

- Signal processing and the network are left out, as floating-point numerics
  and foreign calls. This covers the mel spectrogram, dB conversion, z-score
  normalisation, resampler internals, softmax and the ConvNeXt forward pass.
  Their results are inputs or function parameters.
- Threads, `queue.Queue`, the `sounddevice` stream, `time.sleep`, timers and
  the strobe and shake animations are left out as concurrency and device I/O.
  The prediction loop is modelled by the sequence of polls it observes.
- The prediction loop's own exception handler (src/ui/live_monitor.py:283-285)
  is left out, because exceptions inside a window's processing are not
  modelled.
- In the live monitor, the sample buffer is a field of the view, whereas the
  source keeps it local to the loop. `StartRecording` empties it when a new
  loop starts. The outer loop is one call of `CollectWindow` followed by
  `Gate` per window.
- All Flet UI construction is left out as presentation: cards, tabs,
  snackbars, waveform images, colours and icons of the library.
- `AppState` singleton creation and its lock are left out, as are `model_info`,
  `current_prediction` and `set_model_loaded`. They belong to the UI's
  bookkeeping, not to the history or settings.
- `PerformanceMetrics.get_model_metadata` and `update_model_format` are left
  out, because they are a static description of the network.
- Metrics.PerformanceMetrics.constructor: the history size is a `nat`. A
  negative `history_size` makes `deque(maxlen=...)` raise `ValueError`
  (src/utils/performance_metrics.py:29), and that error is not modelled. The
  only construction uses the default of 100.
- State.Setting: setting values are numbers or booleans. `update_setting`
  in the source accepts any Python value.
- Text.ParseInt: only an optional sign followed by ASCII digits is accepted.
  Python's `int()` also accepts surrounding whitespace, underscores between
  digits and non-ASCII digits, so such a stage number is treated as an error.
- Text.LowerStr: lowering is one character to one character. Python
  lowercase mappings that change the length of a string (such as 'İ') are
  not captured.
- ModelHandler.LoadOutcome: `load_state_dict` is modelled as accepting
  exactly the network's key set. Shape mismatches of tensors are not modelled.
- ConvertModel.RemapStage: stated for keys `stages.N.rest`. A bare
  `stages.N` key is covered by `RemapKey` but has no lemma of its own.
- The conversion's export to ONNX, its file I/O and the model download
  (src/utils/model_downloader.py) are not part of this model.

## Findings

| source | as written | input that shows it | evidently intended | confidence | as-written member | corrected member |
|---|---|---|---|---|---|---|
| src/ui/sound_library.py:11-68 | every Vietnamese label is UTF-8 text read as Mac Roman (the dog entry reads "Ch√≥ s·ªßa"), so no label spells its Vietnamese word, and a Vietnamese query such as "chó" does not find its entry | typing the query "Chó" (lowered to "chó") | the dog entry, labelled "Chó sủa", is found by its Vietnamese name; the model's library uses the intended labels | not executed | SoundLibrary.AsWrittenDogNotListed | SoundLibrary.IntendedDogFound |
