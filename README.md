# merge_files.py, the decision layer, in Dafny

`merge_files.py` merges the songs of a folder into one `.mp3` file and the
videos into one `.mp4` file. It works out the work to do from a few
prompts and the file names. This project models the decisions the script
makes and proves what they guarantee. The media work (decoding,
concatenating and exporting audio and video, reading and writing ID3 tags)
is done by pydub, moviepy and mutagen. The model treats that work as
opaque: each merge becomes an `Export` record (target file, container, the
ordered list of source files) and each tag copy a `TagCopy` record.

Modules, one per part of the script:

- `Text` (`text.dfy`): the Python string methods the script calls.
  `str.lower()`, `str.endswith()`, and `str.strip()` with Python's
  whitespace set.
- `Prompt` (`prompt.dfy`): the Windows keystroke editor of
  `get_input_with_timeout`, written as a loop over key and clock events and
  proved against a recursive specification. Also the `input()` fallback
  used on other systems, the normalisation of `get_user_input`, and the
  default run-folder name `run_<timestamp>`.
- `Classify` (`classify.dfy`): the split of the file list into audio files
  and video files.
- `Choice` (`choice.dfy`): the "use all files in the folder?" question and
  the audio/video/both question.
- `Merge` (`merge.dfy`): the output base name, `merge_audio_files` (a loop
  with its tag guard), `merge_video_files`, and the dispatch at the end of
  the script. The dispatch is written as a method in the script's order and
  proved equal to a plan function. The lemmas about the plan state what is
  written.

Answers to the two questions are compared exactly, after `strip().lower()`.
When both kinds of file are kept, the script writes both
`united_video.mp3` and `united_video.mp4` (see `Merge.PlanBoth`).

## Model

| member | source | states |
|---|---|---|
| Text.Lower | merge_files.py:114 | `str.lower()` on a string: every character folded by `LowerChar`; its contract keeps the length, and `LowerAt` gives it position by position |
| Text.LowerAt | merge_files.py:114 | `lower()` folds each character on its own, position by position |
| Text.EndsWith | merge_files.py:139 | `str.endswith()` for one suffix, compared from the last character backwards; `EndsWithSlice` ties it to the slice test |
| Text.EndsWithSlice | merge_files.py:114 | the `endswith` test holds exactly when the suffix fits and the last characters of the name are the suffix |
| Text.LowerIdempotent | merge_files.py:114 | lower-casing twice is the same as once |
| Text.Strip | merge_files.py:60 | `strip()` leaves no whitespace at either end, never lengthens, and is empty exactly when the input is all whitespace |
| Text.StripPadded | merge_files.py:60 | `strip()` of a trimmed word inside any whitespace is exactly that word |
| Text.Normalize | merge_files.py:60 | `strip().lower()` of an answer; `NormalizePadded` and `NormalizeIdempotent` state what it does |
| Text.NormalizePadded | merge_files.py:60 | `strip().lower()` of a padded word is the lower-cased word |
| Text.NormalizeIdempotent | merge_files.py:60 | normalising an answer twice is the same as once |
| Prompt.Edit | merge_files.py:43-46 | Backspace drops the last character and leaves an empty buffer empty; any other key appends exactly that one character; Enter adds nothing |
| Prompt.Read | merge_files.py:37-54 | the editor's loop as a function of the events: Enter returns the buffer, and after every other event an empty buffer past the deadline times out; the lemmas below state its behaviour |
| Prompt.GetInputWithTimeout | merge_files.py:33-56 | the keystroke loop returns what the event-by-event specification `Read` returns |
| Prompt.EnterReturnsBuffer | merge_files.py:40-42 | before the timeout, Enter ends input and returns exactly the buffer the earlier keys built, whatever follows |
| Prompt.TypedText | merge_files.py:45-46 | typing characters without Backspace gives exactly those characters |
| Prompt.BackspaceUndoesTyping | merge_files.py:43-46 | Backspace removes the character typed just before it |
| Prompt.BackspaceOnEmpty | merge_files.py:43-44 | any number of Backspaces on an empty buffer leave it empty |
| Prompt.TimeoutNeedsDeadline | merge_files.py:53-54 | input can only time out after the deadline has passed |
| Prompt.LateBufferNotEmpty | merge_files.py:53-54 | after the deadline, an editor still waiting always holds text |
| Prompt.FinishedIgnoresLater | merge_files.py:38-54 | once input has ended, later key events change nothing |
| Prompt.EraseAfterDeadline | merge_files.py:43-54 | after the deadline, Backspacing out the whole buffer ends input with the empty name, whatever follows |
| Prompt.UserAnswer | merge_files.py:59-60 | an answer is trimmed, has no capital letters, is no longer than the line, and is empty exactly for an all-whitespace line |
| Prompt.FolderName | merge_files.py:80-81 | the folder name is never empty: a typed name is kept verbatim, and an empty one becomes `run_` followed by the timestamp |
| Prompt.SilentUserGetsDefault | merge_files.py:53-55 | a user who types nothing before the deadline gets the empty name and so the folder `run_<timestamp>` |
| Prompt.EditorTimeoutIsDefault | merge_files.py:53-55 | on the keystroke path, any run of events that ends in the timeout gives the folder `run_<timestamp>` |
| Prompt.EditorEnterNamesFolder | merge_files.py:40-41 | on the keystroke path, Enter names the folder after the buffer, or gives `run_<timestamp>` when the buffer is empty |
| Prompt.AlarmIsDefault | merge_files.py:74-81 | on the `input()` path, the alarm's `TimeoutError` gives `run_<timestamp>`, a non-empty line names the folder, and an empty line gives the default |
| Classify.IsAudioName | merge_files.py:114 | the lower-cased name ends with one of the three audio extensions; `IsAudioNameCases` spells that out |
| Classify.AudioFiles | merge_files.py:114 | the comprehension keeping the audio names, in order; never longer than the input, and `ClassifyMembers` says exactly which names it holds |
| Classify.VideoFiles | merge_files.py:115 | the comprehension keeping the other names, in order; never longer than the input, and `ClassifyMembers` says exactly which names it holds |
| Classify.IsAudioNameCases | merge_files.py:114 | a name is audio exactly when its lower-cased form ends with `.mp3`, `.wav` or `.flac` |
| Classify.ClassifyMembers | merge_files.py:114-115 | a name is in the audio list exactly when it is in the input and is an audio name, and in the video list exactly when it is in the input and is not |
| Classify.ClassifyInterleaves | merge_files.py:114-115 | the input is the audio list and the video list interleaved, so each list keeps the input's relative order |
| Classify.ClassifyPartition | merge_files.py:114-115 | counted with repetitions, the two lists together hold exactly the input's names |
| Classify.ClassifyDisjoint | merge_files.py:114-115 | no name is in both lists |
| Classify.ClassifyConcat | merge_files.py:114-115 | classifying a concatenation classifies each part in turn |
| Classify.AllAudio | merge_files.py:114-115 | a list of audio names is all audio and gives an empty video list |
| Classify.AllVideo | merge_files.py:114-115 | a list without audio names is all video and gives an empty audio list |
| Classify.SplitAt | merge_files.py:114-115 | a list of audio names followed by other names splits at the boundary |
| Classify.AnyCaseExtension | merge_files.py:114 | `.mp3`, `.wav` or `.flac` in any letter case at the end of a name makes it audio |
| Classify.AudioNameHasExtension | merge_files.py:114 | an audio name ends in a dot and three or four characters |
| Classify.NoDotIsVideo | merge_files.py:115 | a name without a dot is video |
| Classify.LastCharDecides | merge_files.py:115 | a name not ending in `3`, `v` or `c` (in either case) is video |
| Classify.UpperCaseExample | merge_files.py:114 | `X.MP3` and `a.FlAc` are audio |
| Classify.VideoExamples | merge_files.py:115 | `clip.mp4`, `mp3` and `song.mp3.txt` are video |
| Classify.MixedOrder | merge_files.py:114-115 | an audio name, a video name and an audio name split into the two audio names, in order, and the video name |
| Choice.SelectFiles | merge_files.py:103-109 | the run uses the folder listing when the answer is `yes`, and the predefined list otherwise |
| Choice.YesSelectsListing | merge_files.py:103-107 | `yes` in any case, with any surrounding whitespace, selects the listing |
| Choice.OtherAnswersUsePredefined | merge_files.py:108-109 | `y` and `yes please` select the predefined list |
| Choice.ChooseMerge | merge_files.py:118-123 | each list is kept whole or emptied, and the question never empties both |
| Choice.ChooseMergeDrops | merge_files.py:118-123 | the video list is dropped exactly when both kinds are present and the answer is `audio`, and the audio list exactly when the answer is `video` |
| Choice.NoQuestionWithOneKind | merge_files.py:118 | with either list empty, the answer has no effect and both lists pass through |
| Choice.OtherAnswersKeepBoth | merge_files.py:119-123 | an answer other than `audio` or `video` keeps both lists |
| Merge.OutputName | merge_files.py:156-161 | the name is `united_video` exactly when both lists are non-empty, `album` exactly when only audio remains, and `video` exactly when no audio remains |
| Merge.TagCopyFor | merge_files.py:139 | tags are copied exactly when the first audio file's lower-cased name ends with `.mp3`, and only from that file |
| Merge.MergeAudioFiles | merge_files.py:126-144 | the audio export is `<name>.mp3` and concatenates the audio files in list order; the tag copy follows the guard |
| Merge.MergeVideoFiles | merge_files.py:147-153 | the video export is `<name>.mp4` and concatenates the video files in list order |
| Merge.MergeRun | merge_files.py:113-169 | classification, the question, the naming and the two merges, run in order, produce exactly `Plan` |
| Merge.Dispatch | merge_files.py:156-169 | the naming and the two guarded merges applied to the remaining lists; the `Dispatch` lemmas below state what it writes |
| Merge.Plan | merge_files.py:113-169 | classification, the merge question, then `Dispatch`; `MergeRun` is proved equal to it and the `Plan` lemmas state what it writes |
| Merge.DispatchArtifacts | merge_files.py:156-169 | for any remaining lists, the written files are exactly `<name>.mp3` if audio remains plus `<name>.mp4` if video remains |
| Merge.DispatchOrder | merge_files.py:163-169 | one export per remaining kind, the audio one first |
| Merge.DispatchSources | merge_files.py:163-169 | every remaining file is merged exactly once, audio files into the `.mp3` export and video files into the `.mp4` export, each in list order |
| Merge.DispatchTags | merge_files.py:139-144 | tags are copied exactly when audio remains and its first name ends with `.mp3`, from that file onto the `.mp3` file written |
| Merge.PlanArtifacts | merge_files.py:163-169 | the written files are exactly `<name>.mp3` if audio remains plus `<name>.mp4` if video remains |
| Merge.PlanOrder | merge_files.py:163-169 | one export per remaining kind, the audio one first |
| Merge.PlanEmpty | merge_files.py:163-169 | nothing is written exactly when there are no input files |
| Merge.PlanName | merge_files.py:156-161 | the output name says which lists survived the question |
| Merge.PlanMergesEveryFile | merge_files.py:118-169 | when the question drops nothing (it was not asked, or the answer kept both), every input file is merged exactly once: audio names into the `.mp3` file, the rest into the `.mp4` file, in input order |
| Merge.PlanOnlyAudio | merge_files.py:120-121 | answering `audio` writes only `album.mp3`, holding all the audio files |
| Merge.PlanOnlyVideo | merge_files.py:122-123 | answering `video` writes only `video.mp4`, holding all the video files, and copies no tags |
| Merge.PlanBoth | merge_files.py:156-169 | with both kinds kept, `united_video.mp3` and `united_video.mp4` are both written under one name |
| Merge.PlanTags | merge_files.py:139-144 | tags come only from the input's first audio file, only if it ends with `.mp3`, and go onto the `.mp3` file written |
| Merge.NoTagsFromLaterFiles | merge_files.py:139 | a first audio file whose lower-cased name does not end with `.mp3` means no tag copy, whatever files follow it |
| Merge.AlbumScenario | merge_files.py:156-165 | any two `.mp3` names write `album.mp3` from both files in order, tagged from the first |
| Merge.VideoScenario | merge_files.py:156-169 | any two non-audio names write `video.mp4` from the first then the second, with no tags |
| Merge.PredefinedSong | merge_files.py:94-96 | the three predefined songs are audio |
| Merge.PredefinedVideo | merge_files.py:97-99 | the three predefined videos are video |
| Merge.PredefinedSplit | merge_files.py:93-100 | the predefined list splits into its three songs and its three videos |
| Merge.PredefinedTags | merge_files.py:139-144 | with the predefined songs, the tags come from `music1.mp3`, the first of them |
| Merge.PredefinedBothScenario | merge_files.py:118-169 | the predefined list answered `both` writes `united_video.mp3` and `united_video.mp4`, tagged from `music1.mp3` |
| Merge.Run | merge_files.py:80-109 | the run folder is never empty and is the typed name when one was given; the merge plan is that of the selected file list |

## Left out

- Audio decoding, concatenation and export (pydub) are opaque. So are
  video loading, concatenation and export (moviepy) and ID3 tag reading
  and writing (mutagen). They appear only as `Export` and `TagCopy`
  records. A failure inside these libraries, which would stop the script,
  is not modelled.
- Filesystem work is I/O. This covers `os.listdir`, `os.path.isfile`,
  `os.makedirs` and the joins against the hard-coded media directory. The
  folder listing is a parameter. A run folder is its name, and exports are
  file names inside it.
- Terminal clearing, prompt text, `print`, `sys.stdout` writes and `tqdm`
  progress bars are display only and are left out.
- Wall-clock time on the keystroke path is modelled as a single `Deadline`
  event: the moment `time.time() - start_time` passes the timeout. On the
  `input()` path the `signal.alarm`/`SIGALRM` timer is modelled as the
  outcome `Line.AlarmFired`. The 5-second value itself is not modelled.
- The `os.name` test that picks the keystroke editor or the `input()` path
  is left out. Each path is modelled on its own (`GetInputWithTimeout` and
  `LineAnswer`).
- `datetime.now().strftime(...)` is a clock read. The formatted timestamp
  is a parameter.
- Keystroke bytes are taken as already-decoded characters. A lone
  non-ASCII byte, on which `char.decode('utf-8')` would raise, is not
  modelled.
- Text.LowerChar: only the ASCII letters are folded. Full `str.lower()`
  also maps a few other characters onto ASCII: U+212A KELVIN SIGN becomes
  `k`, and U+0130 becomes `i` followed by U+0307. Neither changes an
  outcome. No compared word or extension contains `k`. After full
  lower-casing, the U+0307 stays next to the `i`, so the result can never
  equal `audio` or `video`. With the ASCII-only fold, the U+0130 character
  stays in the text, so it cannot match either. The audio test
  and the answer comparisons therefore come out as with full `str.lower()`.
  The normalised text itself differs for other scripts.
- Prompt.GetInputWithTimeout: it runs over a finite list of events. When
  the events run out before Enter or the timeout, it returns `Waiting`
  instead of polling forever.
- Only the alarm's `TimeoutError` is caught on the `input()` path of the
  name prompt. Any other exception from `input()` aborts the run. This
  covers `EOFError` or `KeyboardInterrupt` at line 75, and any exception
  from `get_user_input` at line 60. Those aborts are not modelled.
- The `input()` branch inside `get_input_with_timeout`, with its bare
  `except:`, only runs when `os.name != 'nt'`. The function is called only
  on Windows, so that branch never runs and is not modelled.
