/** The merge itself, as a plan of the files it writes: the output name, the
    audio merge with its tag copy, the video merge, and the dispatch that runs
    them. Decoding, concatenating and exporting media, and reading and writing
    ID3 tags, happen in libraries outside the model; an export records which
    sources it concatenates, in which order, into which file. */
module Merge {
  import opened Text
  import opened Prompt
  import opened Classify
  import opened Choice

  /** The output base name: a fixed policy on which lists survived. */
  function OutputName(audio: seq<string>, video: seq<string>): (name: string)
    ensures name == "united_video" <==> audio != [] && video != []
    ensures name == "album" <==> audio != [] && video == []
    ensures name == "video" <==> audio == []
  {
    if audio != [] && video != [] then "united_video"
    else if audio != [] then "album"
    else "video"
  }

  datatype Format = Mp3 | Mp4

  /** One file written into the run folder: its name, its container, and the
      source files concatenated into it, in order. */
  datatype Export = Export(file: string, format: Format, sources: seq<string>)

  /** Copying the ID3 tags of one file onto another. */
  datatype TagCopy = TagCopy(source: string, target: string)

  /** The metadata guard of `merge_audio_files`: tags come from the first
      audio file, and only when its lower-cased name ends with `.mp3`. */
  function TagCopyFor(audioFiles: seq<string>, target: string): (t: Option<TagCopy>)
    ensures t.Some? <==> audioFiles != [] && EndsWith(Lower(audioFiles[0]), ".mp3")
    ensures t.Some? ==> t.value == TagCopy(audioFiles[0], target)
  {
    if |audioFiles| > 0 && EndsWith(Lower(audioFiles[0]), ".mp3") then
      Some(TagCopy(audioFiles[0], target))
    else None
  }

  /** `merge_audio_files`: append every file to the combined segment in list
      order, export it as `<name>.mp3`, then copy the tags where the guard
      allows. */
  method MergeAudioFiles(audioFiles: seq<string>, outputName: string) returns (e: Export, tags: Option<TagCopy>)
    ensures e.file == outputName + ".mp3" && e.format == Mp3
    ensures e.sources == audioFiles
    ensures tags == TagCopyFor(audioFiles, e.file)
  {
    var combined: seq<string> := [];
    for i := 0 to |audioFiles|
      invariant combined == audioFiles[..i]
    {
      combined := combined + [audioFiles[i]];
    }
    e := Export(outputName + ".mp3", Mp3, combined);
    if |audioFiles| > 0 && EndsWith(Lower(audioFiles[0]), ".mp3") {
      tags := Some(TagCopy(audioFiles[0], e.file));
    } else {
      tags := None;
    }
  }

  /** `merge_video_files`: one clip per file, concatenated in list order and
      written as `<name>.mp4`. */
  function MergeVideoFiles(videoFiles: seq<string>, outputName: string): (e: Export)
    ensures e.file == outputName + ".mp4" && e.format == Mp4
    ensures e.sources == videoFiles
  {
    Export(outputName + ".mp4", Mp4, seq(|videoFiles|, i requires 0 <= i < |videoFiles| => videoFiles[i]))
  }

  /** What one run writes: the output name, the exports in the order they
      happen, and the tag copy if any. */
  datatype MergePlan = MergePlan(outputName: string, exports: seq<Export>, tags: Option<TagCopy>)

  /** The files left after classification and the merge question. */
  function Chosen(files: seq<string>, mergeAnswer: string): Lists
  {
    ChooseMerge(AudioFiles(files), VideoFiles(files), mergeAnswer)
  }

  /** The naming and the two merges, applied to the lists that are left. */
  function Dispatch(c: Lists): MergePlan
  {
    var name := OutputName(c.audio, c.video);
    var audioOut := if c.audio != [] then [Export(name + ".mp3", Mp3, c.audio)] else [];
    var videoOut := if c.video != [] then [MergeVideoFiles(c.video, name)] else [];
    MergePlan(name, audioOut + videoOut, if c.audio != [] then TagCopyFor(c.audio, name + ".mp3") else None)
  }

  lemma DispatchAlbum(a: seq<string>)
    requires a != []
    ensures Dispatch(Lists(a, [])) == MergePlan("album", [Export("album" + ".mp3", Mp3, a)], TagCopyFor(a, "album" + ".mp3"))
  {
  }

  lemma DispatchVideo(v: seq<string>)
    requires v != []
    ensures Dispatch(Lists([], v)) == MergePlan("video", [Export("video" + ".mp4", Mp4, v)], None)
  {
  }

  lemma DispatchBoth(a: seq<string>, v: seq<string>)
    requires a != [] && v != []
    ensures var n := "united_video";
      Dispatch(Lists(a, v)) == MergePlan(n, [Export(n + ".mp3", Mp3, a), Export(n + ".mp4", Mp4, v)], TagCopyFor(a, n + ".mp3"))
  {
  }

  /** The plan for a file list and the typed answer to the merge question. */
  function Plan(files: seq<string>, mergeAnswer: string): MergePlan
  {
    Dispatch(Chosen(files, mergeAnswer))
  }

  /** The classification, the merge question, the output name and the two
      merges, run in the script's order. */
  method MergeRun(files: seq<string>, mergeAnswer: string) returns (p: MergePlan)
    ensures p == Plan(files, mergeAnswer)
  {
    var audioFiles := AudioFiles(files);
    var videoFiles := VideoFiles(files);
    if audioFiles != [] && videoFiles != [] {
      var mergeChoice := UserAnswer(mergeAnswer);
      if mergeChoice == "audio" {
        videoFiles := [];
      } else if mergeChoice == "video" {
        audioFiles := [];
      }
    }
    assert Lists(audioFiles, videoFiles) == Chosen(files, mergeAnswer);
    var outputName: string;
    if audioFiles != [] && videoFiles != [] {
      outputName := "united_video";
    } else if audioFiles != [] {
      outputName := "album";
    } else {
      outputName := "video";
    }
    var exports: seq<Export> := [];
    var tags: Option<TagCopy> := None;
    if audioFiles != [] {
      var e, t := MergeAudioFiles(audioFiles, outputName);
      exports, tags := exports + [e], t;
    }
    assert exports == (if audioFiles != [] then [Export(outputName + ".mp3", Mp3, audioFiles)] else []);
    if videoFiles != [] {
      exports := exports + [MergeVideoFiles(videoFiles, outputName)];
    }
    p := MergePlan(outputName, exports, tags);
  }

  /** The names of the files a plan writes. */
  function Artifacts(p: MergePlan): set<string>
  {
    set e | e in p.exports :: e.file
  }

  /** Every source file a plan merges, counted with repetitions. */
  function AllSources(exports: seq<Export>): multiset<string>
  {
    if exports == [] then multiset{} else multiset(exports[0].sources) + AllSources(exports[1..])
  }

  /** The files written are exactly `<name>.mp3` when audio files remain and
      `<name>.mp4` when video files remain, both under the one output name. */
  lemma DispatchArtifacts(c: Lists)
    ensures var p := Dispatch(c);
      Artifacts(p) == (if c.audio != [] then {p.outputName + ".mp3"} else {})
                    + (if c.video != [] then {p.outputName + ".mp4"} else {})
  {
    var p := Dispatch(c);
    if c.audio != [] && c.video != [] {
      assert p.exports[0] in p.exports && p.exports[1] in p.exports;
    } else if c.audio != [] || c.video != [] {
      assert p.exports[0] in p.exports;
    }
  }

  /** At most one export per kind, the audio one first. */
  lemma DispatchOrder(c: Lists)
    ensures var p := Dispatch(c);
      && |p.exports| == (if c.audio != [] then 1 else 0) + (if c.video != [] then 1 else 0)
      && (c.audio != [] ==> p.exports[0].format == Mp3)
      && (c.video != [] ==> p.exports[|p.exports| - 1].format == Mp4)
  {
  }

  /** Every remaining file is merged exactly once: the audio export holds the
      audio list and the video export the video list, each in its order. */
  lemma DispatchSources(c: Lists)
    ensures var p := Dispatch(c);
      && AllSources(p.exports) == multiset(c.audio) + multiset(c.video)
      && forall e :: e in p.exports ==> e.sources == (if e.format == Mp3 then c.audio else c.video)
  {
    var ex := Dispatch(c).exports;
    if c.audio != [] && c.video != [] {
      assert ex[1..] == [ex[1]];
      assert AllSources(ex[1..]) == multiset(c.video) + AllSources([]);
    } else if ex != [] {
      assert ex[1..] == [];
    }
  }

  /** Tags are copied only from the first audio file, only when its name ends
      with `.mp3` in any case, and only onto the `.mp3` file the plan writes. */
  lemma DispatchTags(c: Lists)
    ensures var p := Dispatch(c);
      p.tags.Some? <==> c.audio != [] && EndsWith(Lower(c.audio[0]), ".mp3")
    ensures var p := Dispatch(c);
      p.tags.Some? ==>
        && p.tags.value.source == c.audio[0]
        && p.tags.value.target == p.outputName + ".mp3"
        && p.tags.value.target in Artifacts(p)
  {
    var p := Dispatch(c);
    if c.audio != [] {
      assert p.exports[0] in p.exports;
    }
  }

  lemma PlanArtifacts(files: seq<string>, mergeAnswer: string)
    ensures var c, p := Chosen(files, mergeAnswer), Plan(files, mergeAnswer);
      Artifacts(p) == (if c.audio != [] then {p.outputName + ".mp3"} else {})
                    + (if c.video != [] then {p.outputName + ".mp4"} else {})
  {
    DispatchArtifacts(Chosen(files, mergeAnswer));
  }

  lemma PlanOrder(files: seq<string>, mergeAnswer: string)
    ensures var c, p := Chosen(files, mergeAnswer), Plan(files, mergeAnswer);
      && |p.exports| == (if c.audio != [] then 1 else 0) + (if c.video != [] then 1 else 0)
      && (c.audio != [] ==> p.exports[0].format == Mp3)
      && (c.video != [] ==> p.exports[|p.exports| - 1].format == Mp4)
  {
    DispatchOrder(Chosen(files, mergeAnswer));
  }

  /** Nothing is written exactly when there are no input files: the question
      never drops the only kind present. */
  lemma PlanEmpty(files: seq<string>, mergeAnswer: string)
    ensures Plan(files, mergeAnswer).exports == [] <==> files == []
  {
    ClassifyPartition(files);
    DispatchOrder(Chosen(files, mergeAnswer));
  }

  /** The output name says which lists survived the question. */
  lemma PlanName(files: seq<string>, mergeAnswer: string)
    ensures var c, n := Chosen(files, mergeAnswer), Plan(files, mergeAnswer).outputName;
      && (n == "united_video" <==> c.audio != [] && c.video != [])
      && (n == "album" <==> c.audio != [] && c.video == [])
      && (n == "video" <==> c.audio == [])
  {
  }

  /** When no list is dropped, every input file is merged exactly once: the
      audio export holds the audio names and the video export the others, each
      in the input's order. */
  lemma PlanMergesEveryFile(files: seq<string>, mergeAnswer: string)
    requires Chosen(files, mergeAnswer) == Lists(AudioFiles(files), VideoFiles(files))
    ensures var p := Plan(files, mergeAnswer);
      && AllSources(p.exports) == multiset(files)
      && forall e :: e in p.exports ==> e.sources == (if e.format == Mp3 then AudioFiles(files) else VideoFiles(files))
  {
    ClassifyPartition(files);
    DispatchSources(Lists(AudioFiles(files), VideoFiles(files)));
  }

  /** With both kinds present, the answer `audio` merges exactly the audio
      files into `album.mp3` and writes no video file. */
  lemma PlanOnlyAudio(files: seq<string>, mergeAnswer: string)
    requires AudioFiles(files) != [] && VideoFiles(files) != []
    requires UserAnswer(mergeAnswer) == "audio"
    ensures Plan(files, mergeAnswer) ==
      MergePlan("album", [Export("album" + ".mp3", Mp3, AudioFiles(files))], TagCopyFor(AudioFiles(files), "album" + ".mp3"))
  {
    var a := AudioFiles(files);
    assert Chosen(files, mergeAnswer) == Lists(a, []);
    DispatchAlbum(a);
  }

  /** With both kinds present, the answer `video` merges exactly the video
      files into `video.mp4`, and no audio file is written or tagged. */
  lemma PlanOnlyVideo(files: seq<string>, mergeAnswer: string)
    requires AudioFiles(files) != [] && VideoFiles(files) != []
    requires UserAnswer(mergeAnswer) == "video"
    ensures Plan(files, mergeAnswer) == MergePlan("video", [Export("video" + ".mp4", Mp4, VideoFiles(files))], None)
  {
    var v := VideoFiles(files);
    assert Chosen(files, mergeAnswer) == Lists([], v);
    DispatchVideo(v);
  }

  /** Tags are copied only from the first audio file of the input, only when
      its name ends with `.mp3` in any case, and only onto the `.mp3` file the
      plan writes. */
  lemma PlanTags(files: seq<string>, mergeAnswer: string)
    ensures var c, p := Chosen(files, mergeAnswer), Plan(files, mergeAnswer);
      p.tags.Some? <==> c.audio != [] && EndsWith(Lower(AudioFiles(files)[0]), ".mp3")
    ensures var p := Plan(files, mergeAnswer);
      p.tags.Some? ==>
        && p.tags.value.source == AudioFiles(files)[0]
        && p.tags.value.source in files
        && IsAudioName(p.tags.value.source)
        && p.tags.value.target == p.outputName + ".mp3"
        && p.tags.value.target in Artifacts(p)
  {
    var c := Chosen(files, mergeAnswer);
    DispatchTags(c);
    if c.audio != [] {
      var a := AudioFiles(files);
      assert c.audio == a;
      assert a[0] in a;
      ClassifyMembers(files, a[0]);
    }
  }

  /** A first file that is not an `.mp3` means no tag copy, even when an
      `.mp3` follows. */
  lemma NoTagsFromLaterFiles(first: string, rest: seq<string>, target: string)
    requires !EndsWith(Lower(first), ".mp3")
    ensures TagCopyFor([first] + rest, target) == None
  {
  }

  /** Two `.mp3` files merge into `album.mp3`, in order, tagged from the
      first. */
  lemma AlbumScenario(s1: string, s2: string, mergeAnswer: string)
    ensures var a, b := s1 + ".mp3", s2 + ".mp3";
      Plan([a, b], mergeAnswer) ==
        MergePlan("album", [Export("album" + ".mp3", Mp3, [a, b])], Some(TagCopy(a, "album" + ".mp3")))
  {
    var a, b := s1 + ".mp3", s2 + ".mp3";
    AnyCaseExtension(s1, ".mp3");
    AnyCaseExtension(s2, ".mp3");
    AllAudio([a, b]);
  }

  /** Two video files merge into `video.mp4`, first one first, with no tags. */
  lemma VideoScenario(v1: string, v2: string, mergeAnswer: string)
    requires !IsAudioName(v1) && !IsAudioName(v2)
    ensures Plan([v1, v2], mergeAnswer) == MergePlan("video", [Export("video" + ".mp4", Mp4, [v1, v2])], None)
  {
    AllVideo([v1, v2]);
  }

  lemma PredefinedSong(k: nat)
    requires k < 3
    ensures IsAudioName(PredefinedFiles[k])
  {
    var stem := PredefinedFiles[k][..6];
    AnyCaseExtension(stem, ".mp3");
    assert stem + ".mp3" == PredefinedFiles[k];
  }

  lemma PredefinedVideo(k: nat)
    requires 3 <= k < 6
    ensures !IsAudioName(PredefinedFiles[k])
  {
    LastCharDecides(PredefinedFiles[k]);
  }

  /** The predefined list splits into its three songs and its three videos. */
  lemma PredefinedSplit()
    ensures AudioFiles(PredefinedFiles) == PredefinedFiles[..3]
    ensures VideoFiles(PredefinedFiles) == PredefinedFiles[3..]
  {
    forall i | 0 <= i < 3 ensures IsAudioName(PredefinedFiles[i]) { PredefinedSong(i); }
    forall i | 3 <= i < 6 ensures !IsAudioName(PredefinedFiles[i]) { PredefinedVideo(i); }
    SplitAt(PredefinedFiles, 3);
  }

  /** The first predefined song is an mp3, so its tags are the ones copied. */
  lemma PredefinedTags(target: string)
    ensures TagCopyFor(PredefinedFiles[..3], target) == Some(TagCopy(PredefinedFiles[0], target))
  {
    var m := PredefinedFiles[0];
    AnyCaseExtension(m[..6], ".mp3");
    assert m[..6] + ".mp3" == m;
  }

  /** With both kinds present and kept, one output name serves two files:
      `united_video.mp3` from the audio files and `united_video.mp4` from the
      video files. */
  lemma PlanBoth(files: seq<string>, mergeAnswer: string)
    requires AudioFiles(files) != [] && VideoFiles(files) != []
    requires UserAnswer(mergeAnswer) != "audio" && UserAnswer(mergeAnswer) != "video"
    ensures var n := "united_video";
      Plan(files, mergeAnswer) ==
        MergePlan(n, [Export(n + ".mp3", Mp3, AudioFiles(files)), Export(n + ".mp4", Mp4, VideoFiles(files))],
                  TagCopyFor(AudioFiles(files), n + ".mp3"))
  {
    var a, v := AudioFiles(files), VideoFiles(files);
    assert Chosen(files, mergeAnswer) == Lists(a, v);
    DispatchBoth(a, v);
  }

  /** The predefined list, answered `both`, writes `united_video.mp3` from the
      three songs and `united_video.mp4` from the three videos. */
  lemma PredefinedBothScenario(answer: string)
    requires UserAnswer(answer) == "both"
    ensures var n := "united_video";
      Plan(PredefinedFiles, answer) ==
        MergePlan(n, [Export(n + ".mp3", Mp3, PredefinedFiles[..3]), Export(n + ".mp4", Mp4, PredefinedFiles[3..])],
                  Some(TagCopy(PredefinedFiles[0], n + ".mp3")))
  {
    PredefinedSplit();
    PlanBoth(PredefinedFiles, answer);
    PredefinedTags("united_video" + ".mp3");
  }

  /** The whole run: the folder name, the file list, then the merge plan. */
  datatype RunPlan = RunPlan(folder: string, merge: MergePlan)

  function Run(typedName: string, timestamp: string, useAllAnswer: string, listing: seq<string>,
               mergeAnswer: string): (r: RunPlan)
    ensures r.folder != []
    ensures typedName != [] ==> r.folder == typedName
    ensures r.merge == Plan(SelectFiles(useAllAnswer, listing), mergeAnswer)
  {
    RunPlan(FolderName(typedName, timestamp), Plan(SelectFiles(useAllAnswer, listing), mergeAnswer))
  }
}
