/** The two questions that decide which files are merged: whether to use the
    whole folder, and, when both kinds are present, which kind to merge. */
module Choice {
  import opened Text
  import opened Prompt

  const PredefinedFiles: seq<string> :=
    ["music1.mp3", "music2.mp3", "music3.mp3", "video1.mp4", "video2.mp4", "video3.mp4"]

  /** The file list of the run: the folder listing (given, since listing is
      I/O) when the answer normalises to `yes`, the predefined list otherwise. */
  function SelectFiles(answer: string, listing: seq<string>): (files: seq<string>)
    ensures files == listing || files == PredefinedFiles
    ensures UserAnswer(answer) == "yes" ==> files == listing
    ensures UserAnswer(answer) != "yes" ==> files == PredefinedFiles
  {
    if UserAnswer(answer) == "yes" then listing else PredefinedFiles
  }

  /** `yes` in any letter case and surrounded by any whitespace selects the
      folder listing. */
  lemma YesSelectsListing(p: string, w: string, q: string, listing: seq<string>)
    requires AllSpace(p) && AllSpace(q) && Lower(w) == "yes"
    ensures SelectFiles(p + w + q, listing) == listing
  {
    LowerAt(w);
    assert LowerChar(w[0]) == 'y' && LowerChar(w[2]) == 's';
    NormalizePadded(p, w, q);
  }

  /** Anything else, `y` or `yes please` for instance, uses the predefined list. */
  lemma OtherAnswersUsePredefined(listing: seq<string>)
    ensures SelectFiles("y", listing) == PredefinedFiles
    ensures SelectFiles("yes please", listing) == PredefinedFiles
  {
    NormalizePadded([], "yes please", []);
    assert [] + "yes please" + [] == "yes please";
  }

  /** The two lists after the merge question. */
  datatype Lists = Lists(audio: seq<string>, video: seq<string>)

  /** The merge question: asked only when both lists are non-empty; `audio`
      clears the video list, `video` clears the audio list, any other answer
      keeps both. */
  function ChooseMerge(audio: seq<string>, video: seq<string>, answer: string): (r: Lists)
    ensures r.audio == audio || r.audio == []
    ensures r.video == video || r.video == []
    ensures (audio != [] || video != []) ==> (r.audio != [] || r.video != [])
  {
    if audio != [] && video != [] then
      var choice := UserAnswer(answer);
      if choice == "audio" then Lists(audio, [])
      else if choice == "video" then Lists([], video)
      else Lists(audio, video)
    else Lists(audio, video)
  }

  /** The video list is dropped exactly when both kinds are present and the
      answer is `audio`, and the audio list exactly when both are present and
      the answer is `video`. */
  lemma ChooseMergeDrops(audio: seq<string>, video: seq<string>, answer: string)
    ensures var r := ChooseMerge(audio, video, answer);
      && (r.video != video <==> audio != [] && video != [] && UserAnswer(answer) == "audio")
      && (r.audio != audio <==> audio != [] && video != [] && UserAnswer(answer) == "video")
  {
  }

  /** With only one kind present no question is asked: the answer has no
      effect and both lists pass through. */
  lemma NoQuestionWithOneKind(audio: seq<string>, video: seq<string>, a1: string, a2: string)
    requires audio == [] || video == []
    ensures ChooseMerge(audio, video, a1) == ChooseMerge(audio, video, a2) == Lists(audio, video)
  {
  }

  /** `both`, an empty answer or any unrecognised one keeps both lists. */
  lemma OtherAnswersKeepBoth(audio: seq<string>, video: seq<string>, answer: string)
    requires UserAnswer(answer) != "audio" && UserAnswer(answer) != "video"
    ensures ChooseMerge(audio, video, answer) == Lists(audio, video)
  {
  }
}
