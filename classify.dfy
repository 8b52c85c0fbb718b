/** The split of the file list into `audio_files` and `video_files`
    (merge_files.py, the two list comprehensions after the file selection). */
module Classify {
  import opened Text

  const AudioExtensions: seq<string> := [".mp3", ".wav", ".flac"]

  /** `s.endswith(suffixes)` for a tuple of suffixes. */
  predicate EndsWithAny(s: string, suffixes: seq<string>)
    decreases |suffixes|
  {
    suffixes != [] && (EndsWith(s, suffixes[0]) || EndsWithAny(s, suffixes[1..]))
  }

  /** A name is audio when `name.lower().endswith(('.mp3', '.wav', '.flac'))`. */
  predicate IsAudioName(name: string)
  {
    EndsWithAny(Lower(name), AudioExtensions)
  }

  /** The audio test spelled out, one extension at a time. */
  lemma IsAudioNameCases(name: string)
    ensures var l := Lower(name);
      IsAudioName(name) <==> EndsWith(l, ".mp3") || EndsWith(l, ".wav") || EndsWith(l, ".flac")
  {
    var x := AudioExtensions;
    assert x[1..] == [".wav", ".flac"] && x[1..][1..] == [".flac"] && x[1..][1..][1..] == [];
  }

  /** `[file for file in files if <audio>]`. */
  function AudioFiles(files: seq<string>): (r: seq<string>)
    ensures |r| <= |files|
  {
    if files == [] then []
    else if IsAudioName(files[0]) then [files[0]] + AudioFiles(files[1..])
    else AudioFiles(files[1..])
  }

  /** `[file for file in files if not <audio>]`. */
  function VideoFiles(files: seq<string>): (r: seq<string>)
    ensures |r| <= |files|
  {
    if files == [] then []
    else if !IsAudioName(files[0]) then [files[0]] + VideoFiles(files[1..])
    else VideoFiles(files[1..])
  }

  /** `s` is `a` and `v` merged without reordering either: walking `s` from the
      front, every element is the next one of `a` or the next one of `v`. */
  predicate Interleaves(s: seq<string>, a: seq<string>, v: seq<string>)
    decreases |s|
  {
    if s == [] then a == [] && v == []
    else
      || (a != [] && s[0] == a[0] && Interleaves(s[1..], a[1..], v))
      || (v != [] && s[0] == v[0] && Interleaves(s[1..], a, v[1..]))
  }

  /** The classification is an order-preserving partition: the input is the
      two lists interleaved, so every name lands in exactly one of them and
      each list keeps the input's relative order. */
  lemma {:induction false} ClassifyInterleaves(files: seq<string>)
    ensures Interleaves(files, AudioFiles(files), VideoFiles(files))
  {
    if files != [] {
      ClassifyInterleaves(files[1..]);
    }
  }

  /** Counted with repetitions, the two lists hold the input's names. */
  lemma {:induction false} ClassifyPartition(files: seq<string>)
    ensures multiset(AudioFiles(files)) + multiset(VideoFiles(files)) == multiset(files)
    ensures |AudioFiles(files)| + |VideoFiles(files)| == |files|
  {
    if files != [] {
      ClassifyPartition(files[1..]);
      assert files == [files[0]] + files[1..];
    }
  }

  /** A name is in the audio list exactly when it is an input name that is
      audio, and in the video list exactly when it is one that is not. */
  lemma {:induction false} ClassifyMembers(files: seq<string>, x: string)
    ensures x in AudioFiles(files) <==> x in files && IsAudioName(x)
    ensures x in VideoFiles(files) <==> x in files && !IsAudioName(x)
  {
    if files != [] {
      ClassifyMembers(files[1..], x);
      assert x in files <==> x == files[0] || x in files[1..];
    }
  }

  /** No name reaches both lists. */
  lemma ClassifyDisjoint(files: seq<string>)
    ensures forall x :: x in AudioFiles(files) ==> x !in VideoFiles(files)
  {
    forall x ensures !(x in AudioFiles(files) && x in VideoFiles(files)) {
      ClassifyMembers(files, x);
    }
  }

  /** Classifying a concatenation classifies each part. */
  lemma {:induction false} ClassifyConcat(f: seq<string>, g: seq<string>)
    ensures AudioFiles(f + g) == AudioFiles(f) + AudioFiles(g)
    ensures VideoFiles(f + g) == VideoFiles(f) + VideoFiles(g)
  {
    if f == [] {
      assert f + g == g;
    } else {
      assert (f + g)[0] == f[0] && (f + g)[1..] == f[1..] + g;
      ClassifyConcat(f[1..], g);
      if IsAudioName(f[0]) {
        assert AudioFiles(f + g) == [f[0]] + AudioFiles(f[1..] + g);
        assert VideoFiles(f + g) == VideoFiles(f[1..] + g);
      } else {
        assert AudioFiles(f + g) == AudioFiles(f[1..] + g);
        assert VideoFiles(f + g) == [f[0]] + VideoFiles(f[1..] + g);
      }
    }
  }

  /** A list of audio names is all audio, and one of other names all video. */
  lemma {:induction false} AllAudio(files: seq<string>)
    requires forall i :: 0 <= i < |files| ==> IsAudioName(files[i])
    ensures AudioFiles(files) == files && VideoFiles(files) == []
  {
    if files != [] {
      AllAudio(files[1..]);
    }
  }

  lemma {:induction false} AllVideo(files: seq<string>)
    requires forall i :: 0 <= i < |files| ==> !IsAudioName(files[i])
    ensures AudioFiles(files) == [] && VideoFiles(files) == files
  {
    if files != [] {
      AllVideo(files[1..]);
    }
  }

  /** A list whose first `k` names are audio and whose other names are not
      splits at `k`. */
  lemma {:induction false} SplitAt(files: seq<string>, k: nat)
    requires k <= |files|
    requires forall i :: 0 <= i < k ==> IsAudioName(files[i])
    requires forall i :: k <= i < |files| ==> !IsAudioName(files[i])
    ensures AudioFiles(files) == files[..k] && VideoFiles(files) == files[k..]
  {
    if k == 0 {
      AllVideo(files);
    } else {
      var rest := files[1..];
      assert forall i :: 0 <= i < |rest| ==> rest[i] == files[i + 1];
      SplitAt(rest, k - 1);
      assert files[..k] == [files[0]] + rest[..k - 1];
      assert files[k..] == rest[k - 1..];
    }
  }

  /** The test compares the lower-cased name, so any letter case of the three
      extensions makes a name audio (`X.MP3`, `song.Flac`). */
  lemma AnyCaseExtension(stem: string, ext: string)
    requires Lower(ext) == ".mp3" || Lower(ext) == ".wav" || Lower(ext) == ".flac"
    ensures EndsWith(Lower(stem + ext), Lower(ext))
    ensures IsAudioName(stem + ext)
  {
    LowerConcat(stem, ext);
    IsAudioNameCases(stem + ext);
    var l := Lower(stem + ext);
    assert l[|l| - |ext|..] == Lower(ext);
    EndsWithSlice(l, Lower(ext));
  }

  /** An audio name ends in a dot followed by three or four characters, so a
      name without a dot in it is video. */
  lemma AudioNameHasExtension(name: string)
    requires IsAudioName(name)
    ensures |name| >= 4
    ensures name[|name| - 4] == '.' || (|name| >= 5 && name[|name| - 5] == '.')
  {
    var l := Lower(name);
    LowerAt(name);
    IsAudioNameCases(name);
    EndsWithSlice(l, ".mp3");
    EndsWithSlice(l, ".wav");
    EndsWithSlice(l, ".flac");
    if EndsWith(l, ".flac") {
      assert l[|l| - 5] == '.';
      assert LowerChar(name[|name| - 5]) == '.';
    } else {
      assert l[|l| - 4] == '.';
      assert LowerChar(name[|name| - 4]) == '.';
    }
  }

  lemma NoDotIsVideo(name: string)
    requires '.' !in name
    ensures !IsAudioName(name)
  {
    if IsAudioName(name) {
      AudioNameHasExtension(name);
      assert false;
    }
  }

  /** Whatever comes before it, a name whose last character is not `3`, `v`
      or `c` in either case is video. */
  lemma LastCharDecides(name: string)
    requires |name| > 0 && LowerChar(name[|name| - 1]) !in {'3', 'v', 'c'}
    ensures !IsAudioName(name)
  {
    LowerAt(name);
    IsAudioNameCases(name);
    var l := Lower(name);
    assert l[|l| - 1] == LowerChar(name[|name| - 1]);
  }

  /** Any letter case of an audio extension is audio. */
  lemma UpperCaseExample()
    ensures IsAudioName("X.MP3") && IsAudioName("a.FlAc")
  {
    AnyCaseExtension("X", ".MP3");
    assert "X" + ".MP3" == "X.MP3";
    AnyCaseExtension("a", ".FlAc");
    assert "a" + ".FlAc" == "a.FlAc";
  }

  /** Other extensions, names without one, and names that only contain an
      audio extension are video. */
  lemma VideoExamples()
    ensures !IsAudioName("clip.mp4") && !IsAudioName("mp3") && !IsAudioName("song.mp3.txt")
  {
    NoDotIsVideo("mp3");
    LastCharDecides("clip.mp4");
    LastCharDecides("song.mp3.txt");
  }

  /** Each list keeps the original order of its names: audio, video, audio
      splits into the two audio names, in order, and the video name. */
  lemma MixedOrder(a: string, v: string, b: string)
    requires IsAudioName(a) && !IsAudioName(v) && IsAudioName(b)
    ensures AudioFiles([a, v, b]) == [a, b]
    ensures VideoFiles([a, v, b]) == [v]
  {
    AllAudio([a]);
    AllVideo([v]);
    AllAudio([b]);
    ClassifyConcat([v], [b]);
    ClassifyConcat([a], [v] + [b]);
    assert [a] + ([v] + [b]) == [a, v, b];
  }
}
