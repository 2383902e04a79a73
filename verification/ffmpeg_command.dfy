/** The parts of `processVideo` that decide what the engine is asked to do:
    the quality lookup table, the workspace file names with GIF detection, and
    the FFmpeg argument list built from them. */
module FfmpegCommand {
  import opened Js

  // ---------------------------------------------------------------------------
  // Quality table

  /** The encoder speed preset, constant rate factor and audio bitrate chosen
      for one quality string. */
  datatype QualitySettings = QualitySettings(preset: string, crf: string, audioBitrate: string)

  /** The `switch (quality)` table: "fast" and "high" have their own rows;
      "balanced" and every other string share the default row. */
  function SettingsFor(quality: string): QualitySettings
  {
    if quality == "fast" then QualitySettings("ultrafast", "30", "128k")
    else if quality == "high" then QualitySettings("veryfast", "23", "192k")
    else QualitySettings("ultrafast", "28", "128k")
  }

  /** The three presets the quality selector offers, from fastest to best. */
  datatype Preset = Fast | Balanced | High

  function PresetName(p: Preset): string
  {
    match p
    case Fast => "fast"
    case Balanced => "balanced"
    case High => "high"
  }

  function Rank(p: Preset): nat
  {
    match p
    case Fast => 0
    case Balanced => 1
    case High => 2
  }

  /** The bitrate in kbit/s that an "<n>k" setting stands for. */
  function Kbps(bitrate: string): nat
    requires |bitrate| > 0 && bitrate[|bitrate| - 1] == 'k' && AllDigits(bitrate[..|bitrate| - 1])
  {
    DecimalValue(bitrate[..|bitrate| - 1])
  }

  /** Every quality string lands on one of three rows; unknown strings get the
      balanced row, so the table is total. */
  lemma SettingsRows(quality: string)
    ensures SettingsFor(quality) in {SettingsFor("fast"), SettingsFor("balanced"), SettingsFor("high")}
    ensures quality !in {"fast", "high"} ==> SettingsFor(quality) == SettingsFor("balanced")
  {
  }

  /** A better preset never lowers fidelity: its constant rate factor is
      strictly smaller (lower CRF is higher fidelity), its audio bitrate is no
      lower, and only the best preset trades encoder speed for quality. */
  lemma QualityIncreasesWithPreset(p: Preset, q: Preset)
    requires Rank(p) < Rank(q)
    ensures AllDigits(SettingsFor(PresetName(p)).crf) && AllDigits(SettingsFor(PresetName(q)).crf)
    ensures DecimalValue(SettingsFor(PresetName(q)).crf) < DecimalValue(SettingsFor(PresetName(p)).crf)
    ensures Kbps(SettingsFor(PresetName(p)).audioBitrate) <= Kbps(SettingsFor(PresetName(q)).audioBitrate)
    ensures SettingsFor(PresetName(p)).preset == "ultrafast"
    ensures SettingsFor(PresetName(q)).preset == "ultrafast" <==> q != High
  {
    assert "30"[..1] == "3" && "28"[..1] == "2" && "23"[..1] == "2";
    assert "128k"[..3] == "128" && "192k"[..3] == "192";
    assert "128"[..2] == "12" && "192"[..2] == "19";
    assert "12"[..1] == "1" && "19"[..1] == "1";
  }

  // ---------------------------------------------------------------------------
  // Workspace names

  const OutputName := "output.mp4"

  /** The names under which the inputs are staged in the engine's file area,
      and whether the image is treated as a looping GIF. */
  datatype Workspace = Workspace(imageName: string, audioName: string, outputName: string, isGif: bool)

  /** The lower-cased text after the last '.' of a file name. */
  function Extension(fileName: string): string
  {
    ToLowerCase(AfterLastDot(fileName))
  }

  function WorkspaceFor(imageFileName: string, imageType: string, audioFileName: string): (w: Workspace)
    ensures w.imageName == "input." + Extension(imageFileName)
    ensures w.audioName == "input." + Extension(audioFileName)
    ensures w.outputName == OutputName
    ensures w.isGif <==> imageType == "image/gif" || Extension(imageFileName) == "gif"
  {
    var imageExt := Extension(imageFileName);
    var audioExt := Extension(audioFileName);
    Workspace("input." + imageExt, "input." + audioExt, OutputName,
              imageType == "image/gif" || imageExt == "gif")
  }

  /** The extension carries no '.' and no upper-case letter, and it is the
      whole name, or the part after a '.', lower-cased. */
  lemma ExtensionShape(fileName: string)
    ensures '.' !in Extension(fileName)
    ensures forall i :: 0 <= i < |Extension(fileName)| ==> !IsUpperAscii(Extension(fileName)[i])
    ensures var n := |Extension(fileName)|;
            n <= |fileName| && Extension(fileName) == ToLowerCase(fileName[|fileName| - n..])
            && (n < |fileName| ==> fileName[|fileName| - n - 1] == '.')
  {
    var e := AfterLastDot(fileName);
    AfterLastDotShape(fileName);
    var l := ToLowerCase(e);
    assert l == Extension(fileName);
    assert |l| == |e|;
    forall i | 0 <= i < |l|
      ensures l[i] != '.'
    {
      assert l[i] == LowerChar(e[i]);
      assert e[i] != '.';
    }
  }

  /** A GIF is recognised by its MIME type or by its extension, in any case:
      "anim.GIF" sent as "image/png" is still a GIF. */
  lemma GifDetection(imageFileName: string, imageType: string, audioFileName: string)
    ensures WorkspaceFor(imageFileName, imageType, audioFileName).isGif
            <==> imageType == "image/gif" || ToLowerCase(AfterLastDot(imageFileName)) == "gif"
    ensures imageType == "image/gif" ==> WorkspaceFor(imageFileName, imageType, audioFileName).isGif
  {
  }

  /** The image and audio are staged under one name exactly when their
      extensions agree ("cover.bin" with "track.BIN", say): the audio write then
      replaces the image in the engine's file area. The output name never
      collides with an input name. */
  lemma StagedNamesCollide(imageFileName: string, imageType: string, audioFileName: string)
    ensures var w := WorkspaceFor(imageFileName, imageType, audioFileName);
            (w.imageName == w.audioName <==> Extension(imageFileName) == Extension(audioFileName))
            && w.outputName != w.imageName && w.outputName != w.audioName
  {
    var w := WorkspaceFor(imageFileName, imageType, audioFileName);
    assert w.outputName[0] == 'o' && w.imageName[0] == 'i' && w.audioName[0] == 'i';
    if w.imageName == w.audioName {
      assert w.imageName[6..] == Extension(imageFileName);
      assert w.audioName[6..] == Extension(audioFileName);
    }
  }

  // ---------------------------------------------------------------------------
  // Argument list

  /** The filter graph that loops a GIF forever and re-derives its timestamps
      from the frame rate. */
  const LoopGraph := "[0:v]" + "loop=loop=-1:size=32767:start=0" + ",setpts=N/FRAME_RATE/TB" + "[v]"

  /** The FFmpeg command line, without the program name. */
  function BuildArgs(isGif: bool, imageName: string, audioName: string, q: QualitySettings): seq<string>
  {
    if isGif then
      [ "-i", imageName,
        "-i", audioName,
        "-filter_complex", LoopGraph,
        "-map", "[v]",
        "-map", "1:a",
        "-c:v", "libx264",
        "-preset", q.preset,
        "-crf", q.crf,
        "-c:a", "aac",
        "-b:a", q.audioBitrate,
        "-pix_fmt", "yuv420p",
        "-shortest",
        "-movflags", "+faststart",
        OutputName ]
    else
      [ "-loop", "1",
        "-i", imageName,
        "-i", audioName,
        "-c:v", "libx264",
        "-preset", q.preset,
        "-crf", q.crf,
        "-tune", "stillimage",
        "-c:a", "aac",
        "-b:a", q.audioBitrate,
        "-pix_fmt", "yuv420p",
        "-shortest",
        "-movflags", "+faststart",
        OutputName ]
  }

  /** `flag value` appears as two consecutive arguments. */
  predicate HasOption(args: seq<string>, flag: string, value: string)
  {
    exists i :: 0 <= i < |args| - 1 && args[i] == flag && args[i + 1] == value
  }

  lemma OptionAt(args: seq<string>, i: nat, flag: string, value: string)
    requires i < |args| - 1 && args[i] == flag && args[i + 1] == value
    ensures HasOption(args, flag, value)
  {
  }

  /** An option of either part is an option of the whole. */
  lemma OptionInConcat(a: seq<string>, b: seq<string>, flag: string, value: string)
    requires HasOption(a, flag, value) || HasOption(b, flag, value)
    ensures HasOption(a + b, flag, value)
  {
    if HasOption(a, flag, value) {
      var i :| 0 <= i < |a| - 1 && a[i] == flag && a[i + 1] == value;
      OptionAt(a + b, i, flag, value);
    } else {
      var i :| 0 <= i < |b| - 1 && b[i] == flag && b[i + 1] == value;
      OptionAt(a + b, |a| + i, flag, value);
    }
  }

  /** The inputs, the H.264 settings and the audio/muxer tail shared by both
      kinds of command. */
  function InputArgs(imageName: string, audioName: string): seq<string>
  {
    ["-i", imageName, "-i", audioName]
  }

  function VideoCodecArgs(q: QualitySettings): seq<string>
  {
    ["-c:v", "libx264", "-preset", q.preset, "-crf", q.crf]
  }

  function AudioAndMuxArgs(q: QualitySettings): seq<string>
  {
    ["-c:a", "aac", "-b:a", q.audioBitrate, "-pix_fmt", "yuv420p", "-shortest",
     "-movflags", "+faststart", OutputName]
  }

  const GifOnlyArgs: seq<string> := ["-filter_complex", LoopGraph, "-map", "[v]", "-map", "1:a"]
  const StillLoopArgs: seq<string> := ["-loop", "1"]
  const StillTuneArgs: seq<string> := ["-tune", "stillimage"]

  /** For otherwise identical inputs the two commands differ exactly in the
      media-specific options: the GIF command inserts the loop graph and the
      two stream maps after the inputs, the still command prefixes `-loop 1`
      and inserts `-tune stillimage` after the video codec settings. */
  lemma GifAndStillDifferOnlyInMediaOptions(imageName: string, audioName: string, q: QualitySettings)
    ensures BuildArgs(true, imageName, audioName, q)
            == InputArgs(imageName, audioName) + GifOnlyArgs + VideoCodecArgs(q) + AudioAndMuxArgs(q)
    ensures BuildArgs(false, imageName, audioName, q)
            == StillLoopArgs + InputArgs(imageName, audioName) + VideoCodecArgs(q) + StillTuneArgs + AudioAndMuxArgs(q)
  {
    GifLayout(imageName, audioName, q);
    StillLayout(imageName, audioName, q);
  }

  /** The GIF half of `GifAndStillDifferOnlyInMediaOptions`. */
  lemma GifLayout(imageName: string, audioName: string, q: QualitySettings)
    ensures BuildArgs(true, imageName, audioName, q)
            == InputArgs(imageName, audioName) + GifOnlyArgs + VideoCodecArgs(q) + AudioAndMuxArgs(q)
  {
  }

  /** The still-image half of `GifAndStillDifferOnlyInMediaOptions`. */
  lemma StillLayout(imageName: string, audioName: string, q: QualitySettings)
    ensures BuildArgs(false, imageName, audioName, q)
            == StillLoopArgs + InputArgs(imageName, audioName) + VideoCodecArgs(q) + StillTuneArgs + AudioAndMuxArgs(q)
  {
  }

  /** The video codec settings, wherever they sit in a list. */
  lemma VideoCodecOptions(a: seq<string>, q: QualitySettings, b: seq<string>)
    ensures var args := a + VideoCodecArgs(q) + b;
            && HasOption(args, "-c:v", "libx264")
            && HasOption(args, "-preset", q.preset)
            && HasOption(args, "-crf", q.crf)
  {
    var args := a + VideoCodecArgs(q) + b;
    OptionAt(args, |a|, "-c:v", "libx264");
    OptionAt(args, |a| + 2, "-preset", q.preset);
    OptionAt(args, |a| + 4, "-crf", q.crf);
  }

  /** The audio and muxer settings at the end of a list. */
  lemma AudioAndMuxOptions(a: seq<string>, q: QualitySettings)
    ensures var args := a + AudioAndMuxArgs(q);
            && args[|args| - 1] == OutputName
            && HasOption(args, "-c:a", "aac")
            && HasOption(args, "-b:a", q.audioBitrate)
            && HasOption(args, "-pix_fmt", "yuv420p")
            && "-shortest" in args
            && HasOption(args, "-movflags", "+faststart")
  {
    var args := a + AudioAndMuxArgs(q);
    OptionAt(args, |a|, "-c:a", "aac");
    OptionAt(args, |a| + 2, "-b:a", q.audioBitrate);
    OptionAt(args, |a| + 4, "-pix_fmt", "yuv420p");
    assert args[|a| + 6] == "-shortest";
    OptionAt(args, |a| + 7, "-movflags", "+faststart");
  }

  /** The settings every command carries, whatever the image kind: H.264 video
      at the chosen preset and CRF, AAC audio at the chosen bitrate, 4:2:0
      pixels, output cut to the shorter stream, index moved to the front, and
      the output file last. */
  lemma CommonOptions(isGif: bool, imageName: string, audioName: string, q: QualitySettings)
    ensures var args := BuildArgs(isGif, imageName, audioName, q);
            && |args| > 0 && args[|args| - 1] == OutputName
            && HasOption(args, "-c:v", "libx264")
            && HasOption(args, "-preset", q.preset)
            && HasOption(args, "-crf", q.crf)
            && HasOption(args, "-c:a", "aac")
            && HasOption(args, "-b:a", q.audioBitrate)
            && HasOption(args, "-pix_fmt", "yuv420p")
            && "-shortest" in args
            && HasOption(args, "-movflags", "+faststart")
  {
    GifAndStillDifferOnlyInMediaOptions(imageName, audioName, q);
    var head := if isGif then InputArgs(imageName, audioName) + GifOnlyArgs
                else StillLoopArgs + InputArgs(imageName, audioName);
    var tune := if isGif then [] else StillTuneArgs;
    assert BuildArgs(isGif, imageName, audioName, q)
        == head + VideoCodecArgs(q) + (tune + AudioAndMuxArgs(q))
        == (head + VideoCodecArgs(q) + tune) + AudioAndMuxArgs(q);
    VideoCodecOptions(head, q, tune + AudioAndMuxArgs(q));
    AudioAndMuxOptions(head + VideoCodecArgs(q) + tune, q);
  }

  /** The image is input 0 and the audio input 1, which is what the stream
      selectors "[0:v]" and "1:a" rely on; the still command's inputs follow
      its `-loop 1`. */
  lemma InputOrder(isGif: bool, imageName: string, audioName: string, q: QualitySettings)
    ensures var args := BuildArgs(isGif, imageName, audioName, q);
            var k := if isGif then 0 else 2;
            k + 4 <= |args| && args[k..k + 4] == ["-i", imageName, "-i", audioName]
  {
    GifAndStillDifferOnlyInMediaOptions(imageName, audioName, q);
  }

  /** Strings that cannot be mistaken for the media-specific flags. */
  predicate NotMediaFlag(a: string)
  {
    a != "-loop" && a != "-tune" && a != "-filter_complex" && a != "-map"
  }

  /** A GIF is looped by the filter graph and its streams mapped explicitly. */
  lemma GifOptions(imageName: string, audioName: string, q: QualitySettings)
    ensures var gif := BuildArgs(true, imageName, audioName, q);
            && HasOption(gif, "-filter_complex", LoopGraph)
            && HasOption(gif, "-map", "[v]")
            && HasOption(gif, "-map", "1:a")
  {
    GifLayout(imageName, audioName, q);
    var ins := InputArgs(imageName, audioName);
    var rest := VideoCodecArgs(q) + AudioAndMuxArgs(q);
    assert BuildArgs(true, imageName, audioName, q) == (ins + GifOnlyArgs) + rest;
    OptionAt(GifOnlyArgs, 0, "-filter_complex", LoopGraph);
    OptionAt(GifOnlyArgs, 2, "-map", "[v]");
    OptionAt(GifOnlyArgs, 4, "-map", "1:a");
    OptionInConcat(ins, GifOnlyArgs, "-filter_complex", LoopGraph);
    OptionInConcat(ins, GifOnlyArgs, "-map", "[v]");
    OptionInConcat(ins, GifOnlyArgs, "-map", "1:a");
    OptionInConcat(ins + GifOnlyArgs, rest, "-filter_complex", LoopGraph);
    OptionInConcat(ins + GifOnlyArgs, rest, "-map", "[v]");
    OptionInConcat(ins + GifOnlyArgs, rest, "-map", "1:a");
  }

  /** The GIF command carries neither `-loop` nor `-tune`. */
  lemma GifHasNoStillOptions(imageName: string, audioName: string, q: QualitySettings)
    requires NotMediaFlag(imageName) && NotMediaFlag(audioName)
    requires NotMediaFlag(q.preset) && NotMediaFlag(q.crf) && NotMediaFlag(q.audioBitrate)
    ensures var gif := BuildArgs(true, imageName, audioName, q);
            "-loop" !in gif && "-tune" !in gif
  {
    GifAndStillDifferOnlyInMediaOptions(imageName, audioName, q);
    assert LoopGraph[0] == '[';
    var ins := InputArgs(imageName, audioName);
    var rest := VideoCodecArgs(q) + AudioAndMuxArgs(q);
    assert "-loop" !in ins && "-tune" !in ins;
    assert "-loop" !in GifOnlyArgs && "-tune" !in GifOnlyArgs;
    assert "-loop" !in rest && "-tune" !in rest;
  }

  /** A still image is held by `-loop 1`, which comes first, and tuned for
      stills; it carries no filter graph and no stream map. */
  lemma StillOptions(imageName: string, audioName: string, q: QualitySettings)
    requires NotMediaFlag(imageName) && NotMediaFlag(audioName)
    requires NotMediaFlag(q.preset) && NotMediaFlag(q.crf) && NotMediaFlag(q.audioBitrate)
    ensures var still := BuildArgs(false, imageName, audioName, q);
            && still[..2] == ["-loop", "1"]
            && HasOption(still, "-tune", "stillimage")
            && "-filter_complex" !in still && "-map" !in still
  {
    GifAndStillDifferOnlyInMediaOptions(imageName, audioName, q);
    var still := BuildArgs(false, imageName, audioName, q);
    OptionAt(still, 12, "-tune", "stillimage");
    var ins := InputArgs(imageName, audioName);
    assert "-filter_complex" !in ins && "-map" !in ins;
    assert "-filter_complex" !in StillLoopArgs && "-map" !in StillLoopArgs;
    assert "-filter_complex" !in StillTuneArgs && "-map" !in StillTuneArgs;
    assert "-filter_complex" !in VideoCodecArgs(q) && "-map" !in VideoCodecArgs(q);
    assert "-filter_complex" !in AudioAndMuxArgs(q) && "-map" !in AudioAndMuxArgs(q);
  }
}
