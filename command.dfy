/** The yt-dlp command builder: from one download request to the argument
    vector handed to yt-dlp. */
module CommandBuilder {
  import opened Wrappers
  import opened Tables
  import PyStr

  /** What the builder takes from its surroundings: the path of the yt-dlp
      executable (a file under the user's home directory) and the way an
      output directory and a template are joined into one path. Both are
      left abstract, so every property below holds for any of them. */
  datatype Host = Host(exe: string, join: (string, string) -> string)

  /** One call of the builder. `bitrate` and `template` may be `None`
      (the command-line front end passes no template, and no bitrate unless
      one is given). */
  datatype Request = Request(
    url: string,
    outDir: string,
    format: string,
    bitrate: Option<string>,
    normalize: bool,
    template: Option<string>)

  /** The builder fails only by calling `.replace` on a missing bitrate. */
  datatype BuildError = BitrateIsNone

  /** The options a built command carries, in the positional reading of
      its layout (`Parse`). */
  datatype Invocation = Invocation(
    exe: string,
    output: string,
    audioFormat: string,
    quality: Option<string>,
    normalize: bool,
    url: string)

  /** The fixed ffmpeg loudness-normalisation filter (EBU R128 targets:
      I = -16 LUFS, TP = -1.5 dBTP, LRA = 11 LU), taken as a literal. */
  const LoudnormFilter: string := "ffmpeg:-af loudnorm=I=-16:TP=-1.5:LRA=11"

  const NormalizeArgs: seq<string> := ["--postprocessor-args", LoudnormFilter]

  /** The decisions the builder makes: which template, whether the format
      is lossy (and then which quality), and whether to normalise. */
  function Plan(host: Host, req: Request): (p: Result<Invocation, BuildError>)
    ensures p.Failure? <==> req.format in LossyFormats && req.bitrate.None?
    ensures p.Success? ==> (p.value.quality.Some? <==> req.format in LossyFormats)
  {
    var output := host.join(req.outDir, OutputTemplate(req.template));
    if req.format in LossyFormats && req.bitrate.None? then Failure(BitrateIsNone)
    else
      var quality := if req.format in LossyFormats
                     then Some(PyStr.Without(req.bitrate.value, 'k'))
                     else None;
      Success(Invocation(host.exe, output, PyStr.Lower(req.format), quality, req.normalize, req.url))
  }

  /** The argument vector of an invocation: the fixed prefix, the format
      arguments, the normalisation arguments, then the URL. */
  function Render(inv: Invocation): (argv: seq<string>)
    ensures |argv| == 10 + (if inv.quality.Some? then 2 else 0) + (if inv.normalize then 2 else 0)
  {
    [inv.exe, "-f", "bestaudio", "-x", "--yes-playlist", "-o", inv.output]
    + ["--audio-format", inv.audioFormat]
    + (match inv.quality case Some(q) => ["--audio-quality", q] case None => [])
    + (if inv.normalize then NormalizeArgs else [])
    + [inv.url]
  }

  /** How an argument vector of this shape is read: by position, with the
      optional arguments told apart by their flags. */
  function Parse(argv: seq<string>): (r: Option<Invocation>)
    ensures r.Some? ==> |argv| >= 10 && r.value.exe == argv[0] && r.value.url == argv[|argv| - 1]
  {
    if |argv| < 10 || argv[1..6] != ["-f", "bestaudio", "-x", "--yes-playlist", "-o"]
       || argv[7] != "--audio-format"
    then None
    else
      var between := argv[9..|argv| - 1];
      var hasQuality := |between| >= 2 && between[0] == "--audio-quality";
      var quality := if hasQuality then Some(between[1]) else None;
      var rest := if hasQuality then between[2..] else between;
      if rest == [] || rest == NormalizeArgs
      then Some(Invocation(argv[0], argv[6], argv[8], quality, rest != [], argv[|argv| - 1]))
      else None
  }

  /** Reading back a rendered invocation gives that invocation. */
  lemma ParseRender(inv: Invocation)
    ensures Parse(Render(inv)) == Some(inv)
  {
    var argv := Render(inv);
    var q: seq<string> := match inv.quality case Some(q) => ["--audio-quality", q] case None => [];
    var n: seq<string> := if inv.normalize then NormalizeArgs else [];
    assert argv[9..|argv| - 1] == q + n;
  }

  /** Every vector that reads as an invocation is that invocation's
      rendering: the layout is unambiguous. */
  lemma RenderParse(argv: seq<string>)
    requires Parse(argv).Some?
    ensures Render(Parse(argv).value) == argv
  {
    var inv := Parse(argv).value;
    var between := argv[9..|argv| - 1];
    assert argv == argv[..7] + argv[7..9] + between + [argv[|argv| - 1]];
    if |between| >= 2 && between[0] == "--audio-quality" {
      assert between == between[..2] + between[2..];
    }
  }

  /** `build_command` as a function of its request: it fails only on a
      missing bitrate, and otherwise returns a vector of the layout's length
      that ends in the URL. */
  function Command(host: Host, req: Request): (r: Result<seq<string>, BuildError>)
    ensures r.Failure? ==> req.format in LossyFormats && req.bitrate.None?
    ensures r.Success? ==> |r.value| == 10 + (if req.format in LossyFormats then 2 else 0)
                                            + (if req.normalize then 2 else 0)
    ensures r.Success? ==> r.value[|r.value| - 1] == req.url
  {
    match Plan(host, req)
    case Success(inv) => Success(Render(inv))
    case Failure(e) => Failure(e)
  }

  /** `build_command`: builds the argument list step by step. */
  method BuildCommand(host: Host, req: Request) returns (r: Result<seq<string>, BuildError>)
    ensures r == Command(host, req)
  {
    var outputTemplate := OutputTemplate(req.template);
    var cmd := [host.exe, "-f", "bestaudio", "-x", "--yes-playlist", "-o",
                host.join(req.outDir, outputTemplate)];
    if req.format in LossyFormats {
      if req.bitrate.None? {
        return Failure(BitrateIsNone);
      }
      cmd := cmd + ["--audio-format", PyStr.Lower(req.format),
                    "--audio-quality", PyStr.Without(req.bitrate.value, 'k')];
    } else {
      cmd := cmd + ["--audio-format", PyStr.Lower(req.format)];
    }
    if req.normalize {
      cmd := cmd + NormalizeArgs;
    }
    cmd := cmd + [req.url];
    ghost var inv := Plan(host, req).value;
    assert cmd == Render(inv);
    return Success(cmd);
  }

  /** The builder fails exactly for a lossy format without a bitrate. */
  lemma CommandFails(host: Host, req: Request)
    ensures Command(host, req).Failure? <==> req.format in LossyFormats && req.bitrate.None?
  {
  }

  /** The positional reading of a built command (`Parse`): the executable,
      the output directory joined with the chosen template, the lower-cased
      format, a quality (the bitrate without its "k"s) exactly for lossy
      formats, normalisation exactly when asked for, and the URL. */
  lemma CommandMeaning(host: Host, req: Request)
    requires Command(host, req).Success?
    ensures Parse(Command(host, req).value) == Some(Invocation(
              host.exe,
              host.join(req.outDir, OutputTemplate(req.template)),
              PyStr.Lower(req.format),
              if req.format in LossyFormats then Some(PyStr.Without(req.bitrate.value, 'k')) else None,
              req.normalize,
              req.url))
  {
    ParseRender(Plan(host, req).value);
  }

  /** The layout of a built command, position by position. */
  lemma CommandLayout(host: Host, req: Request)
    requires Command(host, req).Success?
    ensures var argv := Command(host, req).value;
      && |argv| == 10 + (if req.format in LossyFormats then 2 else 0) + (if req.normalize then 2 else 0)
      && argv[..7] == [host.exe, "-f", "bestaudio", "-x", "--yes-playlist", "-o",
                       host.join(req.outDir, OutputTemplate(req.template))]
      && argv[7..9] == ["--audio-format", PyStr.Lower(req.format)]
      && (req.format in LossyFormats ==>
            argv[9..11] == ["--audio-quality", PyStr.Without(req.bitrate.value, 'k')])
      && (req.normalize ==> argv[|argv| - 3..|argv| - 1] == NormalizeArgs)
      && argv[|argv| - 1] == req.url
  {
    var inv := Plan(host, req).value;
    var argv := Render(inv);
    var prefix := [inv.exe, "-f", "bestaudio", "-x", "--yes-playlist", "-o", inv.output];
    var format := ["--audio-format", inv.audioFormat];
    var quality: seq<string> := match inv.quality case Some(q) => ["--audio-quality", q] case None => [];
    var normalize: seq<string> := if inv.normalize then NormalizeArgs else [];
    assert argv == prefix + format + quality + normalize + [inv.url];
    assert argv[..7] == prefix;
    assert argv[7..9] == format;
    if inv.quality.Some? {
      assert argv[9..11] == quality;
    }
    if inv.normalize {
      assert argv[|argv| - 3..|argv| - 1] == normalize;
    }
  }

  /** For a format that is not lossy the bitrate plays no part: the build
      succeeds whatever it is, and yields the same command. */
  lemma NonLossyIgnoresBitrate(host: Host, req: Request, other: Option<string>)
    requires req.format !in LossyFormats
    ensures Command(host, req).Success?
    ensures Command(host, req) == Command(host, req.(bitrate := other))
  {
  }

  /** Lossless formats never carry a quality argument. */
  lemma LosslessHasNoQuality(host: Host, req: Request)
    requires req.format in LosslessFormats
    ensures Command(host, req).Success?
    ensures Parse(Command(host, req).value).Some?
    ensures Parse(Command(host, req).value).value.quality.None?
  {
    LosslessIsNotLossy(req.format);
    CommandMeaning(host, req);
  }

  /** The two string operations on the values of the scenario below. */
  lemma Mp3At192Strings()
    ensures PyStr.Lower("MP3") == "mp3"
    ensures PyStr.Without("192k", 'k') == "192"
  {
    KbpsLabelQuality("192k");
    assert "192k"[..3] == "192";
    var lower := PyStr.Lower("MP3");
    assert |lower| == 3 && lower[0] == 'm' && lower[1] == 'p' && lower[2] == '3';
  }

  /** An MP3 request at "192k" with normalisation and no template builds
      exactly this 14-element vector. */
  lemma Mp3At192Normalized(host: Host, url: string, dir: string)
    ensures Command(host, Request(url, dir, "MP3", Some("192k"), true, None)).Success?
    ensures var argv := Command(host, Request(url, dir, "MP3", Some("192k"), true, None)).value;
      && |argv| == 14
      && argv[..7] == [host.exe, "-f", "bestaudio", "-x", "--yes-playlist", "-o",
                       host.join(dir, "%(title)s.%(ext)s")]
      && argv[7..11] == ["--audio-format", "mp3", "--audio-quality", "192"]
      && argv[11..] == ["--postprocessor-args", "ffmpeg:-af loudnorm=I=-16:TP=-1.5:LRA=11", url]
  {
    var req := Request(url, dir, "MP3", Some("192k"), true, None);
    CommandLayout(host, req);
    var argv := Command(host, req).value;
    assert argv[7..11] == argv[7..9] + argv[9..11];
    assert argv[11..] == argv[11..13] + [argv[13]];
    Mp3At192Strings();
  }
}
