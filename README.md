# yt-dlp command builder

A Dafny model of the decision logic in a small desktop front end for
yt-dlp (`main.py`). The program takes a download request, meaning a URL, an
output directory, a target audio format, a bitrate, a loudness-normalisation
switch and the name of an output-file template, and turns it into the argument
vector that launches yt-dlp. The model covers that mapping (`build_command`),
the constant tables it reads (lossy formats with their bitrates, lossless
formats, named output templates) and the rule that decides which bitrates
the bitrate selector offers for a format (`update_bitrate`). It also covers
how the two callers build their requests: the window's "add to queue"
action and the command-line mode.

Files:

- `wrappers.dfy`: `Option` (Python's `None`) and `Result` (a call that raises).
- `pystr.dfy`: the two Python string methods the builder calls,
  `str.lower()` (`Lower`) and `str.replace("k", "")` (`Without`), with their
  properties.
- `tables.dfy`: `LOSSY_FORMATS`, `OUTPUT_TEMPLATES`, `LOSSLESS_FORMATS`, the
  template lookup with its fallback, and the bitrate-selector rule.
- `command.dfy`: the builder. `Plan` makes the decisions. `Render` lays the
  decided options out as an argument vector. `Parse` reads such a vector
  back and is the inverse of `Render`. `BuildCommand` is the imperative
  builder, proved equal to `Command`, the function that composes `Plan` and
  `Render`.
- `frontends.dfy`: the requests the window and the command line build, and
  what follows for each of them.

The yt-dlp executable path (`YT_DLP_PATH`, a file under the user's home
directory) and the joining of the output directory with the template
(`Path(out_dir) / template`) are the two fields of a `Host` value. `Host`
holds a string and an arbitrary function. Every property holds for every
executable path and every join function.

Calling `.replace` on a missing bitrate raises an exception. This happens
when a lossy format is built with bitrate `None`, which the command-line
mode does when `--bitrate` is not given. The model returns
`Failure(BitrateIsNone)` in that case instead of requiring a bitrate.

The normalisation filter is the fixed `loudnorm` string with I=-16, TP=-1.5
and LRA=11 (main.py:55), taken as a literal.

## Model

| member | source | states |
|---|---|---|
| `PyStr.Lower` | main.py:47-50 | `Lower`, the model of `fmt.lower()`, keeps the length, lower-cases each character, and leaves no upper-case ASCII letter |
| `PyStr.Without` | main.py:48 | `bitrate.replace("k", "")` contains no "k", is no longer than the bitrate, and holds only characters of the bitrate |
| `PyStr.WithoutCounts` | main.py:48 | exactly the "k"s are removed: every other character keeps its number of occurrences |
| `PyStr.WithoutConcat` | main.py:48 | removal works piecewise over concatenation, so the characters that are kept stay in their order |
| `PyStr.WithoutAbsent` | main.py:48 | a bitrate without "k" is passed through unchanged |
| `PyStr.WithoutTrailing` | main.py:48 | a string whose only "k" is the last character loses exactly that character |
| `Tables.OutputTemplate` | main.py:36 | a template name in `OUTPUT_TEMPLATES` selects its pattern; any other name, or no name, selects "%(title)s.%(ext)s" |
| `Tables.OutputTemplateIsListed` | main.py:24-36 | the chosen pattern is always one of the table's patterns and ends in ".%(ext)s"; the fallback is the same as choosing "name.ext" |
| `Tables.BitrateChoices` | main.py:156-162 | the bitrate selector is enabled exactly for lossy formats, and then offers exactly that format's listed bitrates; for any other format it offers nothing |
| `Tables.OfferedBitratesAreLabels` | main.py:18-22 | every bitrate a lossy format offers is a run of digits followed by "k" |
| `Tables.KbpsLabelQuality` | main.py:48 | removing "k" from such a bitrate leaves its non-empty digits ("192k" gives "192") |
| `Tables.LosslessIsNotLossy` | main.py:18-32 | WAV and FLAC are not lossy keys, so they never enable the bitrate selector |
| `CommandBuilder.Plan` | main.py:35-56 | the build fails exactly for a lossy format with no bitrate; otherwise a quality is chosen exactly for lossy formats (matched case-sensitively) |
| `CommandBuilder.Render` | main.py:38-58 | the vector has 10 elements, plus 2 with a quality, plus 2 with normalisation |
| `CommandBuilder.Parse` | main.py:38-58 | a vector that parses has at least 10 elements, with the executable first and the URL last |
| `CommandBuilder.ParseRender` | main.py:38-58 | reading a rendered invocation back gives the same invocation |
| `CommandBuilder.RenderParse` | main.py:38-58 | every vector that parses is the rendering of what it parses to, so the layout is unambiguous |
| `CommandBuilder.Command` | main.py:35-59 | `build_command` as a function: it fails only for a lossy format with no bitrate; otherwise the vector has 10 elements, plus 2 for a lossy format, plus 2 with normalisation, and ends in the URL |
| `CommandBuilder.BuildCommand` | main.py:35-59 | the list built step by step (prefix, `+=` of the format arguments, `+=` of the normalisation arguments, URL appended) is exactly the specified command, or the failure |
| `CommandBuilder.CommandFails` | main.py:46-48 | the builder fails if and only if the format is lossy and the bitrate is `None` |
| `CommandBuilder.CommandMeaning` | main.py:35-58 | the positional reading of this layout (`Parse`) gives back the executable, the directory joined with the chosen template, the lower-cased format, a quality equal to the bitrate without "k"s exactly for lossy formats, normalisation exactly when requested, and the URL |
| `CommandBuilder.CommandLayout` | main.py:38-58 | the prefix "-f bestaudio -x --yes-playlist -o <path>" comes first, then "--audio-format <fmt>", then "--audio-quality <q>" for lossy formats, then the two normalisation arguments when requested, then the URL last; the length is 10 + 2 (lossy) + 2 (normalise) |
| `CommandBuilder.NonLossyIgnoresBitrate` | main.py:49-50 | for a format that is not lossy, the build succeeds and its result does not depend on the bitrate |
| `CommandBuilder.LosslessHasNoQuality` | main.py:32-50 | WAV and FLAC builds never carry an audio-quality option, whatever the bitrate |
| `CommandBuilder.Mp3At192Strings` | main.py:47-48 | "MP3" lower-cases to "mp3" and "192k" without "k" is "192" |
| `CommandBuilder.Mp3At192Normalized` | main.py:35-59 | MP3 at "192k" with normalisation and no template builds exactly the 14-element vector ending in the loudnorm filter and the URL |
| `Frontends.FormatChoicesCoverTables` | main.py:117-118 | the format selector lists exactly the lossless and lossy formats; its first entry (WAV) leaves the bitrate selector disabled |
| `Frontends.NormalizeChoicesMeaning` | main.py:127-128 | of "Não" and "Sim (EBU R128)", only the second starts with "Sim" and so asks for normalisation |
| `Frontends.WantsNormalize` | main.py:175 | the normalisation selector's text asks for normalisation exactly when it starts with "Sim" |
| `Frontends.GuiRequest` | main.py:169-177 | the window always passes a bitrate text and a template name |
| `Frontends.CliRequest` | main.py:184-191 | the command line passes no template |
| `Frontends.GuiNeverFails` | main.py:169-177 | a job added from the window always builds |
| `Frontends.GuiQualityIsOfferedDigits` | main.py:156-177 | with a bitrate the selector offers, the quality argument at position 10 is that bitrate's digits |
| `Frontends.GuiTemplateSelected` | main.py:170-177 | a template picked in the window puts its own pattern into the output path |
| `Frontends.CliUsesDefaultTemplate` | main.py:184-191 | command-line builds always use "%(title)s.%(ext)s" |
| `Frontends.CliBitrateRequirement` | main.py:184-200 | without `--bitrate`, a command-line build fails exactly for the lossy keys; the default FLAC and a lower-case "mp3" still build |

## Left out

- `PyStr.Lower`: only ASCII letters are lower-cased. Python's `str.lower()` follows full Unicode case mapping. This makes no difference for the format names the program lists, but an arbitrary non-ASCII format name would be lower-cased differently.
- `DownloadWorker.run` (main.py:70-92): the worker thread's polling loop over a thread-safe queue, the `subprocess.Popen` launch and the streaming of its output. This is concurrency and process I/O.
- The window (main.py:94-182): widget construction, signals, the directory dialog, appending to the log, and putting jobs on the queue in `add_job`. Only the request that `add_job` builds is modelled (`Frontends.GuiRequest`).
- `update_bitrate` as widget mutation: clearing the combo box and enabling it. Only the resulting items and enabled state are modelled (`Tables.BitrateChoices`).
- `run_cli`'s `subprocess.run` and the argparse setup in `main` (main.py:184-211). The `--url` option defaults to `None`. The builder would then append `None` to the list and the process launch would fail. The model's URL is always a string.
- yt-dlp's own option parsing is not modelled. `Parse` reads the layout by position only. The URL text is appended unchecked (main.py:58, main.py:171), so a URL beginning with "-" (such as "-U") is taken by yt-dlp as an option, while `Parse` reads it as the URL.
- `YT_DLP_PATH` (main.py:15) and `Path(out_dir) / template` (main.py:43) are abstract (`Host.exe`, `Host.join`). Path normalisation and the platform's separator are not modelled.
- `PRESETS_FILE` (main.py:16) is never used by the program.
