/** The two callers of the command builder: the window's "add to queue"
    action and the non-interactive command-line mode. Each turns its inputs
    into a builder request; the widgets, the job queue and the process
    launch themselves are not part of this model. */
module Frontends {
  import opened Wrappers
  import opened Tables
  import opened CommandBuilder
  import PyStr

  /** The formats the format selector lists, in its order. */
  const FormatChoices: seq<string> := LosslessFormats + ["MP3", "AAC", "OPUS"]

  /** The entries of the normalisation selector. */
  const NormalizeChoices: seq<string> := ["Não", "Sim (EBU R128)"]

  /** The selector's text asks for normalisation when it starts with "Sim". */
  function WantsNormalize(choice: string): (wants: bool)
    ensures wants <==> |choice| >= 3 && choice[0] == 'S' && choice[1] == 'i' && choice[2] == 'm'
  {
    "Sim" <= choice
  }

  /** The format selector lists every lossless and every lossy format, and
      nothing else; its first entry, selected at start-up, disables the
      bitrate control. */
  lemma FormatChoicesCoverTables()
    ensures forall f :: f in FormatChoices <==> f in LosslessFormats || f in LossyFormats
    ensures !BitrateChoices(FormatChoices[0]).enabled
  {
    assert LossyFormats.Keys == {"MP3", "AAC", "OPUS"};
  }

  /** Of the two normalisation entries only the second asks for it. */
  lemma NormalizeChoicesMeaning()
    ensures !WantsNormalize(NormalizeChoices[0])
    ensures WantsNormalize(NormalizeChoices[1])
  {
    assert NormalizeChoices[0][0] != "Sim"[0];
    assert NormalizeChoices[1][..3] == "Sim";
  }

  /** The request the window builds from its widgets' texts: the bitrate and
      the template are always present as text (an empty bitrate control
      reads as the empty string). */
  function GuiRequest(url: string, outDir: string, formatText: string, bitrateText: string,
                      normalizeText: string, templateText: string): (req: Request)
    ensures req.bitrate.Some? && req.template.Some?
  {
    Request(url, outDir, formatText, Some(bitrateText), WantsNormalize(normalizeText), Some(templateText))
  }

  /** The request the command-line mode builds: no template, and a bitrate
      only when one was given. */
  function CliRequest(url: string, output: string, format: string, bitrate: Option<string>,
                      normalize: bool): (req: Request)
    ensures req.template.None?
  {
    Request(url, output, format, bitrate, normalize, None)
  }

  /** A job added from the window never reaches the failing `.replace`. */
  lemma GuiNeverFails(host: Host, url: string, outDir: string, formatText: string,
                      bitrateText: string, normalizeText: string, templateText: string)
    ensures Command(host, GuiRequest(url, outDir, formatText, bitrateText, normalizeText, templateText)).Success?
  {
  }

  /** When the window's bitrate is one the control offers for a lossy
      format, the quality yt-dlp receives is that bitrate's digits. */
  lemma GuiQualityIsOfferedDigits(host: Host, url: string, outDir: string, format: string,
                                  bitrate: string, normalizeText: string, templateText: string)
    requires bitrate in BitrateChoices(format).items
    ensures var argv := Command(host, GuiRequest(url, outDir, format, bitrate, normalizeText, templateText)).value;
      && |argv| >= 11
      && argv[9] == "--audio-quality"
      && argv[10] == bitrate[..|bitrate| - 1]
      && |argv[10]| > 0 && IsDigits(argv[10])
  {
    var req := GuiRequest(url, outDir, format, bitrate, normalizeText, templateText);
    OfferedBitratesAreLabels(format, bitrate);
    KbpsLabelQuality(bitrate);
    CommandLayout(host, req);
  }

  /** A template picked in the window selects its own pattern. */
  lemma GuiTemplateSelected(host: Host, url: string, outDir: string, formatText: string,
                            bitrateText: string, normalizeText: string, templateText: string)
    requires templateText in OutputTemplates
    ensures var argv := Command(host, GuiRequest(url, outDir, formatText, bitrateText, normalizeText, templateText)).value;
      |argv| > 6 && argv[6] == host.join(outDir, OutputTemplates[templateText])
  {
    CommandLayout(host, GuiRequest(url, outDir, formatText, bitrateText, normalizeText, templateText));
  }

  /** The command-line mode always uses the default template. */
  lemma CliUsesDefaultTemplate(host: Host, url: string, output: string, format: string,
                               bitrate: Option<string>, normalize: bool)
    requires Command(host, CliRequest(url, output, format, bitrate, normalize)).Success?
    ensures var argv := Command(host, CliRequest(url, output, format, bitrate, normalize)).value;
      |argv| > 6 && argv[6] == host.join(output, DefaultTemplate)
  {
    CommandLayout(host, CliRequest(url, output, format, bitrate, normalize));
  }

  /** On the command line a lossy format needs an explicit bitrate, while
      the default format (FLAC) and lower-case names such as "mp3", which
      are not lossy keys, build without one. */
  lemma CliBitrateRequirement(host: Host, url: string, output: string, format: string, normalize: bool)
    ensures Command(host, CliRequest(url, output, format, None, normalize)).Failure?
            <==> format in LossyFormats
    ensures Command(host, CliRequest(url, output, "FLAC", None, normalize)).Success?
    ensures Command(host, CliRequest(url, output, "mp3", None, normalize)).Success?
  {
    CommandFails(host, CliRequest(url, output, format, None, normalize));
  }
}
