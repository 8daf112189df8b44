/** The downloader's constant tables: the lossy formats with the bitrates
    each offers, the lossless formats, and the named output-file templates,
    with the two lookups made on them. */
module Tables {
  import opened Wrappers
  import PyStr

  /** Lossy formats, each with the bitrates the bitrate control offers. */
  const LossyFormats: map<string, seq<string>> := map[
    "MP3" := ["128k", "192k", "256k", "320k"],
    "AAC" := ["128k", "192k", "256k"],
    "OPUS" := ["96k", "128k", "160k"]
  ]

  /** The template used when none, or an unknown one, is named. */
  const DefaultTemplate: string := "%(title)s.%(ext)s"

  /** Output-file templates in yt-dlp's syntax, by the name the user picks. */
  const OutputTemplates: map<string, string> := map[
    "name.ext" := DefaultTemplate,
    "name - artist.ext" := "%(title)s - %(artist)s.%(ext)s",
    "Álbum / Faixa" := "%(artist)s/%(album)s/%(track_number)02d - %(title)s.%(ext)s",
    "Ano - Artista - Música" := "%(release_year)s - %(artist)s - %(title)s.%(ext)s",
    "Playlist" := "%(playlist_title)s/%(playlist_index)02d - %(title)s.%(ext)s"
  ]

  const LosslessFormats: seq<string> := ["WAV", "FLAC"]

  /** `OUTPUT_TEMPLATES.get(template, "%(title)s.%(ext)s")`: a known name
      selects its template, anything else (including no name) the default. */
  function OutputTemplate(name: Option<string>): (t: string)
    ensures name.Some? && name.value in OutputTemplates ==> t == OutputTemplates[name.value]
    ensures !(name.Some? && name.value in OutputTemplates) ==> t == DefaultTemplate
  {
    match name
    case Some(n) => if n in OutputTemplates then OutputTemplates[n] else DefaultTemplate
    case None => DefaultTemplate
  }

  /** Whatever name is given, the chosen template is one of the table's and
      names a file with yt-dlp's extension field; the fallback is exactly
      the "name.ext" entry. */
  lemma OutputTemplateIsListed(name: Option<string>)
    ensures OutputTemplate(name) in OutputTemplates.Values
    ensures ".%(ext)s" <= OutputTemplate(name)[|OutputTemplate(name)| - 8..]
    ensures !(name.Some? && name.value in OutputTemplates) ==>
              OutputTemplate(name) == OutputTemplate(Some("name.ext"))
  {
    assert OutputTemplates["name.ext"] == DefaultTemplate;
    var t := OutputTemplate(name);
    assert t in OutputTemplates.Values;
  }

  /** The state of the bitrate control after a format is picked. */
  datatype BitrateControl = BitrateControl(items: seq<string>, enabled: bool)

  /** The rule of `update_bitrate`: a lossy format offers exactly its listed
      bitrates and enables the control; any other format offers none and
      disables it. */
  function BitrateChoices(format: string): (c: BitrateControl)
    ensures c.enabled <==> format in LossyFormats
    ensures c.enabled <==> c.items != []
    ensures c.enabled ==> c.items == LossyFormats[format]
  {
    if format in LossyFormats then BitrateControl(LossyFormats[format], true)
    else BitrateControl([], false)
  }

  predicate IsDigits(s: string) {
    forall i :: 0 <= i < |s| ==> '0' <= s[i] <= '9'
  }

  /** A bitrate label: a non-empty run of decimal digits followed by "k". */
  predicate IsKbpsLabel(b: string) {
    |b| >= 2 && b[|b| - 1] == 'k' && IsDigits(b[..|b| - 1])
  }

  /** Every bitrate any lossy format offers is a kbps label. */
  lemma OfferedBitratesAreLabels(format: string, b: string)
    requires b in BitrateChoices(format).items
    ensures IsKbpsLabel(b)
  {
  }

  /** Removing "k" from a kbps label leaves its digits ("192k" gives "192"). */
  lemma KbpsLabelQuality(b: string)
    requires IsKbpsLabel(b)
    ensures PyStr.Without(b, 'k') == b[..|b| - 1]
    ensures |PyStr.Without(b, 'k')| > 0 && IsDigits(PyStr.Without(b, 'k'))
  {
    var digits := b[..|b| - 1];
    assert forall i :: 0 <= i < |digits| ==> digits[i] != 'k';
    PyStr.WithoutTrailing(b, 'k');
  }

  /** No format is both lossless and lossy. */
  lemma LosslessIsNotLossy(format: string)
    requires format in LosslessFormats
    ensures format !in LossyFormats
    ensures !BitrateChoices(format).enabled
  {
  }
}
