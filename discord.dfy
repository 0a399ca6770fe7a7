/** The Discord message the plugin builds: a payload holding embeds, each with an ordered field list. */
module Discord {
  import opened Wrappers

  /** One `['name' => …, 'value' => …, 'inline' => …]` entry of an embed's `fields`. */
  datatype Field = Field(name: string, value: string, inline: bool)

  /** One embed; `description` and `image.url` are present only where a transformer sets them. */
  datatype Embed = Embed(
    title: string,
    description: Option<string>,
    color: int,
    fields: seq<Field>,
    footer: string,
    image: Option<string>)

  /** `['embeds' => [...]]`, or the router's `['content' => ...]` fallback. */
  datatype Payload = Embeds(embeds: seq<Embed>) | Content(content: string)

  /** Every footer is this prefix followed by the event's name. */
  const FooterPrefix := "FSHub • "

  /** The zero-width space U+200B that names a section-break field. */
  const ZeroWidthSpace := "\U{200B}"

  /** A section break: zero-width name, bold heading as value, never inline. */
  predicate IsSeparator(f: Field) {
    f.name == ZeroWidthSpace && !f.inline
  }

  function Section(heading: string): (f: Field)
    ensures IsSeparator(f) && f.value == heading
  {
    Field(ZeroWidthSpace, heading, false)
  }

  predicate NoSeparators(fs: seq<Field>) {
    forall k | 0 <= k < |fs| :: !IsSeparator(fs[k])
  }

  /**
   * The layout both flight embeds share: some leading fields, then three
   * sections, each a section break with its heading followed by the
   * section's fields. When none of the pieces holds a separator of its own,
   * the three breaks are exactly the separators of the result.
   */
  function ThreeSections(lead: seq<Field>, h1: string, g1: seq<Field>, h2: string, g2: seq<Field>, h3: string, g3: seq<Field>): (f: seq<Field>)
    ensures var s1 := |lead|;
      var s2 := s1 + 1 + |g1|;
      var s3 := s2 + 1 + |g2|;
      && |f| == s3 + 1 + |g3|
      && f[..s1] == lead && f[s1 + 1..s2] == g1 && f[s2 + 1..s3] == g2 && f[s3 + 1..] == g3
      && f[s1] == Section(h1) && f[s2] == Section(h2) && f[s3] == Section(h3)
      && (NoSeparators(lead) && NoSeparators(g1) && NoSeparators(g2) && NoSeparators(g3) ==>
            forall k | 0 <= k < |f| :: IsSeparator(f[k]) <==> k == s1 || k == s2 || k == s3)
  {
    var f := lead + [Section(h1)] + g1 + [Section(h2)] + g2 + [Section(h3)] + g3;
    var s1 := |lead|;
    var s2 := s1 + 1 + |g1|;
    var s3 := s2 + 1 + |g2|;
    assert forall k | 0 <= k < s1 :: f[k] == lead[k];
    assert forall k | s1 < k < s2 :: f[k] == g1[k - s1 - 1];
    assert forall k | s2 < k < s3 :: f[k] == g2[k - s2 - 1];
    assert forall k | s3 < k < |f| :: f[k] == g3[k - s3 - 1];
    f
  }

  /** `isset($payload['embeds']) && !empty($payload['embeds'])`. */
  predicate HasEmbeds(p: Payload) {
    p.Embeds? && |p.embeds| > 0
  }
}
