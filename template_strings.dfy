/** Template literals with one hole, `${prefix}${hole}${suffix}`, as the explorer URL builders write them. */
module TemplateStrings {
  import opened Wrappers

  datatype Template = Template(prefix: string, suffix: string) {

    /** The template literal evaluated with `hole` substituted. */
    function Fill(hole: string): (r: string)
      ensures |r| == |prefix| + |hole| + |suffix|
      ensures r[..|prefix|] == prefix && r[|r| - |suffix|..] == suffix
    {
      prefix + hole + suffix
    }

    /** The hole of `url`, when `url` has this template's prefix and suffix. */
    function Match(url: string): (r: Option<string>)
      ensures r.Some? ==> Fill(r.value) == url
      ensures r.None? ==> |url| < |prefix| + |suffix| || url[..|prefix|] != prefix || url[|url| - |suffix|..] != suffix
    {
      if |prefix| + |suffix| <= |url| && url[..|prefix|] == prefix && url[|url| - |suffix|..] == suffix then
        var hole := url[|prefix|..|url| - |suffix|];
        assert url == url[..|prefix|] + hole + url[|url| - |suffix|..];
        Some(hole)
      else
        None
    }
  }

  /** Filling then matching gives the hole back: the builder embeds its argument verbatim. */
  lemma MatchFill(t: Template, hole: string)
    ensures t.Match(t.Fill(hole)) == Some(hole)
  {
    var url := t.Fill(hole);
    assert url[|t.prefix|..|url| - |t.suffix|] == hole;
  }

  /** Two arguments give the same URL only when they are equal. */
  lemma FillInjective(t: Template, a: string, b: string)
    requires t.Fill(a) == t.Fill(b)
    ensures a == b
  {
    MatchFill(t, a);
    MatchFill(t, b);
  }

  /** Extending the suffix of a template extends every filled URL by the same text. */
  lemma FillExtendSuffix(t: Template, extra: string, hole: string)
    ensures Template(t.prefix, t.suffix + extra).Fill(hole) == t.Fill(hole) + extra
  {
  }
}
