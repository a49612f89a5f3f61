/** The SpringerLink publisher plugin: its tables, instantiating the shared engine. */
module Springerlink {
  import opened Wrappers
  import opened Text
  import opened PluginEngine

  /** `base_urls`: the prefixes the plugin claims, without scheme. */
  const BaseUrls: seq<string> := [
    "link.springer.com/article"
  ]

  /** `lic_statements`, in table order. */
  const LicStatements: seq<Statement> := [
    Statement(
      "This article is distributed under the terms of the Creative Commons Attribution License which permits any use, distribution, and reproduction in any medium, provided the original author(s) and the source are credited.",
      LicenseAttrs("cc-by", None, None)),
    Statement(
      "This article is licensed under a <a rel=\"license\" href=\"http://creativecommons.org/licenses/by-nc/3.0/\" target=\"_blank\" title=\"This link will open in a new browser window\">Creative Commons Attribution-NonCommercial 3.0 Unported Licence.",
      LicenseAttrs("cc-nc", Some("3.0"), Some("http://creativecommons.org/licenses/by-nc/3.0/"))),
    Statement(
      "This content is freely available online to anyone, anywhere at any time.",
      LicenseAttrs("publisher-asserted-accessible", None, None))
  ]

  const Plugin := Registry("springerlink", "0.1", BaseUrls, LicStatements)

  /** A URL is supported exactly when its cleaned form starts with
      "link.springer.com/article". */
  lemma SupportsUrlExactly(clean: string -> string, url: string)
    ensures SupportsUrl(Plugin, clean, url) <==> StartsWith(clean(url), "link.springer.com/article")
  {
  }

  /** An article URL is supported under a scheme-stripping `clean_url`. */
  lemma ArticleSupported()
    ensures Supports(Plugin, StripScheme, Provider(Some(["http://" + "link.springer.com/article" + "/10.1007%2Fs12154-012-0090-1"])))
  {
    SupportsHttpPrefixed(Plugin, 0, "/10.1007%2Fs12154-012-0090-1");
  }

  /** Other paths on link.springer.com are rejected. */
  lemma OtherPathRejected()
    ensures !Supports(Plugin, StripScheme, Provider(Some(["http://" + BookPath])))
  {
    assert BookPath[0] == 'l';
    DifferAt(BookPath, BaseUrls[0], 18);
    UnsupportedPlain(Plugin, BookPath);
  }

  /** A book page on the same host. */
  const BookPath := "link.springer.com/book/10.1007/978-3-642"

  /** The table is ordered: cc-by with only a type, then cc-nc 3.0 with
      version and url, then the publisher-asserted-accessible mark with only
      a type. */
  lemma StatementTable()
    ensures |LicStatements| == 3
    ensures LicStatements[0].attrs == LicenseAttrs("cc-by", None, None)
    ensures LicStatements[1].attrs == LicenseAttrs("cc-nc", Some("3.0"), Some("http://creativecommons.org/licenses/by-nc/3.0/"))
    ensures LicStatements[2].attrs == LicenseAttrs("publisher-asserted-accessible", None, None)
  {
  }
}
