/** The canonical link of a LinkedIn card (app.py, line 62): `href.split('?')[0]`. */
module Links {
  import opened Text

  /**
   * The prefix of `href` before its first `?`, which drops the query string.
   * The three clauses determine the result: a `?`-free prefix of `href` that
   * ends where `href` ends or where a `?` stands.
   */
  function CanonicalLink(href: string): (r: string)
    ensures '?' !in r
    ensures r <= href
    ensures |r| < |href| ==> href[|r|] == '?'
  {
    SplitFirstPiece(href, '?');
    SplitPiecesLackSep(href, '?');
    SplitOn(href, '?')[0]
  }

  /** A link without a query string is its own canonical form. */
  lemma CanonicalLinkWithoutQuery(href: string)
    requires '?' !in href
    ensures CanonicalLink(href) == href
  {
  }

  /** Canonicalising a canonical link changes nothing. */
  lemma CanonicalLinkIdempotent(href: string)
    ensures CanonicalLink(CanonicalLink(href)) == CanonicalLink(href)
  {
    CanonicalLinkWithoutQuery(CanonicalLink(href));
  }

  /** Two links that differ only after the first `?` have the same canonical form. */
  lemma CanonicalLinkIgnoresQuery(path: string, q1: string, q2: string)
    requires '?' !in path
    ensures CanonicalLink(path + "?" + q1) == path
    ensures CanonicalLink(path + "?" + q1) == CanonicalLink(path + "?" + q2)
  {
    SplitAppend(path, q1, '?');
    SplitAppend(path, q2, '?');
    SplitNoSep(path, '?');
  }
}
