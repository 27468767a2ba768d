/**
 * Site-wide configuration of the book site: its canonical URL, the Open Graph
 * image, the credited authors, the twitter handles, and the two URL builders
 * that turn a site path into an absolute URL.
 */
module SiteConfig {
  import opened Js

  /** A credited author; the twitter handle is optional. */
  datatype Author = Author(name: string, twitter: Option<string>)

  const Name: string := "The Digital Community Manifesto | Blockchain Hive"
  const Url: string := "https://book.networkstates.online"
  const OgImage: string := "https://book.networkstates.online/og.jpg"
  const Authors: seq<Author> := [
    Author("They Call Me Dan (@TheycallmeDan_)", Some("@TheycallmeDan_")),
    Author("3speaktv (@3speaktv)", Some("@3speaktv"))
  ]
  const Creator: string := "@theycallmedan & @starkerz"
  /** The `twitter.site` handle: declared optional, set in the shipped configuration. */
  const TwitterSite: Option<string> := Some("@TheycallmeDan_")
  const TwitterCreator: string := "@TheycallmeDan_"

  /** The argument getAbsoluteUrl uses when it is called without one. */
  const DefaultPath: string := ""

  predicate StartsWithSlash(path: string) {
    "/" <= path
  }

  /** The path with exactly one leading "/" added when it has none. */
  function CleanPath(path: string): (p: string)
    ensures StartsWithSlash(p)
    ensures StartsWithSlash(path) ==> p == path
    ensures !StartsWithSlash(path) ==> p[1..] == path
  {
    if StartsWithSlash(path) then path else "/" + path
  }

  /** getAbsoluteUrl: the site URL followed by the path, a "/" put in front when missing. */
  function GetAbsoluteUrl(path: string): (r: string)
    ensures Url + "/" <= r
    ensures r[|Url|..] == CleanPath(path)
  {
    Url + CleanPath(path)
  }

  /** getOgImageUrl: the default image unless a non-empty image path is given. */
  function GetOgImageUrl(image: Option<string>): (r: string)
    ensures image.None? || image == Some("") ==> r == OgImage
    ensures image.Some? && image.value != "" ==> r == GetAbsoluteUrl(image.value)
  {
    if image.Some? && image.value != "" then GetAbsoluteUrl(image.value) else OgImage
  }

  /** Cleaning a path twice changes nothing more. */
  lemma CleanPathIdempotent(path: string)
    ensures CleanPath(CleanPath(path)) == CleanPath(path)
  {
  }

  /** A path without its leading slash names the same page as the path with it. */
  lemma AbsoluteUrlIgnoresMissingSlash(x: string)
    requires !StartsWithSlash(x)
    ensures GetAbsoluteUrl(x) == GetAbsoluteUrl("/" + x)
  {
    assert StartsWithSlash("/" + x);
  }

  /** The default path gives the site root. */
  lemma AbsoluteUrlOfDefault()
    ensures GetAbsoluteUrl(DefaultPath) == Url + "/"
  {
  }

  /** Two paths give the same URL exactly when they clean to the same path. */
  lemma AbsoluteUrlInjective(a: string, b: string)
    ensures GetAbsoluteUrl(a) == GetAbsoluteUrl(b) <==> CleanPath(a) == CleanPath(b)
  {
    if GetAbsoluteUrl(a) == GetAbsoluteUrl(b) {
      assert GetAbsoluteUrl(a)[|Url|..] == GetAbsoluteUrl(b)[|Url|..];
    }
  }

  /** The absolute URL of a path that already starts with "/" is the site URL followed by that path. */
  lemma AbsoluteUrlOfRooted(path: string)
    requires StartsWithSlash(path)
    ensures GetAbsoluteUrl(path) == Url + path
  {
  }
}
