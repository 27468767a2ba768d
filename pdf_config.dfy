/**
 * Where the book's PDF is served from: a fixed path under the public folder,
 * optionally prefixed by a base URL.
 */
module PdfConfig {
  import opened Js

  const FilePath: string := "/book.pdf"
  const DownloadName: string := "The-Digital-Community-Manifesto.pdf"
  const Title: string := "The Digital Community Manifesto"

  /** getPdfUrl: the file path, prefixed by the base URL when one is given and non-empty. */
  function GetPdfUrl(baseUrl: Option<string>): (r: string)
    ensures baseUrl.None? || baseUrl == Some("") ==> r == FilePath
    ensures baseUrl.Some? && baseUrl.value != "" ==> baseUrl.value <= r
    ensures |FilePath| <= |r| && r[|r| - |FilePath|..] == FilePath
  {
    if baseUrl.Some? && baseUrl.value != "" then baseUrl.value + FilePath else FilePath
  }

  /** Recovering the base: the URL minus the file path is the base (or empty when there is none). */
  function BaseOf(url: string): (b: Option<string>)
    requires |FilePath| <= |url|
    ensures b.None? <==> |url| == |FilePath|
  {
    if |url| == |FilePath| then None else Some(url[..|url| - |FilePath|])
  }

  /** GetPdfUrl forgets only the difference between an absent and an empty base. */
  lemma BaseOfGetPdfUrl(baseUrl: Option<string>)
    ensures BaseOf(GetPdfUrl(baseUrl)) == if baseUrl == Some("") then None else baseUrl
  {
    if baseUrl.Some? && baseUrl.value != "" {
      var r := baseUrl.value + FilePath;
      assert r[..|r| - |FilePath|] == baseUrl.value;
    }
  }

  /** An empty base is the same as no base. */
  lemma EmptyBaseIsAbsent()
    ensures GetPdfUrl(Some("")) == GetPdfUrl(None) == "/book.pdf"
  {
  }
}
