/**
 * The schema.org structured data the site embeds: the breadcrumb trail of each
 * page, the Organization's `sameAs` links, and the Person list of the authors.
 * Only the parts that compute something are modelled; the fixed literals are not.
 */
module JsonLdSchema {
  import opened Js
  import SiteConfig

  /** The three pages that have a breadcrumb trail. */
  datatype BreadcrumbPage = Home | Audiobook | Read

  /** One entry of the breadcrumb table: a label and the URL it links to. */
  datatype Crumb = Crumb(name: string, url: string)

  /** One `ListItem` of a `BreadcrumbList`. */
  datatype ListItem = ListItem(position: int, name: string, item: string)

  /** A schema.org `Person` as emitted for an author. */
  datatype Person = Person(name: string)

  /** The breadcrumb table: every trail starts at Home, the sub-pages add one crumb. */
  function Crumbs(page: BreadcrumbPage): (cs: seq<Crumb>)
    ensures |cs| == (if page == Home then 1 else 2)
    ensures cs[0] == Crumb("Home", SiteConfig.Url)
  {
    var home := Crumb("Home", SiteConfig.Url);
    match page
    case Home => [home]
    case Audiobook => [home, Crumb("Audiobook", SiteConfig.Url + "/audiobook")]
    case Read => [home, Crumb("Read", SiteConfig.Url + "/read")]
  }

  /** Numbers the crumbs from `start` on, keeping their order. */
  function Number(cs: seq<Crumb>, start: int): (items: seq<ListItem>)
    ensures |items| == |cs|
    ensures forall i :: 0 <= i < |cs| ==>
      items[i] == ListItem(start + i, cs[i].name, cs[i].url)
  {
    if cs == [] then []
    else [ListItem(start, cs[0].name, cs[0].url)] + Number(cs[1..], start + 1)
  }

  /** The `itemListElement` of getBreadcrumbSchema: the page's crumbs, positions counted from 1. */
  function BreadcrumbList(page: BreadcrumbPage): (items: seq<ListItem>)
    ensures |items| == |Crumbs(page)|
    ensures forall i :: 0 <= i < |items| ==> items[i].position == i + 1
    ensures forall i :: 0 <= i < |items| ==>
      items[i].name == Crumbs(page)[i].name && items[i].item == Crumbs(page)[i].url
  {
    Number(Crumbs(page), 1)
  }

  /** The items read back as crumbs: positions aside, nothing is lost. */
  function Unnumber(items: seq<ListItem>): (cs: seq<Crumb>)
    ensures |cs| == |items|
  {
    seq(|items|, i requires 0 <= i < |items| => Crumb(items[i].name, items[i].item))
  }

  lemma UnnumberBreadcrumbList(page: BreadcrumbPage)
    ensures Unnumber(BreadcrumbList(page)) == Crumbs(page)
  {
    var items := BreadcrumbList(page);
    assert forall i :: 0 <= i < |items| ==> Unnumber(items)[i] == Crumbs(page)[i];
  }

  /** The trails of the two sub-pages end at their own URL under the site. */
  lemma BreadcrumbTargets()
    ensures BreadcrumbList(Home) == [ListItem(1, "Home", SiteConfig.Url)]
    ensures BreadcrumbList(Audiobook)[1] == ListItem(2, "Audiobook", SiteConfig.GetAbsoluteUrl("/audiobook"))
    ensures BreadcrumbList(Read)[1] == ListItem(2, "Read", SiteConfig.GetAbsoluteUrl("/read"))
  {
    assert SiteConfig.CleanPath("/audiobook") == "/audiobook";
    assert SiteConfig.CleanPath("/read") == "/read";
  }

  /** The Organization's `sameAs`: the twitter profile of `twitter.site` when it is set. */
  function SameAs(site: Option<string>): (links: seq<string>)
    ensures site.None? || site == Some("") <==> links == []
    ensures |links| <= 1
    ensures links != [] ==> site.Some? && links[0] == "https://twitter.com/" + site.value
  {
    if site.Some? && site.value != "" then ["https://twitter.com/" + site.value] else []
  }

  /** The shipped configuration sets `twitter.site`, so the organization links one profile. */
  lemma ShippedSameAs()
    ensures SameAs(SiteConfig.TwitterSite) == ["https://twitter.com/@TheycallmeDan_"]
  {
    var link := "https://twitter.com/" + "@TheycallmeDan_";
    assert forall i :: 0 <= i < |link| ==> link[i] == "https://twitter.com/@TheycallmeDan_"[i];
    assert link == "https://twitter.com/@TheycallmeDan_";
  }

  /** The `author` array of the Book and Audiobook schemas: one Person per author, in order. */
  function AuthorPersons(authors: seq<SiteConfig.Author>): (ps: seq<Person>)
    ensures |ps| == |authors|
    ensures forall i :: 0 <= i < |authors| ==> ps[i].name == authors[i].name
  {
    if authors == [] then [] else [Person(authors[0].name)] + AuthorPersons(authors[1..])
  }

  /** The author list is a homomorphism over concatenation. */
  lemma {:induction false} AuthorPersonsAppend(a: seq<SiteConfig.Author>, b: seq<SiteConfig.Author>)
    ensures AuthorPersons(a + b) == AuthorPersons(a) + AuthorPersons(b)
  {
    if a != [] {
      assert (a + b)[1..] == a[1..] + b;
      AuthorPersonsAppend(a[1..], b);
    }
  }
}
