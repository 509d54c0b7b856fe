/**
  The itch.io gallery of the projects section: the list of project links kept
  after loading the profile page, and the title shown for each link.

  The page request and the regular-expression scan are not modelled; the loader
  receives what they produce: `None` when the request threw, otherwise the
  matched URLs in page order (`[]` when nothing matched).
*/
module ProjectsSkills {
  import opened Wrappers

  const Profile: string := "https://zidandev.itch.io/"
  const ProfileTitle: string := "Visit my itch.io"
  const MaxLinks: nat := 9

  predicate Distinct<T(==)>(s: seq<T>) {
    forall i, j :: 0 <= i < j < |s| ==> s[i] != s[j]
  }

  function MinNat(a: nat, b: nat): nat { if a <= b then a else b }

  /** Position of the first occurrence of `x` in `s`. */
  function FirstIndex<T(==)>(s: seq<T>, x: T): (k: nat)
    requires x in s
    ensures k < |s| && s[k] == x
    ensures forall i :: 0 <= i < k ==> s[i] != x
  {
    if s[0] == x then 0 else 1 + FirstIndex(s[1..], x)
  }

  /** `Array.from(new Set(s))`: each distinct element once, where it first occurs. */
  function Dedupe<T(==)>(s: seq<T>): (r: seq<T>)
    ensures Distinct(r)
    ensures forall k :: 0 <= k < |r| ==> r[k] in s
    ensures forall k :: 0 <= k < |s| ==> s[k] in r
    ensures |r| <= |s|
  {
    if s == [] then []
    else
      var d := Dedupe(s[..|s| - 1]);
      if s[|s| - 1] in d then d else d + [s[|s| - 1]]
  }

  lemma FirstIndexOfPrefix<T>(p: seq<T>, y: T, x: T)
    requires x in p
    ensures FirstIndex(p + [y], x) == FirstIndex(p, x)
  {
    var k := FirstIndex(p + [y], x);
    var k' := FirstIndex(p, x);
    assert (p + [y])[k'] == x;
    assert k <= k';
  }

  /** The deduplicated links keep the order in which each first occurs in the page. */
  lemma {:induction false} DedupeKeepsFirstOccurrenceOrder<T>(s: seq<T>, i: nat, j: nat)
    requires i < j < |Dedupe(s)|
    ensures FirstIndex(s, Dedupe(s)[i]) < FirstIndex(s, Dedupe(s)[j])
  {
    var p, y := s[..|s| - 1], s[|s| - 1];
    assert s == p + [y];
    var d := Dedupe(p);
    var r := Dedupe(s);
    assert r[i] in p && r[i] in s by { assert r[i] in r; if y in d { assert r == d; } else { assert r == d + [y]; assert i < |d|; assert r[i] == d[i]; assert d[i] in d; } }
    FirstIndexOfPrefix(p, y, r[i]);
    if y in d || j < |d| {
      assert r[i] == d[i] && r[j] == d[j];
      assert d[j] in d;
      FirstIndexOfPrefix(p, y, r[j]);
      DedupeKeepsFirstOccurrenceOrder(p, i, j);
    } else {
      assert r[j] == y && y !in p;
      assert FirstIndex(s, y) == |p|;
    }
  }

  /** Once loading finishes: at most 9 distinct matched links, a prefix of the deduplicated
      matches; the profile URL alone when the request threw or nothing matched. */
  function LoadedLinks(fetched: Option<seq<string>>): (links: seq<string>)
    ensures links != []
    ensures |links| <= MaxLinks
    ensures Distinct(links)
    ensures fetched.None? || fetched.value == [] ==> links == [Profile]
    ensures fetched.Some? && fetched.value != [] ==>
      var found := Dedupe(fetched.value);
      && links <= found
      && |links| == MinNat(MaxLinks, |found|)
      && forall x :: x in links ==> x in fetched.value
  {
    match fetched
    case None => [Profile]
    case Some(matches) =>
      var found := Dedupe(matches);
      if |found| > 0 then found[..MinNat(MaxLinks, |found|)] else [Profile]
  }

  // ---------------------------------------------------------------------------
  // Titles

  predicate OccursAt(s: string, pat: string, k: nat) {
    k + |pat| <= |s| && s[k..k + |pat|] == pat
  }

  /** The first position at or after `from` where `pat` occurs in `s`. */
  function IndexOf(s: string, pat: string, from: nat): (r: Option<nat>)
    decreases |s| - from
    ensures r.Some? ==>
      from <= r.value && OccursAt(s, pat, r.value) &&
      forall k :: from <= k < r.value ==> !OccursAt(s, pat, k)
    ensures r.None? ==> forall k :: from <= k ==> !OccursAt(s, pat, k)
  {
    if from + |pat| > |s| then None
    else if OccursAt(s, pat, from) then Some(from)
    else IndexOf(s, pat, from + 1)
  }

  /** `s.replace(pat, '')` with a string pattern: only the first occurrence goes. */
  function RemoveFirst(s: string, pat: string): (r: string)
    ensures IndexOf(s, pat, 0).None? ==> r == s
    ensures IndexOf(s, pat, 0).Some? ==> |r| == |s| - |pat|
    ensures IndexOf(s, pat, 0).Some? ==>
      var k := IndexOf(s, pat, 0).value; s == r[..k] + pat + r[k..]
  {
    match IndexOf(s, pat, 0)
    case None => s
    case Some(k) =>
      var r := s[..k] + s[k + |pat|..];
      assert r[..k] == s[..k] && r[k..] == s[k + |pat|..];
      assert s == s[..k] + s[k..k + |pat|] + s[k + |pat|..];
      r
  }

  /** `s.replace(/\/$/, '')`: one trailing slash goes. */
  function DropTrailingSlash(s: string): (r: string)
    ensures r + "/" == s || (r == s && (s == [] || s[|s| - 1] != '/'))
  {
    if |s| > 0 && s[|s| - 1] == '/' then s[..|s| - 1] else s
  }

  /** `s.replace(/-/g, ' ')`. */
  function DashesToSpaces(s: string): (r: string)
    ensures |r| == |s|
    ensures forall k :: 0 <= k < |s| ==> r[k] == (if s[k] == '-' then ' ' else s[k])
    ensures '-' !in r
  {
    if s == [] then [] else [if s[0] == '-' then ' ' else s[0]] + DashesToSpaces(s[1..])
  }

  /** The slug of a link: the profile prefix and a trailing slash removed. */
  function Slug(href: string): (slug: string)
    ensures |slug| <= |href|
    ensures IndexOf(href, Profile, 0).None? ==> slug == DropTrailingSlash(href)
  {
    DropTrailingSlash(RemoveFirst(href, Profile))
  }

  /** The title shown for a link; never empty and never containing a dash. */
  function Title(href: string): (title: string)
    ensures title != []
    ensures '-' !in title
    ensures Slug(href) == [] ==> title == ProfileTitle
    ensures Slug(href) != [] ==> title == DashesToSpaces(Slug(href))
  {
    var slug := Slug(href);
    var t := if slug != [] then DashesToSpaces(slug) else ProfileTitle;
    if t != [] then t else ProfileTitle
  }

  /** Removing the first occurrence of a prefix leaves what follows it. */
  lemma RemoveFirstOfPrefix(pat: string, rest: string)
    ensures RemoveFirst(pat + rest, pat) == rest
  {
  }

  /** The fallback profile link is titled "Visit my itch.io". */
  lemma ProfileTitleLemma()
    ensures Title(Profile) == ProfileTitle
  {
  }

  /** The slug of a project link `Profile + slug` is `slug` itself. */
  lemma SlugOfProject(slug: string)
    requires slug == [] || slug[|slug| - 1] != '/'
    ensures Slug(Profile + slug) == slug
  {
  }

  /** A project link `Profile + slug` is titled by its slug with dashes turned to spaces. */
  lemma ProjectTitle(slug: string)
    requires slug != [] && slug[|slug| - 1] != '/'
    ensures Title(Profile + slug) == DashesToSpaces(slug)
  {
    SlugOfProject(slug);
  }

  datatype Item = Item(href: string, title: string)

  /** `links.map(...)`: one item per link, in order, with the link kept as its href. */
  function Items(links: seq<string>): (items: seq<Item>)
    ensures |items| == |links|
    ensures forall k :: 0 <= k < |links| ==> items[k].href == links[k] && items[k].title == Title(links[k])
  {
    if links == [] then [] else [Item(links[0], Title(links[0]))] + Items(links[1..])
  }

  /** When loading fails or finds nothing, the gallery shows a single item for the profile. */
  lemma FallbackGallery(fetched: Option<seq<string>>)
    requires fetched.None? || fetched.value == []
    ensures Items(LoadedLinks(fetched)) == [Item(Profile, ProfileTitle)]
  {
  }
}
