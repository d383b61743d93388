/** The link extraction of the browser extension (URL_Server/contentScript.js,
    and the same pipeline injected by URL_Server/background.js): take the
    `href` of every anchor, keep those that start with "http", and remove
    duplicates the way `Array.from(new Set(urls))` does, keeping the first
    occurrence of each URL in document order. */
module ContentScript {
  import opened Text

  /** What the injected function reads from the document: `window.location.href`
      and the `href` of every `<a>` element in document order (an anchor
      without an `href` contributes ""). */
  datatype Page = Page(location: string, anchorHrefs: seq<string>)

  /** The object the function returns. */
  datatype PageData = PageData(currentUrl: string, allUrls: seq<string>)

  /** The filter callback `url => url && url.startsWith('http')`. */
  predicate IsHttpLink(url: string)
  {
    url != "" && StartsWith(url, "http")
  }

  /** The position of the first occurrence of `x` in `s`. */
  function FirstIndex<T(==)>(s: seq<T>, x: T): (r: nat)
    requires x in s
    ensures r < |s| && s[r] == x && x !in s[..r]
  {
    if s[0] == x then 0 else 1 + FirstIndex(s[1..], x)
  }

  lemma {:induction false} FirstIndexAppend<T>(s: seq<T>, x: T, y: T)
    requires y in s
    ensures FirstIndex(s + [x], y) == FirstIndex(s, y)
  {
    if s[0] != y {
      assert (s + [x])[1..] == s[1..] + [x];
      FirstIndexAppend(s[1..], x, y);
    }
  }

  lemma FirstIndexOfNew<T>(s: seq<T>, x: T)
    requires x !in s
    ensures FirstIndex(s + [x], x) == |s|
  {
  }

  /** `urls.filter(IsHttpLink)`: keeps the order of the hrefs it keeps. */
  function HttpLinks(hrefs: seq<string>): (r: seq<string>)
    ensures forall u :: u in r <==> u in hrefs && IsHttpLink(u)
    ensures |r| <= |hrefs|
  {
    if hrefs == [] then []
    else (if IsHttpLink(hrefs[0]) then [hrefs[0]] else []) + HttpLinks(hrefs[1..])
  }

  /** `Array.from(new Set(s))`: the elements of `s` inserted one after the
      other into a JavaScript `Set`, where inserting an element already
      present changes nothing, then listed in insertion order. */
  function Dedup(s: seq<string>): (r: seq<string>)
    ensures forall x :: x in r <==> x in s
    ensures Distinct(r)
    ensures |r| <= |s|
  {
    if s == [] then []
    else
      var prefix := Dedup(s[..|s| - 1]);
      var last := s[|s| - 1];
      assert s == s[..|s| - 1] + [last];
      if last in prefix then prefix else prefix + [last]
  }

  /** The result lists each distinct element in the order of its first
      occurrence in `s`. */
  lemma {:induction false} DedupOrder(s: seq<string>)
    ensures forall i, j :: 0 <= i < j < |Dedup(s)| ==>
              FirstIndex(s, Dedup(s)[i]) < FirstIndex(s, Dedup(s)[j])
  {
    if s != [] {
      var init := s[..|s| - 1];
      var last := s[|s| - 1];
      assert s == init + [last];
      var prefix := Dedup(init);
      DedupOrder(init);
      forall y | y in init
        ensures FirstIndex(s, y) == FirstIndex(init, y)
      {
        FirstIndexAppend(init, last, y);
      }
      if last !in prefix {
        FirstIndexOfNew(init, last);
        assert Dedup(s) == prefix + [last];
      }
    }
  }

  /** Filtering keeps the relative order of first occurrences. */
  lemma {:induction false} HttpLinksOrder(hrefs: seq<string>, x: string, y: string)
    requires x in HttpLinks(hrefs) && y in HttpLinks(hrefs)
    requires FirstIndex(HttpLinks(hrefs), x) < FirstIndex(HttpLinks(hrefs), y)
    ensures FirstIndex(hrefs, x) < FirstIndex(hrefs, y)
  {
    var a := hrefs[0];
    var rest := hrefs[1..];
    if IsHttpLink(a) {
      assert HttpLinks(hrefs) == [a] + HttpLinks(rest);
      if x != a {
        HttpLinksOrder(rest, x, y);
      }
    } else {
      assert HttpLinks(hrefs) == HttpLinks(rest);
      HttpLinksOrder(rest, x, y);
    }
  }

  /** The distinct http links are listed in the order in which they first
      appear among the hrefs. */
  lemma LinksInPageOrder(hrefs: seq<string>)
    ensures forall i, j :: 0 <= i < j < |Dedup(HttpLinks(hrefs))| ==>
              FirstIndex(hrefs, Dedup(HttpLinks(hrefs))[i]) < FirstIndex(hrefs, Dedup(HttpLinks(hrefs))[j])
  {
    var links := HttpLinks(hrefs);
    var urls := Dedup(links);
    DedupOrder(links);
    forall i, j | 0 <= i < j < |urls|
      ensures FirstIndex(hrefs, urls[i]) < FirstIndex(hrefs, urls[j])
    {
      HttpLinksOrder(hrefs, urls[i], urls[j]);
    }
  }

  /** The function injected into the page: `currentUrl` is the page's own
      location and `allUrls` holds the distinct http links in the order in
      which they first appear among the anchors. */
  function ExtractUrls(page: Page): (r: PageData)
    ensures r.currentUrl == page.location
    ensures forall u :: u in r.allUrls ==> u in page.anchorHrefs && StartsWith(u, "http")
    ensures forall u :: u in page.anchorHrefs && IsHttpLink(u) ==> u in r.allUrls
    ensures Distinct(r.allUrls)
    ensures |r.allUrls| <= |page.anchorHrefs|
    ensures forall i, j :: 0 <= i < j < |r.allUrls| ==>
              FirstIndex(page.anchorHrefs, r.allUrls[i]) < FirstIndex(page.anchorHrefs, r.allUrls[j])
  {
    LinksInPageOrder(page.anchorHrefs);
    PageData(page.location, Dedup(HttpLinks(page.anchorHrefs)))
  }
}
