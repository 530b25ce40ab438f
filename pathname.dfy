/**
 * How the request handler derives the function pathname from the raw
 * request URL: add a leading `/`, cut the query (everything from the first
 * `?`, the query delimiter of section 3.4 of RFC 3986), and map the root
 * path to the configured default function.
 */
module Pathname {

  /** `s.split(sep)`: the pieces of `s` between occurrences of `sep`. */
  function Split(s: string, sep: char): (pieces: seq<string>)
    ensures |pieces| >= 1
    ensures forall i :: 0 <= i < |pieces| ==> sep !in pieces[i]
  {
    if s == [] then [""]
    else
      var rest := Split(s[1..], sep);
      if s[0] == sep then [""] + rest
      else [[s[0]] + rest[0]] + rest[1..]
  }

  /** `pieces.join(sep)`, the inverse of Split. */
  function Join(pieces: seq<string>, sep: char): string
    requires |pieces| >= 1
  {
    if |pieces| == 1 then pieces[0]
    else pieces[0] + [sep] + Join(pieces[1..], sep)
  }

  /** Splitting loses nothing: joining the pieces gives the string back. */
  lemma {:induction false} JoinSplit(s: string, sep: char)
    ensures Join(Split(s, sep), sep) == s
  {
    if s != [] {
      JoinSplit(s[1..], sep);
      var rest := Split(s[1..], sep);
      if s[0] == sep {
        assert Split(s, sep) == [""] + rest;
        assert ([""] + rest)[1..] == rest;
      } else {
        var pieces := [[s[0]] + rest[0]] + rest[1..];
        assert Split(s, sep) == pieces;
        if |rest| > 1 {
          assert pieces[1..] == rest[1..];
        }
      }
    }
  }

  /** Joining pieces free of `sep` and splitting again gives the pieces back. */
  lemma {:induction false} SplitJoin(pieces: seq<string>, sep: char)
    requires |pieces| >= 1
    requires forall i :: 0 <= i < |pieces| ==> sep !in pieces[i]
    ensures Split(Join(pieces, sep), sep) == pieces
    decreases |pieces|, |pieces[0]|
  {
    var head := pieces[0];
    if head == [] {
      if |pieces| > 1 {
        SplitJoin(pieces[1..], sep);
        var s := Join(pieces, sep);
        assert s == [sep] + Join(pieces[1..], sep);
        assert s[1..] == Join(pieces[1..], sep);
        assert [""] + pieces[1..] == pieces;
      }
    } else {
      var shorter := [head[1..]] + pieces[1..];
      assert forall i :: 1 <= i < |shorter| ==> shorter[i] == pieces[i];
      SplitJoin(shorter, sep);
      var s := Join(pieces, sep);
      assert Join(shorter, sep) == s[1..] by {
        if |pieces| > 1 {
          assert shorter[1..] == pieces[1..];
        }
      }
      assert s[0] == head[0] && head[0] != sep;
      assert [head[0]] + head[1..] == head;
      assert [head] + pieces[1..] == pieces;
    }
  }

  /** `h` is the part of `s` before the first `sep` (all of `s` when there is none). */
  ghost predicate IsFirstSegment(h: string, s: string, sep: char) {
    && |h| <= |s|
    && h == s[..|h|]
    && sep !in h
    && (|h| < |s| ==> s[|h|] == sep)
  }

  /** `s.split(sep)[0]` is the part of `s` before the first `sep`. */
  lemma {:induction false} SplitHead(s: string, sep: char)
    ensures IsFirstSegment(Split(s, sep)[0], s, sep)
  {
    if s != [] {
      SplitHead(s[1..], sep);
    }
  }

  /** There is only one part of `s` before its first `sep`. */
  lemma FirstSegmentUnique(a: string, b: string, s: string, sep: char)
    requires IsFirstSegment(a, s, sep) && IsFirstSegment(b, s, sep)
    ensures a == b
  {
  }

  /** `req.url[0] !== '/' ? '/' + req.url : req.url`. */
  function WithLeadingSlash(url: string): (r: string)
    ensures |r| > 0 && r[0] == '/'
    ensures r == url || r == "/" + url
    ensures |url| > 0 && url[0] == '/' ==> r == url
  {
    if |url| == 0 || url[0] != '/' then "/" + url else url
  }

  /** `p.split('?')[0]`: the path without its query. */
  function StripQuery(p: string): (r: string)
    ensures IsFirstSegment(r, p, '?')
    ensures '?' !in p ==> r == p
  {
    SplitHead(p, '?');
    Split(p, '?')[0]
  }

  /** The pathname that names the invoked function. */
  function DerivePathname(url: string, defaultFunction: string): (r: string)
    ensures |r| > 0 && r[0] == '/'
    ensures '?' !in defaultFunction ==> '?' !in r
  {
    var p := StripQuery(WithLeadingSlash(url));
    assert |p| > 0 && p[0] == '/' by {
      var n := WithLeadingSlash(url);
      assert n[0] != '?';
    }
    if p == "/" then p + defaultFunction else p
  }

  /** Before the default is applied, the pathname is the root exactly for `""`, `"/"` and URLs whose path part is empty. */
  lemma RootPathIff(url: string)
    ensures StripQuery(WithLeadingSlash(url)) == "/" <==>
      url == "" || url == "/" || url[0] == '?' || (|url| >= 2 && url[..2] == "/?")
  {
    var n := WithLeadingSlash(url);
    var p := StripQuery(n);
    if url == "" || url == "/" || url[0] == '?' || (|url| >= 2 && url[..2] == "/?") {
      assert IsFirstSegment("/", n, '?');
      FirstSegmentUnique(p, "/", n, '?');
    }
  }

  /** Every root request dispatches to the default function. */
  lemma RootUsesDefault(url: string, defaultFunction: string)
    requires url == "" || url == "/" || url[0] == '?' || (|url| >= 2 && url[..2] == "/?")
    ensures DerivePathname(url, defaultFunction) == "/" + defaultFunction
  {
    RootPathIff(url);
  }

  /** Any other request keeps its query-free path, whatever the default function. */
  lemma OtherPathsUnchanged(url: string, defaultFunction: string)
    requires !(url == "" || url == "/" || url[0] == '?' || (|url| >= 2 && url[..2] == "/?"))
    ensures DerivePathname(url, defaultFunction) == StripQuery(WithLeadingSlash(url))
    ensures DerivePathname(url, defaultFunction) != "/"
  {
    RootPathIff(url);
  }

  /** The query never changes which function is named. */
  lemma QueryIgnored(path: string, query: string, defaultFunction: string)
    requires '?' !in path
    ensures DerivePathname(path + "?" + query, defaultFunction) == DerivePathname(path, defaultFunction)
  {
    var n := WithLeadingSlash(path + "?" + query);
    var m := WithLeadingSlash(path);
    assert '?' !in m;
    assert n == m + "?" + query;
    assert IsFirstSegment(m, n, '?');
    FirstSegmentUnique(StripQuery(n), m, n, '?');
  }

  /** Requesting `/` is the same as requesting the default function by name. */
  lemma RootMatchesNamedDefault(defaultFunction: string)
    requires '?' !in defaultFunction
    ensures DerivePathname("/", defaultFunction) == DerivePathname("/" + defaultFunction, defaultFunction)
  {
    RootUsesDefault("/", defaultFunction);
    var n := "/" + defaultFunction;
    assert '?' !in n;
    assert WithLeadingSlash(n) == n;
  }
}
