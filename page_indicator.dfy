/** The breadcrumb trail shown in the header: the current path cut into
    its non-empty segments, one link per segment to the path up to it. */
module PageIndicator {
  import opened Text

  // ---------------------------------------------------- split and join

  /** `s.split(sep)` for a one-character separator: the pieces between
      separators, empty ones included, so there is always at least one. */
  function Split(s: string, sep: char): (pieces: seq<string>)
    ensures |pieces| >= 1
    ensures forall k :: 0 <= k < |pieces| ==> sep !in pieces[k]
  {
    if s == [] then [""]
    else
      var rest := Split(s[1..], sep);
      if s[0] == sep then [""] + rest
      else [[s[0]] + rest[0]] + rest[1..]
  }

  /** `parts.join(sep)`. */
  function Join(parts: seq<string>, sep: string): string
  {
    if parts == [] then ""
    else if |parts| == 1 then parts[0]
    else parts[0] + sep + Join(parts[1..], sep)
  }

  /** Splitting loses nothing: joining the pieces with the separator gives
      the string back. */
  lemma {:induction false} JoinSplit(s: string, sep: char)
    ensures Join(Split(s, sep), [sep]) == s
  {
    if s != [] {
      var rest := Split(s[1..], sep);
      JoinSplit(s[1..], sep);
      if s[0] == sep {
        assert Split(s, sep) == [""] + rest;
        assert ([""] + rest)[1..] == rest;
        assert s == [sep] + s[1..];
      } else {
        var pieces := Split(s, sep);
        assert pieces == [[s[0]] + rest[0]] + rest[1..];
        assert s == [s[0]] + s[1..];
        if |rest| == 1 {
          assert pieces == [[s[0]] + rest[0]];
        } else {
          assert pieces[1..] == rest[1..];
          assert Join(rest, [sep]) == rest[0] + [sep] + Join(rest[1..], [sep]);
        }
      }
    }
  }

  /** Appending one more part to a non-empty list appends the separator
      and the part. */
  lemma {:induction false} JoinSnoc(parts: seq<string>, x: string, sep: string)
    requires parts != []
    ensures Join(parts + [x], sep) == Join(parts, sep) + sep + x
    decreases |parts|
  {
    if |parts| == 1 {
      assert parts + [x] == [parts[0], x];
      assert [parts[0], x][1..] == [x];
    } else {
      assert (parts + [x])[1..] == parts[1..] + [x];
      JoinSnoc(parts[1..], x, sep);
    }
  }

  // ------------------------------------------------------ the segments

  /** `filter((segment) => segment)`: the empty string is falsy. */
  function NonEmpty(pieces: seq<string>): seq<string>
  {
    if pieces == [] then []
    else (if pieces[0] != "" then [pieces[0]] else []) + NonEmpty(pieces[1..])
  }

  /** The path's segments. */
  function Segments(path: string): seq<string>
  {
    NonEmpty(Split(path, '/'))
  }

  /** The filter keeps exactly the non-empty pieces. */
  lemma {:induction false} NonEmptyMembers(pieces: seq<string>, x: string)
    ensures x in NonEmpty(pieces) <==> x in pieces && x != ""
  {
    if pieces != [] {
      NonEmptyMembers(pieces[1..], x);
      assert pieces == [pieces[0]] + pieces[1..];
    }
  }

  /** The filter keeps order and multiplicity: filtering a concatenation
      concatenates the filtered halves. */
  lemma {:induction false} NonEmptyAppend(a: seq<string>, b: seq<string>)
    ensures NonEmpty(a + b) == NonEmpty(a) + NonEmpty(b)
  {
    if a != [] {
      assert (a + b)[0] == a[0];
      assert (a + b)[1..] == a[1..] + b;
      NonEmptyAppend(a[1..], b);
    } else {
      assert a + b == b;
    }
  }

  /** In particular a piece added at the end is kept, at the end, exactly
      when it is not empty. */
  lemma NonEmptySnoc(pieces: seq<string>, p: string)
    ensures NonEmpty(pieces + [p]) == NonEmpty(pieces) + (if p != "" then [p] else [])
  {
    NonEmptyAppend(pieces, [p]);
    assert [p][1..] == [];
  }

  /** A list with no empty piece passes the filter unchanged. */
  lemma {:induction false} NonEmptyOfNonEmpty(pieces: seq<string>)
    requires forall k :: 0 <= k < |pieces| ==> pieces[k] != ""
    ensures NonEmpty(pieces) == pieces
  {
    if pieces != [] {
      NonEmptyOfNonEmpty(pieces[1..]);
      assert pieces == [pieces[0]] + pieces[1..];
    }
  }

  /** A well-formed segment list: no segment is empty and none holds a "/". */
  predicate ProperSegments(segs: seq<string>)
  {
    forall k :: 0 <= k < |segs| ==> segs[k] != "" && '/' !in segs[k]
  }

  /** The segments are the non-empty pieces between the path's slashes. */
  lemma SegmentsAreProper(path: string)
    ensures ProperSegments(Segments(path))
    ensures forall seg :: seg in Segments(path) <==> seg in Split(path, '/') && seg != ""
  {
    forall seg ensures seg in Segments(path) <==> seg in Split(path, '/') && seg != "" {
      NonEmptyMembers(Split(path, '/'), seg);
    }
    forall k | 0 <= k < |Segments(path)|
      ensures Segments(path)[k] != "" && '/' !in Segments(path)[k]
    {
      NonEmptyMembers(Split(path, '/'), Segments(path)[k]);
    }
  }

  function Concat(parts: seq<string>): string
  {
    if parts == [] then "" else parts[0] + Concat(parts[1..])
  }

  function WithoutSlashes(s: string): string
  {
    if s == [] then "" else (if s[0] == '/' then "" else [s[0]]) + WithoutSlashes(s[1..])
  }

  lemma {:induction false} ConcatNonEmpty(pieces: seq<string>)
    ensures Concat(NonEmpty(pieces)) == Concat(pieces)
  {
    if pieces != [] {
      ConcatNonEmpty(pieces[1..]);
      if pieces[0] != "" {
        assert ([pieces[0]] + NonEmpty(pieces[1..]))[1..] == NonEmpty(pieces[1..]);
      } else {
        assert NonEmpty(pieces) == NonEmpty(pieces[1..]) by {
          assert [] + NonEmpty(pieces[1..]) == NonEmpty(pieces[1..]);
        }
        assert Concat(pieces) == Concat(pieces[1..]) by {
          assert pieces[0] + Concat(pieces[1..]) == Concat(pieces[1..]);
        }
      }
    }
  }

  lemma {:induction false} ConcatSplit(s: string)
    ensures Concat(Split(s, '/')) == WithoutSlashes(s)
  {
    if s != [] {
      var rest := Split(s[1..], '/');
      ConcatSplit(s[1..]);
      if s[0] == '/' {
        assert ([""] + rest)[1..] == rest;
      } else {
        var pieces := [[s[0]] + rest[0]] + rest[1..];
        assert pieces[1..] == rest[1..];
        assert Concat(rest) == rest[0] + Concat(rest[1..]);
      }
    }
  }

  /** Read in order, the segments spell out the path with its slashes
      taken away: no character is dropped, none is reordered. */
  lemma SegmentsSpellPath(path: string)
    ensures Concat(Segments(path)) == WithoutSlashes(path)
  {
    ConcatNonEmpty(Split(path, '/'));
    ConcatSplit(path);
  }

  // --------------------------------------------------------- the crumbs

  /** The link to segment `i`: "/" and the segments up to `i` joined by "/". */
  function CrumbUrl(segs: seq<string>, i: nat): string
    requires i < |segs|
  {
    "/" + Join(segs[..i + 1], "/")
  }

  /** `charAt(0).toUpperCase() + slice(1)`: the first character in upper
      case, the rest as it is. */
  function Capitalize(seg: string): (name: string)
    ensures |name| == |seg|
    ensures seg != [] ==> name[0] == UpperChar(seg[0]) && name[1..] == seg[1..]
  {
    if seg == [] then "" else [UpperChar(seg[0])] + seg[1..]
  }

  datatype Link = Link(href: string, text: string, separated: bool)

  /** One link per segment; every link but the first is drawn after a ">". */
  function Crumbs(segs: seq<string>): seq<Link>
  {
    seq(|segs|, i requires 0 <= i < |segs| => Link(CrumbUrl(segs, i), Capitalize(segs[i]), i != 0))
  }

  /** The two fixed links shown off the artist and product pages. */
  const DefaultLinks := [Link("/artists", "Artists", false), Link("", "Products", false)]

  predicate IsBreadcrumbPath(segs: seq<string>)
  {
    |segs| > 0 && (segs[0] == "artists" || segs[0] == "products")
  }

  /** What the indicator renders for a path. */
  function Indicator(path: string): (links: seq<Link>)
    ensures !IsBreadcrumbPath(Segments(path)) ==> links == DefaultLinks
    ensures IsBreadcrumbPath(Segments(path)) ==> |links| == |Segments(path)|
  {
    var segs := Segments(path);
    if IsBreadcrumbPath(segs) then Crumbs(segs) else DefaultLinks
  }

  /** On an artist or product page, link `i` goes to segment `i`'s URL,
      shows the segment capitalised, and only the first link has no ">". */
  lemma BreadcrumbLinks(path: string, i: nat)
    requires IsBreadcrumbPath(Segments(path)) && i < |Segments(path)|
    ensures var links := Indicator(path);
      links[i] == Link(CrumbUrl(Segments(path), i), Capitalize(Segments(path)[i]), i != 0)
      && (links[i].separated <==> i != 0)
  {
  }

  /** Each URL is the previous one extended by "/" and the next segment. */
  lemma CrumbUrlExtends(segs: seq<string>, i: nat)
    requires i + 1 < |segs|
    ensures CrumbUrl(segs, i + 1) == CrumbUrl(segs, i) + "/" + segs[i + 1]
  {
    assert segs[..i + 2] == segs[..i + 1] + [segs[i + 1]];
    JoinSnoc(segs[..i + 1], segs[i + 1], "/");
  }

  /** So each URL is a prefix of every later one. */
  lemma {:induction false} CrumbUrlPrefix(segs: seq<string>, i: nat, j: nat)
    requires i <= j < |segs|
    ensures |CrumbUrl(segs, i)| <= |CrumbUrl(segs, j)|
    ensures CrumbUrl(segs, j)[..|CrumbUrl(segs, i)|] == CrumbUrl(segs, i)
    decreases j - i
  {
    if i < j {
      CrumbUrlPrefix(segs, i, j - 1);
      CrumbUrlExtends(segs, j - 1);
    }
  }

  predicate NoDoubleSlash(u: string)
  {
    forall k :: 0 <= k < |u| - 1 ==> !(u[k] == '/' && u[k + 1] == '/')
  }

  /** A URL the breadcrumbs can produce: a leading "/", no "//", and no
      trailing "/". */
  predicate WellFormedUrl(u: string)
  {
    |u| >= 2 && u[0] == '/' && u[|u| - 1] != '/' && NoDoubleSlash(u)
  }

  /** With no "//" and no trailing "/", only the first piece of a split
      can be empty. */
  lemma {:induction false} PiecesAfterFirstNonEmpty(s: string)
    requires NoDoubleSlash(s) && (s == [] || s[|s| - 1] != '/')
    ensures forall k :: 1 <= k < |Split(s, '/')| ==> Split(s, '/')[k] != ""
  {
    if s != [] {
      var rest := Split(s[1..], '/');
      assert NoDoubleSlash(s[1..]) by {
        forall k | 0 <= k < |s[1..]| - 1 ensures !(s[1..][k] == '/' && s[1..][k + 1] == '/') {
          assert s[1..][k] == s[k + 1] && s[1..][k + 1] == s[k + 2];
        }
      }
      PiecesAfterFirstNonEmpty(s[1..]);
      if s[0] == '/' {
        assert s[1..] != [] && s[1..][0] == s[1] != '/';
        assert rest[0] != "";
        assert Split(s, '/') == [""] + rest;
      } else {
        assert Split(s, '/') == [[s[0]] + rest[0]] + rest[1..];
      }
    }
  }

  /** The last URL is the path itself whenever the path is already in the
      form the breadcrumbs produce. */
  lemma LastCrumbIsPath(path: string)
    requires WellFormedUrl(path)
    ensures Segments(path) != []
    ensures CrumbUrl(Segments(path), |Segments(path)| - 1) == path
  {
    var pieces := Split(path, '/');
    var rest := Split(path[1..], '/');
    assert pieces == [""] + rest;
    PiecesAfterFirstNonEmpty(path);
    assert forall k :: 0 <= k < |rest| ==> rest[k] == pieces[k + 1];
    NonEmptyOfNonEmpty(rest);
    assert NonEmpty(pieces) == rest by {
      assert pieces[1..] == rest;
    }
    var segs := Segments(path);
    assert segs == rest;
    JoinSplit(path, '/');
    assert pieces[1..] == rest;
    if |rest| == 1 {
      assert Join(pieces, "/") == "" + "/" + Join(rest, "/");
    }
    assert segs[..|segs|] == segs;
  }

  /** Taking the slashes away, characters of one string. */
  lemma {:induction false} WithoutSlashesAppend(a: string, b: string)
    ensures WithoutSlashes(a + b) == WithoutSlashes(a) + WithoutSlashes(b)
  {
    if a != [] {
      assert (a + b)[0] == a[0];
      assert (a + b)[1..] == a[1..] + b;
      WithoutSlashesAppend(a[1..], b);
    } else {
      assert a + b == b;
    }
  }

  /** A string with no "/" is untouched by taking the slashes away. */
  lemma {:induction false} WithoutSlashesOfSegment(seg: string)
    requires '/' !in seg
    ensures WithoutSlashes(seg) == seg
  {
    if seg != [] {
      WithoutSlashesOfSegment(seg[1..]);
      assert seg == [seg[0]] + seg[1..];
    }
  }

  /** Joining proper segments with "/" and taking the slashes away again
      gives the segments read in order. */
  lemma {:induction false} WithoutSlashesOfJoin(segs: seq<string>)
    requires ProperSegments(segs)
    ensures WithoutSlashes(Join(segs, "/")) == Concat(segs)
  {
    if |segs| == 1 {
      WithoutSlashesOfSegment(segs[0]);
      assert Concat(segs[1..]) == "";
    } else if |segs| > 1 {
      WithoutSlashesOfJoin(segs[1..]);
      WithoutSlashesOfSegment(segs[0]);
      WithoutSlashesAppend(segs[0] + "/", Join(segs[1..], "/"));
      WithoutSlashesAppend(segs[0], "/");
      assert WithoutSlashes("/") == "";
    }
  }

  /** For any path at all, the last URL differs from the path only in its
      slashes: with the slashes taken away both spell the same text. */
  lemma LastCrumbSpellsPath(path: string)
    requires Segments(path) != []
    ensures WithoutSlashes(CrumbUrl(Segments(path), |Segments(path)| - 1)) == WithoutSlashes(path)
  {
    var segs := Segments(path);
    assert segs[..|segs|] == segs;
    SegmentsAreProper(path);
    WithoutSlashesAppend("/", Join(segs, "/"));
    assert WithoutSlashes("/") == "";
    WithoutSlashesOfJoin(segs);
    SegmentsSpellPath(path);
  }

  lemma ExtendKeepsWellFormed(u: string, seg: string)
    requires WellFormedUrl(u) && seg != [] && '/' !in seg
    ensures WellFormedUrl(u + "/" + seg)
  {
    var v := u + "/" + seg;
    forall k | 0 <= k < |v| - 1 ensures !(v[k] == '/' && v[k + 1] == '/') {
      if k < |u| - 1 {
        assert v[k] == u[k] && v[k + 1] == u[k + 1];
      } else if k == |u| - 1 {
        assert v[k] == u[|u| - 1];
      } else if k == |u| {
        assert v[k + 1] == seg[0];
      } else {
        assert v[k] == seg[k - |u| - 1];
      }
    }
  }

  /** Built from proper segments, every URL starts with "/", never
      contains "//", and does not end with "/". */
  lemma {:induction false} CrumbUrlWellFormed(segs: seq<string>, i: nat)
    requires ProperSegments(segs) && i < |segs|
    ensures WellFormedUrl(CrumbUrl(segs, i))
  {
    if i == 0 {
      assert segs[..1] == [segs[0]];
      var u := CrumbUrl(segs, 0);
      assert u == "/" + segs[0];
      forall k | 0 <= k < |u| - 1 ensures !(u[k] == '/' && u[k + 1] == '/') {
        assert u[k + 1] == segs[0][k];
      }
    } else {
      CrumbUrlWellFormed(segs, i - 1);
      CrumbUrlExtends(segs, i - 1);
      ExtendKeepsWellFormed(CrumbUrl(segs, i - 1), segs[i]);
    }
  }

  /** In particular, for every link of an artist or product page. */
  lemma BreadcrumbUrlsWellFormed(path: string, i: nat)
    requires IsBreadcrumbPath(Segments(path)) && i < |Segments(path)|
    ensures WellFormedUrl(Indicator(path)[i].href)
  {
    SegmentsAreProper(path);
    CrumbUrlWellFormed(Segments(path), i);
  }

  /** The display name keeps the segment's length and all but its first
      character, and differs from it only in letter case. */
  lemma CapitalizeKeepsSegment(seg: string)
    ensures |Capitalize(seg)| == |seg|
    ensures seg != [] ==> Capitalize(seg)[0] == UpperChar(seg[0]) && IsUpperAscii(Capitalize(seg)[0]) == (IsLowerAscii(seg[0]) || IsUpperAscii(seg[0]))
    ensures seg != [] ==> Capitalize(seg)[1..] == seg[1..]
    ensures ToLower(Capitalize(seg)) == ToLower(seg)
    ensures Capitalize(Capitalize(seg)) == Capitalize(seg)
  {
    if seg != [] {
      var c := Capitalize(seg);
      assert ToLower(c)[0] == LowerChar(UpperChar(seg[0])) == ToLower(seg)[0];
      assert forall k :: 1 <= k < |seg| ==> ToLower(c)[k] == ToLower(seg)[k];
    }
  }
}
