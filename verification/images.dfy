/** The three shapes an image list takes on its way through the system:
    the rows a form starts from (ProductForm.tsx 38-42, ProductEditForm.tsx
    42-46), the list a form sends (ProductForm.tsx 183-185,
    app/product/page.tsx 51-53), and the list the create handler stores
    (app/api/products/route.ts 19-25). */
module Images {
  import opened Common

  /** One element of an `images` array as JSON delivers it: a string, an
      object whose `url` is a string or missing/null, or anything else. */
  datatype ImageItem = Str(s: string) | Obj(url: Option<string>) | Other

  /** The `images` value itself. */
  datatype ImagesInput = List(items: seq<ImageItem>) | Single(s: string) | NotAList

  // ---------------------------------------------------------------------
  // The create handler: app/api/products/route.ts 19-25.

  /** `typeof v === "string" ? v : v?.url`. */
  function ItemUrl(v: ImageItem): Option<string>
  {
    match v
    case Str(s) => Some(s)
    case Obj(u) => u
    case Other => None
  }

  /** `.map(v => typeof v === "string" ? v : v?.url).filter(Boolean)`: the
      item URLs that are non-empty strings, in order. */
  function KeptUrls(items: seq<ImageItem>): (r: seq<string>)
    ensures |r| <= |items|
    ensures forall i :: 0 <= i < |r| ==> r[i] != ""
  {
    if items == [] then []
    else
      var u := ItemUrl(items[0]);
      (if u.Some? && u.value != "" then [u.value] else []) + KeptUrls(items[1..])
  }

  /** The list the create handler stores. */
  function ServerImages(x: ImagesInput): seq<string>
  {
    match x
    case List(items) => KeptUrls(items)
    case Single(s) => [s]
    case NotAList => []
  }

  lemma {:induction false} KeptUrlsConcat(a: seq<ImageItem>, b: seq<ImageItem>)
    ensures KeptUrls(a + b) == KeptUrls(a) + KeptUrls(b)
  {
    if a != [] {
      KeptUrlsConcat(a[1..], b);
      assert (a + b)[1..] == a[1..] + b;
    } else {
      assert a + b == b;
    }
  }

  /** A URL is kept exactly when it is non-empty and some item carries it. */
  lemma {:induction false} KeptUrlsMembership(items: seq<ImageItem>, u: string)
    ensures u in KeptUrls(items) <==> u != "" && exists i :: 0 <= i < |items| && ItemUrl(items[i]) == Some(u)
  {
    if items != [] {
      KeptUrlsMembership(items[1..], u);
      if exists i :: 0 <= i < |items[1..]| && ItemUrl(items[1..][i]) == Some(u) {
        var i :| 0 <= i < |items[1..]| && ItemUrl(items[1..][i]) == Some(u);
        assert items[i + 1] == items[1..][i];
      }
      if exists i :: 0 <= i < |items| && ItemUrl(items[i]) == Some(u) {
        var i :| 0 <= i < |items| && ItemUrl(items[i]) == Some(u);
        if i > 0 {
          assert items[1..][i - 1] == items[i];
        }
      }
    }
  }

  /** The list a client sends: plain strings. */
  function Strs(s: seq<string>): (r: seq<ImageItem>)
    ensures |r| == |s| && forall i :: 0 <= i < |s| ==> r[i] == Str(s[i])
  {
    seq(|s|, i requires 0 <= i < |s| => Str(s[i]))
  }

  /** A list of non-empty strings passes through unchanged; in particular
      the handler's own output does. */
  lemma {:induction false} KeptUrlsOfStrings(s: seq<string>)
    requires forall i :: 0 <= i < |s| ==> s[i] != ""
    ensures KeptUrls(Strs(s)) == s
  {
    if s != [] {
      KeptUrlsOfStrings(s[1..]);
      assert Strs(s)[1..] == Strs(s[1..]);
    }
  }

  /** Normalising twice is normalising once. */
  lemma ServerImagesIdempotent(x: ImagesInput)
    requires !x.Single? || x.s != ""
    ensures ServerImages(List(Strs(ServerImages(x)))) == ServerImages(x)
  {
    KeptUrlsOfStrings(ServerImages(x));
  }

  /** The handler does not trim: a blank URL survives, and a single string
      is wrapped as it is, even when empty. */
  lemma ServerImagesKeepsBlanks()
    ensures ServerImages(List([Str(" ")])) == [" "]
    ensures ServerImages(Single("")) == [""]
    ensures ServerImages(List([Obj(None), Other, Str("")])) == []
  {
  }

  /** `"http://a"` gives `["http://a"]`, and
      `[{url:"http://a"}, "http://b", {url:""}]` gives `["http://a", "http://b"]`. */
  lemma ServerImagesExamples()
    ensures ServerImages(Single("http://a")) == ["http://a"]
    ensures ServerImages(List([Obj(Some("http://a")), Str("http://b"), Obj(Some(""))])) == ["http://a", "http://b"]
  {
    var items := [Obj(Some("http://a")), Str("http://b"), Obj(Some(""))];
    KeptUrlsConcat(items[..2], items[2..]);
    assert items[..2] + items[2..] == items;
  }

  // ---------------------------------------------------------------------
  // String.prototype.trim.

  /** The characters `trim` removes: ECMAScript WhiteSpace (tab, vertical
      tab, form feed, space, no-break space, the byte order mark and the
      Unicode space separators) and LineTerminator. */
  const WhiteSpace: seq<char> := [
    ' ', '\U{9}', '\U{B}', '\U{C}', '\U{A0}', '\U{FEFF}',
    '\U{A}', '\U{D}', '\U{2028}', '\U{2029}',
    '\U{1680}', '\U{2000}', '\U{2001}', '\U{2002}', '\U{2003}', '\U{2004}', '\U{2005}',
    '\U{2006}', '\U{2007}', '\U{2008}', '\U{2009}', '\U{200A}', '\U{202F}', '\U{205F}', '\U{3000}']

  /** `c` is one of `cs`. */
  predicate OneOf(c: char, cs: seq<char>)
  {
    cs != [] && (c == cs[0] || OneOf(c, cs[1..]))
  }

  predicate IsSpace(c: char)
  {
    OneOf(c, WhiteSpace)
  }

  function TrimStart(s: string): (r: string)
    ensures |r| <= |s| && r == s[|s| - |r|..]
  {
    if s != [] && IsSpace(s[0]) then TrimStart(s[1..]) else s
  }

  function TrimEnd(s: string): (r: string)
    ensures |r| <= |s| && r == s[..|r|]
  {
    if s != [] && IsSpace(s[|s| - 1]) then TrimEnd(s[..|s| - 1]) else s
  }

  /** `s.trim()`. */
  function Trim(s: string): (r: string)
    ensures |r| <= |s|
  {
    TrimEnd(TrimStart(s))
  }

  /** Everything `TrimStart` cuts is whitespace. */
  lemma {:induction false} TrimStartCut(s: string)
    ensures forall i :: 0 <= i < |s| - |TrimStart(s)| ==> IsSpace(s[i])
  {
    if s != [] && IsSpace(s[0]) {
      var t := s[1..];
      TrimStartCut(t);
      assert TrimStart(s) == TrimStart(t);
      forall i | 1 <= i < |s| - |TrimStart(s)| ensures IsSpace(s[i]) {
        assert s[i] == t[i - 1];
        assert 0 <= i - 1 < |t| - |TrimStart(t)|;
      }
    }
  }

  /** `TrimStart` stops at a character that is not whitespace. */
  lemma {:induction false} TrimStartStops(s: string)
    ensures TrimStart(s) == [] || !IsSpace(TrimStart(s)[0])
  {
    if s != [] && IsSpace(s[0]) {
      TrimStartStops(s[1..]);
    }
  }

  lemma TrimStartSpec(s: string)
    ensures forall i :: 0 <= i < |s| - |TrimStart(s)| ==> IsSpace(s[i])
    ensures TrimStart(s) == [] || !IsSpace(TrimStart(s)[0])
  {
    TrimStartCut(s);
    TrimStartStops(s);
  }

  lemma {:induction false} TrimEndSpec(s: string)
    ensures forall i :: |TrimEnd(s)| <= i < |s| ==> IsSpace(s[i])
    ensures TrimEnd(s) == [] || !IsSpace(TrimEnd(s)[|TrimEnd(s)| - 1])
  {
    if s != [] && IsSpace(s[|s| - 1]) {
      TrimEndSpec(s[..|s| - 1]);
    }
  }

  /** How many spaces `trim` cuts from the front. */
  function Lead(s: string): nat
  {
    |s| - |TrimStart(s)|
  }

  lemma TrimSlice(s: string)
    ensures Lead(s) + |Trim(s)| <= |s|
    ensures Trim(s) == s[Lead(s)..Lead(s) + |Trim(s)|]
  {
    var t := TrimStart(s);
    var i := |s| - |t|;
    assert t == s[i..];
    var r := TrimEnd(t);
    assert Trim(s) == r && Lead(s) == i;
    assert r == t[..|r|];
    assert s[i..][..|r|] == s[i..i + |r|];
  }

  /** Spaces at the back of a suffix are spaces at the back of the whole. */
  lemma SuffixSpaces(s: string, i: nat, n: nat)
    requires i + n <= |s|
    requires forall j :: n <= j < |s| - i ==> IsSpace(s[i..][j])
    ensures forall k :: i + n <= k < |s| ==> IsSpace(s[k])
  {
    forall k | i + n <= k < |s| ensures IsSpace(s[k]) {
      assert s[k] == s[i..][k - i];
    }
  }

  lemma TrimCutsSpaces(s: string)
    ensures forall k :: 0 <= k < Lead(s) ==> IsSpace(s[k])
    ensures forall k :: Lead(s) + |Trim(s)| <= k < |s| ==> IsSpace(s[k])
  {
    var t := TrimStart(s);
    var i := |s| - |t|;
    var r := TrimEnd(t);
    assert t == s[i..] && Trim(s) == r && Lead(s) == i;
    TrimStartSpec(s);
    TrimEndSpec(t);
    SuffixSpaces(s, i, |r|);
  }

  lemma TrimEnds(s: string)
    ensures Trim(s) == [] || (!IsSpace(Trim(s)[0]) && !IsSpace(Trim(s)[|Trim(s)| - 1]))
  {
    var t := TrimStart(s);
    TrimStartSpec(s);
    TrimEndSpec(t);
    var r := TrimEnd(t);
    assert r != [] ==> r[0] == t[0];
  }

  /** `trim` keeps one contiguous run of `s` that starts and ends with a
      non-space, and cuts only spaces around it. */
  lemma TrimSpec(s: string)
    ensures Lead(s) + |Trim(s)| <= |s|
    ensures Trim(s) == s[Lead(s)..Lead(s) + |Trim(s)|]
    ensures forall k :: 0 <= k < Lead(s) ==> IsSpace(s[k])
    ensures forall k :: Lead(s) + |Trim(s)| <= k < |s| ==> IsSpace(s[k])
    ensures Trim(s) == [] || (!IsSpace(Trim(s)[0]) && !IsSpace(Trim(s)[|Trim(s)| - 1]))
  {
    TrimSlice(s);
    TrimCutsSpaces(s);
    TrimEnds(s);
  }

  lemma TrimStartOfTrimmed(s: string)
    requires s == [] || !IsSpace(s[0])
    ensures TrimStart(s) == s
  {
  }

  lemma TrimEndOfTrimmed(s: string)
    requires s == [] || !IsSpace(s[|s| - 1])
    ensures TrimEnd(s) == s
  {
  }

  /** Trimming twice is trimming once. */
  lemma TrimIdempotent(s: string)
    ensures Trim(Trim(s)) == Trim(s)
  {
    var r := Trim(s);
    TrimEnds(s);
    TrimStartOfTrimmed(r);
    TrimEndOfTrimmed(r);
  }

  // ---------------------------------------------------------------------
  // What a form sends: ProductForm.tsx 183-185, app/product/page.tsx 51-53.

  /** `rows.map(i => i.url.trim())`. */
  function TrimAll(rows: seq<string>): (r: seq<string>)
    ensures |r| == |rows| && forall i :: 0 <= i < |rows| ==> r[i] == Trim(rows[i])
  {
    seq(|rows|, i requires 0 <= i < |rows| => Trim(rows[i]))
  }

  /** `.filter(u => u.length > 0)`. */
  function NonEmpty(ts: seq<string>): (r: seq<string>)
    ensures |r| <= |ts|
  {
    if ts == [] then []
    else (if |ts[0]| > 0 then [ts[0]] else []) + NonEmpty(ts[1..])
  }

  /** `rows.map(i => i.url.trim()).filter(u => u.length > 0)`. */
  function PayloadImages(rows: seq<string>): (r: seq<string>)
    ensures |r| <= |rows|
  {
    NonEmpty(TrimAll(rows))
  }

  lemma {:induction false} NonEmptyMembership(ts: seq<string>, u: string)
    ensures u in NonEmpty(ts) <==> u != "" && u in ts
  {
    if ts != [] {
      NonEmptyMembership(ts[1..], u);
      assert u in ts <==> u == ts[0] || u in ts[1..];
    }
  }

  lemma {:induction false} NonEmptyConcat(a: seq<string>, b: seq<string>)
    ensures NonEmpty(a + b) == NonEmpty(a) + NonEmpty(b)
  {
    if a != [] {
      NonEmptyConcat(a[1..], b);
      assert (a + b)[1..] == a[1..] + b;
    } else {
      assert a + b == b;
    }
  }

  lemma {:induction false} NonEmptyOfNonEmpty(ts: seq<string>)
    requires forall i :: 0 <= i < |ts| ==> ts[i] != ""
    ensures NonEmpty(ts) == ts
  {
    if ts != [] {
      NonEmptyOfNonEmpty(ts[1..]);
    }
  }

  lemma PayloadImagesConcat(a: seq<string>, b: seq<string>)
    ensures PayloadImages(a + b) == PayloadImages(a) + PayloadImages(b)
  {
    assert TrimAll(a + b) == TrimAll(a) + TrimAll(b);
    NonEmptyConcat(TrimAll(a), TrimAll(b));
  }

  /** A URL is sent exactly when it is the non-empty trim of some row. */
  lemma PayloadImagesMembership(rows: seq<string>, u: string)
    ensures u in PayloadImages(rows) <==> u != "" && exists i :: 0 <= i < |rows| && Trim(rows[i]) == u
  {
    NonEmptyMembership(TrimAll(rows), u);
    if exists i :: 0 <= i < |rows| && Trim(rows[i]) == u {
      var i :| 0 <= i < |rows| && Trim(rows[i]) == u;
      assert TrimAll(rows)[i] == u;
    }
  }

  /** Every URL sent is non-empty and already trimmed. */
  lemma PayloadImagesClean(rows: seq<string>)
    ensures forall i :: 0 <= i < |PayloadImages(rows)| ==>
      PayloadImages(rows)[i] != "" && Trim(PayloadImages(rows)[i]) == PayloadImages(rows)[i]
  {
    var r := PayloadImages(rows);
    forall i | 0 <= i < |r| ensures r[i] != "" && Trim(r[i]) == r[i] {
      PayloadImagesMembership(rows, r[i]);
      var j :| 0 <= j < |rows| && Trim(rows[j]) == r[i];
      TrimIdempotent(rows[j]);
    }
  }

  /** Rows that are already trimmed and non-empty are sent as they are. */
  lemma PayloadImagesOfClean(rows: seq<string>)
    requires forall i :: 0 <= i < |rows| ==> rows[i] != "" && Trim(rows[i]) == rows[i]
    ensures PayloadImages(rows) == rows
  {
    assert TrimAll(rows) == rows;
    NonEmptyOfNonEmpty(rows);
  }

  /** Shaping twice is shaping once. */
  lemma PayloadImagesIdempotent(rows: seq<string>)
    ensures PayloadImages(PayloadImages(rows)) == PayloadImages(rows)
  {
    PayloadImagesClean(rows);
    PayloadImagesOfClean(PayloadImages(rows));
  }

  /** The create page's single empty default row sends no image. */
  lemma DefaultRowSendsNothing()
    ensures PayloadImages([""]) == []
  {
    assert TrimStart("") == "" && TrimEnd("") == "";
    assert TrimAll([""]) == [""];
    assert [""][1..] == [];
    assert NonEmpty([""]) == [] + NonEmpty([]);
  }

  /** A blank row sends nothing either. */
  lemma BlankRowSendsNothing()
    ensures PayloadImages([" "]) == []
  {
    assert IsSpace(' ');
    assert " "[1..] == "";
    assert TrimAll([" "]) == [""];
  }

  /** A leading space is cut from a URL that is otherwise trimmed. */
  lemma LeadingSpaceCut(u: string)
    requires u != [] && !IsSpace(u[0]) && !IsSpace(u[|u| - 1])
    ensures Trim([' '] + u) == u
  {
    assert IsSpace(' ');
    assert ([' '] + u)[1..] == u;
    TrimStartOfTrimmed(u);
    TrimEndOfTrimmed(u);
  }

  /** What a form sends is stored unchanged by the create handler. */
  lemma ServerKeepsPayload(rows: seq<string>)
    ensures ServerImages(List(Strs(PayloadImages(rows)))) == PayloadImages(rows)
  {
    PayloadImagesClean(rows);
    KeptUrlsOfStrings(PayloadImages(rows));
  }

  // ---------------------------------------------------------------------
  // The rows a form starts from: ProductForm.tsx 38-42, ProductEditForm.tsx 42-46.

  /** `typeof img === "string" ? img : img?.url ?? ""`. */
  function RowUrl(v: ImageItem): string
  {
    match v
    case Str(s) => s
    case Obj(u) => if u.Some? then u.value else ""
    case Other => ""
  }

  /** One row per item of an array, in order; `fallback` for anything else
      (a single string is not an array). */
  function DefaultRows(x: ImagesInput, fallback: seq<string>): (r: seq<string>)
    ensures x.List? ==> |r| == |x.items| && forall i :: 0 <= i < |r| ==> r[i] == RowUrl(x.items[i])
    ensures !x.List? ==> r == fallback
  {
    if x.List? then seq(|x.items|, i requires 0 <= i < |x.items| => RowUrl(x.items[i])) else fallback
  }

  /** The create/edit form of ProductForm.tsx starts with one empty row. */
  function ProductFormRows(x: ImagesInput): seq<string>
  {
    DefaultRows(x, [""])
  }

  /** The older edit form starts with no row. */
  function EditFormRows(x: ImagesInput): seq<string>
  {
    DefaultRows(x, [])
  }

  /** Opening a stored product in ProductForm.tsx and saving it sends back
      the stored list, in order, when its URLs are trimmed and non-empty (as
      the create path stores them); any other list is sent cleaned. */
  lemma ImagesRoundTrip(stored: seq<string>)
    requires forall i :: 0 <= i < |stored| ==> stored[i] != "" && Trim(stored[i]) == stored[i]
    ensures PayloadImages(ProductFormRows(List(Strs(stored)))) == stored
  {
    assert ProductFormRows(List(Strs(stored))) == stored;
    PayloadImagesOfClean(stored);
  }

  /** The older edit form sends its rows as they are (each row as
      `{url: i.url}`, ProductEditForm.tsx 157-160), so any stored list of
      strings or of objects with a `url` goes back unchanged: nothing is
      trimmed or dropped. */
  lemma EditFormSendsStoredList(stored: seq<string>)
    ensures EditFormRows(List(Strs(stored))) == stored
    ensures EditFormRows(List(seq(|stored|, i requires 0 <= i < |stored| => Obj(Some(stored[i]))))) == stored
  {
  }

  /** Without an image array ProductForm.tsx sends no image (its one empty
      row is dropped), and the older edit form has no row to send. */
  lemma NoStoredImagesSendsNone(x: ImagesInput)
    requires !x.List?
    ensures PayloadImages(ProductFormRows(x)) == []
    ensures EditFormRows(x) == []
  {
    assert Trim("") == "";
  }
}
