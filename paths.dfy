/**
 * Path utilities of `SharePoint`: OneDrive reserved-character sanitising, splitting a
 * logical path into sanitised components, joining them back, and the percent-encoding
 * of a leaf name for content-upload addresses.
 */
module Paths {

  /** The OneDrive reserved characters `/ \ * < > ? : | # %`. */
  predicate IsReserved(c: char)
  {
    c == '/' || c == '\\' || c == '*' || c == '<' || c == '>' || c == '?' || c == ':' || c == '|' || c == '#' || c == '%'
  }

  /** A string that can be used as a file or folder name as it is. */
  predicate IsClean(s: string)
  {
    forall i :: 0 <= i < |s| ==> !IsReserved(s[i])
  }

  predicate HasNoSeparator(s: string)
  {
    forall i :: 0 <= i < |s| ==> s[i] != '/'
  }

  /** `sanitize_file_component`: every reserved character becomes `_`, all others stay. */
  function Sanitize(s: string): (r: string)
    ensures |r| == |s| && IsClean(r)
    ensures forall i :: 0 <= i < |s| ==> r[i] == s[i] || (IsReserved(s[i]) && r[i] == '_')
  {
    seq(|s|, i requires 0 <= i < |s| => if IsReserved(s[i]) then '_' else s[i])
  }

  /** Sanitising leaves a clean name alone, hence sanitising twice is sanitising once. */
  lemma SanitizeFixesClean(s: string)
    requires IsClean(s)
    ensures Sanitize(s) == s
  {
  }

  lemma SanitizeIdempotent(s: string)
    ensures Sanitize(Sanitize(s)) == Sanitize(s)
  {
    SanitizeFixesClean(Sanitize(s));
  }

  /** Python's `s.split('/')`: never empty, and no piece holds a separator. */
  function Split(s: string): (r: seq<string>)
    ensures |r| >= 1
    ensures forall i :: 0 <= i < |r| ==> HasNoSeparator(r[i])
  {
    if s == [] then [[]]
    else
      var rest := Split(s[1..]);
      if s[0] == '/' then [[]] + rest
      else [[s[0]] + rest[0]] + rest[1..]
  }

  /** The combined length of the strings in `items`. */
  function TotalLength(items: seq<string>): nat
  {
    if items == [] then 0 else |items[0]| + TotalLength(items[1..])
  }

  /** Python's `sep.join(items)`: the items with one `sep` between each two of them. */
  function JoinWith(sep: string, items: seq<string>): (r: string)
    ensures items == [] ==> r == []
    ensures |items| == 1 ==> r == items[0]
    ensures items != [] ==> |r| == TotalLength(items) + |sep| * (|items| - 1)
  {
    if items == [] then []
    else if |items| == 1 then items[0]
    else
      var rest := JoinWith(sep, items[1..]);
      assert |sep| * (|items| - 1) == |sep| + |sep| * (|items| - 2);
      items[0] + sep + rest
  }

  /**
   * Joining two non-empty runs of items is joining each and putting one separator between
   * them; with the one-item case this pins every item and separator of `sep.join(items)`.
   */
  lemma {:induction false} JoinWithAppend(sep: string, a: seq<string>, b: seq<string>)
    requires a != [] && b != []
    decreases |a|
    ensures JoinWith(sep, a + b) == JoinWith(sep, a) + sep + JoinWith(sep, b)
  {
    if |a| == 1 {
      assert (a + b)[0] == a[0] && (a + b)[1..] == b;
    } else {
      assert (a + b)[0] == a[0] && (a + b)[1..] == a[1..] + b;
      JoinWithAppend(sep, a[1..], b);
    }
  }

  /** Python's `'/'.join(ps)`: the pieces and one separator between each two of them. */
  function Join(ps: seq<string>): (r: string)
    ensures ps != [] ==> |r| == TotalLength(ps) + |ps| - 1
  {
    JoinWith("/", ps)
  }

  lemma {:induction false} SplitWhole(p: string)
    requires HasNoSeparator(p)
    ensures Split(p) == [p]
  {
    if p != [] {
      SplitWhole(p[1..]);
      assert p[0] != '/';
      assert [p[0]] + p[1..] == p;
    }
  }

  lemma {:induction false} SplitAtSeparator(p: string, t: string)
    requires HasNoSeparator(p)
    ensures Split(p + "/" + t) == [p] + Split(t)
  {
    if p == [] {
      assert (p + "/" + t)[1..] == t;
    } else {
      var s := p + "/" + t;
      assert s[1..] == p[1..] + "/" + t;
      assert s[0] == p[0] && p[0] != '/';
      SplitAtSeparator(p[1..], t);
      assert [p[0]] + p[1..] == p;
    }
  }

  /** Joining the pieces of a split gives the string back. */
  lemma {:induction false} JoinSplit(s: string)
    ensures Join(Split(s)) == s
  {
    if s != [] {
      JoinSplit(s[1..]);
      var rest := Split(s[1..]);
      if s[0] == '/' {
        assert s == "/" + s[1..];
      } else if |rest| == 1 {
        assert s == [s[0]] + s[1..];
      } else {
        assert rest == [rest[0]] + rest[1..];
        assert Join(rest) == rest[0] + "/" + Join(rest[1..]);
        assert s == [s[0]] + s[1..];
      }
    }
  }

  /** Splitting the join of separator-free pieces gives the pieces back. */
  lemma {:induction false} SplitJoin(ps: seq<string>)
    requires |ps| >= 1
    requires forall i :: 0 <= i < |ps| ==> HasNoSeparator(ps[i])
    ensures Split(Join(ps)) == ps
  {
    if |ps| == 1 {
      SplitWhole(ps[0]);
    } else {
      SplitJoin(ps[1..]);
      SplitAtSeparator(ps[0], Join(ps[1..]));
    }
  }

  /** `split_path`: drop one leading `/`, split on `/`, sanitise every component. */
  function SplitPath(path: string): (parts: seq<string>)
    ensures |parts| >= 1
    ensures forall i :: 0 <= i < |parts| ==> IsClean(parts[i])
  {
    var rel := if |path| > 0 && path[0] == '/' then path[1..] else path;
    var pieces := Split(rel);
    seq(|pieces|, i requires 0 <= i < |pieces| => Sanitize(pieces[i]))
  }

  /** `join_path`: the components joined with `/`, behind a leading `/`. */
  function JoinPath(parts: seq<string>): (path: string)
    ensures |path| >= 1 && path[0] == '/'
  {
    "/" + Join(parts)
  }

  /** Splitting a joined path gives back its (already sanitised) components. */
  lemma SplitJoinPath(parts: seq<string>)
    requires |parts| >= 1
    requires forall i :: 0 <= i < |parts| ==> IsClean(parts[i])
    ensures SplitPath(JoinPath(parts)) == parts
  {
    var path := JoinPath(parts);
    assert path[1..] == Join(parts);
    SplitJoin(parts);
    forall i | 0 <= i < |parts| ensures Sanitize(parts[i]) == parts[i] {
      SanitizeFixesClean(parts[i]);
    }
  }

  /** The path of the folder holding the item at `parts`, as `mkdir` and `upload` compute it. */
  function ParentPath(parts: seq<string>): string
    requires |parts| >= 2
  {
    JoinPath(parts[..|parts| - 1])
  }

  /** The parent path splits into one component fewer, which bounds the recursion of `mkdir`. */
  lemma ParentPathParts(path: string)
    requires |SplitPath(path)| >= 2
    ensures SplitPath(ParentPath(SplitPath(path))) == SplitPath(path)[..|SplitPath(path)| - 1]
  {
    var parts := SplitPath(path);
    SplitJoinPath(parts[..|parts| - 1]);
  }

  // ---- uri_encode: urllib.parse.quote(s, safe='') ----

  /** The characters `quote` never encodes: letters, digits and `_ . - ~`. */
  predicate IsUnreserved(c: char)
  {
    ('A' <= c <= 'Z') || ('a' <= c <= 'z') || ('0' <= c <= '9') || c == '_' || c == '.' || c == '-' || c == '~'
  }

  /** The UTF-8 encoding of one character. */
  function Utf8(c: char): (bytes: seq<nat>)
    ensures 1 <= |bytes| <= 4
    ensures forall i :: 0 <= i < |bytes| ==> bytes[i] < 256
  {
    var n := c as int;
    if n < 0x80 then [n]
    else if n < 0x800 then [0xC0 + n / 0x40, 0x80 + n % 0x40]
    else if n < 0x10000 then [0xE0 + n / 0x1000, 0x80 + (n / 0x40) % 0x40, 0x80 + n % 0x40]
    else [0xF0 + n / 0x40000, 0x80 + (n / 0x1000) % 0x40, 0x80 + (n / 0x40) % 0x40, 0x80 + n % 0x40]
  }

  function HexDigit(d: nat): (c: char)
    requires d < 16
    ensures IsUnreserved(c)
  {
    "0123456789ABCDEF"[d]
  }

  /** `%XX` for every byte. */
  function PercentBytes(bytes: seq<nat>): (r: string)
    requires forall i :: 0 <= i < |bytes| ==> bytes[i] < 256
    ensures |r| == 3 * |bytes|
    ensures forall i :: 0 <= i < |r| ==> IsUnreserved(r[i]) || r[i] == '%'
  {
    if bytes == [] then []
    else ['%', HexDigit(bytes[0] / 16), HexDigit(bytes[0] % 16)] + PercentBytes(bytes[1..])
  }

  /**
   * `uri_encode`: unreserved characters are kept, every other character becomes the
   * `%XX` escapes of its UTF-8 bytes, so the result holds no `/` and cannot
   * introduce a path level into an address.
   */
  function UriEncode(s: string): (r: string)
    ensures |r| >= |s|
    ensures forall i :: 0 <= i < |r| ==> IsUnreserved(r[i]) || r[i] == '%'
    ensures HasNoSeparator(r)
  {
    if s == [] then []
    else (if IsUnreserved(s[0]) then [s[0]] else PercentBytes(Utf8(s[0]))) + UriEncode(s[1..])
  }

  /** A name made only of unreserved characters is addressed as it is. */
  lemma {:induction false} UriEncodeKeepsUnreserved(s: string)
    requires forall i :: 0 <= i < |s| ==> IsUnreserved(s[i])
    ensures UriEncode(s) == s
  {
    if s != [] {
      UriEncodeKeepsUnreserved(s[1..]);
      assert s == [s[0]] + s[1..];
    }
  }
}
