/**
 * `SharePoint.de_alias`: attribute values are flattened and trimmed to what a list-item
 * text field accepts, and attribute keys are renamed to the column names registered for
 * them; keys without a registered alias are dropped.
 */
module Attributes {
  import Paths

  /** An attribute value: a string or a list of strings (the only shapes `de_alias` accepts). */
  datatype AttrValue = Text(s: string) | Items(items: seq<string>)

  /** Attributes in the order the caller's dictionary holds them. */
  type Attrs = seq<(string, AttrValue)>

  /** The longest value a field receives, and the part kept in front of the `...` marker. */
  const MaxLength: nat := 255
  const KeptLength: nat := 252

  /** Python's `str.isspace` characters, which `str.strip()` removes. */
  predicate IsSpace(c: char)
  {
    ('\t' <= c <= '\r') || ('\U{1C}' <= c <= ' ') || c == '\U{85}' || c == '\U{A0}' || c == '\U{1680}'
    || ('\U{2000}' <= c <= '\U{200A}') || c == '\U{2028}' || c == '\U{2029}' || c == '\U{202F}' || c == '\U{205F}'
    || c == '\U{3000}'
  }

  /** The number of whitespace characters `s` starts with. */
  function Lead(s: string): (n: nat)
    ensures n <= |s|
    ensures forall j :: 0 <= j < n ==> IsSpace(s[j])
    ensures n < |s| ==> !IsSpace(s[n])
  {
    if s != [] && IsSpace(s[0]) then 1 + Lead(s[1..]) else 0
  }

  /** The number of whitespace characters `s` ends with. */
  function Trail(s: string): (n: nat)
    ensures n <= |s|
    ensures forall j :: |s| - n <= j < |s| ==> IsSpace(s[j])
    ensures n < |s| ==> !IsSpace(s[|s| - n - 1])
  {
    if s != [] && IsSpace(s[|s| - 1]) then 1 + Trail(s[..|s| - 1]) else 0
  }

  /**
   * `str.strip()`: the slice of `s` between its leading and its trailing whitespace. Only
   * whitespace is removed, from both ends, and the result neither starts nor ends with it.
   */
  function Strip(s: string): (r: string)
    ensures Lead(s) + |r| <= |s| && r == s[Lead(s)..Lead(s) + |r|]
    ensures forall j :: 0 <= j < Lead(s) ==> IsSpace(s[j])
    ensures forall j :: Lead(s) + |r| <= j < |s| ==> IsSpace(s[j])
    ensures r == [] || (!IsSpace(r[0]) && !IsSpace(r[|r| - 1]))
  {
    var rest := s[Lead(s)..];
    rest[..|rest| - Trail(rest)]
  }

  /** Stripping a stripped text changes nothing. */
  lemma StripIdempotent(s: string)
    ensures Strip(Strip(s)) == Strip(s)
  {
    var r := Strip(s);
    if r != [] {
      assert Lead(r) == 0;
      assert Trail(r) == 0;
    }
  }

  /**
   * On ASCII, the whitespace `str.strip()` removes is tab, line feed, vertical tab, form feed,
   * carriage return, the four separators `\x1c` to `\x1f`, and the space.
   */
  lemma IsSpaceAscii(c: char)
    requires c <= '\U{7F}'
    ensures IsSpace(c) <==> c in "\t\n\U{B}\U{C}\r\U{1C}\U{1D}\U{1E}\U{1F} "
  {
  }

  /** The text of a value before trimming: a list is joined with `", "`. */
  function Flatten(v: AttrValue): (r: string)
    ensures v.Text? ==> r == v.s
    ensures v.Items? && v.items != [] ==> |r| == Paths.TotalLength(v.items) + 2 * (|v.items| - 1)
    ensures v.Items? && v.items == [] ==> r == []
    ensures v.Items? && |v.items| == 1 ==> r == v.items[0]
  {
    match v
    case Text(s) => s
    case Items(items) => Paths.JoinWith(", ", items)
  }

  /** A list flattens to its two non-empty halves with one `", "` between them. */
  lemma FlattenAppend(a: seq<string>, b: seq<string>)
    requires a != [] && b != []
    ensures Flatten(Items(a + b)) == Flatten(Items(a)) + ", " + Flatten(Items(b))
  {
    Paths.JoinWithAppend(", ", a, b);
  }

  /**
   * The field value `de_alias` sends for `v`: flattened and stripped; a result longer than
   * 255 characters is cut to its first 252 characters followed by `...`.
   */
  function Clean(v: AttrValue): (r: string)
    ensures |r| <= MaxLength
    ensures r == Strip(Flatten(v)) <==> |Strip(Flatten(v))| <= MaxLength
    ensures |Strip(Flatten(v))| > MaxLength ==>
      |r| == MaxLength && r[..KeptLength] == Strip(Flatten(v))[..KeptLength] && r[KeptLength..] == "..."
  {
    var t := Strip(Flatten(v));
    if |t| > MaxLength then t[..KeptLength] + "..." else t
  }

  /** The dictionary `de_alias` builds from `obj`, entry by entry. */
  function DeAliased(aliases: map<string, string>, obj: Attrs): (r: map<string, string>)
    ensures forall c :: c in r ==> |r[c]| <= MaxLength
  {
    if obj == [] then map[]
    else
      var n := |obj| - 1;
      var rest := DeAliased(aliases, obj[..n]);
      if obj[n].0 in aliases then rest[aliases[obj[n].0] := Clean(obj[n].1)] else rest
  }

  /** The columns of the result are exactly the aliases of the keys of `obj` that have one. */
  lemma {:induction false} DeAliasedKeys(aliases: map<string, string>, obj: Attrs)
    ensures DeAliased(aliases, obj).Keys == set i | 0 <= i < |obj| && obj[i].0 in aliases :: aliases[obj[i].0]
  {
    if obj != [] {
      var n := |obj| - 1;
      DeAliasedKeys(aliases, obj[..n]);
      var before := set i | 0 <= i < n && obj[..n][i].0 in aliases :: aliases[obj[..n][i].0];
      var all := set i | 0 <= i < |obj| && obj[i].0 in aliases :: aliases[obj[i].0];
      forall c | c in all ensures c in before || (obj[n].0 in aliases && c == aliases[obj[n].0]) {
        var i :| 0 <= i < |obj| && obj[i].0 in aliases && c == aliases[obj[i].0];
        if i < n { assert obj[..n][i] == obj[i]; }
      }
      forall c | c in before ensures c in all {
        var i :| 0 <= i < n && obj[..n][i].0 in aliases && c == aliases[obj[..n][i].0];
        assert obj[..n][i] == obj[i];
      }
    }
  }

  /** An entry whose key is not aliased to `c` leaves column `c` as it was. */
  lemma DeAliasedOther(aliases: map<string, string>, obj: Attrs, c: string)
    requires obj != [] && c in DeAliased(aliases, obj[..|obj| - 1])
    requires obj[|obj| - 1].0 in aliases ==> aliases[obj[|obj| - 1].0] != c
    ensures c in DeAliased(aliases, obj)
    ensures DeAliased(aliases, obj)[c] == DeAliased(aliases, obj[..|obj| - 1])[c]
  {
  }

  /** A column holds the cleaned value of the last entry whose key is aliased to it. */
  lemma {:induction false} DeAliasedLastWins(aliases: map<string, string>, obj: Attrs, i: nat)
    requires i < |obj| && obj[i].0 in aliases
    requires forall j :: i < j < |obj| && obj[j].0 in aliases ==> aliases[obj[j].0] != aliases[obj[i].0]
    ensures aliases[obj[i].0] in DeAliased(aliases, obj)
    ensures DeAliased(aliases, obj)[aliases[obj[i].0]] == Clean(obj[i].1)
  {
    var n := |obj| - 1;
    var prefix := obj[..n];
    if i < n {
      var c := aliases[obj[i].0];
      assert prefix[i] == obj[i];
      forall j | i < j < n && prefix[j].0 in aliases ensures aliases[prefix[j].0] != c {
        assert prefix[j] == obj[j];
      }
      DeAliasedLastWins(aliases, prefix, i);
      DeAliasedOther(aliases, obj, c);
    }
  }

  /** The steps `de_alias` applies to one value: flatten, strip, cut to length. */
  method CleanValue(v: AttrValue) returns (text: string)
    ensures text == Clean(v)
  {
    text := Flatten(v);
    text := Strip(text);
    if |text| > MaxLength {
      text := text[..KeptLength] + "...";
    }
  }

  /**
   * `de_alias`: a new dictionary; every entry is flattened, stripped and cut to length,
   * then stored under the column its key is aliased to, if any.
   */
  method DeAlias(aliases: map<string, string>, obj: Attrs) returns (fields: map<string, string>)
    ensures fields == DeAliased(aliases, obj)
    ensures forall c :: c in fields ==> |fields[c]| <= MaxLength
  {
    fields := map[];
    for i := 0 to |obj|
      invariant fields == DeAliased(aliases, obj[..i])
    {
      assert obj[..i + 1][..i] == obj[..i];
      var (k, v) := obj[i];
      var text := CleanValue(v);
      if k in aliases {
        fields := fields[aliases[k] := text];
      }
    }
    assert obj[..|obj|] == obj;
  }
}
