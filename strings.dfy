/**
 * The two string operations whose exact behaviour decides a result here:
 * ActiveSupport's String#deconstantize and Ruby's String#split('/').
 */
module Strings {
  import opened Values

  /** A "::" starts at position i of s. */
  predicate SepAt(s: string, i: int) {
    0 <= i && i + 1 < |s| && s[i] == ':' && s[i + 1] == ':'
  }

  /** `s.rindex("::")`: where the last "::" of s starts. */
  function RIndexSep(s: string): (r: Option<nat>)
    ensures r.Some? ==> SepAt(s, r.value)
    ensures forall j :: SepAt(s, j) ==> r.Some? && j <= r.value
    decreases |s|
  {
    if |s| < 2 then None
    else if SepAt(s, |s| - 2) then Some(|s| - 2)
    else
      var init := s[..|s| - 1];
      assert forall j :: SepAt(s, j) ==> SepAt(init, j);
      RIndexSep(init)
  }

  /**
   * `s.deconstantize`, i.e. `s[0, s.rindex("::") || 0]`: everything before
   * the last "::", or "" when there is none.
   */
  function Deconstantize(s: string): (r: string)
    ensures |r| <= |s| && r == s[..|r|]
    ensures forall j :: SepAt(s, j) ==> SepAt(s, |r|) && j <= |r|
    ensures (forall j :: !SepAt(s, j)) ==> r == ""
  {
    match RIndexSep(s)
    case None => ""
    case Some(i) => s[..i]
  }

  /** Deconstantizing a qualified name gives back its enclosing module. */
  lemma DeconstantizeQualified(scope: string, name: string)
    requires ':' !in name
    ensures Deconstantize(scope + "::" + name) == scope
  {
    var s := scope + "::" + name;
    assert SepAt(s, |scope|);
  }

  /** Every character of s is a '/'. */
  predicate AllSlashes(s: string) {
    forall i :: 0 <= i < |s| ==> s[i] == '/'
  }

  /** s without its trailing '/' characters. */
  function TrimEnd(s: string): (r: string)
    ensures |r| <= |s| && r == s[..|r|] && AllSlashes(s[|r|..])
    ensures r == "" || r[|r| - 1] != '/'
    ensures r == "" <==> AllSlashes(s)
  {
    if s == [] || s[|s| - 1] != '/' then s
    else
      var r := TrimEnd(s[..|s| - 1]);
      assert s[..|s| - 1][|r|..] + ['/'] == s[|r|..];
      r
  }

  /**
   * seg is the last '/'-separated field of a string t that has no trailing
   * slash: a non-empty run of non-slash characters that ends t and starts t
   * or follows a '/'.
   */
  predicate EndSegment(t: string, seg: string) {
    && seg != ""
    && '/' !in seg
    && |seg| <= |t|
    && t[|t| - |seg|..] == seg
    && (|seg| == |t| || t[|t| - |seg| - 1] == '/')
  }

  /** seg is the last segment of s once trailing slashes are ignored. */
  predicate LastSegmentOf(s: string, seg: string) {
    EndSegment(TrimEnd(s), seg)
  }

  /** Every field of `s.split('/', -1)`: the '/'-free runs between slashes. */
  function Fields(s: string): (r: seq<string>)
    ensures |r| >= 1
  {
    if s == [] then [""]
    else
      var init := Fields(s[..|s| - 1]);
      var c := s[|s| - 1];
      if c == '/' then init + [""]
      else init[..|init| - 1] + [init[|init| - 1] + [c]]
  }

  /** No field contains the separator. */
  lemma {:induction false} FieldsSlashFree(s: string)
    ensures forall i :: 0 <= i < |Fields(s)| ==> '/' !in Fields(s)[i]
  {
    if s != [] {
      var init := s[..|s| - 1];
      FieldsSlashFree(init);
      LastField(s);
      var fs := Fields(init);
      var gs := Fields(s);
      assert forall i :: 0 <= i < |gs| - 1 ==> gs[i] == fs[i];
    }
  }

  /** `fields.join('/')`. */
  function Join(fields: seq<string>): string
    requires |fields| >= 1
  {
    if |fields| == 1 then fields[0]
    else Join(fields[..|fields| - 1]) + "/" + fields[|fields| - 1]
  }

  /** Splitting into fields loses nothing: joining them back gives s. */
  lemma {:induction false} JoinFields(s: string)
    ensures Join(Fields(s)) == s
  {
    if s != [] {
      var init := s[..|s| - 1];
      var c := s[|s| - 1];
      var fs := Fields(init);
      JoinFields(init);
      assert s == init + [c];
      if c == '/' {
        assert Fields(s) == fs + [""];
        JoinEmptyLast(fs);
      } else {
        assert Fields(s) == fs[..|fs| - 1] + [fs[|fs| - 1] + [c]];
        JoinExtendLast(fs, c);
      }
    }
  }

  /** Appending an empty field appends a separator. */
  lemma JoinEmptyLast(fields: seq<string>)
    requires |fields| >= 1
    ensures Join(fields + [""]) == Join(fields) + "/"
  {
    assert (fields + [""])[..|fields|] == fields;
  }

  /** Extending the last field by c extends the joined string by c. */
  lemma JoinExtendLast(fields: seq<string>, c: char)
    requires |fields| >= 1
    ensures Join(fields[..|fields| - 1] + [fields[|fields| - 1] + [c]]) == Join(fields) + [c]
  {
    var n := |fields|;
    var gs := fields[..n - 1] + [fields[n - 1] + [c]];
    if n > 1 {
      assert gs[..n - 1] == fields[..n - 1];
      assert Join(gs) == Join(fields[..n - 1]) + "/" + (fields[n - 1] + [c]);
    }
  }

  /** Drops empty fields from the end, as `split` does when given no limit. */
  function DropTrailingEmpty(fields: seq<string>): (r: seq<string>)
    ensures r <= fields
    ensures r == [] || r[|r| - 1] != ""
    ensures forall i :: |r| <= i < |fields| ==> fields[i] == ""
  {
    if fields == [] then []
    else if fields[|fields| - 1] == "" then DropTrailingEmpty(fields[..|fields| - 1])
    else fields
  }

  /** `s.split('/')`. */
  function Split(s: string): (r: seq<string>)
    ensures |r| <= |Fields(s)| && r == Fields(s)[..|r|]
    ensures r == [] || r[|r| - 1] != ""
    ensures forall f :: f in Fields(s)[|r|..] ==> f == ""
  {
    DropTrailingEmpty(Fields(s))
  }

  /** The last field of s is the part after its last '/'. */
  lemma {:induction false} LastField(s: string)
    ensures var f := Fields(s)[|Fields(s)| - 1];
      |f| <= |s| && s[|s| - |f|..] == f && (|f| == |s| || s[|s| - |f| - 1] == '/') && '/' !in f
  {
    if s != [] {
      var init := s[..|s| - 1];
      var c := s[|s| - 1];
      LastField(init);
      var fs := Fields(init);
      var g := fs[|fs| - 1];
      var f := Fields(s)[|Fields(s)| - 1];
      if c == '/' {
        assert f == "";
      } else {
        assert f == g + [c];
        assert s == init + [c];
        SuffixExtend(init, g, c);
      }
    }
  }

  /** Appending a non-slash to a string extends its '/'-free suffix by that character. */
  lemma SuffixExtend(t: string, g: string, c: char)
    requires |g| <= |t| && t[|t| - |g|..] == g && (|g| == |t| || t[|t| - |g| - 1] == '/') && '/' !in g
    requires c != '/'
    ensures var s, f := t + [c], g + [c];
      |f| <= |s| && s[|s| - |f|..] == f && (|f| == |s| || s[|s| - |f| - 1] == '/') && '/' !in f
  {
    var s, f := t + [c], g + [c];
    assert s[|s| - |f|..] == t[|t| - |g|..] + [c];
  }

  /**
   * `s.split('/')[-1]` is nil exactly when s is empty or made only of
   * slashes, and otherwise is the last segment of s.
   */
  predicate SplitEndsWithLastSegment(s: string) {
    && (Split(s) == [] <==> AllSlashes(s))
    && (Split(s) != [] ==> LastSegmentOf(s, Split(s)[|Split(s)| - 1]))
  }

  lemma {:induction false} SplitLast(s: string)
    ensures SplitEndsWithLastSegment(s)
  {
    if s == [] {
      assert Split(s) == [];
    } else if s[|s| - 1] == '/' {
      SplitLast(s[..|s| - 1]);
      SplitLastAfterSlash(s);
    } else {
      SplitLastAfterSegment(s);
    }
  }

  /** A trailing slash changes neither the split's last element nor the last segment. */
  lemma SplitLastAfterSlash(s: string)
    requires s != [] && s[|s| - 1] == '/'
    requires SplitEndsWithLastSegment(s[..|s| - 1])
    ensures SplitEndsWithLastSegment(s)
  {
    var init := s[..|s| - 1];
    SplitTrailingSlash(s);
    SameLastSegment(s, init);
  }

  /** Strings with the same split, the same trimmed form and the same all-slash status agree. */
  lemma SameLastSegment(s: string, t: string)
    requires Split(s) == Split(t) && TrimEnd(s) == TrimEnd(t) && (AllSlashes(s) <==> AllSlashes(t))
    requires SplitEndsWithLastSegment(t)
    ensures SplitEndsWithLastSegment(s)
  {
    var fields := Split(t);
    if fields != [] {
      var seg := fields[|fields| - 1];
      assert EndSegment(TrimEnd(t), seg);
    }
  }

  /** When s ends in a non-slash, its last field is its last segment. */
  lemma SplitLastAfterSegment(s: string)
    requires s != [] && s[|s| - 1] != '/'
    ensures SplitEndsWithLastSegment(s)
  {
    LastField(s);
    SplitNoTrailingSlash(s);
    assert !AllSlashes(s);
  }

  /** A trailing slash adds only an empty field, which split drops. */
  lemma SplitTrailingSlash(s: string)
    requires s != [] && s[|s| - 1] == '/'
    ensures Split(s) == Split(s[..|s| - 1])
    ensures TrimEnd(s) == TrimEnd(s[..|s| - 1])
    ensures AllSlashes(s) <==> AllSlashes(s[..|s| - 1])
  {
    var fs := Fields(s[..|s| - 1]);
    assert Fields(s) == fs + [""];
    assert (fs + [""])[..|fs|] == fs;
  }

  /** Without a trailing slash, the last field is non-empty and split keeps every field. */
  lemma SplitNoTrailingSlash(s: string)
    requires s != [] && s[|s| - 1] != '/'
    ensures Split(s) == Fields(s)
    ensures Fields(s)[|Fields(s)| - 1] != ""
    ensures TrimEnd(s) == s
  {
    var fs := Fields(s[..|s| - 1]);
    assert Fields(s)[|Fields(s)| - 1] == fs[|fs| - 1] + [s[|s| - 1]];
  }
}
