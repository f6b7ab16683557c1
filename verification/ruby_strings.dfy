/** The two pieces of Ruby's string library the report depends on:
    `String#split('/')` followed by `Array#last`, and `File.join`. */
module RubyStrings {
  import opened Wrappers

  /** True when every character of `s` is a '/' (vacuously for ""). */
  predicate AllSlashes(s: string)
  {
    forall i :: 0 <= i < |s| ==> s[i] == '/'
  }

  /** The fields of `s` between '/' separators, empty fields included:
      "a//b/" has the fields "a", "", "b", "". There is always at least one. */
  function Fields(s: string): (fs: seq<string>)
    ensures |fs| >= 1
    ensures forall i :: 0 <= i < |fs| ==> '/' !in fs[i]
  {
    if s == [] then [""]
    else if s[0] == '/' then [""] + Fields(s[1..])
    else
      var rest := Fields(s[1..]);
      [[s[0]] + rest[0]] + rest[1..]
  }

  /** The fields put back together, with one '/' between neighbours. */
  function JoinSlash(fs: seq<string>): string
    requires |fs| >= 1
  {
    if |fs| == 1 then fs[0] else fs[0] + "/" + JoinSlash(fs[1..])
  }

  /** `fs` without its trailing run of empty strings. */
  function DropTrailingEmpty(fs: seq<string>): (r: seq<string>)
    ensures r <= fs
    ensures r == [] || r[|r| - 1] != ""
    ensures forall i :: |r| <= i < |fs| ==> fs[i] == ""
  {
    if fs == [] || fs[|fs| - 1] != "" then fs
    else DropTrailingEmpty(fs[..|fs| - 1])
  }

  /** Ruby's `s.split('/')`: the fields, with trailing empty fields removed
      ("a/b/".split('/') is ["a", "b"], "".split('/') and "//".split('/') are []). */
  function Split(s: string): (parts: seq<string>)
    ensures forall i :: 0 <= i < |parts| ==> '/' !in parts[i]
    ensures parts == [] || parts[|parts| - 1] != ""
  {
    DropTrailingEmpty(Fields(s))
  }

  /** Ruby's `s.split('/').last`: nil when the split is empty. */
  function SplitLast(s: string): (r: Option<string>)
    ensures r.Some? ==> r.value != "" && '/' !in r.value
  {
    var parts := Split(s);
    if parts == [] then None else Some(parts[|parts| - 1])
  }

  /** Joining the fields of a string gives the string back. */
  lemma {:induction false} FieldsJoin(s: string)
    ensures JoinSlash(Fields(s)) == s
  {
    if s == [] {
    } else if s[0] == '/' {
      FieldsJoin(s[1..]);
      assert Fields(s) == [""] + Fields(s[1..]);
    } else {
      var rest := Fields(s[1..]);
      FieldsJoin(s[1..]);
      if |rest| == 1 {
        assert Fields(s) == [[s[0]] + rest[0]];
        assert s == [s[0]] + s[1..];
      } else {
        assert Fields(s) == [[s[0]] + rest[0]] + rest[1..];
        assert JoinSlash(rest) == rest[0] + "/" + JoinSlash(rest[1..]);
        assert Fields(s)[1..] == rest[1..];
        assert s == [s[0]] + s[1..];
      }
    }
  }

  /** A string without separators is a single field. */
  lemma {:induction false} FieldsOfSegment(seg: string)
    requires '/' !in seg
    ensures Fields(seg) == [seg]
  {
    if seg != [] {
      assert '/' !in seg[1..] by {
        forall i | 0 <= i < |seg[1..]| ensures seg[1..][i] != '/' {
          assert seg[1..][i] == seg[i + 1];
        }
      }
      FieldsOfSegment(seg[1..]);
      assert seg == [seg[0]] + seg[1..];
    }
  }

  /** Splitting `a + "/" + b` splits `a` and `b` separately. */
  lemma {:induction false} FieldsConcat(a: string, b: string)
    ensures Fields(a + "/" + b) == Fields(a) + Fields(b)
  {
    var s := a + "/" + b;
    if a == [] {
      assert s[1..] == b;
    } else {
      assert s[0] == a[0];
      assert s[1..] == a[1..] + "/" + b;
      FieldsConcat(a[1..], b);
      if a[0] != '/' {
        var fa := Fields(a[1..]);
        var rest := Fields(s[1..]);
        assert rest == fa + Fields(b);
        assert rest[0] == fa[0];
        assert rest[1..] == fa[1..] + Fields(b);
      }
    }
  }

  /** A string of separators only has only empty fields. */
  lemma {:induction false} FieldsOfSlashes(s: string)
    requires AllSlashes(s)
    ensures forall i :: 0 <= i < |Fields(s)| ==> Fields(s)[i] == ""
  {
    if s != [] {
      FieldsOfSlashes(s[1..]);
      assert Fields(s) == [""] + Fields(s[1..]);
    }
  }

  /** A string that starts with an ordinary character has a non-empty first field. */
  lemma FirstFieldOf(s: string)
    ensures s != [] && s[0] != '/' ==> Fields(s)[0] != "" && Fields(s)[0][0] == s[0]
  {
  }

  /** Only a string of separators has only empty fields. */
  lemma {:induction false} SlashesOfFields(s: string)
    requires forall i :: 0 <= i < |Fields(s)| ==> Fields(s)[i] == ""
    ensures AllSlashes(s)
  {
    if s != [] {
      FirstFieldOf(s);
      assert s[0] == '/';
      assert Fields(s) == [""] + Fields(s[1..]);
      assert forall i :: 0 <= i < |Fields(s[1..])| ==> Fields(s[1..])[i] == Fields(s)[i + 1];
      SlashesOfFields(s[1..]);
    }
  }

  /** `.last` of the split is nil exactly when the string holds nothing but separators. */
  lemma SplitLastNone(s: string)
    ensures SplitLast(s) == None <==> AllSlashes(s)
  {
    var fs := Fields(s);
    if AllSlashes(s) {
      FieldsOfSlashes(s);
      assert DropTrailingEmpty(fs) == [];
    }
    if SplitLast(s) == None {
      assert forall i :: 0 <= i < |fs| ==> fs[i] == "";
      SlashesOfFields(s);
    }
  }

  /** A trailing separator does not change the split: "https://h/org/x/" and
      "https://h/org/x" split alike. */
  lemma SplitTrailingSlash(s: string)
    ensures Split(s + "/") == Split(s)
    ensures SplitLast(s + "/") == SplitLast(s)
  {
    assert s + "/" == s + "/" + "";
    FieldsConcat(s, "");
    assert Fields(s + "/") == Fields(s) + [""];
    assert (Fields(s) + [""])[..|Fields(s)|] == Fields(s);
  }

  /** Any run of trailing separators is ignored by the split. */
  lemma {:induction false} SplitTrailingSlashes(s: string, slashes: string)
    requires AllSlashes(slashes)
    ensures SplitLast(s + slashes) == SplitLast(s)
    decreases |slashes|
  {
    if slashes != [] {
      var init := slashes[..|slashes| - 1];
      assert s + slashes == (s + init) + "/";
      SplitTrailingSlash(s + init);
      SplitTrailingSlashes(s, init);
    } else {
      assert s + slashes == s;
    }
  }

  /** A string without separators is its own `split('/').last`. */
  lemma SplitLastPlain(s: string)
    requires s != "" && '/' !in s
    ensures SplitLast(s) == Some(s)
  {
    FieldsOfSegment(s);
  }

  /** `.last` of the split is the segment after the last separator when that
      segment is not empty. */
  lemma SplitLastSegment(prefix: string, seg: string)
    requires seg != "" && '/' !in seg
    ensures SplitLast(prefix + "/" + seg) == Some(seg)
  {
    FieldsConcat(prefix, seg);
    FieldsOfSegment(seg);
  }

  /** `s` with its trailing run of separators removed (Ruby's `chompdirsep`). */
  function ChompSeparators(s: string): (r: string)
    ensures r <= s
    ensures r == [] || r[|r| - 1] != '/'
    ensures forall i :: |r| <= i < |s| ==> s[i] == '/'
  {
    if s == [] || s[|s| - 1] != '/' then s
    else ChompSeparators(s[..|s| - 1])
  }

  /** What `File.join` does between the text built so far and its next argument:
      an argument that starts with a separator replaces the trailing separators,
      otherwise one separator is inserted unless one is already there. */
  function JoinStep(acc: string, part: string): string
  {
    if part != [] && part[0] == '/' then ChompSeparators(acc) + part
    else if acc != [] && acc[|acc| - 1] == '/' then acc + part
    else acc + "/" + part
  }

  /** True when `t` is a suffix of `s`. */
  predicate EndsWith(s: string, t: string)
  {
    |t| <= |s| && s[|s| - |t|..] == t
  }

  /** Ruby's `File.join(parts...)`: the result starts with '/' when the
      first part does. */
  function FileJoin(parts: seq<string>): (r: string)
    ensures parts != [] && parts[0] != [] && parts[0][0] == '/' ==> r != [] && r[0] == '/'
  {
    if parts == [] then ""
    else if |parts| == 1 then parts[0]
    else JoinStep(FileJoin(parts[..|parts| - 1]), parts[|parts| - 1])
  }

  /** The result of `File.join` ends with its last part. */
  lemma FileJoinEndsWithLast(parts: seq<string>)
    requires parts != []
    ensures EndsWith(FileJoin(parts), parts[|parts| - 1])
  {
  }

  /** `File.join(prefix, o, "inspec")` is `prefix/o/inspec` when neither the
      prefix nor the middle part brings separators of its own at the joins. */
  lemma JoinThree(prefix: string, o: string, last: string)
    requires prefix != [] && prefix[|prefix| - 1] != '/'
    requires o != [] && o[0] != '/' && o[|o| - 1] != '/'
    requires last != [] && last[0] != '/'
    ensures FileJoin([prefix, o, last]) == prefix + "/" + o + "/" + last
  {
    assert [prefix, o, last][..2] == [prefix, o];
    assert [prefix, o][..1] == [prefix];
    var acc := prefix + "/" + o;
    assert FileJoin([prefix, o]) == acc;
    assert acc[|acc| - 1] == o[|o| - 1];
  }

  /** With an empty middle part, `File.join(prefix, "", last)` is `prefix/last`:
      the empty part leaves no trace. */
  lemma JoinThreeEmptyMiddle(prefix: string, last: string)
    requires prefix != [] && prefix[|prefix| - 1] != '/'
    requires last != [] && last[0] != '/'
    ensures FileJoin([prefix, "", last]) == prefix + "/" + last
  {
    assert [prefix, "", last][..2] == [prefix, ""];
    assert [prefix, ""][..1] == [prefix];
    assert FileJoin([prefix, ""]) == prefix + "/";
  }
}
