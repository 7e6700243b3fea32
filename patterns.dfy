/** Comma-separated glob pattern lists: `s.split(",")` when the option string
    is truthy, None otherwise. */
module Patterns {
  import opened Wrappers
  import opened PyValues

  /** Python's `s.split(sep)` for a one-character separator: the pieces
      between separators, empty pieces included. */
  function Split(s: string, sep: char): (r: seq<string>)
    ensures |r| >= 1
    ensures forall k :: 0 <= k < |r| ==> sep !in r[k]
    decreases |s|
  {
    if s == [] then [""]
    else
      var rest := Split(s[1..], sep);
      if s[0] == sep then [""] + rest
      else [[s[0]] + rest[0]] + rest[1..]
  }

  /** Python's `sep.join(parts)`. */
  function Join(parts: seq<string>, sep: char): string {
    if parts == [] then ""
    else if |parts| == 1 then parts[0]
    else parts[0] + [sep] + Join(parts[1..], sep)
  }

  /** Number of occurrences of `c` in `s`. */
  function Count(s: string, c: char): nat {
    if s == [] then 0 else (if s[0] == c then 1 else 0) + Count(s[1..], c)
  }

  /** Splitting yields one piece more than there are separators. */
  lemma {:induction false} SplitLength(s: string, sep: char)
    ensures |Split(s, sep)| == Count(s, sep) + 1
  {
    if s != [] {
      SplitLength(s[1..], sep);
    }
  }

  /** Joining the pieces with the separator gives back the original string. */
  lemma {:induction false} JoinSplit(s: string, sep: char)
    ensures Join(Split(s, sep), sep) == s
  {
    if s != [] {
      var rest := Split(s[1..], sep);
      JoinSplit(s[1..], sep);
      if s[0] == sep {
        assert Split(s, sep) == [""] + rest;
        assert ([""] + rest)[1..] == rest;
      } else {
        var r := [[s[0]] + rest[0]] + rest[1..];
        assert Split(s, sep) == r;
        if |rest| == 1 {
          assert Join(rest, sep) == rest[0];
        } else {
          assert r[1..] == rest[1..];
          assert Join(rest, sep) == rest[0] + [sep] + Join(rest[1..], sep);
        }
      }
    }
  }

  /** Splitting a join of separator-free pieces gives back the pieces. */
  lemma {:induction false} SplitJoin(parts: seq<string>, sep: char)
    requires |parts| >= 1
    requires forall k :: 0 <= k < |parts| ==> sep !in parts[k]
    ensures Split(Join(parts, sep), sep) == parts
  {
    if |parts| == 1 {
      SplitPiece(parts[0], sep, []);
      assert [parts[0]] + [] == parts;
    } else {
      SplitJoin(parts[1..], sep);
      SplitPiece(parts[0], sep, parts[1..]);
      assert [parts[0]] + parts[1..] == parts;
    }
  }

  /** A separator-free piece in front of a separator and a suffix becomes the
      first piece of the split. */
  lemma {:induction false} SplitPiece(p: string, sep: char, tailPieces: seq<string>)
    requires sep !in p
    requires tailPieces == [] || Split(Join(tailPieces, sep), sep) == tailPieces
    ensures Split(if tailPieces == [] then p else p + [sep] + Join(tailPieces, sep), sep) == [p] + tailPieces
  {
    var t := if tailPieces == [] then [] else [sep] + Join(tailPieces, sep);
    assert (if tailPieces == [] then p else p + [sep] + Join(tailPieces, sep)) == p + t;
    SplitPrefix(p, t, sep, tailPieces);
  }

  lemma {:induction false} SplitPrefix(p: string, t: string, sep: char, tailPieces: seq<string>)
    requires sep !in p
    requires t == [] ==> tailPieces == []
    requires t != [] ==> t[0] == sep && Split(t[1..], sep) == tailPieces
    ensures Split(p + t, sep) == [p] + tailPieces
  {
    if p == [] {
      assert p + t == t;
      if t != [] {
        assert Split(t, sep) == [""] + Split(t[1..], sep);
      }
    } else {
      SplitPrefix(p[1..], t, sep, tailPieces);
      assert (p + t)[1..] == p[1..] + t;
      assert (p + t)[0] == p[0];
      assert [p[0]] + p[1..] == p;
    }
  }

  /** `x.split(",") if x else None`, as applied to --allow-patterns and
      --ignore-patterns. */
  function SplitPatterns(o: Option<string>): (r: Option<seq<string>>)
    ensures r.None? <==> !Truthy(o)
    ensures r.Some? ==> |r.value| >= 1 && Join(r.value, ',') == o.value
    ensures r.Some? ==> |r.value| == Count(o.value, ',') + 1
    ensures r.Some? ==> forall k :: 0 <= k < |r.value| ==> ',' !in r.value[k]
  {
    if Truthy(o) then
      JoinSplit(o.value, ',');
      SplitLength(o.value, ',');
      Some(Split(o.value, ','))
    else None
  }

  /** "a,b,c" gives ["a", "b", "c"]; "a,,b" keeps the empty piece in order. */
  lemma SplitExamples()
    ensures SplitPatterns(Some("a,b,c")) == Some(["a", "b", "c"])
    ensures SplitPatterns(Some("a,,b")) == Some(["a", "", "b"])
    ensures SplitPatterns(Some("")) == None
    ensures SplitPatterns(None) == None
  {
    var abc: seq<string> := ["a", "b", "c"];
    assert abc[1..] == ["b", "c"] && abc[1..][1..] == ["c"];
    assert Join(abc, ',') == "a,b,c";
    SplitJoin(abc, ',');
    var aeb: seq<string> := ["a", "", "b"];
    assert aeb[1..] == ["", "b"] && aeb[1..][1..] == ["b"];
    assert Join(aeb, ',') == "a,,b";
    SplitJoin(aeb, ',');
  }
}
