/**
 * The JavaScript string operations the gateway relies on, stated over
 * `string` (= `seq<char>`): `split` on a one-character separator, `trim`,
 * `toLowerCase` (ASCII letters), `startsWith`, `indexOf` on strings,
 * `replace` of the first occurrence of a character, and the ascending
 * code-point order in which an S3 store lists names.
 */
module Text {

  // ---------------------------------------------------------------------
  // split / join
  // ---------------------------------------------------------------------

  /** `s.split(sep)`: the pieces between occurrences of `sep`, empty pieces kept. */
  function Split(s: string, sep: char): (r: seq<string>)
    ensures |r| >= 1
  {
    if |s| == 0 then [""]
    else
      var rest := Split(s[1..], sep);
      if s[0] == sep then [""] + rest
      else [[s[0]] + rest[0]] + rest[1..]
  }

  /** `parts.join(sep)`. */
  function Join(parts: seq<string>, sep: char): string
  {
    if |parts| == 0 then ""
    else if |parts| == 1 then parts[0]
    else parts[0] + [sep] + Join(parts[1..], sep)
  }

  /** No piece produced by `Split` contains the separator. */
  lemma {:induction false} SplitPiecesAvoidSeparator(s: string, sep: char)
    ensures forall i :: 0 <= i < |Split(s, sep)| ==> sep !in Split(s, sep)[i]
  {
    if |s| > 0 {
      SplitPiecesAvoidSeparator(s[1..], sep);
      var rest := Split(s[1..], sep);
      if s[0] != sep {
        var r := Split(s, sep);
        forall i | 0 <= i < |r| ensures sep !in r[i] {
          if i > 0 { assert r[i] == rest[i]; }
        }
      }
    }
  }

  /** Joining the pieces with the separator gives back the original string. */
  lemma {:induction false} JoinSplit(s: string, sep: char)
    ensures Join(Split(s, sep), sep) == s
  {
    if |s| > 0 {
      JoinSplit(s[1..], sep);
      var rest := Split(s[1..], sep);
      if s[0] == sep {
        assert Split(s, sep) == [""] + rest;
        assert ([""] + rest)[1..] == rest;
        assert s == [sep] + s[1..];
      } else {
        var r := Split(s, sep);
        if |rest| == 1 {
          assert r == [[s[0]] + rest[0]];
          assert s == [s[0]] + s[1..];
        } else {
          assert r[1..] == rest[1..];
          assert Join(rest, sep) == rest[0] + [sep] + Join(rest[1..], sep);
          assert s == [s[0]] + s[1..];
        }
      }
    }
  }

  /** Splitting a join of separator-free pieces gives back the pieces. */
  lemma {:induction false} SplitJoin(parts: seq<string>, sep: char)
    requires |parts| >= 1
    requires forall i :: 0 <= i < |parts| ==> sep !in parts[i]
    ensures Split(Join(parts, sep), sep) == parts
  {
    if |parts| == 1 {
      SplitNoSeparator(parts[0], sep);
    } else {
      SplitJoin(parts[1..], sep);
      SplitPrefix(parts[0], Join(parts[1..], sep), sep);
      assert Join(parts, sep) == parts[0] + ([sep] + Join(parts[1..], sep));
      assert parts == [parts[0]] + parts[1..];
    }
  }

  /** A string holding the separator splits into at least two pieces. */
  lemma {:induction false} SplitAtSeparator(s: string, sep: char)
    requires sep in s
    ensures |Split(s, sep)| >= 2
  {
    if s[0] != sep {
      SplitAtSeparator(s[1..], sep);
    }
  }

  lemma {:induction false} SplitNoSeparator(s: string, sep: char)
    requires sep !in s
    ensures Split(s, sep) == [s]
  {
    if |s| > 0 {
      SplitNoSeparator(s[1..], sep);
      assert s == [s[0]] + s[1..];
    }
  }

  /** The last piece of a join follows the last separator. */
  lemma {:induction false} JoinLast(parts: seq<string>, sep: char)
    requires |parts| >= 2
    ensures Join(parts, sep) == Join(parts[..|parts| - 1], sep) + [sep] + parts[|parts| - 1]
    decreases |parts|
  {
    var init := parts[..|parts| - 1];
    if |parts| > 2 {
      JoinLast(parts[1..], sep);
      assert parts[1..][..|parts| - 2] == init[1..];
    }
  }

  /**
   * The last piece of a split is what follows the last separator: the whole
   * string when there is none.
   */
  lemma LastPiece(s: string, sep: char)
    ensures var last := Split(s, sep)[|Split(s, sep)| - 1];
      && sep !in last
      && (sep !in s ==> last == s)
      && (sep in s ==> exists pre :: s == pre + [sep] + last)
  {
    var pieces := Split(s, sep);
    SplitPiecesAvoidSeparator(s, sep);
    if sep !in s {
      SplitNoSeparator(s, sep);
    } else {
      SplitAtSeparator(s, sep);
      JoinSplit(s, sep);
      JoinLast(pieces, sep);
    }
  }

  /** A separator-free prefix becomes the first piece. */
  lemma {:induction false} SplitPrefix(p: string, t: string, sep: char)
    requires sep !in p
    ensures Split(p + [sep] + t, sep) == [p] + Split(t, sep)
  {
    if |p| == 0 {
      assert p + [sep] + t == [sep] + t;
      assert ([sep] + t)[1..] == t;
    } else {
      SplitPrefix(p[1..], t, sep);
      assert (p + [sep] + t)[1..] == p[1..] + [sep] + t;
      assert p == [p[0]] + p[1..];
    }
  }

  // ---------------------------------------------------------------------
  // trim
  // ---------------------------------------------------------------------

  /** The characters `String.prototype.trim` removes: white space and line terminators. */
  predicate IsSpace(c: char)
  {
    c == ' ' || c == '\t' || c == '\n' || c == '\r' || c == '\U{000B}' || c == '\U{000C}'
    || c == '\U{00A0}' || c == '\U{FEFF}' || c == '\U{1680}' || ('\U{2000}' <= c <= '\U{200A}')
    || c == '\U{2028}' || c == '\U{2029}' || c == '\U{202F}' || c == '\U{205F}' || c == '\U{3000}'
  }

  predicate AllSpace(s: string)
  {
    forall i :: 0 <= i < |s| ==> IsSpace(s[i])
  }

  /** Drop leading white space. */
  function TrimStart(s: string): string
  {
    if |s| > 0 && IsSpace(s[0]) then TrimStart(s[1..]) else s
  }

  /** The result is a suffix of `s` behind white space only, and starts with none. */
  lemma {:induction false} TrimStartMeaning(s: string)
    ensures var r := TrimStart(s);
      && |r| <= |s| && r == s[|s| - |r|..]
      && AllSpace(s[..|s| - |r|])
      && (r == [] || !IsSpace(r[0]))
  {
    if |s| > 0 && IsSpace(s[0]) {
      TrimStartMeaning(s[1..]);
      var r := TrimStart(s[1..]);
      var n := |s| - |r|;
      assert s[1..][|s| - 1 - |r|..] == s[n..];
      forall i | 0 <= i < n ensures IsSpace(s[..n][i]) {
        if i > 0 {
          var j := i - 1;
          assert IsSpace(s[1..][..n - 1][j]);
          assert s[..n][i] == s[1..][..n - 1][j];
        } else {
          assert s[..n][0] == s[0];
        }
      }
    } else {
      assert s[..0] == [];
    }
  }

  /** Drop trailing white space. */
  function TrimEnd(s: string): string
  {
    if |s| > 0 && IsSpace(s[|s| - 1]) then TrimEnd(s[..|s| - 1]) else s
  }

  /** The result is a prefix of `s` before white space only, and ends with none. */
  lemma {:induction false} TrimEndMeaning(s: string)
    ensures var r := TrimEnd(s);
      && |r| <= |s| && r == s[..|r|]
      && AllSpace(s[|r|..])
      && (r == [] || !IsSpace(r[|r| - 1]))
  {
    if |s| > 0 && IsSpace(s[|s| - 1]) {
      var init := s[..|s| - 1];
      TrimEndMeaning(init);
      var r := TrimEnd(init);
      assert init[..|r|] == s[..|r|];
      forall i | |r| <= i < |s| ensures IsSpace(s[i]) {
        if i < |s| - 1 {
          assert s[i] == init[|r|..][i - |r|];
        }
      }
      assert forall i :: 0 <= i < |s[|r|..]| ==> s[|r|..][i] == s[|r| + i];
    } else {
      assert s[|s|..] == [];
    }
  }

  /** `s.trim()`: white space at neither end. */
  function Trim(s: string): (r: string)
    ensures r == [] || (!IsSpace(r[0]) && !IsSpace(r[|r| - 1]))
  {
    var t := TrimStart(s);
    TrimStartMeaning(s);
    TrimEndMeaning(t);
    var r := TrimEnd(t);
    assert r != [] ==> r[0] == t[0];
    r
  }

  /** `s` is white space, then its trim, then white space. */
  lemma TrimMeaning(s: string)
    ensures var r := Trim(s);
      exists i :: 0 <= i <= |s| - |r| && s[i..i + |r|] == r && AllSpace(s[..i]) && AllSpace(s[i + |r|..])
  {
    var t := TrimStart(s);
    TrimStartMeaning(s);
    TrimEndMeaning(t);
    var r := TrimEnd(t);
    var i := |s| - |t|;
    assert s[i..i + |r|] == r;
    assert s[i + |r|..] == t[|r|..];
  }

  /** `pieces.map(p => p.trim())`. */
  function TrimAll(pieces: seq<string>): (r: seq<string>)
    ensures |r| == |pieces|
  {
    seq(|pieces|, i requires 0 <= i < |pieces| => Trim(pieces[i]))
  }

  /** Trimming twice is trimming once. */
  lemma TrimIdempotent(s: string)
    ensures Trim(Trim(s)) == Trim(s)
  {
    var r := Trim(s);
    assert TrimStart(r) == r;
    assert TrimEnd(r) == r;
  }

  /** A string with white space at neither end is its own trim. */
  lemma TrimFixed(s: string)
    requires s == [] || (!IsSpace(s[0]) && !IsSpace(s[|s| - 1]))
    ensures Trim(s) == s
  {
  }

  // ---------------------------------------------------------------------
  // toLowerCase (ASCII)
  // ---------------------------------------------------------------------

  function LowerChar(c: char): char
  {
    if 'A' <= c <= 'Z' then (c as int + 32) as char else c
  }

  /** `s.toLowerCase()`, for the ASCII letters. */
  function Lower(s: string): (r: string)
    ensures |r| == |s|
  {
    seq(|s|, i requires 0 <= i < |s| => LowerChar(s[i]))
  }

  predicate IsLower(s: string)
  {
    forall i :: 0 <= i < |s| ==> !('A' <= s[i] <= 'Z')
  }

  /** Lower-casing yields a lower-case string, and leaves a lower-case string alone. */
  lemma LowerIsLower(s: string)
    ensures IsLower(Lower(s))
    ensures IsLower(s) ==> Lower(s) == s
  {
  }

  // ---------------------------------------------------------------------
  // startsWith, indexOf, replace
  // ---------------------------------------------------------------------

  /** `s.startsWith(p)`. */
  predicate StartsWith(s: string, p: string)
  {
    |p| <= |s| && s[..|p|] == p
  }

  predicate OccursAt(s: string, sub: string, i: int)
  {
    0 <= i && i + |sub| <= |s| && s[i..i + |sub|] == sub
  }

  /** `s.indexOf(sub, from)`: the first position at or after `from` where `sub` occurs, or -1. */
  function IndexFrom(s: string, sub: string, from: nat): (r: int)
    requires from <= |s|
    ensures r == -1 || (from <= r && OccursAt(s, sub, r))
    ensures forall j :: from <= j && (r == -1 || j < r) ==> !OccursAt(s, sub, j)
    decreases |s| - from
  {
    if OccursAt(s, sub, from) then from
    else if from == |s| then -1
    else IndexFrom(s, sub, from + 1)
  }

  /** `s.indexOf(sub)`: the first position where `sub` occurs, or -1 when it does not occur. */
  function IndexOf(s: string, sub: string): (r: int)
    ensures r == -1 || OccursAt(s, sub, r)
    ensures forall j :: 0 <= j && (r == -1 || j < r) ==> !OccursAt(s, sub, j)
  {
    IndexFrom(s, sub, 0)
  }

  /** `s.replace(a, b)` with one-character strings: only the first `a` is replaced. */
  function ReplaceFirst(s: string, a: char, b: char): string
  {
    if |s| == 0 then s
    else if s[0] == a then [b] + s[1..]
    else [s[0]] + ReplaceFirst(s[1..], a, b)
  }

  /** Where the first `a` in `s` is. */
  function FirstIndex(s: string, a: char): (i: nat)
    requires a in s
    ensures i < |s| && s[i] == a
  {
    if s[0] == a then 0
    else
      assert s == [s[0]] + s[1..];
      1 + FirstIndex(s[1..], a)
  }

  /** When the character occurs in `s`, text appended after `s` is left alone. */
  lemma {:induction false} ReplaceFirstAppend(s: string, t: string, a: char, b: char)
    requires a in s
    ensures ReplaceFirst(s + t, a, b) == ReplaceFirst(s, a, b) + t
  {
    assert (s + t)[0] == s[0];
    if s[0] != a {
      assert (s + t)[1..] == s[1..] + t;
      ReplaceFirstAppend(s[1..], t, a, b);
    } else {
      assert (s + t)[1..] == s[1..] + t;
    }
  }

  lemma {:induction false} ReplaceFirstAt(s: string, a: char, b: char)
    requires a in s
    ensures var i := FirstIndex(s, a);
      a !in s[..i] && ReplaceFirst(s, a, b) == s[..i] + [b] + s[i + 1..]
  {
    if s[0] == a {
      assert s[..0] + [b] + s[1..] == [b] + s[1..];
    } else {
      assert s == [s[0]] + s[1..];
      var j := FirstIndex(s[1..], a);
      ReplaceFirstAt(s[1..], a, b);
      assert s[..j + 1] == [s[0]] + s[1..][..j];
      assert s[j + 2..] == s[1..][j + 1..];
      calc {
        ReplaceFirst(s, a, b);
        [s[0]] + (s[1..][..j] + [b] + s[1..][j + 1..]);
        ([s[0]] + s[1..][..j]) + [b] + s[1..][j + 1..];
      }
    }
  }

  lemma {:induction false} ReplaceFirstAbsent(s: string, a: char, b: char)
    requires a !in s
    ensures ReplaceFirst(s, a, b) == s
  {
    if |s| > 0 {
      assert s == [s[0]] + s[1..];
      ReplaceFirstAbsent(s[1..], a, b);
    }
  }

  /** Only the first `a` is replaced, and nothing when there is none. */
  lemma ReplaceFirstMeaning(s: string, a: char, b: char)
    ensures |ReplaceFirst(s, a, b)| == |s|
    ensures a !in s ==> ReplaceFirst(s, a, b) == s
    ensures a in s ==> exists i :: 0 <= i < |s| && s[i] == a && a !in s[..i]
                                   && ReplaceFirst(s, a, b) == s[..i] + [b] + s[i + 1..]
  {
    if a in s {
      ReplaceFirstAt(s, a, b);
      var i := FirstIndex(s, a);
      assert 0 <= i < |s| && s[i] == a && a !in s[..i] && ReplaceFirst(s, a, b) == s[..i] + [b] + s[i + 1..];
    } else {
      ReplaceFirstAbsent(s, a, b);
    }
  }

  // ---------------------------------------------------------------------
  // Ascending code-point order
  // ---------------------------------------------------------------------

  /** `a` comes no later than `b` in code-point (lexicographic) order. */
  predicate NoLater(a: string, b: string)
  {
    |a| == 0 || (|b| > 0 && (a[0] < b[0] || (a[0] == b[0] && NoLater(a[1..], b[1..]))))
  }

  lemma NoLaterReflexive(a: string)
    ensures NoLater(a, a)
  {
  }

  lemma NoLaterTotal(a: string, b: string)
    ensures NoLater(a, b) || NoLater(b, a)
  {
  }

  lemma NoLaterAntisymmetric(a: string, b: string)
    requires NoLater(a, b) && NoLater(b, a)
    ensures a == b
  {
    if |a| > 0 && |b| > 0 {
      NoLaterAntisymmetric(a[1..], b[1..]);
      assert a == [a[0]] + a[1..] && b == [b[0]] + b[1..];
    }
  }

  lemma NoLaterTransitive(a: string, b: string, c: string)
    requires NoLater(a, b) && NoLater(b, c)
    ensures NoLater(a, c)
  {
    if |a| > 0 && |b| > 0 && |c| > 0 && a[0] == b[0] == c[0] {
      NoLaterTransitive(a[1..], b[1..], c[1..]);
    }
  }

  predicate IsFirst(m: string, names: set<string>)
  {
    m in names && forall x :: x in names ==> NoLater(m, x)
  }

  lemma {:induction false} FirstExists(names: set<string>)
    requires names != {}
    ensures exists m :: IsFirst(m, names)
    decreases |names|
  {
    var x :| x in names;
    NoLaterReflexive(x);
    if names == {x} {
      assert IsFirst(x, names);
    } else {
      FirstExists(names - {x});
      var m :| IsFirst(m, names - {x});
      NoLaterTotal(m, x);
      if NoLater(m, x) {
        assert IsFirst(m, names);
      } else {
        forall y | y in names ensures NoLater(x, y) {
          if y != x { NoLaterTransitive(x, m, y); }
        }
        assert IsFirst(x, names);
      }
    }
  }

  lemma FirstUnique(names: set<string>, m: string, m': string)
    requires IsFirst(m, names) && IsFirst(m', names)
    ensures m == m'
  {
    NoLaterAntisymmetric(m, m');
  }

  lemma FirstUniqueAll(names: set<string>)
    ensures forall m, m' :: IsFirst(m, names) && IsFirst(m', names) ==> m == m'
  {
    forall m, m' | IsFirst(m, names) && IsFirst(m', names) ensures m == m' {
      FirstUnique(names, m, m');
    }
  }

  /** The names of a set in ascending order, each once: the order an S3 listing reports them in. */
  function Ascending(names: set<string>): (r: seq<string>)
    ensures |r| == |names|
    ensures forall i :: 0 <= i < |r| ==> r[i] in names
    ensures forall x :: x in names ==> x in r
    ensures forall i, j :: 0 <= i < j < |r| ==> r[i] != r[j] && NoLater(r[i], r[j])
    decreases |names|
  {
    if names == {} then []
    else
      FirstExists(names);
      FirstUniqueAll(names);
      var m :| IsFirst(m, names);
      var rest := Ascending(names - {m});
      AscendingCons(names, m, rest);
      [m] + rest
  }

  /** Putting the first name in front of the rest in order keeps the order. */
  lemma AscendingCons(names: set<string>, m: string, rest: seq<string>)
    requires IsFirst(m, names)
    requires |rest| == |names - {m}|
    requires forall i :: 0 <= i < |rest| ==> rest[i] in names - {m}
    requires forall x :: x in names - {m} ==> x in rest
    requires forall i, j :: 0 <= i < j < |rest| ==> rest[i] != rest[j] && NoLater(rest[i], rest[j])
    ensures var r := [m] + rest;
      && |r| == |names|
      && (forall i :: 0 <= i < |r| ==> r[i] in names)
      && (forall x :: x in names ==> x in r)
      && (forall i, j :: 0 <= i < j < |r| ==> r[i] != r[j] && NoLater(r[i], r[j]))
  {
    var r := [m] + rest;
    assert forall x :: x in names ==> x == m || x in names - {m};
    forall i, j | 0 <= i < j < |r| ensures r[i] != r[j] && NoLater(r[i], r[j]) {
      if i == 0 {
        assert r[j] == rest[j - 1];
      } else {
        assert r[i] == rest[i - 1] && r[j] == rest[j - 1];
      }
    }
  }
}
