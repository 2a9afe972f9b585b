/** The string operations the service relies on: splitting and joining on a
    one-character separator (Python's `str.split` / `str.join`), substring
    search (Python's `in` on strings) and decimal rendering of naturals
    (Python's `str(n)`). */
module Strings {
  import opened Wrappers

  /** Python's `s.split(sep)` for a one-character separator: the maximal
      separator-free pieces of `s`, including empty ones. */
  function Split(s: string, sep: char): (parts: seq<string>)
    ensures |parts| >= 1
    ensures forall i :: 0 <= i < |parts| ==> sep !in parts[i]
    ensures |parts| > 1 <==> sep in s
  {
    if |s| == 0 then [""]
    else
      var rest := Split(s[1..], sep);
      assert s == [s[0]] + s[1..];
      if s[0] == sep then [""] + rest
      else [[s[0]] + rest[0]] + rest[1..]
  }

  /** Python's `sep.join(parts)`. */
  function Join(parts: seq<string>, sep: char): string
  {
    if |parts| == 0 then ""
    else if |parts| == 1 then parts[0]
    else parts[0] + [sep] + Join(parts[1..], sep)
  }

  /** Joining two non-empty runs of pieces puts one separator between them. */
  lemma {:induction false} JoinAppend(a: seq<string>, b: seq<string>, sep: char)
    requires |a| >= 1 && |b| >= 1
    ensures Join(a + b, sep) == Join(a, sep) + [sep] + Join(b, sep)
    decreases |a|
  {
    assert (a + b)[0] == a[0];
    if |a| == 1 {
      assert (a + b)[1..] == b;
    } else {
      assert (a + b)[1..] == a[1..] + b;
      JoinAppend(a[1..], b, sep);
    }
  }

  function Last<T>(s: seq<T>): T
    requires |s| > 0
  {
    s[|s| - 1]
  }

  /** A separator in front opens an empty first piece. */
  lemma SplitSepFirst(s: string, sep: char)
    requires |s| > 0 && s[0] == sep
    ensures Split(s, sep) == [""] + Split(s[1..], sep)
  {
  }

  /** Any other first character starts the first piece. */
  lemma SplitCharFirst(s: string, sep: char)
    requires |s| > 0 && s[0] != sep
    ensures var rest := Split(s[1..], sep);
      Split(s, sep) == [[s[0]] + rest[0]] + rest[1..]
  {
  }

  lemma JoinCons(x: string, rest: seq<string>, sep: char)
    requires |rest| >= 1
    ensures Join([x] + rest, sep) == x + [sep] + Join(rest, sep)
  {
    assert ([x] + rest)[1..] == rest;
  }

  /** Gluing a character onto the first piece puts it in front of the join. */
  lemma JoinGlue(c: char, rest: seq<string>, sep: char)
    requires |rest| >= 1
    ensures Join([[c] + rest[0]] + rest[1..], sep) == [c] + Join(rest, sep)
  {
    if |rest| > 1 {
      JoinCons([c] + rest[0], rest[1..], sep);
      JoinCons(rest[0], rest[1..], sep);
      assert [rest[0]] + rest[1..] == rest;
    }
  }

  /** Joining the pieces of a split restores the original string. */
  lemma {:induction false} SplitJoin(s: string, sep: char)
    ensures Join(Split(s, sep), sep) == s
    decreases |s|
  {
    if |s| > 0 {
      var t := s[1..];
      var rest := Split(t, sep);
      SplitJoin(t, sep);
      assert s == [s[0]] + t;
      if s[0] == sep {
        SplitSepFirst(s, sep);
        JoinCons("", rest, sep);
      } else {
        SplitCharFirst(s, sep);
        JoinGlue(s[0], rest, sep);
      }
    }
  }

  /** A separator-free prefix is glued onto the first piece of what follows. */
  lemma {:induction false} SplitAfterPrefix(a: string, b: string, sep: char)
    requires sep !in a
    ensures Split(a + b, sep) == [a + Split(b, sep)[0]] + Split(b, sep)[1..]
    decreases |a|
  {
    var pieces := Split(b, sep);
    if |a| > 0 {
      var tail := Split(a[1..] + b, sep);
      SplitAfterPrefix(a[1..], b, sep);
      assert (a + b)[0] == a[0] && a[0] != sep;
      assert (a + b)[1..] == a[1..] + b;
      SplitCharFirst(a + b, sep);
      assert tail[0] == a[1..] + pieces[0] && tail[1..] == pieces[1..];
      assert [a[0]] + (a[1..] + pieces[0]) == a + pieces[0];
    } else {
      assert a + b == b && a + pieces[0] == pieces[0];
      assert [pieces[0]] + pieces[1..] == pieces;
    }
  }

  /** Splitting a join of separator-free pieces gives the pieces back. */
  lemma {:induction false} JoinSplit(parts: seq<string>, sep: char)
    requires |parts| >= 1
    requires forall i :: 0 <= i < |parts| ==> sep !in parts[i]
    ensures Split(Join(parts, sep), sep) == parts
    decreases |parts|
  {
    if |parts| == 1 {
      SplitAfterPrefix(parts[0], "", sep);
      assert parts[0] + "" == parts[0];
    } else {
      var tail := Join(parts[1..], sep);
      JoinSplit(parts[1..], sep);
      assert Split([sep] + tail, sep) == [""] + Split(tail, sep);
      assert parts[0] + [sep] + tail == parts[0] + ([sep] + tail);
      SplitAfterPrefix(parts[0], [sep] + tail, sep);
      assert parts[0] + "" == parts[0];
    }
  }

  /** `l` is the text of `s` after its final separator (all of `s` when it
      has none left of `l`). */
  predicate EndPiece(s: string, l: string, sep: char)
  {
    |l| <= |s| && s[|s| - |l|..] == l && (|l| < |s| ==> s[|s| - |l| - 1] == sep)
  }

  /** The last piece of a split is the text after the final separator (the
      whole string when there is none). */
  lemma {:induction false} SplitLast(s: string, sep: char)
    ensures EndPiece(s, Last(Split(s, sep)), sep)
    decreases |s|
  {
    if |s| > 0 {
      var t := s[1..];
      var l := Last(Split(t, sep));
      SplitLast(t, sep);
      if s[0] == sep || sep in t {
        SplitKeepsLast(s, sep);
        if s[0] != sep {
          PieceShorter(t, l, sep);
        }
        EndPieceCons(s, l, sep);
      } else {
        SplitWhole(s, sep);
      }
    }
  }

  /** With a separator at the front or further on, the first character does
      not reach the last piece. */
  lemma SplitKeepsLast(s: string, sep: char)
    requires |s| > 0 && (s[0] == sep || sep in s[1..])
    ensures Last(Split(s, sep)) == Last(Split(s[1..], sep))
  {
    var rest := Split(s[1..], sep);
    if s[0] == sep {
      SplitSepFirst(s, sep);
      assert Last([""] + rest) == Last(rest);
    } else {
      SplitCharFirst(s, sep);
      assert Last([[s[0]] + rest[0]] + rest[1..]) == Last(rest);
    }
  }

  /** A separator-free end piece of a string that holds a separator is
      shorter than it. */
  lemma PieceShorter(t: string, l: string, sep: char)
    requires EndPiece(t, l, sep) && sep in t && sep !in l
    ensures |l| < |t|
  {
    assert t[0..] == t;
  }

  lemma EndPieceCons(s: string, l: string, sep: char)
    requires |s| > 0 && EndPiece(s[1..], l, sep)
    requires |l| == |s| - 1 ==> s[0] == sep
    ensures EndPiece(s, l, sep)
  {
    assert s[|s| - |l|..] == s[1..][|s| - 1 - |l|..];
    if |l| < |s| - 1 {
      assert s[|s| - |l| - 1] == s[1..][|s| - 1 - |l| - 1];
    }
  }

  /** Without any separator, the split is the whole string. */
  lemma {:induction false} SplitWhole(s: string, sep: char)
    requires sep !in s
    ensures Split(s, sep) == [s]
    decreases |s|
  {
    if |s| > 0 {
      assert s == [s[0]] + s[1..];
      SplitWhole(s[1..], sep);
    }
  }

  /** Python's `t in s` for strings: `t` occurs in `s` as a substring. */
  predicate Contains(s: string, t: string)
    decreases |s|
  {
    t <= s || (|s| > 0 && Contains(s[1..], t))
  }

  /** `t` occurs in `s` starting at index `i`. */
  predicate OccursAt(s: string, t: string, i: int)
  {
    0 <= i <= |s| - |t| && s[i..i + |t|] == t
  }

  lemma {:induction false} ContainsAt(s: string, t: string)
    ensures Contains(s, t) <==> exists i :: OccursAt(s, t, i)
    decreases |s|
  {
    if |s| > 0 {
      ContainsAt(s[1..], t);
      if Contains(s[1..], t) {
        var j :| OccursAt(s[1..], t, j);
        assert s[j + 1..j + 1 + |t|] == s[1..][j..j + |t|];
        assert OccursAt(s, t, j + 1);
      }
      if exists i :: OccursAt(s, t, i) && i >= 1 {
        var i :| OccursAt(s, t, i) && i >= 1;
        assert s[1..][i - 1..i - 1 + |t|] == s[i..i + |t|];
        assert OccursAt(s[1..], t, i - 1);
      }
    }
    if exists i :: OccursAt(s, t, i) && i == 0 {
      assert s[0..|t|] == s[..|t|];
    }
    if t <= s {
      assert s[0..|t|] == t;
      assert OccursAt(s, t, 0);
    }
  }

  predicate IsDigit(c: char) { '0' <= c <= '9' }

  function DigitChar(d: nat): (c: char)
    requires d < 10
    ensures IsDigit(c)
  {
    ('0' as int + d) as char
  }

  /** Python's `str(n)` for a non-negative integer. */
  function ShowNat(n: nat): (s: string)
    ensures |s| >= 1
    ensures forall i :: 0 <= i < |s| ==> IsDigit(s[i])
  {
    if n < 10 then [DigitChar(n)] else ShowNat(n / 10) + [DigitChar(n % 10)]
  }

  predicate AllDigits(s: string) { forall i :: 0 <= i < |s| ==> IsDigit(s[i]) }

  function ParseDigits(s: string): nat
    requires AllDigits(s)
  {
    if s == [] then 0
    else ParseDigits(s[..|s| - 1]) * 10 + (s[|s| - 1] as int - '0' as int)
  }

  /** Python's `int(s)` restricted to plain decimal digits. */
  function ParseNat(s: string): Option<nat>
  {
    if s != [] && AllDigits(s) then Some(ParseDigits(s)) else None
  }

  /** Reading back a rendered natural gives the natural. */
  lemma {:induction false} ParseShowNat(n: nat)
    ensures ParseNat(ShowNat(n)) == Some(n)
  {
    var s := ShowNat(n);
    assert AllDigits(s);
    if n < 10 {
      assert s[..|s| - 1] == [];
      assert s[0] as int - '0' as int == n;
      assert ParseDigits(s) == ParseDigits([]) * 10 + n;
    } else {
      ParseShowNat(n / 10);
      assert s[..|s| - 1] == ShowNat(n / 10);
      assert s[|s| - 1] as int - '0' as int == n % 10;
      assert ParseDigits(s) == (n / 10) * 10 + n % 10;
    }
  }

  /** A rendered natural contains no separator characters. */
  lemma ShowNatHasNo(n: nat, c: char)
    requires !IsDigit(c)
    ensures c !in ShowNat(n)
  {
  }
}
