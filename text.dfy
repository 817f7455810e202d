/**
 * The few Python `str` operations the scraper relies on, written out on
 * `seq<char>`: prefix and suffix tests, substring search, `split` on a
 * separator character, `split()` on whitespace, `strip()` and slicing.
 */
module Text {

  /** Python 3's `str.isspace` on a single character. */
  predicate IsSpace(c: char)
  {
    if c <= ' ' then c == ' ' || ('\t' <= c <= '\r') || ('\U{1C}' <= c <= '\U{1F}')
    else if c <= '\U{A0}' then c == '\U{85}' || c == '\U{A0}'
    else
      || c == '\U{1680}' || ('\U{2000}' <= c <= '\U{200A}') || c == '\U{2028}' || c == '\U{2029}'
      || c == '\U{202F}' || c == '\U{205F}' || c == '\U{3000}'
  }

  /** `s.startswith(p)` */
  predicate StartsWith(s: string, p: string)
  {
    |p| <= |s| && s[..|p|] == p
  }

  /** `s.endswith(p)` */
  predicate EndsWith(s: string, p: string)
  {
    |p| <= |s| && s[|s| - |p|..] == p
  }

  /** `sub` occurs in `s` starting at index `i`. */
  predicate At(s: string, sub: string, i: int)
  {
    0 <= i <= |s| - |sub| && s[i..i + |sub|] == sub
  }

  /** `s.find(sub, i)`: the first index from `i` on where `sub` occurs, or -1. */
  function FindFrom(s: string, sub: string, i: nat): (r: int)
    ensures r == -1 || (i <= r && At(s, sub, r))
    ensures forall j :: i <= j && (r == -1 || j < r) ==> !At(s, sub, j)
    decreases |s| - i
  {
    if i + |sub| > |s| then -1
    else if s[i..i + |sub|] == sub then i
    else FindFrom(s, sub, i + 1)
  }

  /** `s.find(sub)`: the first index where `sub` occurs, or -1. */
  function Find(s: string, sub: string): (r: int)
    ensures r == -1 || At(s, sub, r)
    ensures forall j :: 0 <= j && (r == -1 || j < r) ==> !At(s, sub, j)
  {
    FindFrom(s, sub, 0)
  }

  /** `sub in s` */
  predicate Contains(s: string, sub: string)
  {
    Find(s, sub) != -1
  }

  /** `sub in s` holds exactly when `sub` occurs at some index of `s`. */
  lemma ContainsIffAt(s: string, sub: string)
    ensures Contains(s, sub) <==> exists i :: At(s, sub, i)
  {
  }

  /** `s[:stop]`, where a negative `stop` counts from the end. */
  function PrefixTo(s: string, stop: int): (r: string)
    ensures |r| <= |s| && r == s[..|r|]
    ensures 0 <= stop <= |s| ==> |r| == stop
    ensures stop < 0 && -stop <= |s| ==> |r| == |s| + stop
    ensures stop > |s| ==> r == s
    ensures stop < -|s| ==> r == ""
  {
    if stop >= 0 then s[..if stop <= |s| then stop else |s|]
    else s[..if -stop <= |s| then |s| + stop else 0]
  }

  /** `s[start:stop]` for non-negative bounds, clamped to the string as Python does. */
  function Slice(s: string, start: nat, stop: nat): (r: string)
    ensures start <= stop <= |s| ==> r == s[start..stop]
    ensures start <= |s| <= stop ==> r == s[start..]
    ensures stop <= start || |s| <= start ==> r == ""
  {
    var hi := if stop <= |s| then stop else |s|;
    var lo := if start <= hi then start else hi;
    s[lo..hi]
  }

  /** `s.split(sep)` for a one-character separator. */
  function Split(s: string, sep: char): (r: seq<string>)
    ensures |r| >= 1
    ensures forall k :: 0 <= k < |r| ==> sep !in r[k]
    ensures |r[0]| <= |s| && r[0] == s[..|r[0]|]
    ensures |r[0]| < |s| ==> s[|r[0]|] == sep
    ensures |r| >= 2 ==> |r[0]| < |s|
    decreases |s|
  {
    if s == [] then [""]
    else
      var rest := Split(s[1..], sep);
      if s[0] == sep then [""] + rest
      else [[s[0]] + rest[0]] + rest[1..]
  }

  /** `sep.join(parts)` */
  function Join(parts: seq<string>, sep: char): string
  {
    if parts == [] then ""
    else if |parts| == 1 then parts[0]
    else parts[0] + [sep] + Join(parts[1..], sep)
  }

  /** Splitting on `sep` and joining back with `sep` gives the original string. */
  lemma {:induction false} JoinSplit(s: string, sep: char)
    ensures Join(Split(s, sep), sep) == s
    decreases |s|
  {
    if s != [] {
      JoinSplit(s[1..], sep);
      var rest := Split(s[1..], sep);
      if s[0] == sep {
        assert Split(s, sep) == [""] + rest;
        assert ([""] + rest)[1..] == rest;
      } else {
        var parts := Split(s, sep);
        assert parts[0] == [s[0]] + rest[0];
        if |rest| == 1 {
          assert parts == [[s[0]] + rest[0]];
        } else {
          assert parts[1..] == rest[1..];
          assert Join(rest, sep) == rest[0] + [sep] + Join(rest[1..], sep);
        }
      }
    }
  }

  /** There is a second piece exactly when the separator occurs. */
  lemma {:induction false} SplitHasSecondPiece(s: string, sep: char)
    ensures |Split(s, sep)| >= 2 <==> sep in s
    decreases |s|
  {
    if s != [] {
      SplitHasSecondPiece(s[1..], sep);
      assert sep in s <==> s[0] == sep || sep in s[1..];
    }
  }

  /** `s.lstrip()` */
  function StripLeft(s: string): (r: string)
    ensures |r| <= |s| && r == s[|s| - |r|..]
    ensures forall i :: 0 <= i < |s| - |r| ==> IsSpace(s[i])
    ensures r != [] ==> !IsSpace(r[0])
    decreases |s|
  {
    if |s| > 0 && IsSpace(s[0]) then StripLeft(s[1..]) else s
  }

  /** `s.rstrip()` */
  function StripRight(s: string): (r: string)
    ensures |r| <= |s| && r == s[..|r|]
    ensures forall i :: |r| <= i < |s| ==> IsSpace(s[i])
    ensures r != [] ==> !IsSpace(r[|r| - 1])
    decreases |s|
  {
    if |s| > 0 && IsSpace(s[|s| - 1]) then StripRight(s[..|s| - 1]) else s
  }

  /** `s.strip()` */
  function Strip(s: string): (r: string)
  {
    StripRight(StripLeft(s))
  }

  /** `strip()` leaves neither end on whitespace and removes only whitespace. */
  lemma StripTrims(s: string)
    ensures var r := Strip(s);
      && (r != [] ==> !IsSpace(r[0]) && !IsSpace(r[|r| - 1]))
      && (exists i :: && At(s, r, i)
                      && (forall j :: 0 <= j < i ==> IsSpace(s[j]))
                      && (forall j :: i + |r| <= j < |s| ==> IsSpace(s[j])))
  {
    var l := StripLeft(s);
    TrimmedAt(s, l, StripRight(l));
  }

  /** A prefix `r` of a suffix `l` of `s`, followed in `l` by whitespace only, occurs in `s`
      where `l` starts, followed by whitespace only. */
  lemma TrimmedAt(s: string, l: string, r: string)
    requires |l| <= |s| && l == s[|s| - |l|..]
    requires |r| <= |l| && r == l[..|r|]
    requires forall j :: |r| <= j < |l| ==> IsSpace(l[j])
    ensures At(s, r, |s| - |l|)
    ensures forall j :: |s| - |l| + |r| <= j < |s| ==> IsSpace(s[j])
  {
    var i := |s| - |l|;
    assert s[i..i + |r|] == l[..|r|];
    forall j | i + |r| <= j < |s|
      ensures IsSpace(s[j])
    {
      assert s[j] == l[j - i];
    }
  }

  /** A non-empty run of non-whitespace characters. */
  predicate IsWord(w: string)
  {
    w != [] && forall i :: 0 <= i < |w| ==> !IsSpace(w[i])
  }

  /** The leading run of non-whitespace characters of `s`. */
  function Word(s: string): (w: string)
    ensures |w| <= |s| && w == s[..|w|]
    ensures forall i :: 0 <= i < |w| ==> !IsSpace(w[i])
    ensures |w| < |s| ==> IsSpace(s[|w|])
    ensures |s| > 0 && !IsSpace(s[0]) ==> |w| > 0
    decreases |s|
  {
    if |s| == 0 || IsSpace(s[0]) then "" else [s[0]] + Word(s[1..])
  }

  /** `s.split()`: the maximal runs of non-whitespace characters, in order. */
  function SplitWs(s: string): (r: seq<string>)
    ensures forall k :: 0 <= k < |r| ==> IsWord(r[k])
    decreases |s|
  {
    if s == [] then []
    else if IsSpace(s[0]) then SplitWs(s[1..])
    else
      var w := Word(s);
      [w] + SplitWs(s[|w|..])
  }

  /** `s` with every whitespace character deleted. */
  function NonSpace(s: string): string
  {
    if s == [] then "" else (if IsSpace(s[0]) then "" else [s[0]]) + NonSpace(s[1..])
  }

  function Concat(parts: seq<string>): string
  {
    if parts == [] then "" else parts[0] + Concat(parts[1..])
  }

  lemma {:induction false} NonSpaceAppend(a: string, b: string)
    ensures NonSpace(a + b) == NonSpace(a) + NonSpace(b)
    decreases |a|
  {
    if a != [] {
      assert (a + b)[0] == a[0];
      assert (a + b)[1..] == a[1..] + b;
      NonSpaceAppend(a[1..], b);
      var h := if IsSpace(a[0]) then "" else [a[0]];
      assert NonSpace(a + b) == h + NonSpace(a[1..] + b);
      assert NonSpace(a) == h + NonSpace(a[1..]);
    } else {
      assert a + b == b;
    }
  }

  lemma {:induction false} NonSpaceOfWord(s: string)
    requires forall i :: 0 <= i < |s| ==> !IsSpace(s[i])
    ensures NonSpace(s) == s
    decreases |s|
  {
    if s != [] { NonSpaceOfWord(s[1..]); }
  }

  /** The tokens of `split()` put back together are the string minus its whitespace. */
  lemma {:induction false} SplitWsLosesOnlySpace(s: string)
    ensures Concat(SplitWs(s)) == NonSpace(s)
    decreases |s|
  {
    if s != [] {
      if IsSpace(s[0]) {
        SplitWsLosesOnlySpace(s[1..]);
      } else {
        var w := Word(s);
        assert s == w + s[|w|..];
        NonSpaceAppend(w, s[|w|..]);
        NonSpaceOfWord(w);
        SplitWsLosesOnlySpace(s[|w|..]);
        assert Concat(SplitWs(s)) == w + Concat(SplitWs(s[|w|..]));
      }
    }
  }

  /** A run of non-whitespace characters begins at index `i` of `s`. */
  predicate StartsWord(s: string, i: nat)
    requires i < |s|
  {
    !IsSpace(s[i]) && (i == 0 || IsSpace(s[i - 1]))
  }

  /** The indices from `i` on where a run of non-whitespace characters begins, in increasing
      order. */
  function RunsFrom(s: string, i: nat): seq<nat>
    requires i <= |s|
    decreases |s| - i
  {
    if i == |s| then []
    else if StartsWord(s, i) then [i] + RunsFrom(s, i + 1)
    else RunsFrom(s, i + 1)
  }

  /** Every index in `r` is one from `i` on where a run of `s` begins. */
  predicate AllStartWords(s: string, i: nat, r: seq<nat>)
  {
    forall k :: 0 <= k < |r| ==> i <= r[k] < |s| && StartsWord(s, r[k])
  }

  /** `r` is strictly increasing. */
  predicate Increasing(r: seq<nat>)
  {
    forall a, b :: 0 <= a < b < |r| ==> r[a] < r[b]
  }

  /** Every index from `i` on where a run of `s` begins is in `r`. */
  predicate HasAllStarts(s: string, i: nat, r: seq<nat>)
  {
    forall j :: i <= j < |s| && StartsWord(s, j) ==> j in r
  }

  /** Every index `RunsFrom(s, i)` lists is one from `i` on where a run begins. */
  lemma {:induction false} RunsFromSound(s: string, i: nat)
    requires i <= |s|
    ensures AllStartWords(s, i, RunsFrom(s, i))
    decreases |s| - i
  {
    if i < |s| {
      RunsFromSound(s, i + 1);
      var r, r' := RunsFrom(s, i), RunsFrom(s, i + 1);
      if StartsWord(s, i) {
        assert r == [i] + r';
        forall k | 0 <= k < |r| ensures i <= r[k] < |s| && StartsWord(s, r[k]) {
          if k > 0 {
            assert r[k] == r'[k - 1];
          }
        }
      } else {
        assert r == r';
      }
    }
  }

  /** `RunsFrom(s, i)` is strictly increasing. */
  lemma {:induction false} RunsFromIncreasing(s: string, i: nat)
    requires i <= |s|
    ensures Increasing(RunsFrom(s, i))
    decreases |s| - i
  {
    if i < |s| {
      RunsFromIncreasing(s, i + 1);
      var r, r' := RunsFrom(s, i), RunsFrom(s, i + 1);
      if StartsWord(s, i) {
        RunsFromSound(s, i + 1);
        assert r == [i] + r';
        forall a, b | 0 <= a < b < |r| ensures r[a] < r[b] {
          assert r[b] == r'[b - 1];
          if a > 0 {
            assert r[a] == r'[a - 1];
          }
        }
      } else {
        assert r == r';
      }
    }
  }

  /** `RunsFrom(s, i)` misses no index from `i` on where a run begins. */
  lemma {:induction false} RunsFromComplete(s: string, i: nat)
    requires i <= |s|
    ensures HasAllStarts(s, i, RunsFrom(s, i))
    decreases |s| - i
  {
    if i < |s| {
      RunsFromComplete(s, i + 1);
    }
  }

  /** `RunsFrom(s, i)` lists every index from `i` on where a run begins, and nothing else,
      in strictly increasing order. */
  lemma RunsFromExact(s: string, i: nat)
    requires i <= |s|
    ensures AllStartWords(s, i, RunsFrom(s, i))
    ensures Increasing(RunsFrom(s, i))
    ensures HasAllStarts(s, i, RunsFrom(s, i))
  {
    RunsFromSound(s, i);
    RunsFromIncreasing(s, i);
    RunsFromComplete(s, i);
  }

  /** Inside a run of non-whitespace characters no run begins: from just after the start of
      `w`, found at `i` in `s`, the next run begins at or after the end of `w`. */
  lemma {:induction false} RunsInsideWord(s: string, w: string, i: nat, m: nat)
    requires At(s, w, i) && forall k :: 0 <= k < |w| ==> !IsSpace(w[k])
    requires i < m <= i + |w|
    ensures RunsFrom(s, m) == RunsFrom(s, i + |w|)
    decreases i + |w| - m
  {
    if m < i + |w| {
      assert s[m - 1] == w[m - 1 - i] && s[m] == w[m - i];
      RunsInsideWord(s, w, i, m + 1);
    }
  }

  /** Token `t[k]` of `s` occurs at index `p[k]` and ends where a run of non-whitespace
      characters ends: at whitespace or at the end of `s`. */
  predicate TokensAt(s: string, t: seq<string>, p: seq<nat>)
  {
    |t| == |p| &&
    forall k :: 0 <= k < |t| ==>
      At(s, t[k], p[k]) && (p[k] + |t[k]| == |s| || IsSpace(s[p[k] + |t[k]|]))
  }

  /** A run in front of the located tokens extends them by one. */
  lemma TokensAtCons(s: string, w: string, i: nat, t: seq<string>, p: seq<nat>)
    requires At(s, w, i) && (i + |w| == |s| || IsSpace(s[i + |w|]))
    requires TokensAt(s, t, p)
    ensures TokensAt(s, [w] + t, [i] + p)
  {
    var t', p' := [w] + t, [i] + p;
    forall k | 0 <= k < |t'|
      ensures At(s, t'[k], p'[k]) && (p'[k] + |t'[k]| == |s| || IsSpace(s[p'[k] + |t'[k]|]))
    {
      if k > 0 {
        assert t'[k] == t[k - 1] && p'[k] == p[k - 1];
      }
    }
  }

  /** Whitespace at `i` begins no run and is dropped by `split()`. */
  lemma RunsSkipSpace(s: string, i: nat)
    requires i < |s| && IsSpace(s[i])
    ensures SplitWs(s[i..]) == SplitWs(s[i + 1..])
    ensures RunsFrom(s, i) == RunsFrom(s, i + 1)
  {
    assert s[i..][0] == s[i] && s[i..][1..] == s[i + 1..];
  }

  /** A token of `s[i..].split()` beginning at `i` is the whole run there: it occurs at `i`
      and ends at whitespace or at the end of `s`. */
  lemma SplitWsTakeWord(s: string, i: nat)
    requires i < |s| && !IsSpace(s[i])
    ensures var w := Word(s[i..]);
      i + |w| <= |s| && At(s, w, i) && (i + |w| == |s| || IsSpace(s[i + |w|])) &&
      SplitWs(s[i..]) == [w] + SplitWs(s[i + |w|..])
  {
    var u := s[i..];
    var w := Word(u);
    assert u[0] == s[i] && u[|w|..] == s[i + |w|..] && s[i..i + |w|] == w;
    assert i + |w| < |s| ==> s[i + |w|] == u[|w|];
  }

  /** After a run beginning at `i`, the next run begins at or after its end. */
  lemma RunsTakeWord(s: string, i: nat)
    requires i < |s| && StartsWord(s, i)
    ensures var n := i + |Word(s[i..])|;
      n <= |s| && RunsFrom(s, i) == [i] + RunsFrom(s, n)
  {
    var w := Word(s[i..]);
    assert s[i..][0] == s[i];
    assert At(s, w, i) by { assert s[i..i + |w|] == s[i..][..|w|]; }
    RunsInsideWord(s, w, i, i + 1);
  }

  /** Whitespace at `i` adds no token and no run to those located from `i + 1`. */
  lemma {:induction false} SplitWsRunsSpace(s: string, i: nat)
    requires i < |s| && IsSpace(s[i])
    ensures TokensAt(s, SplitWs(s[i..]), RunsFrom(s, i))
    decreases |s| - i, 0
  {
    RunsSkipSpace(s, i);
    SplitWsRunsFrom(s, i + 1);
  }

  /** A run beginning at `i` is the first located token of `s[i..]`, in front of those located
      from its end. */
  lemma {:induction false} SplitWsRunsWord(s: string, i: nat)
    requires i < |s| && StartsWord(s, i)
    ensures TokensAt(s, SplitWs(s[i..]), RunsFrom(s, i))
    decreases |s| - i, 0
  {
    var w := Word(s[i..]);
    var n := i + |w|;
    SplitWsTakeWord(s, i);
    RunsTakeWord(s, i);
    SplitWsRunsFrom(s, n);
    TokensAtCons(s, w, i, SplitWs(s[n..]), RunsFrom(s, n));
  }

  /** `s[i..].split()` has one token per run beginning at `i` or later, and each token is the
      whole run. At `i` itself a run of `s[i..]` begins exactly when one of `s` does. */
  lemma {:induction false} SplitWsRunsFrom(s: string, i: nat)
    requires i <= |s|
    requires i == 0 || i == |s| || IsSpace(s[i - 1]) || IsSpace(s[i])
    ensures TokensAt(s, SplitWs(s[i..]), RunsFrom(s, i))
    decreases |s| - i, 1
  {
    if i == |s| {
      assert s[i..] == [];
    } else if IsSpace(s[i]) {
      SplitWsRunsSpace(s, i);
    } else {
      SplitWsRunsWord(s, i);
    }
  }

  /** The indices where a run of non-whitespace characters begins. */
  function RunStarts(s: string): seq<nat>
  {
    RunsFrom(s, 0)
  }

  /** `split()` gives exactly the maximal runs of non-whitespace characters, in order: the
      `k`-th token occurs at the `k`-th index where a run begins (`RunStarts` lists them all,
      increasing) and ends where that run ends, at whitespace or at the end of the text. */
  lemma SplitWsRuns(s: string)
    ensures TokensAt(s, SplitWs(s), RunStarts(s))
  {
    assert s[0..] == s;
    SplitWsRunsFrom(s, 0);
  }
}
