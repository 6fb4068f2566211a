/** The cue-name heuristic shared by all three interpreters: the regular
    expression `^(.+?)\s+(\d+(?:\.\d+)?)\s+(.+)$`, written out by hand.

    Character classes are the ASCII ones: `.` is any character except line
    feed and carriage return, `\s` is space, tab, line feed, vertical tab,
    form feed or carriage return, `\d` is `0`..`9`.

    `IsCueMatch(s, i, n1, n2, k)` is the declarative reading of one way the
    pattern can match `s`: group 1 is `s[..i]`, the first whitespace run is
    `s[i..n1]`, group 2 is `s[n1..n2]`, the second whitespace run is
    `s[n2..k]` and group 3 is `s[k..]`. The lazy group 1 makes the engine
    report the match with the shortest group 1; for that group 1 the number
    is unique (`TailUnique`). `CueNumberOf` returns groups 1 and 2 of exactly
    that match. */
module CuePattern {
  import opened Wrappers
  import opened Text

  /** `.`: every character but a line terminator. */
  predicate IsDot(ch: char) {
    ch != '\n' && ch != '\r'
  }

  /** `\s`, restricted to ASCII. */
  predicate IsWs(ch: char) {
    ch == ' ' || ch == '\t' || ch == '\n' || ch == '\U{0B}' || ch == '\U{0C}' || ch == '\r'
  }

  predicate AllDots(t: string) {
    forall j :: 0 <= j < |t| ==> IsDot(t[j])
  }

  predicate AllWs(t: string) {
    forall j :: 0 <= j < |t| ==> IsWs(t[j])
  }

  /** `\d+(?:\.\d+)?`: digits, optionally a point and more digits. */
  predicate IsNumeral(t: string) {
    && |t| > 0
    && IsDigit(t[0])
    && IsDigit(t[|t| - 1])
    && (forall j :: 0 <= j < |t| ==> IsDigit(t[j]) || t[j] == '.')
    && (forall x, y :: 0 <= x < y < |t| && t[x] == '.' ==> t[y] != '.')
  }

  /** Everything after group 1 matches: whitespace, the number, whitespace,
      a non-empty rest of dot characters up to the end. */
  predicate TailMatch(s: string, i: nat, n1: nat, n2: nat, k: nat) {
    && i < n1 < n2 < k < |s|
    && AllWs(s[i..n1])
    && IsNumeral(s[n1..n2])
    && AllWs(s[n2..k])
    && AllDots(s[k..])
  }

  /** The whole pattern matches with group 1 = `s[..i]` and group 2 = `s[n1..n2]`. */
  predicate IsCueMatch(s: string, i: nat, n1: nat, n2: nat, k: nat) {
    && TailMatch(s, i, n1, n2, k)
    && 0 < i
    && AllDots(s[..i])
  }

  /** The end of the whitespace run that starts at `p` (greedy `\s*`). */
  function SkipWs(s: string, p: nat): (q: nat)
    requires p <= |s|
    ensures p <= q <= |s|
    ensures AllWs(s[p..q])
    ensures q < |s| ==> !IsWs(s[q])
    decreases |s| - p
  {
    if p < |s| && IsWs(s[p]) then SkipWs(s, p + 1) else p
  }

  /** The end of the digit run that starts at `p` (greedy `\d*`). */
  function SkipDigits(s: string, p: nat): (q: nat)
    requires p <= |s|
    ensures p <= q <= |s|
    ensures AllDigits(s[p..q])
    ensures q < |s| ==> !IsDigit(s[q])
    decreases |s| - p
  {
    if p < |s| && IsDigit(s[p]) then SkipDigits(s, p + 1) else p
  }

  /** The end of the numeral that starts with the digit at `n1`: the whole
      digit run, and a point with its whole digit run when a digit follows the
      point (the greedy `\d+` and `(?:\.\d+)?`). */
  function NumeralEnd(s: string, n1: nat): (n2: nat)
    requires n1 < |s| && IsDigit(s[n1])
    ensures n1 < n2 <= |s| && IsNumeral(s[n1..n2])
  {
    var d := SkipDigits(s, n1);
    if d + 1 < |s| && s[d] == '.' && IsDigit(s[d + 1]) then
      var n2 := SkipDigits(s, d + 1);
      PointNumeral(s, n1, d, n2);
      n2
    else
      PlainNumeral(s, n1, d);
      d
  }

  lemma PlainNumeral(s: string, n1: nat, d: nat)
    requires n1 < d <= |s| && AllDigits(s[n1..d])
    ensures IsNumeral(s[n1..d])
  {
  }

  lemma PointNumeral(s: string, n1: nat, d: nat, n2: nat)
    requires n1 < d && d + 1 < n2 <= |s|
    requires AllDigits(s[n1..d]) && s[d] == '.' && AllDigits(s[d + 1..n2])
    ensures IsNumeral(s[n1..n2])
  {
    var t := s[n1..n2];
    forall j | 0 <= j < |t| && j != d - n1 ensures IsDigit(t[j]) {
      if j < d - n1 {
        assert t[j] == s[n1..d][j];
      } else {
        assert t[j] == s[d + 1..n2][j - (d - n1) - 1];
      }
    }
  }

  /** Tries to match everything after a group 1 that ends at `i`. Returns the
      ends of the first whitespace run, of the number and of the second
      whitespace run. Whitespace never precedes a digit and a digit or point
      never precedes whitespace, so every run is taken whole, as the engine's
      backtracking settles on. */
  function TryAt(s: string, i: nat): (r: Option<(nat, nat, nat)>)
    requires i <= |s|
    ensures r.Some? ==> TailMatch(s, i, r.value.0, r.value.1, r.value.2)
  {
    var n1 := SkipWs(s, i);
    if n1 == i || n1 == |s| || !IsDigit(s[n1]) then None
    else
      var n2 := NumeralEnd(s, n1);
      var q := SkipWs(s, n2);
      if q == n2 then None
      else if q < |s| then
        if AllDots(s[q..]) then Some((n1, n2, q)) else None
      else if n2 < q - 1 && IsDot(s[q - 1]) then
        WsPrefix(s, n2, q - 1, q);
        Some((n1, n2, q - 1))
      else None
  }

  lemma WsPrefix(s: string, p: nat, e: nat, q: nat)
    requires p <= e <= q <= |s| && AllWs(s[p..q])
    ensures AllWs(s[p..e])
  {
    assert forall j :: 0 <= j < e - p ==> s[p..e][j] == s[p..q][j];
  }

  lemma WsRunEnd(s: string, p: nat, e: nat)
    requires p <= e < |s|
    requires AllWs(s[p..e]) && !IsWs(s[e])
    ensures SkipWs(s, p) == e
  {
    var q := SkipWs(s, p);
    assert forall j :: p <= j < e ==> IsWs(s[j]) by {
      assert forall j :: p <= j < e ==> s[j] == s[p..e][j - p];
    }
    assert forall j :: p <= j < q ==> IsWs(s[j]) by {
      assert forall j :: p <= j < q ==> s[j] == s[p..q][j - p];
    }
  }

  lemma DigitRunEnd(s: string, p: nat, e: nat)
    requires p <= e < |s|
    requires AllDigits(s[p..e]) && !IsDigit(s[e])
    ensures SkipDigits(s, p) == e
  {
    var q := SkipDigits(s, p);
    assert forall j :: p <= j < e ==> IsDigit(s[j]) by {
      assert forall j :: p <= j < e ==> s[j] == s[p..e][j - p];
    }
    assert forall j :: p <= j < q ==> IsDigit(s[j]) by {
      assert forall j :: p <= j < q ==> s[j] == s[p..q][j - p];
    }
  }

  /** A numeral followed by whitespace is exactly what `NumeralEnd` takes. */
  lemma NumeralEndOf(s: string, n1: nat, n2: nat)
    requires n1 < n2 < |s| && IsNumeral(s[n1..n2]) && IsWs(s[n2])
    ensures IsDigit(s[n1]) && NumeralEnd(s, n1) == n2
  {
    var t := s[n1..n2];
    assert forall j :: n1 <= j < n2 ==> s[j] == t[j - n1];
    if x :| n1 <= x < n2 && s[x] == '.' {
      assert forall j :: n1 <= j < n2 && j != x ==> IsDigit(s[j]) by {
        forall j | n1 <= j < n2 && j != x ensures IsDigit(s[j]) {
          if j < x {
            assert t[j - n1] != '.';
          } else {
            assert t[x - n1] == '.';
          }
        }
      }
      DigitRunEnd(s, n1, x);
      DigitRunEnd(s, x + 1, n2);
    } else {
      DigitRunEnd(s, n1, n2);
    }
  }

  /** Whenever the tail can match after group 1, `TryAt` finds it, with the
      same number. */
  lemma TryAtComplete(s: string, i: nat, n1: nat, n2: nat, k: nat)
    requires TailMatch(s, i, n1, n2, k)
    ensures TryAt(s, i).Some?
    ensures TryAt(s, i).value.0 == n1 && TryAt(s, i).value.1 == n2
  {
    assert forall j :: n2 <= j < k ==> IsWs(s[j]) by {
      assert forall j :: n2 <= j < k ==> s[j] == s[n2..k][j - n2];
    }
    assert forall j :: k <= j < |s| ==> IsDot(s[j]) by {
      assert forall j :: k <= j < |s| ==> s[j] == s[k..][j - k];
    }
    NumeralEndOf(s, n1, n2);
    WsRunEnd(s, i, n1);
    var q := SkipWs(s, n2);
    assert k <= q;
    if q < |s| {
      assert forall j :: 0 <= j < |s| - q ==> s[q..][j] == s[q + j];
    }
  }

  /** For a fixed group 1 the rest of the match is determined up to group 3:
      both whitespace runs and the number are the same. */
  lemma TailUnique(s: string, i: nat, n1: nat, n2: nat, k: nat, n1': nat, n2': nat, k': nat)
    requires TailMatch(s, i, n1, n2, k) && TailMatch(s, i, n1', n2', k')
    ensures n1 == n1' && n2 == n2'
  {
    TryAtComplete(s, i, n1, n2, k);
    TryAtComplete(s, i, n1', n2', k');
  }

  /** The lazy search for group 1: candidate ends `i`, `i + 1`, ... */
  function Search(s: string, i: nat): (r: Option<(nat, nat, nat, nat)>)
    requires 0 < i <= |s| + 1
    requires AllDots(s[..i - 1])
    ensures r.Some? ==> i <= r.value.0 && IsCueMatch(s, r.value.0, r.value.1, r.value.2, r.value.3)
    decreases |s| - i
  {
    if i >= |s| then None
    else if !IsDot(s[i - 1]) then None
    else
      assert AllDots(s[..i]) by {
        assert forall j :: 0 <= j < i - 1 ==> s[..i][j] == s[..i - 1][j];
      }
      match TryAt(s, i)
      case Some((n1, n2, k)) => Some((i, n1, n2, k))
      case None => Search(s, i + 1)
  }

  lemma {:induction false} SearchComplete(s: string, i: nat, j: nat, n1: nat, n2: nat, k: nat)
    requires 0 < i <= |s| + 1
    requires AllDots(s[..i - 1])
    requires IsCueMatch(s, j, n1, n2, k) && i <= j
    ensures Search(s, i).Some? && Search(s, i).value.0 <= j
    decreases |s| - i
  {
    assert i < |s|;
    assert IsDot(s[i - 1]) by { assert s[i - 1] == s[..j][i - 1]; }
    if TryAt(s, i).None? {
      if i == j {
        TryAtComplete(s, i, n1, n2, k);
      }
      assert AllDots(s[..i]) by {
        assert forall x :: 0 <= x < i - 1 ==> s[..i][x] == s[..i - 1][x];
      }
      SearchComplete(s, i + 1, j, n1, n2, k);
    }
  }

  /** Groups 1 and 2 of the regular expression's match, or `None` when it
      does not match. Group 1 is non-empty, group 2 is a numeral (so never
      empty and never the `"--"` sentinel). */
  function CueNumberOf(s: string): (r: Option<(string, string)>)
    ensures r.Some? ==> IsNumeral(r.value.1) && r.value.1 != "--"
    ensures r.Some? ==> r.value.0 != [] && AllDots(r.value.0)
    ensures r.Some? ==> exists i: nat, n1: nat, n2: nat, k: nat :: IsCueMatch(s, i, n1, n2, k) && r.value == (s[..i], s[n1..n2])
  {
    match Search(s, 1)
    case Some((i, n1, n2, k)) =>
      assert IsCueMatch(s, i, n1, n2, k);
      Some((s[..i], s[n1..n2]))
    case None => None
  }

  /** The matcher reports no match exactly when the pattern cannot match. */
  lemma CueNumberOfNone(s: string)
    ensures CueNumberOf(s).None? <==> forall i: nat, n1: nat, n2: nat, k: nat :: !IsCueMatch(s, i, n1, n2, k)
  {
    if exists i: nat, n1: nat, n2: nat, k: nat :: IsCueMatch(s, i, n1, n2, k) {
      var i: nat, n1: nat, n2: nat, k: nat :| IsCueMatch(s, i, n1, n2, k);
      SearchComplete(s, 1, i, n1, n2, k);
    }
  }

  /** When a match exists, the matcher returns the one with the shortest
      group 1 (the lazy `.+?`), with its group 2. */
  lemma CueNumberOfLeftmost(s: string, i: nat, n1: nat, n2: nat, k: nat)
    requires IsCueMatch(s, i, n1, n2, k)
    requires forall j: nat, a: nat, b: nat, c: nat :: IsCueMatch(s, j, a, b, c) ==> i <= j
    ensures CueNumberOf(s) == Some((s[..i], s[n1..n2]))
  {
    SearchComplete(s, 1, i, n1, n2, k);
    var r := Search(s, 1).value;
    assert r.0 == i;
    TailUnique(s, i, n1, n2, k, r.1, r.2, r.3);
  }
  /** A name, one space, a number, one space and a rest: when every
      whitespace character inside the name is followed by a character that
      is neither whitespace nor a digit, group 1 is the whole name and
      group 2 the number. */
  lemma NameNumberRest(name: string, num: string, rest: string)
    requires name != [] && AllDots(name) && !IsWs(name[|name| - 1])
    requires forall j :: 0 <= j < |name| - 1 && IsWs(name[j]) ==> !IsWs(name[j + 1]) && !IsDigit(name[j + 1])
    requires IsNumeral(num)
    requires rest != [] && AllDots(rest)
    ensures CueNumberOf(name + " " + num + " " + rest) == Some((name, num))
  {
    var s := name + " " + num + " " + rest;
    var i, n1 := |name|, |name| + 1;
    var n2 := n1 + |num|;
    var k := n2 + 1;
    assert s[..i] == name && s[i..n1] == " " && s[n1..n2] == num && s[n2..k] == " " && s[k..] == rest;
    assert IsCueMatch(s, i, n1, n2, k);
    forall j: nat, a: nat, b: nat, c: nat | IsCueMatch(s, j, a, b, c)
      ensures i <= j
    {
      assert IsWs(s[j]) by { assert s[j..a][0] == s[j]; }
      assert IsDigit(s[a]) by { assert s[a..b][0] == s[a]; }
      assert forall x :: j <= x < a ==> IsWs(s[x]) by {
        assert forall x :: j <= x < a ==> s[j..a][x - j] == s[x];
      }
      assert IsWs(s[j + 1]) || IsDigit(s[j + 1]);
      assert forall x :: 0 <= x < |name| ==> s[x] == name[x];
    }
    CueNumberOfLeftmost(s, i, n1, n2, k);
  }

  /** The example the handler's comments give: `"Song Name 9 Verse 2 /
      Description"` has cue number `9`, after the name `"Song Name"`. */
  lemma SongNameExample()
    ensures CueNumberOf("Song Name 9 Verse 2 / Description") == Some(("Song Name", "9"))
  {
    assert "Song Name 9 Verse 2 / Description" == "Song Name" + " " + "9" + " " + "Verse 2 / Description";
    assert IsNumeral("9");
    NameNumberRest("Song Name", "9", "Verse 2 / Description");
  }
}
