/** String operations the core relies on: printing an integer as JavaScript
    does, `String.prototype.split` and `Array.prototype.join` on one separator
    character, the layer-name sanitiser `/[^a-z0-9]+/gi -> '_'`, and the
    replacement of every `NaN` token in a reply body by `null`. */
module Text {

  // ---------------------------------------------------------------------------
  // Decimal printing of integers (`'' + n` for an integer n below 10^21)

  predicate IsDigit(c: char)
  {
    '0' <= c <= '9'
  }

  predicate IsDigits(s: string)
  {
    forall i :: 0 <= i < |s| ==> IsDigit(s[i])
  }

  function DigitChar(d: nat): (c: char)
    requires d < 10
    ensures IsDigit(c) && c as int - '0' as int == d
  {
    ('0' as int + d) as char
  }

  /** The decimal digits of `n`, most significant first, without leading zeros. */
  function NatToString(n: nat): (s: string)
    ensures |s| > 0 && IsDigits(s)
    ensures n >= 10 ==> s[0] != '0'
    decreases n
  {
    if n < 10 then [DigitChar(n)] else NatToString(n / 10) + [DigitChar(n % 10)]
  }

  /** The value a string of decimal digits denotes. */
  function DigitsValue(s: string): nat
    requires IsDigits(s)
  {
    if s == [] then 0 else DigitsValue(s[..|s| - 1]) * 10 + (s[|s| - 1] as int - '0' as int)
  }

  lemma {:induction false} NatToStringRoundTrip(n: nat)
    ensures DigitsValue(NatToString(n)) == n
    decreases n
  {
    if n >= 10 {
      NatToStringRoundTrip(n / 10);
      var s := NatToString(n);
      assert s[..|s| - 1] == NatToString(n / 10);
    }
  }

  /** `String(i)`: a minus sign for negative numbers, then the digits. */
  function IntToString(i: int): (s: string)
    ensures |s| > 0
    ensures forall k :: 0 <= k < |s| ==> IsDigit(s[k]) || s[k] == '-'
  {
    if i < 0 then "-" + NatToString(-i) else NatToString(i)
  }

  /** Reads back what `IntToString` prints. */
  function ParseInt(s: string): int
  {
    if |s| > 0 && s[0] == '-' && IsDigits(s[1..]) then 0 - DigitsValue(s[1..])
    else if IsDigits(s) then DigitsValue(s)
    else 0
  }

  lemma IntToStringRoundTrip(i: int)
    ensures ParseInt(IntToString(i)) == i
  {
    if i < 0 {
      NatToStringRoundTrip(-i);
      assert IntToString(i)[1..] == NatToString(-i);
    } else {
      NatToStringRoundTrip(i);
    }
  }

  /** Distinct integers print differently. */
  lemma IntToStringInjective(a: int, b: int)
    requires IntToString(a) == IntToString(b)
    ensures a == b
  {
    IntToStringRoundTrip(a);
    IntToStringRoundTrip(b);
  }

  /** If `x + [c] + y == x' + [c] + y'` and neither `x` nor `x'` holds `c`, the
      pieces are equal: the first `c` separates them. */
  lemma SplitAtFirst(x: string, y: string, x': string, y': string, c: char)
    requires c !in x && c !in x'
    requires x + [c] + y == x' + [c] + y'
    ensures x == x' && y == y'
  {
    var s := x + [c] + y;
    assert s == x' + [c] + y';
    assert s[|x|] == c && s[|x'|] == c;
    assert forall k :: 0 <= k < |x| ==> s[k] == x[k] && s[k] != c;
    assert forall k :: 0 <= k < |x'| ==> s[k] == x'[k] && s[k] != c;
    assert |x| == |x'|;
    assert x == s[..|x|] == x';
    assert y == s[|x| + 1..] == y';
  }

  // ---------------------------------------------------------------------------
  // split(',') and join(',')

  /** `s.split(sep)` for a one-character separator: the pieces between
      separators, in order; the empty string splits into one empty piece. */
  function Split(s: string, sep: char): (parts: seq<string>)
    ensures |parts| >= 1
    ensures forall i :: 0 <= i < |parts| ==> sep !in parts[i]
  {
    if s == [] then [""]
    else
      var rest := Split(s[1..], sep);
      if s[0] == sep then [""] + rest else [[s[0]] + rest[0]] + rest[1..]
  }

  /** `parts.join(sep)`. */
  function Join(parts: seq<string>, sep: char): string
  {
    if parts == [] then ""
    else if |parts| == 1 then parts[0]
    else parts[0] + [sep] + Join(parts[1..], sep)
  }

  /** Joining the pieces of a split gives the original text back. */
  lemma {:induction false} JoinSplit(s: string, sep: char)
    ensures Join(Split(s, sep), sep) == s
  {
    if s != [] {
      JoinSplit(s[1..], sep);
      var rest := Split(s[1..], sep);
      if s[0] == sep {
        assert Split(s, sep) == [""] + rest;
        assert s == [sep] + s[1..];
      } else {
        var parts := Split(s, sep);
        assert parts == [[s[0]] + rest[0]] + rest[1..];
        if |rest| == 1 {
          assert Join(rest, sep) == rest[0];
        } else {
          assert Join(rest, sep) == rest[0] + [sep] + Join(rest[1..], sep);
          assert parts[1..] == rest[1..];
        }
        assert s == [s[0]] + s[1..];
      }
    }
  }

  lemma {:induction false} SplitWithout(p: string, sep: char)
    requires sep !in p
    ensures Split(p, sep) == [p]
  {
    if p != [] {
      SplitWithout(p[1..], sep);
      assert [p[0]] + p[1..] == p;
    }
  }

  lemma {:induction false} SplitAfterPiece(p: string, t: string, sep: char)
    requires sep !in p
    ensures Split(p + [sep] + t, sep) == [p] + Split(t, sep)
  {
    if p == [] {
      assert p + [sep] + t == [sep] + t;
      assert ([sep] + t)[1..] == t;
    } else {
      var s := p + [sep] + t;
      assert s[0] == p[0];
      assert s[1..] == p[1..] + [sep] + t;
      SplitAfterPiece(p[1..], t, sep);
      assert [p[0]] + p[1..] == p;
    }
  }

  /** Splitting a join of separator-free pieces gives the pieces back. */
  lemma {:induction false} SplitJoin(parts: seq<string>, sep: char)
    requires |parts| >= 1
    requires forall i :: 0 <= i < |parts| ==> sep !in parts[i]
    ensures Split(Join(parts, sep), sep) == parts
  {
    if |parts| == 1 {
      SplitWithout(parts[0], sep);
    } else {
      SplitJoin(parts[1..], sep);
      SplitAfterPiece(parts[0], Join(parts[1..], sep), sep);
      assert [parts[0]] + parts[1..] == parts;
    }
  }

  // ---------------------------------------------------------------------------
  // Layer-name sanitising: name.replace(/([^a-z0-9]+)/gi, '_')

  /** The characters the case-insensitive class `[a-z0-9]` accepts. */
  predicate IsAlnum(c: char)
  {
    'a' <= c <= 'z' || 'A' <= c <= 'Z' || '0' <= c <= '9'
  }

  /** The shape of a sanitised string: only letters, digits and `_`, never
      two `_` in a row, and no leading `_` when the scan began inside a run. */
  ghost predicate Clean(r: string, inRun: bool)
  {
    (forall i :: 0 <= i < |r| ==> IsAlnum(r[i]) || r[i] == '_')
    && (forall i, j :: 0 <= i < j < |r| && j == i + 1 ==> r[i] != '_' || r[j] != '_')
    && (inRun && |r| > 0 ==> r[0] != '_')
  }

  /** Scans `s` left to right; `inRun` says the previous character already
      started a run of non-alphanumerics, which has been replaced by one `_`. */
  function SanitizeFrom(s: string, inRun: bool): (r: string)
    ensures |r| <= |s|
  {
    if s == [] then ""
    else if IsAlnum(s[0]) then [s[0]] + SanitizeFrom(s[1..], false)
    else if inRun then SanitizeFrom(s[1..], true)
    else "_" + SanitizeFrom(s[1..], true)
  }

  lemma {:induction false} SanitizeFromIsClean(s: string, inRun: bool)
    ensures Clean(SanitizeFrom(s, inRun), inRun)
  {
    if s != [] {
      var next := !IsAlnum(s[0]);
      var rest := SanitizeFrom(s[1..], next);
      SanitizeFromIsClean(s[1..], next);
      var r := SanitizeFrom(s, inRun);
      if IsAlnum(s[0]) || !inRun {
        assert r[1..] == rest;
      } else {
        assert r == rest;
      }
    }
  }

  /** Every maximal run of characters outside `[A-Za-z0-9]` becomes one `_`. */
  function Sanitize(name: string): (r: string)
    ensures forall i :: 0 <= i < |r| ==> IsAlnum(r[i]) || r[i] == '_'
    ensures forall i, j :: 0 <= i < j < |r| && j == i + 1 ==> r[i] != '_' || r[j] != '_'
    ensures |r| <= |name|
  {
    SanitizeFromIsClean(name, false);
    SanitizeFrom(name, false)
  }

  /** The alphanumeric characters of a string, in order. */
  function AlnumOnly(s: string): string
  {
    if s == [] then "" else (if IsAlnum(s[0]) then [s[0]] else "") + AlnumOnly(s[1..])
  }

  lemma {:induction false} SanitizeFromKeepsAlnum(s: string, inRun: bool)
    ensures AlnumOnly(SanitizeFrom(s, inRun)) == AlnumOnly(s)
  {
    if s != [] {
      SanitizeFromKeepsAlnum(s[1..], !IsAlnum(s[0]));
      var r := SanitizeFrom(s, inRun);
      var rest := SanitizeFrom(s[1..], !IsAlnum(s[0]));
      if IsAlnum(s[0]) {
        assert r == [s[0]] + rest;
        assert r[1..] == rest;
      } else if !inRun {
        assert r == "_" + rest;
        assert r[1..] == rest;
      }
    }
  }

  /** Sanitising keeps every letter and digit, in order, and drops nothing else
      but the runs it replaces. */
  lemma SanitizeKeepsAlnum(name: string)
    ensures AlnumOnly(Sanitize(name)) == AlnumOnly(name)
  {
    SanitizeFromKeepsAlnum(name, false);
  }

  lemma {:induction false} SanitizeFromClean(t: string, inRun: bool)
    requires Clean(t, inRun)
    ensures SanitizeFrom(t, inRun) == t
  {
    if t != [] {
      assert forall i :: 0 <= i < |t[1..]| ==> t[1..][i] == t[i + 1];
      if IsAlnum(t[0]) {
        SanitizeFromClean(t[1..], false);
      } else {
        assert t[0] == '_' && !inRun;
        assert |t| > 1 ==> t[1] != '_';
        SanitizeFromClean(t[1..], true);
      }
      assert [t[0]] + t[1..] == t;
    }
  }

  /** Sanitising a sanitised name changes nothing. */
  lemma SanitizeIdempotent(name: string)
    ensures Sanitize(Sanitize(name)) == Sanitize(name)
  {
    SanitizeFromIsClean(name, false);
    SanitizeFromClean(Sanitize(name), false);
  }

  /** Whether a scan that started with `inRun` ends inside a run after `a`. */
  function RunAfter(a: string, inRun: bool): bool
  {
    if a == [] then inRun else !IsAlnum(a[|a| - 1])
  }

  lemma SanitizeFromStep(s: string, inRun: bool)
    requires s != []
    ensures SanitizeFrom(s, inRun)
      == (if IsAlnum(s[0]) then [s[0]] else if inRun then "" else "_") + SanitizeFrom(s[1..], !IsAlnum(s[0]))
  {
  }

  /** The sanitiser works piece by piece: a run that straddles the boundary
      still yields one `_`. */
  lemma {:induction false} SanitizeFromAppend(a: string, b: string, inRun: bool)
    ensures SanitizeFrom(a + b, inRun) == SanitizeFrom(a, inRun) + SanitizeFrom(b, RunAfter(a, inRun))
  {
    if a == [] {
      assert a + b == b;
    } else {
      var ab := a + b;
      var next := !IsAlnum(a[0]);
      var head := if IsAlnum(a[0]) then [a[0]] else if inRun then "" else "_";
      SanitizeFromAppend(a[1..], b, next);
      assert ab[0] == a[0];
      assert ab[1..] == a[1..] + b;
      assert RunAfter(a[1..], next) == RunAfter(a, inRun);
      calc {
        SanitizeFrom(ab, inRun);
        { SanitizeFromStep(ab, inRun); }
        head + SanitizeFrom(a[1..] + b, next);
        head + (SanitizeFrom(a[1..], next) + SanitizeFrom(b, RunAfter(a, inRun)));
        (head + SanitizeFrom(a[1..], next)) + SanitizeFrom(b, RunAfter(a, inRun));
        { SanitizeFromStep(a, inRun); }
        SanitizeFrom(a, inRun) + SanitizeFrom(b, RunAfter(a, inRun));
      }
    }
  }

  predicate IsWord(w: string)
  {
    w != [] && forall i :: 0 <= i < |w| ==> IsAlnum(w[i])
  }

  lemma {:induction false} SanitizeFromWord(w: string, inRun: bool)
    requires forall i :: 0 <= i < |w| ==> IsAlnum(w[i])
    ensures SanitizeFrom(w, inRun) == w
  {
    if w != [] {
      SanitizeFromWord(w[1..], false);
      SanitizeFromStep(w, inRun);
      assert [w[0]] + w[1..] == w;
    }
  }

  /** A word is copied as it is, and ends any run before it. */
  lemma SanitizeWordThen(w: string, rest: string, inRun: bool)
    requires IsWord(w)
    ensures SanitizeFrom(w + rest, inRun) == w + SanitizeFrom(rest, false)
  {
    SanitizeFromAppend(w, rest, inRun);
    SanitizeFromWord(w, inRun);
  }

  /** A whole run of non-alphanumerics outside a run becomes exactly one `_`. */
  lemma {:induction false} SanitizeRunThen(sep: string, rest: string, inRun: bool)
    requires sep != [] && forall i :: 0 <= i < |sep| ==> !IsAlnum(sep[i])
    ensures SanitizeFrom(sep + rest, inRun) == (if inRun then "" else "_") + SanitizeFrom(rest, true)
  {
    var s := sep + rest;
    assert s[0] == sep[0] && s[1..] == sep[1..] + rest;
    SanitizeFromStep(s, inRun);
    if |sep| > 1 {
      SanitizeRunThen(sep[1..], rest, true);
    } else {
      assert s[1..] == rest;
    }
  }

  lemma SanitizeParenthesised(c: string)
    requires IsWord(c)
    ensures SanitizeFrom(" (" + (c + ")"), false) == "_" + c + "_"
  {
    SanitizeRunThen(")", "", false);
    assert ")" + "" == ")";
    SanitizeWordThen(c, ")", true);
    SanitizeRunThen(" (", c + ")", false);
  }

  lemma SanitizeSeparatorsTail(b: string, c: string)
    requires IsWord(b) && IsWord(c)
    ensures SanitizeFrom(" / " + (b + (" (" + (c + ")"))), false) == "_" + b + "_" + c + "_"
  {
    var t := " (" + (c + ")");
    SanitizeParenthesised(c);
    SanitizeWordThen(b, t, true);
    SanitizeRunThen(" / ", b + t, false);
  }

  /** The shape of "Rail / Objects (NL)" -> "Rail_Objects_NL_": each run of
      punctuation and spaces between words becomes a single underscore. */
  lemma SanitizeSeparators(a: string, b: string, c: string)
    requires IsWord(a) && IsWord(b) && IsWord(c)
    ensures Sanitize(a + " / " + b + " (" + c + ")") == a + "_" + b + "_" + c + "_"
  {
    var s := " / " + (b + (" (" + (c + ")")));
    SanitizeSeparatorsTail(b, c);
    SanitizeWordThen(a, s, false);
    assert a + " / " + b + " (" + c + ")" == a + s;
  }

  // ---------------------------------------------------------------------------
  // body.replace(/NaN/g, 'null')

  predicate NaNAt(s: string, i: int)
  {
    0 <= i && i + 2 < |s| && s[i] == 'N' && s[i + 1] == 'a' && s[i + 2] == 'N'
  }

  predicate HasNaN(s: string)
  {
    exists i :: 0 <= i < |s| && NaNAt(s, i)
  }

  /** Left-to-right replacement of every non-overlapping `NaN` by `null`. */
  function ReplaceNaN(s: string): (r: string)
    ensures s == [] <==> r == []
    ensures s != [] ==> r[0] == (if NaNAt(s, 0) then 'n' else s[0])
    ensures !HasNaN(r)
    ensures !HasNaN(s) ==> r == s
  {
    if s == [] then ""
    else if NaNAt(s, 0) then
      var rest := ReplaceNaN(s[3..]);
      var r := "null" + rest;
      assert forall i :: NaNAt(r, i) ==> i >= 4 && NaNAt(rest, i - 4);
      assert !HasNaN(s) ==> false;
      r
    else
      var rest := ReplaceNaN(s[1..]);
      var r := [s[0]] + rest;
      assert forall i :: NaNAt(r, i) && i >= 1 ==> NaNAt(rest, i - 1);
      assert |s| > 1 ==> rest[0] == (if NaNAt(s[1..], 0) then 'n' else s[1]);
      assert |s| > 2 && !NaNAt(s[1..], 0) ==> rest == [s[1]] + ReplaceNaN(s[2..]);
      assert |s| > 2 && !NaNAt(s[1..], 0) ==> rest[1] == (if NaNAt(s[2..], 0) then 'n' else s[2]);
      assert !NaNAt(r, 0);
      assert !HasNaN(s) ==> !HasNaN(s[1..]) by {
        if HasNaN(s[1..]) {
          var i :| 0 <= i < |s[1..]| && NaNAt(s[1..], i);
          assert s[1..][i] == s[i + 1] && s[1..][i + 1] == s[i + 2] && s[1..][i + 2] == s[i + 3];
          assert NaNAt(s, i + 1);
        }
      }
      r
  }
  /** A `NaN` in the tail of a text is a `NaN` of the text. */
  lemma NaNInTail(x: string)
    requires x != []
    ensures HasNaN(x[1..]) ==> HasNaN(x)
  {
    if HasNaN(x[1..]) {
      var i :| 0 <= i < |x[1..]| && NaNAt(x[1..], i);
      assert NaNAt(x, i + 1);
    }
  }

  /** One step of the replacement at a `NaN`. */
  lemma ReplaceNaNAt(b: string)
    ensures ReplaceNaN("NaN" + b) == "null" + ReplaceNaN(b)
  {
    var s := "NaN" + b;
    assert NaNAt(s, 0);
    assert s[3..] == b;
  }

  /** One step of the replacement at any other character. */
  lemma ReplaceNaNOther(s: string)
    requires s != [] && !NaNAt(s, 0)
    ensures ReplaceNaN(s) == [s[0]] + ReplaceNaN(s[1..])
  {
  }

  /** The first `NaN` becomes `null`, the text before it is kept, and the
      replacement goes on after it: with `!HasNaN(s) ==> ReplaceNaN(s) == s`
      this fixes the result for every text. */
  lemma {:induction false} ReplaceNaNFirst(a: string, b: string)
    requires !HasNaN(a + "Na")
    ensures ReplaceNaN(a + "NaN" + b) == a + "null" + ReplaceNaN(b)
    decreases |a|
  {
    if a == [] {
      assert a + "NaN" + b == "NaN" + b;
      ReplaceNaNAt(b);
    } else {
      var s := a + "NaN" + b;
      var an := a + "Na";
      assert s[0] == an[0] && s[1] == an[1] && s[2] == an[2];
      assert !NaNAt(an, 0);
      var a' := a[1..];
      assert an[1..] == a' + "Na";
      NaNInTail(an);
      assert s[1..] == a' + "NaN" + b;
      ReplaceNaNOther(s);
      ReplaceNaNFirst(a', b);
      assert [a[0]] + (a' + "null" + ReplaceNaN(b)) == a + "null" + ReplaceNaN(b);
    }
  }

  /** `"xNaN"` becomes `"xnull"`: the text before a `NaN` is kept. */
  lemma ReplaceNaNExample()
    ensures ReplaceNaN("xNaN") == "xnull"
  {
    var an := "xNa";
    assert !NaNAt(an, 0);
    assert !HasNaN(an);
    ReplaceNaNFirst("x", "");
    assert "x" + "NaN" + "" == "xNaN";
  }


}
