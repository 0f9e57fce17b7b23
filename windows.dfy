/** The paging arithmetic of `parseResult`. From a cursor `fmin` and the
    feature count `fmax`, one request asks for the objects `fmin < id < top`
    and its file is named after `lower` and `upper`; the cursor then moves on
    by 1000 while `fmin + 1000 < fmax + 1`. */
module Paging {

  const PageSize: int := 1000

  /** The bounds computed for one request. */
  datatype Window = Window(fmin: int, top: int, lower: int, upper: int)
  {
    /** The object ids the window asks for: `fmin < id < top`. */
    predicate Selects(id: int)
    {
      fmin < id < top
    }

    predicate IsEmpty()
    {
      lower > upper
    }
  }

  function Min(x: int, y: int): int
  {
    if x <= y then x else y
  }

  /** `top`, `lower` and `upper` as the code computes them, including the clamp
      of `upper` to `fmax`, which never fires. */
  function WindowAt(fmin: int, fmax: int): (w: Window)
    ensures w.fmin == fmin && w.lower == fmin + 1
    ensures w.top == Min(fmin + PageSize, fmax) + 1
    ensures w.upper == w.top - 1
    ensures w.upper <= fmax && w.upper - w.lower + 1 <= PageSize
    ensures w.IsEmpty() <==> fmin >= fmax
    ensures forall id :: w.Selects(id) <==> w.lower <= id <= w.upper
  {
    var top := if fmax < fmin + PageSize then fmax + 1 else fmin + PageSize + 1;
    var lower := fmin + 1;
    var upper := top - 1;
    Window(fmin, top, lower, if upper > fmax then fmax else upper)
  }

  /** The continuation test after a successful write, as written. */
  predicate Continues(fmin: int, fmax: int)
  {
    fmin + PageSize < fmax + 1
  }

  /** Every window the cursor loop visits from `fmin` when no step fails. */
  function Windows(fmin: int, fmax: int): (ws: seq<Window>)
    ensures |ws| >= 1 && ws[0] == WindowAt(fmin, fmax)
    decreases fmax - fmin
  {
    [WindowAt(fmin, fmax)] + if Continues(fmin, fmax) then Windows(fmin + PageSize, fmax) else []
  }

  /** The k-th window starts at cursor `fmin + 1000 k`; there are
      `(fmax - fmin) / 1000 + 1` of them, or one when `fmax < fmin`. */
  lemma {:induction false} WindowsShape(fmin: int, fmax: int)
    ensures |Windows(fmin, fmax)| == if fmax < fmin then 1 else (fmax - fmin) / PageSize + 1
    ensures forall k :: 0 <= k < |Windows(fmin, fmax)| ==>
              Windows(fmin, fmax)[k] == WindowAt(fmin + PageSize * k, fmax)
    decreases fmax - fmin
  {
    var ws := Windows(fmin, fmax);
    if Continues(fmin, fmax) {
      var rest := Windows(fmin + PageSize, fmax);
      WindowsShape(fmin + PageSize, fmax);
      assert ws == [WindowAt(fmin, fmax)] + rest;
      assert (fmax - fmin) / PageSize == (fmax - (fmin + PageSize)) / PageSize + 1;
      forall k | 0 <= k < |ws|
        ensures ws[k] == WindowAt(fmin + PageSize * k, fmax)
      {
        if k > 0 {
          assert ws[k] == rest[k - 1];
          assert fmin + PageSize + PageSize * (k - 1) == fmin + PageSize * k;
        }
      }
    } else {
      assert ws == [WindowAt(fmin, fmax)];
    }
  }

  /** The windows tile `fmin + 1 .. fmax` without gaps or overlap: the first
      starts at `fmin + 1`, each starts right after its predecessor ends, and
      the last ends at `fmax`. */
  lemma WindowsContiguous(fmin: int, fmax: int)
    requires fmin <= fmax
    ensures Windows(fmin, fmax)[0].lower == fmin + 1
    ensures forall k :: 0 < k < |Windows(fmin, fmax)| ==>
              Windows(fmin, fmax)[k].lower == Windows(fmin, fmax)[k - 1].upper + 1
    ensures Windows(fmin, fmax)[|Windows(fmin, fmax)| - 1].upper == fmax
  {
    WindowsShape(fmin, fmax);
    var ws := Windows(fmin, fmax);
    var n := |ws|;
    forall k | 0 < k < n
      ensures ws[k].lower == ws[k - 1].upper + 1
    {
      assert ws[k - 1] == WindowAt(fmin + PageSize * (k - 1), fmax);
      assert ws[k] == WindowAt(fmin + PageSize * k, fmax);
      assert PageSize * (k - 1) <= fmax - fmin by {
        assert k - 1 < (fmax - fmin) / PageSize;
      }
    }
    assert ws[n - 1] == WindowAt(fmin + PageSize * (n - 1), fmax);
    assert PageSize * (n - 1) <= fmax - fmin;
  }

  /** Later windows lie strictly above earlier ones. */
  lemma WindowsIncrease(fmin: int, fmax: int, a: int, b: int)
    requires 0 <= a < b < |Windows(fmin, fmax)|
    ensures Windows(fmin, fmax)[a].lower < Windows(fmin, fmax)[b].lower
    ensures Windows(fmin, fmax)[a].upper < Windows(fmin, fmax)[b].lower
  {
    WindowsShape(fmin, fmax);
    assert Windows(fmin, fmax)[a] == WindowAt(fmin + PageSize * a, fmax);
    assert Windows(fmin, fmax)[b] == WindowAt(fmin + PageSize * b, fmax);
    assert PageSize * a + PageSize <= PageSize * b;
  }

  /** Coverage: each object id in `fmin + 1 .. fmax` is selected by the window
      at index `(id - fmin - 1) / 1000`, and by no other. */
  lemma WindowsCover(fmin: int, fmax: int, id: int)
    requires fmin < id <= fmax
    ensures (id - fmin - 1) / PageSize < |Windows(fmin, fmax)|
    ensures forall k :: 0 <= k < |Windows(fmin, fmax)| ==>
              (Windows(fmin, fmax)[k].Selects(id) <==> k == (id - fmin - 1) / PageSize)
  {
    WindowsShape(fmin, fmax);
    var ws := Windows(fmin, fmax);
    var q := (id - fmin - 1) / PageSize;
    assert q <= (fmax - fmin) / PageSize;
    forall k | 0 <= k < |ws|
      ensures ws[k].Selects(id) <==> k == q
    {
      assert ws[k] == WindowAt(fmin + PageSize * k, fmax);
      if k < q {
        assert PageSize * k + PageSize <= PageSize * q;
      } else if k > q {
        assert PageSize * q + PageSize <= PageSize * k;
      }
    }
  }

  /** Termination measure of the cursor loop: each continuation moves the
      cursor up by 1000 and keeps it at most `fmax`. */
  lemma ContinuesAdvances(fmin: int, fmax: int)
    requires Continues(fmin, fmax)
    ensures fmin < fmin + PageSize <= fmax
    ensures fmax - (fmin + PageSize) < fmax - fmin
  {
  }

  /** From offset 0 with `fmax = 2500` the windows are [1, 1000], [1001, 2000]
      and [2001, 2500]. */
  lemma WindowsExample()
    ensures |Windows(0, 2500)| == 3
    ensures Windows(0, 2500)[0].lower == 1 && Windows(0, 2500)[0].upper == 1000
    ensures Windows(0, 2500)[1].lower == 1001 && Windows(0, 2500)[1].upper == 2000
    ensures Windows(0, 2500)[2].lower == 2001 && Windows(0, 2500)[2].upper == 2500
  {
    WindowsShape(0, 2500);
  }

  // ----- The cursor loop -----

  /** The steps of a fail-stop cursor loop: for each window in turn its fetch
      `fetches[i]` and what became of it, `steps[i]`. The loop goes on only
      after a window that is `ok`, and after the last window comes `final`. */
  function Trace<E>(fetches: seq<E>, steps: seq<E>, oks: seq<bool>, final: E): (r: seq<E>)
    requires |fetches| == |steps| == |oks| >= 1
    ensures |r| >= 2 && r[0] == fetches[0] && r[1] == steps[0]
  {
    [fetches[0], steps[0]]
      + if !oks[0] then []
        else if |oks| > 1 then Trace(fetches[1..], steps[1..], oks[1..], final)
        else [final]
  }

  /** Window by window: as long as the earlier windows were `ok`, step `2j`
      is the fetch of window `j` and step `2j + 1` what became of it; a window
      that is not `ok` is the last one. */
  lemma {:induction false} TraceWindow<E>(fetches: seq<E>, steps: seq<E>, oks: seq<bool>, final: E, j: nat)
    requires |fetches| == |steps| == |oks| && j < |oks|
    requires forall i :: 0 <= i < j ==> oks[i]
    ensures 2 * j + 1 < |Trace(fetches, steps, oks, final)|
    ensures Trace(fetches, steps, oks, final)[2 * j] == fetches[j]
    ensures Trace(fetches, steps, oks, final)[2 * j + 1] == steps[j]
    ensures !oks[j] ==> |Trace(fetches, steps, oks, final)| == 2 * j + 2
  {
    if j > 0 {
      assert oks[0];
      var r := Trace(fetches, steps, oks, final);
      var rest := Trace(fetches[1..], steps[1..], oks[1..], final);
      assert r == [fetches[0], steps[0]] + rest;
      assert forall i :: 0 <= i < j - 1 ==> oks[1..][i];
      TraceWindow(fetches[1..], steps[1..], oks[1..], final, j - 1);
      assert r[2 * j] == rest[2 * (j - 1)];
      assert r[2 * j + 1] == rest[2 * (j - 1) + 1];
    }
  }

  /** Conversely, whatever is at position `2b + 1` is what became of window
      `b`, and every window before it was `ok`. */
  lemma {:induction false} TraceAt<E>(fetches: seq<E>, steps: seq<E>, oks: seq<bool>, final: E, b: nat)
    requires |fetches| == |steps| == |oks| >= 1
    requires 2 * b + 1 < |Trace(fetches, steps, oks, final)|
    ensures b < |oks| && forall i :: 0 <= i < b ==> oks[i]
    ensures Trace(fetches, steps, oks, final)[2 * b + 1] == steps[b]
  {
    if b > 0 {
      var r := Trace(fetches, steps, oks, final);
      assert oks[0] && |oks| > 1;
      var rest := Trace(fetches[1..], steps[1..], oks[1..], final);
      assert r == [fetches[0], steps[0]] + rest;
      assert r[2 * b + 1] == rest[2 * (b - 1) + 1];
      TraceAt(fetches[1..], steps[1..], oks[1..], final, b - 1);
      forall i | 0 <= i < b
        ensures oks[i]
      {
        if i > 0 {
          assert oks[i] == oks[1..][i - 1];
        }
      }
    }
  }

  /** When every window is `ok` the loop visits each window once and then
      reaches `final`, once. */
  lemma {:induction false} TraceComplete<E>(fetches: seq<E>, steps: seq<E>, oks: seq<bool>, final: E)
    requires |fetches| == |steps| == |oks| >= 1
    requires forall i :: 0 <= i < |oks| ==> oks[i]
    ensures |Trace(fetches, steps, oks, final)| == 2 * |oks| + 1
    ensures Trace(fetches, steps, oks, final)[2 * |oks|] == final
  {
    assert oks[0];
    if |oks| > 1 {
      var rest := Trace(fetches[1..], steps[1..], oks[1..], final);
      assert Trace(fetches, steps, oks, final) == [fetches[0], steps[0]] + rest;
      assert forall i :: 0 <= i < |oks| - 1 ==> oks[1..][i];
      TraceComplete(fetches[1..], steps[1..], oks[1..], final);
    }
  }

  /** How many windows at the front are `ok`. */
  function LeadingOks(oks: seq<bool>): (m: nat)
    ensures m <= |oks|
    ensures forall i :: 0 <= i < m ==> oks[i]
    ensures m < |oks| ==> !oks[m]
  {
    if oks == [] || !oks[0] then 0 else 1 + LeadingOks(oks[1..])
  }

  /** Fail-stop: the loop runs through exactly the windows that are `ok` at
      the front, and one more. It stops right after the first window that is
      not `ok`; only when there is none does it reach `final`. */
  lemma {:induction false} TraceLength<E>(fetches: seq<E>, steps: seq<E>, oks: seq<bool>, final: E)
    requires |fetches| == |steps| == |oks| >= 1
    ensures LeadingOks(oks) < |oks| ==>
              |Trace(fetches, steps, oks, final)| == 2 * LeadingOks(oks) + 2
              && Trace(fetches, steps, oks, final)[2 * LeadingOks(oks) + 1] == steps[LeadingOks(oks)]
    ensures LeadingOks(oks) == |oks| ==>
              |Trace(fetches, steps, oks, final)| == 2 * |oks| + 1
              && Trace(fetches, steps, oks, final)[2 * |oks|] == final
  {
    var r := Trace(fetches, steps, oks, final);
    if oks[0] && |oks| > 1 {
      var rest := Trace(fetches[1..], steps[1..], oks[1..], final);
      assert r == [fetches[0], steps[0]] + rest;
      TraceLength(fetches[1..], steps[1..], oks[1..], final);
      assert LeadingOks(oks) == 1 + LeadingOks(oks[1..]);
      if LeadingOks(oks) == |oks| {
        assert r[2 * |oks|] == rest[2 * |oks[1..]|];
      } else {
        assert r[2 * LeadingOks(oks) + 1] == rest[2 * LeadingOks(oks[1..]) + 1];
      }
    }
  }

  /** The cursor sequence unrolled by one window. */
  lemma WindowsStep(fmin: int, fmax: int)
    ensures Continues(fmin, fmax) ==> Windows(fmin, fmax)[1..] == Windows(fmin + PageSize, fmax)
    ensures !Continues(fmin, fmax) ==> |Windows(fmin, fmax)| == 1
  {
  }

  // ----- The trailing empty window -----

  /** As written, when `fmax - fmin` is a positive multiple of 1000 the loop
      asks for one more window after the one ending at `fmax`, and that window
      is empty. */
  lemma TrailingEmptyWindow(fmin: int, fmax: int)
    requires fmin < fmax && (fmax - fmin) % PageSize == 0
    ensures Windows(fmin, fmax)[|Windows(fmin, fmax)| - 1].IsEmpty()
    ensures Windows(fmin, fmax)[|Windows(fmin, fmax)| - 2].upper == fmax
  {
    WindowsShape(fmin, fmax);
    var n := |Windows(fmin, fmax)|;
    assert PageSize * (n - 1) == fmax - fmin;
  }

  /** From offset 0 with `fmax = 1000`: a full window and then an empty one. */
  lemma TrailingEmptyWindowExample()
    ensures |Windows(0, 1000)| == 2
    ensures Windows(0, 1000)[1].lower == 1001 && Windows(0, 1000)[1].upper == 1000
  {
    WindowsShape(0, 1000);
  }

  /** The evidently intended continuation test: another window only while
      objects above the next cursor remain. */
  predicate ContinuesIntended(fmin: int, fmax: int)
  {
    fmin + PageSize < fmax
  }

  function WindowsIntended(fmin: int, fmax: int): (ws: seq<Window>)
    ensures |ws| >= 1 && ws[0] == WindowAt(fmin, fmax)
    decreases fmax - fmin
  {
    [WindowAt(fmin, fmax)] + if ContinuesIntended(fmin, fmax) then WindowsIntended(fmin + PageSize, fmax) else []
  }

  /** With the intended test there are `ceil((fmax - fmin) / 1000)` windows. */
  lemma {:induction false} WindowsIntendedCount(fmin: int, fmax: int)
    requires fmin < fmax
    ensures |WindowsIntended(fmin, fmax)| == (fmax - fmin + PageSize - 1) / PageSize
    decreases fmax - fmin
  {
    if ContinuesIntended(fmin, fmax) {
      WindowsIntendedCount(fmin + PageSize, fmax);
      CeilStep(fmax - fmin);
    }
  }

  lemma CeilStep(d: int)
    requires d > PageSize
    ensures (d + PageSize - 1) / PageSize == (d - PageSize + PageSize - 1) / PageSize + 1
  {
  }

  /** With the intended test the k-th window is at cursor `fmin + 1000 k`. */
  lemma {:induction false} WindowsIntendedShape(fmin: int, fmax: int)
    ensures forall k :: 0 <= k < |WindowsIntended(fmin, fmax)| ==>
              WindowsIntended(fmin, fmax)[k] == WindowAt(fmin + PageSize * k, fmax)
    decreases fmax - fmin
  {
    var ws := WindowsIntended(fmin, fmax);
    if ContinuesIntended(fmin, fmax) {
      var rest := WindowsIntended(fmin + PageSize, fmax);
      WindowsIntendedShape(fmin + PageSize, fmax);
      assert ws == [WindowAt(fmin, fmax)] + rest;
      forall k | 0 <= k < |ws|
        ensures ws[k] == WindowAt(fmin + PageSize * k, fmax)
      {
        if k > 0 {
          assert ws[k] == rest[k - 1];
          assert fmin + PageSize + PageSize * (k - 1) == fmin + PageSize * k;
        }
      }
    } else {
      assert ws == [WindowAt(fmin, fmax)];
    }
  }

  /** With the intended test no window is empty unless the whole range is, and
      the last one still ends at `fmax`. */
  lemma WindowsIntendedNonEmpty(fmin: int, fmax: int)
    requires fmin < fmax
    ensures forall k :: 0 <= k < |WindowsIntended(fmin, fmax)| ==>
              !WindowsIntended(fmin, fmax)[k].IsEmpty()
    ensures WindowsIntended(fmin, fmax)[|WindowsIntended(fmin, fmax)| - 1].upper == fmax
  {
    WindowsIntendedCount(fmin, fmax);
    WindowsIntendedShape(fmin, fmax);
    var ws := WindowsIntended(fmin, fmax);
    var n := |ws|;
    forall k | 0 <= k < n
      ensures !ws[k].IsEmpty()
    {
      assert ws[k] == WindowAt(fmin + PageSize * k, fmax);
      assert PageSize * k < fmax - fmin by {
        assert k < (fmax - fmin + PageSize - 1) / PageSize;
      }
    }
    assert ws[n - 1] == WindowAt(fmin + PageSize * (n - 1), fmax);
    assert fmax - fmin <= PageSize * n;
  }
}
