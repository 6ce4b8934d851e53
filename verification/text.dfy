/** Python's `str.split(sep)`, `str.strip()` and the word wrapping of arch
    labels built on them. */
module Text {
  import opened Common

  /** `c.isspace()`: the characters Python treats as whitespace. */
  predicate IsSpace(c: char)
  {
    var n := c as int;
    (9 <= n <= 13) || (28 <= n <= 32) || n == 0x85 || n == 0xA0 || n == 0x1680 ||
    (0x2000 <= n <= 0x200A) || n == 0x2028 || n == 0x2029 || n == 0x202F ||
    n == 0x205F || n == 0x3000
  }

  /** A word with no whitespace in it and at least one character. */
  predicate Plain(w: string)
  {
    |w| > 0 && forall i :: 0 <= i < |w| ==> !IsSpace(w[i])
  }

  // ------------------------------------------------------------- strip

  /** `s.lstrip()`. */
  function TrimStart(s: string): (r: string)
    ensures |r| <= |s| && r == s[|s| - |r|..]
    ensures forall i :: 0 <= i < |s| - |r| ==> IsSpace(s[i])
    ensures r == [] || !IsSpace(r[0])
    decreases |s|
  {
    if s != [] && IsSpace(s[0]) then TrimStart(s[1..]) else s
  }

  /** `s.rstrip()`. */
  function TrimEnd(s: string): (r: string)
    ensures |r| <= |s| && r == s[..|r|]
    ensures forall i :: |r| <= i < |s| ==> IsSpace(s[i])
    ensures r == [] || !IsSpace(r[|r| - 1])
    decreases |s|
  {
    if s != [] && IsSpace(s[|s| - 1]) then TrimEnd(s[..|s| - 1]) else s
  }

  /** `s.strip()`: `s` without its leading and trailing whitespace. */
  function Strip(s: string): (r: string)
    ensures |r| <= |s|
    ensures r == [] || (!IsSpace(r[0]) && !IsSpace(r[|r| - 1]))
  {
    TrimEnd(TrimStart(s))
  }

  /** Text that already starts and ends with non-whitespace is its own strip. */
  lemma StripTight(s: string)
    requires s == [] || (!IsSpace(s[0]) && !IsSpace(s[|s| - 1]))
    ensures Strip(s) == s
  {
  }

  lemma {:induction false} TrimStartSnoc(s: string, c: char)
    requires exists k :: 0 <= k < |s| && !IsSpace(s[k])
    ensures TrimStart(s + [c]) == TrimStart(s) + [c]
    decreases |s|
  {
    if IsSpace(s[0]) {
      var k :| 0 <= k < |s| && !IsSpace(s[k]);
      assert k > 0;
      assert (s + [c])[1..] == s[1..] + [c];
      assert !IsSpace(s[1..][k - 1]);
      TrimStartSnoc(s[1..], c);
    }
  }

  lemma {:induction false} TrimStartAllSpace(s: string, c: char)
    requires forall k :: 0 <= k < |s| ==> IsSpace(s[k])
    requires IsSpace(c)
    ensures TrimStart(s + [c]) == [] && TrimStart(s) == []
    decreases |s|
  {
    if s != [] {
      assert (s + [c])[1..] == s[1..] + [c];
      TrimStartAllSpace(s[1..], c);
    }
  }

  /** One more trailing whitespace character does not change the strip. */
  lemma StripSnocSpace(s: string, c: char)
    requires IsSpace(c)
    ensures Strip(s + [c]) == Strip(s)
  {
    var t := TrimStart(s);
    if t != [] {
      var k := |s| - |t|;
      assert s[k] == t[0];
      TrimStartSnoc(s, c);
      assert (t + [c])[..|t|] == t;
    } else {
      TrimStartAllSpace(s, c);
    }
  }

  // ------------------------------------------------------- split / join

  /** `s.split(sep)` for a one-character separator: the pieces between the
      separators, empty pieces included; the empty text gives one empty piece. */
  function SplitOn(s: string, sep: char): (r: seq<string>)
    ensures |r| >= 1
    ensures forall i :: 0 <= i < |r| ==> sep !in r[i]
    decreases |s|
  {
    if s == [] then [[]]
    else
      var front := SplitOn(s[..|s| - 1], sep);
      if s[|s| - 1] == sep then front + [[]]
      else front[..|front| - 1] + [front[|front| - 1] + [s[|s| - 1]]]
  }

  /** `sep.join(ws)`. */
  function JoinWith(ws: seq<string>, sep: char): string
    requires |ws| >= 1
    decreases |ws|
  {
    if |ws| == 1 then ws[0] else JoinWith(ws[..|ws| - 1], sep) + [sep] + ws[|ws| - 1]
  }

  /** Joining the pieces of a split gives the text back. */
  lemma {:induction false} JoinSplit(s: string, sep: char)
    ensures JoinWith(SplitOn(s, sep), sep) == s
    decreases |s|
  {
    if s != [] {
      var init, c := s[..|s| - 1], s[|s| - 1];
      var front := SplitOn(init, sep);
      JoinSplit(init, sep);
      assert s == init + [c];
      var r := SplitOn(s, sep);
      if c == sep {
        assert r[..|r| - 1] == front;
        assert JoinWith(r, sep) == JoinWith(front, sep) + [sep] + [];
      } else {
        var n := |front|;
        if n == 1 {
          assert r == [front[0] + [c]];
        } else {
          assert r[..n - 1] == front[..n - 1];
          assert JoinWith(front, sep) == JoinWith(front[..n - 1], sep) + [sep] + front[n - 1];
          assert JoinWith(r, sep) == JoinWith(front[..n - 1], sep) + [sep] + (front[n - 1] + [c]);
        }
      }
    }
  }

  lemma {:induction false} SplitAppendPiece(x: string, w: string, sep: char)
    requires sep !in w
    ensures SplitOn(x + [sep] + w, sep) == SplitOn(x, sep) + [w]
    decreases |w|
  {
    if w == [] {
      assert (x + [sep] + w)[..|x + [sep] + w| - 1] == x;
    } else {
      var w' := w[..|w| - 1];
      assert (x + [sep] + w)[..|x| + |w|] == x + [sep] + w';
      SplitAppendPiece(x, w', sep);
      assert w == w' + [w[|w| - 1]];
    }
  }

  lemma {:induction false} SplitSingle(w: string, sep: char)
    requires sep !in w
    ensures SplitOn(w, sep) == [w]
    decreases |w|
  {
    if w != [] {
      assert w[..|w| - 1] + [w[|w| - 1]] == w;
      SplitSingle(w[..|w| - 1], sep);
    }
  }

  /** Splitting words joined by a separator none of them contains gives the
      words back. */
  lemma {:induction false} SplitJoin(ws: seq<string>, sep: char)
    requires |ws| >= 1
    requires forall i :: 0 <= i < |ws| ==> sep !in ws[i]
    ensures SplitOn(JoinWith(ws, sep), sep) == ws
    decreases |ws|
  {
    if |ws| == 1 {
      SplitSingle(ws[0], sep);
    } else {
      var n := |ws|;
      SplitJoin(ws[..n - 1], sep);
      SplitAppendPiece(JoinWith(ws[..n - 1], sep), ws[n - 1], sep);
      assert ws[..n - 1] + [ws[n - 1]] == ws;
    }
  }

  // --------------------------------------------------------- wrapping

  /** The loop state of `wrapped_text`: the text built so far and the number
      of words since the last line break. */
  datatype WrapState = WrapState(acc: string, counter: nat)

  /** `counter >= wrap_words`, with `None` standing for `np.inf`. */
  predicate LimitReached(counter: nat, limit: Option<real>)
  {
    limit.Some? && counter as real >= limit.value
  }

  /** One turn of the loop: append the word and a space; once the counter
      reaches the limit, strip what was built, end the line, reset. */
  function WrapStep(st: WrapState, w: string, limit: Option<real>): (r: WrapState)
    ensures LimitReached(st.counter + 1, limit) ==> r == WrapState(Strip(st.acc + w + " ") + "\n", 0)
    ensures !LimitReached(st.counter + 1, limit) ==> r == WrapState(st.acc + w + " ", st.counter + 1)
  {
    var acc := st.acc + w + " ";
    if LimitReached(st.counter + 1, limit) then WrapState(Strip(acc) + "\n", 0)
    else WrapState(acc, st.counter + 1)
  }

  /** The loop state after the words `ws`. */
  function WrapAll(ws: seq<string>, limit: Option<real>): WrapState
    decreases |ws|
  {
    if ws == [] then WrapState("", 0)
    else WrapStep(WrapAll(ws[..|ws| - 1], limit), ws[|ws| - 1], limit)
  }

  /** `ArchLabel.wrapped_text` for the label text `text` and `wrap_words`
      `limit` (`None` is `np.inf`): a limit of zero leaves the text as it
      is; otherwise the space-separated words are laid out with a line break
      after every `limit` words and the result is stripped. */
  function Wrapped(text: string, limit: Option<real>): string
  {
    if limit == Some(0.0) then text
    else Strip(WrapAll(SplitOn(text, ' '), limit).acc)
  }

  /** The loop of `wrapped_text`. */
  method WrapText(text: string, limit: Option<real>) returns (r: string)
    ensures r == Wrapped(text, limit)
  {
    if limit == Some(0.0) {
      return text;
    }
    var wordList := SplitOn(text, ' ');
    var adjusted := "";
    var counter: nat := 0;
    var i := 0;
    while i < |wordList|
      invariant 0 <= i <= |wordList|
      invariant WrapState(adjusted, counter) == WrapAll(wordList[..i], limit)
    {
      ghost var before := WrapState(adjusted, counter);
      var w := wordList[i];
      adjusted := adjusted + w;
      adjusted := adjusted + " ";
      counter := counter + 1;
      if LimitReached(counter, limit) {
        adjusted := Strip(adjusted);
        adjusted := adjusted + "\n";
        counter := 0;
      }
      assert WrapState(adjusted, counter) == WrapStep(before, w, limit);
      assert wordList[..i + 1][..i] == wordList[..i];
      i := i + 1;
    }
    assert wordList[..i] == wordList;
    return Strip(adjusted);
  }

  /** Without a limit (`np.inf`) wrapping only strips the text. */
  lemma WrappedUnlimited(text: string)
    ensures Wrapped(text, None) == Strip(text)
  {
    var ws := SplitOn(text, ' ');
    UnlimitedAcc(ws);
    JoinSplit(text, ' ');
    StripSnocSpace(text, ' ');
  }

  lemma {:induction false} UnlimitedAcc(ws: seq<string>)
    requires |ws| >= 1
    ensures WrapAll(ws, None).acc == JoinWith(ws, ' ') + " "
    decreases |ws|
  {
    if |ws| > 1 {
      UnlimitedAcc(ws[..|ws| - 1]);
    }
  }

  /** The character that follows word `j` when lines hold `k` words. */
  function Separator(j: nat, k: nat): char
    requires k >= 1
  {
    if (j + 1) % k == 0 then '\n' else ' '
  }

  /** Plain words laid out with a line break after every `k` words and a
      space between the others. */
  function Laid(ws: seq<string>, k: nat): string
    requires |ws| >= 1 && k >= 1
    decreases |ws|
  {
    if |ws| == 1 then ws[0]
    else Laid(ws[..|ws| - 1], k) + [Separator(|ws| - 2, k)] + ws[|ws| - 1]
  }

  lemma {:induction false} LaidEnds(ws: seq<string>, k: nat)
    requires |ws| >= 1 && k >= 1
    requires forall i :: 0 <= i < |ws| ==> Plain(ws[i])
    ensures var l := Laid(ws, k);
      Plain(ws[0]) && Plain(ws[|ws| - 1]) && |l| > 0 && l[0] == ws[0][0] && l[|l| - 1] == ws[|ws| - 1][|ws[|ws| - 1]| - 1]
    decreases |ws|
  {
    if |ws| > 1 {
      LaidEnds(ws[..|ws| - 1], k);
    }
  }

  lemma SmallMultiple(d: int, k: int)
    requires k > 0 && -k < d * k < k
    ensures d == 0
  {
  }

  /** `a % k` is the remainder of any split `a == q * k + r` with `0 <= r < k`. */
  lemma ModUnique(a: int, k: int, q: int, r: int)
    requires k > 0 && 0 <= r < k && a == q * k + r
    ensures a % k == r
  {
    var q0 := a / k;
    assert a == q0 * k + a % k;
    assert (q - q0) * k == a % k - r;
    SmallMultiple(q - q0, k);
  }

  lemma ModStep(m: nat, k: nat)
    requires k >= 1
    ensures m % k + 1 == k ==> (m + 1) % k == 0
    ensures m % k + 1 < k ==> (m + 1) % k == m % k + 1
  {
    var q := m / k;
    assert m == q * k + m % k;
    if m % k + 1 == k {
      ModUnique(m + 1, k, q + 1, 0);
    } else {
      ModUnique(m + 1, k, q, m % k + 1);
    }
  }

  lemma GridStep(ws: seq<string>, k: nat)
    requires |ws| >= 2 && k >= 1
    requires forall i :: 0 <= i < |ws| ==> Plain(ws[i])
    requires WrapAll(ws[..|ws| - 1], Some(k as real)) ==
      WrapState(Laid(ws[..|ws| - 1], k) + [Separator(|ws| - 2, k)], (|ws| - 1) % k)
    ensures WrapAll(ws, Some(k as real)) ==
      WrapState(Laid(ws, k) + [Separator(|ws| - 1, k)], |ws| % k)
  {
    var front, w := ws[..|ws| - 1], ws[|ws| - 1];
    var m := |front|;
    var limit := Some(k as real);
    var st := WrapAll(front, limit);
    var line := Laid(front, k) + [Separator(m - 1, k)] + w;
    assert Laid(ws, k) == line;
    assert st.acc + w + " " == line + " ";
    ModStep(m, k);
    if LimitReached(st.counter + 1, limit) {
      LaidEnds(front, k);
      assert line[0] == front[0][0];
      assert line[|line| - 1] == w[|w| - 1];
      StripSnocSpace(line, ' ');
      StripTight(line);
    }
  }

  lemma {:induction false} GridAcc(ws: seq<string>, k: nat)
    requires |ws| >= 1 && k >= 1
    requires forall i :: 0 <= i < |ws| ==> Plain(ws[i])
    ensures WrapAll(ws, Some(k as real)) ==
      WrapState(Laid(ws, k) + [Separator(|ws| - 1, k)], |ws| % k)
    decreases |ws|
  {
    var n := |ws|;
    if n == 1 {
      assert ws == [ws[0]];
      GridFirst(ws[0], k);
    } else {
      GridAcc(ws[..n - 1], k);
      GridStep(ws, k);
    }
  }

  /** The loop state after the first word. */
  lemma GridFirst(w: string, k: nat)
    requires k >= 1 && Plain(w)
    ensures WrapAll([w], Some(k as real)) == WrapState(w + [Separator(0, k)], 1 % k)
  {
    assert [w][..0] == [];
    var acc := "" + w + " ";
    assert acc == w + [' '];
    if k == 1 {
      StripSnocSpace(w, ' ');
      StripTight(w);
      assert Strip(acc) == w;
    } else {
      assert 1 % k == 1;
    }
  }

  /** With a whole-number limit `k`, plain words separated by single spaces
      come out with a line break after every `k`-th word and single spaces
      elsewhere, nothing before the first word or after the last. */
  lemma WrappedGrid(ws: seq<string>, k: nat)
    requires |ws| >= 1 && k >= 1
    requires forall i :: 0 <= i < |ws| ==> Plain(ws[i])
    ensures Wrapped(JoinWith(ws, ' '), Some(k as real)) == Laid(ws, k)
  {
    assert forall i :: 0 <= i < |ws| ==> ' ' !in ws[i];
    SplitJoin(ws, ' ');
    GridAcc(ws, k);
    LaidEnds(ws, k);
    StripSnocSpace(Laid(ws, k), Separator(|ws| - 1, k));
    StripTight(Laid(ws, k));
  }
}
