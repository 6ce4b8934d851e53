/** Values shared by every part of the chord layout: errors, points, running
    sums over reals, Python's float modulo, keyword-option dictionaries and
    insertion-ordered dictionaries (OrderedDict / defaultdict). */
module Common {

  datatype Option<T> = None | Some(value: T)

  /** The Python exceptions the layout code can raise. */
  datatype Error =
    | ValueError          // bad layout parameter, or a cache read before generation
    | ZeroDivisionError   // proportional split of a zero total
    | AttributeError      // "Wrong Ribbon direction or Wrong Arch"
    | KeyError            // dictionary lookup of a missing key
    | IndexError          // first element of an empty list

  datatype Result<T> = Ok(value: T) | Err(error: Error)

  datatype Point = Point(x: real, y: real)

  const Origin := Point(0.0, 0.0)

  /** A keyword argument forwarded to the drawing library. */
  datatype OptionValue = Text(text: string) | Number(number: real) | Flag(flag: bool)

  type Options = map<string, OptionValue>

  /** The fixed geometry of an arch that its label reads: radius and span. */
  datatype ArchGeometry = ArchGeometry(radius: real, startAngle: real, endAngle: real)

  function ValueOr<T>(o: Option<T>, fallback: T): T
  {
    match o
    case Some(v) => v
    case None => fallback
  }

  /** The `center` property: unset means the origin (0, 0). */
  function CenterOr(setting: Option<Point>): (c: Point)
    ensures setting.None? ==> c == Origin
    ensures setting.Some? ==> c == setting.value
  {
    ValueOr(setting, Origin)
  }

  /** `{**base, **extra}`: every key of either, the later value winning. */
  function MergeOptions<K, V>(base: map<K, V>, extra: map<K, V>): (r: map<K, V>)
    ensures r.Keys == base.Keys + extra.Keys
    ensures forall k :: k in extra ==> r[k] == extra[k]
    ensures forall k :: k in base && k !in extra ==> r[k] == base[k]
  {
    base + extra
  }

  // ---------------------------------------------------------------- sums

  /** Python's `sum` over a list of numbers, added left to right. */
  function Sum(s: seq<real>): real
    decreases |s|
  {
    if s == [] then 0.0 else Sum(s[..|s| - 1]) + s[|s| - 1]
  }

  lemma SumStep(s: seq<real>, k: nat)
    requires k < |s|
    ensures Sum(s[..k + 1]) == Sum(s[..k]) + s[k]
  {
    assert s[..k + 1][..k] == s[..k];
  }

  lemma {:induction false} SumAppend(a: seq<real>, b: seq<real>)
    ensures Sum(a + b) == Sum(a) + Sum(b)
    decreases |b|
  {
    if b == [] {
      assert a + b == a;
    } else {
      var n := |b|;
      assert (a + b)[..|a + b| - 1] == a + b[..n - 1];
      SumAppend(a, b[..n - 1]);
    }
  }

  lemma {:induction false} SumNonNegative(s: seq<real>)
    requires forall i :: 0 <= i < |s| ==> s[i] >= 0.0
    ensures Sum(s) >= 0.0
    decreases |s|
  {
    if s != [] {
      SumNonNegative(s[..|s| - 1]);
    }
  }

  /** With no negative terms, a longer prefix never sums to less. */
  lemma {:induction false} SumPrefixMonotone(s: seq<real>, i: nat, j: nat)
    requires i <= j <= |s|
    requires forall k :: 0 <= k < |s| ==> s[k] >= 0.0
    ensures Sum(s[..i]) <= Sum(s[..j])
    decreases j - i
  {
    if i < j {
      SumPrefixMonotone(s, i, j - 1);
      SumStep(s, j - 1);
    }
  }

  // ------------------------------------------------------------ modulo

  /** Python's `x % m` on floats with a positive divisor (floored). */
  function RealMod(x: real, m: real): (r: real)
    requires m > 0.0
    ensures 0.0 <= r < m
    ensures x == r + m * ((x / m).Floor as real)
  {
    var y := x / m;
    var f := y - y.Floor as real;
    MulBounds(m, f);
    Distribute(m, y, y.Floor as real);
    m * f
  }

  lemma Distribute(m: real, y: real, q: real)
    ensures m * (y - q) + m * q == m * y
  {
  }

  lemma MulBounds(m: real, f: real)
    requires m > 0.0 && 0.0 <= f < 1.0
    ensures 0.0 <= m * f < m
  {
  }

  // --------------------------------------------- insertion-ordered dicts

  /** The keys of an ordered dictionary, in insertion order. */
  function KeysOf<K, V>(d: seq<(K, V)>): (ks: seq<K>)
    ensures |ks| == |d|
    ensures forall i :: 0 <= i < |d| ==> ks[i] == d[i].0
  {
    seq(|d|, i requires 0 <= i < |d| => d[i].0)
  }

  /** The values of an ordered dictionary, in insertion order. */
  function ValuesOf<K, V>(d: seq<(K, V)>): (vs: seq<V>)
    ensures |vs| == |d|
    ensures forall i :: 0 <= i < |d| ==> vs[i] == d[i].1
  {
    seq(|d|, i requires 0 <= i < |d| => d[i].1)
  }

  ghost predicate Distinct<K>(ks: seq<K>)
  {
    forall i, j :: 0 <= i < j < |ks| ==> ks[i] != ks[j]
  }

  ghost predicate DistinctKeys<K, V>(d: seq<(K, V)>)
  {
    forall i, j :: 0 <= i < j < |d| ==> d[i].0 != d[j].0
  }

  /** `d[k]` or KeyError, as a lookup. */
  function Get<K(==), V>(d: seq<(K, V)>, k: K): (r: Option<V>)
    ensures r.None? <==> k !in KeysOf(d)
    ensures r.Some? ==> (k, r.value) in d
  {
    match IndexOf(KeysOf(d), k)
    case None => None
    case Some(i) => Some(d[i].1)
  }

  /** `d[k] = v` on an ordered dictionary: a present key keeps its place and
      takes the new value, an absent key is appended at the end. */
  function Put<K(==), V>(d: seq<(K, V)>, k: K, v: V): (r: seq<(K, V)>)
    ensures k in KeysOf(d) ==> |r| == |d| && KeysOf(r) == KeysOf(d)
    ensures k !in KeysOf(d) ==> r == d + [(k, v)]
  {
    match IndexOf(KeysOf(d), k)
    case Some(i) =>
      assert KeysOf(d[i := (k, v)]) == KeysOf(d);
      d[i := (k, v)]
    case None => d + [(k, v)]
  }

  /** A prefix one longer is the prefix and the next element. */
  lemma PrefixStep<T>(s: seq<T>, i: nat)
    requires i < |s|
    ensures s[..i + 1] == s[..i] + [s[i]]
  {
  }

  /** `d[k] = v` keeps the keys distinct. */
  lemma PutDistinct<K, V>(d: seq<(K, V)>, k: K, v: V)
    requires DistinctKeys(d)
    ensures DistinctKeys(Put(d, k, v))
  {
    if k !in KeysOf(d) {
      var r := Put(d, k, v);
      forall i, j | 0 <= i < j < |r|
        ensures r[i].0 != r[j].0
      {
        if j == |d| {
          assert r[i].0 == KeysOf(d)[i];
        }
      }
    }
  }

  /** Looking up `j` after appending a different key `k`. */
  lemma IndexOfAppend<K>(ks: seq<K>, k: K, j: K)
    requires j != k
    ensures IndexOf(ks + [k], j) == IndexOf(ks, j)
  {
    if j in ks {
      var i := IndexOf(ks, j).value;
      assert (ks + [k])[..i] == ks[..i];
      IndexOfFirst(ks + [k], j, i);
    } else {
      assert j !in ks + [k];
    }
  }

  /** Reading back after `d[k] = v`: `k` gives `v`, every other key is as before. */
  lemma GetPut<K, V>(d: seq<(K, V)>, k: K, v: V, j: K)
    ensures Get(Put(d, k, v), j) == if j == k then Some(v) else Get(d, j)
  {
    var ks := KeysOf(d);
    if k !in ks {
      assert KeysOf(Put(d, k, v)) == ks + [k];
      if j == k {
        assert (ks + [k])[..|ks|] == ks;
        IndexOfFirst(ks + [k], k, |ks|);
      } else {
        IndexOfAppend(ks, k, j);
      }
    }
  }

  /** `d[k]`: the value stored under `k`, or a KeyError. */
  function Lookup<K(==), V>(d: seq<(K, V)>, k: K): (r: Result<V>)
    ensures r.Err? <==> k !in KeysOf(d)
    ensures r.Err? ==> r.error == KeyError
    ensures r.Ok? ==> (k, r.value) in d
  {
    match IndexOf(KeysOf(d), k)
    case None => Err(KeyError)
    case Some(i) => Ok(d[i].1)
  }

  /** In a dictionary, the entry of a key is the one `Get` finds. */
  lemma GetEntry<K, V>(d: seq<(K, V)>, p: (K, V))
    requires DistinctKeys(d) && p in d
    ensures Get(d, p.0) == Some(p.1)
  {
    var i :| 0 <= i < |d| && d[i] == p;
    KeyNotEarlier(d, i);
    IndexOfFirst(KeysOf(d), p.0, i);
  }

  /** The keys after `d[k] = v`: those of `d`, and `k`. */
  lemma PutKeys<K, V>(d: seq<(K, V)>, k: K, v: V, j: K)
    ensures j in KeysOf(Put(d, k, v)) <==> j == k || j in KeysOf(d)
  {
    var r := Put(d, k, v);
    if k !in KeysOf(d) {
      assert KeysOf(r) == KeysOf(d) + [k];
    }
  }

  /** Every entry after `d[k] = v` is the new pair or was there before. */
  lemma PutEntries<K, V>(d: seq<(K, V)>, k: K, v: V)
    ensures forall p :: p in Put(d, k, v) ==> p == (k, v) || p in d
  {
    if k in KeysOf(d) {
      var i := IndexOf(KeysOf(d), k).value;
      forall p | p in Put(d, k, v)
        ensures p == (k, v) || p in d
      {
        var j :| 0 <= j < |d| && Put(d, k, v)[j] == p;
        if j != i {
          assert p == d[j];
        }
      }
    }
  }

  /** The dictionary with every value passed through `f`, keys and order kept. */
  function MapValues<K, V, W>(d: seq<(K, V)>, f: V -> W): (r: seq<(K, W)>)
    ensures |r| == |d|
    ensures forall i :: 0 <= i < |d| ==> r[i] == (d[i].0, f(d[i].1))
  {
    seq(|d|, i requires 0 <= i < |d| => (d[i].0, f(d[i].1)))
  }

  /** Mapping the values commutes with `d[k] = v`. */
  lemma MapValuesPut<K, V, W>(d: seq<(K, V)>, k: K, v: V, f: V -> W)
    ensures MapValues(Put(d, k, v), f) == Put(MapValues(d, f), k, f(v))
  {
    var m := MapValues(d, f);
    assert KeysOf(m) == KeysOf(d);
    if k in KeysOf(d) {
      MapValuesReplace(d, k, v, f);
    } else {
      assert MapValues(Put(d, k, v), f) == m + [(k, f(v))];
    }
  }

  /** Mapping the values keeps the keys. */
  lemma MapValuesKeys<K, V, W>(d: seq<(K, V)>, f: V -> W)
    ensures KeysOf(MapValues(d, f)) == KeysOf(d)
  {
    assert forall i :: 0 <= i < |d| ==> KeysOf(MapValues(d, f))[i] == KeysOf(d)[i];
  }

  lemma MapValuesReplace<K, V, W>(d: seq<(K, V)>, k: K, v: V, f: V -> W)
    requires k in KeysOf(d)
    ensures MapValues(Put(d, k, v), f) == MapValues(d, f)[IndexOf(KeysOf(d), k).value := (k, f(v))]
  {
  }

  /** The first position of `x` in `ks`, as `list.index` finds it. */
  function IndexOf<K(==)>(ks: seq<K>, x: K): (r: Option<nat>)
    ensures r.None? <==> x !in ks
    ensures r.Some? ==> r.value < |ks| && ks[r.value] == x && x !in ks[..r.value]
    decreases |ks|
  {
    if ks == [] then None
    else if ks[0] == x then Some(0)
    else match IndexOf(ks[1..], x)
      case None => None
      case Some(i) =>
        assert ks[..i + 1] == [ks[0]] + ks[1..][..i];
        Some(i + 1)
  }

  /** A position holding `x` with no earlier `x` is the one `IndexOf` finds. */
  lemma {:induction false} IndexOfFirst<K>(ks: seq<K>, x: K, i: nat)
    requires i < |ks| && ks[i] == x && x !in ks[..i]
    ensures IndexOf(ks, x) == Some(i)
    decreases i
  {
    if i > 0 {
      assert ks[0] == ks[..i][0];
      assert ks[1..][..i - 1] == ks[..i][1..];
      IndexOfFirst(ks[1..], x, i - 1);
    }
  }

  /** In a dictionary without repeated keys, no key occurs before its own entry. */
  lemma KeyNotEarlier<K, V>(d: seq<(K, V)>, i: nat)
    requires DistinctKeys(d) && i < |d|
    ensures d[i].0 !in KeysOf(d)[..i]
  {
    var ks := KeysOf(d)[..i];
    forall j | 0 <= j < i
      ensures ks[j] != d[i].0
    {
      assert ks[j] == d[j].0;
    }
  }

  // ----------------------------------------------------- textual keys

  function Digit(d: nat): (c: char)
    requires d < 10
    ensures '0' <= c <= '9'
  {
    "0123456789"[d]
  }

  /** `str(n)` for a natural number. */
  function NatText(n: nat): (s: string)
    ensures |s| > 0
    ensures forall i :: 0 <= i < |s| ==> '0' <= s[i] <= '9'
  {
    if n < 10 then [Digit(n)] else NatText(n / 10) + [Digit(n % 10)]
  }

  /** A ribbon key `f"{prefix}-{index}"`. */
  function KeyText(prefix: string, index: nat): string
  {
    prefix + "-" + NatText(index)
  }

  lemma DigitInjective(a: nat, b: nat)
    requires a < 10 && b < 10 && Digit(a) == Digit(b)
    ensures a == b
  {
  }

  lemma {:induction false} NatTextInjective(a: nat, b: nat)
    requires NatText(a) == NatText(b)
    ensures a == b
    decreases a
  {
    var s := NatText(a);
    if a < 10 && b < 10 {
      DigitInjective(a, b);
    } else if a < 10 || b < 10 {
      assert false;
    } else {
      assert NatText(a / 10) == s[..|s| - 1] == NatText(b / 10);
      DigitInjective(a % 10, b % 10);
      NatTextInjective(a / 10, b / 10);
    }
  }

  /** The text after the last '-' of `s` (all of `s` when it has none). */
  function AfterLastDash(s: string): string
    decreases |s|
  {
    if s == [] then []
    else if s[|s| - 1] == '-' then []
    else AfterLastDash(s[..|s| - 1]) + [s[|s| - 1]]
  }

  lemma {:induction false} AfterLastDashOf(p: string, t: string)
    requires '-' !in t
    ensures AfterLastDash(p + "-" + t) == t
    decreases |t|
  {
    var s := p + "-" + t;
    if t == [] {
      assert s == p + "-";
    } else {
      assert s[..|s| - 1] == p + "-" + t[..|t| - 1];
      AfterLastDashOf(p, t[..|t| - 1]);
    }
  }

  /** The textual key names its index unambiguously: the digits after the
      last '-' are the index, so two keys built with different indexes (or
      different prefixes) never coincide. */
  lemma KeyTextInjective(p: string, i: nat, q: string, j: nat)
    requires KeyText(p, i) == KeyText(q, j)
    ensures p == q && i == j
  {
    var t, u := NatText(i), NatText(j);
    assert '-' !in t && '-' !in u;
    AfterLastDashOf(p, t);
    AfterLastDashOf(q, u);
    assert t == u;
    assert |p| == |q|;
    assert p == (p + "-" + t)[..|p|];
    assert q == (q + "-" + u)[..|q|];
    NatTextInjective(i, j);
  }
}
