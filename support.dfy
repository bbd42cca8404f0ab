/**
 * The file server. Avatars, post media and scene images are stored there
 * by file name; the pages turn a stored name into a download URL.
 */
module Files {
  import opened Wrappers
  import opened Text

  const FileServerHost := "https://files.homesee.xyz"
  const DownloadPrefix := FileServerHost + "/api/files/download/"

  /**
   * The resolution every page applies to a stored file name: an empty or
   * missing name gives the page's fallback, a name that already starts
   * with `http` is a URL and is kept, anything else is a download name.
   */
  function Resolve(name: Option<string>, fallback: string): (r: string)
    ensures !Truthy(name) ==> r == fallback
    ensures Truthy(name) ==> (StartsWith(name.value, "http") && r == name.value) || (!StartsWith(name.value, "http") && r == DownloadPrefix + name.value)
  {
    if !Truthy(name) then fallback
    else if StartsWith(name.value, "http") then name.value
    else DownloadPrefix + name.value
  }

  /** A resolved name is a URL; resolving it again changes nothing. */
  lemma ResolveIdempotent(name: Option<string>, fallback: string)
    requires Truthy(name)
    ensures StartsWith(Resolve(name, fallback), "http")
    ensures Resolve(Some(Resolve(name, fallback)), fallback) == Resolve(name, fallback)
  {
    if !StartsWith(name.value, "http") {
      assert (DownloadPrefix + name.value)[..4] == "http";
    }
  }

  /** The stored name can be read back from the end of the URL it resolves to. */
  lemma ResolveEndsWithName(name: Option<string>, fallback: string)
    requires Truthy(name)
    ensures var r := Resolve(name, fallback);
            |name.value| <= |r| && r[|r| - |name.value|..] == name.value
  {
  }
}

/**
 * Calendar dates as a JavaScript `Date` reports them, and their rendering
 * as a zero-padded `YYYY-MM-DD` string.
 */
module Calendar {
  import opened Wrappers
  import opened Text

  /** `getFullYear()`, `getMonth()` (0-based) and `getDate()` of a valid `Date`. */
  datatype DateParts = DateParts(year: int, monthIndex: int, day: int)

  predicate Plausible(d: DateParts) {
    1000 <= d.year <= 9999 && 0 <= d.monthIndex <= 11 && 1 <= d.day <= 31
  }

  /**
   * `${y}-${String(m + 1).padStart(2, '0')}-${String(d).padStart(2, '0')}`;
   * an invalid date (`None`) reads NaN in every part.
   */
  function Ymd(date: Option<DateParts>): string {
    match date
    case None => "NaN-NaN-NaN"
    case Some(d) =>
      IntToString(d.year) + "-" + PadStart2(IntToString(d.monthIndex + 1)) + "-" + PadStart2(IntToString(d.day))
  }

  lemma {:induction false} TwoDigits(n: nat)
    requires 1 <= n <= 99
    ensures var p := PadStart2(NatToString(n));
            |p| == 2 && AllDigits(p) && DigitsValue(p) == n
  {
    NatToStringLength(n);
    NatToStringValue(n);
    var s := NatToString(n);
    var p := PadStart2(s);
    if n < 10 {
      assert p == ['0', s[0]];
      assert p[..1] == ['0'];
      assert DigitsValue(s) == DigitValue(s[0]) by {
        assert s[..0] == [];
      }
    }
  }

  /**
   * For a date with a four-digit year the text is exactly ten characters,
   * `YYYY-MM-DD`, and the three digit groups read back as the year, the
   * 1-based month and the day.
   */
  lemma {:induction false} YmdReadsBack(d: DateParts)
    requires Plausible(d)
    ensures var r := Ymd(Some(d));
            && |r| == 10 && r[4] == '-' && r[7] == '-'
            && AllDigits(r[..4]) && AllDigits(r[5..7]) && AllDigits(r[8..])
            && DigitsValue(r[..4]) == d.year
            && DigitsValue(r[5..7]) == d.monthIndex + 1
            && DigitsValue(r[8..]) == d.day
  {
    NatToStringLength(d.year);
    NatToStringValue(d.year);
    TwoDigits(d.monthIndex + 1);
    TwoDigits(d.day);
    Layout(IntToString(d.year), PadStart2(IntToString(d.monthIndex + 1)), PadStart2(IntToString(d.day)));
  }

  lemma Layout(y: string, m: string, dd: string)
    requires |y| == 4 && |m| == 2 && |dd| == 2
    ensures var r := y + "-" + m + "-" + dd;
            |r| == 10 && r[4] == '-' && r[7] == '-' && r[..4] == y && r[5..7] == m && r[8..] == dd
  {
    var r := y + "-" + m + "-" + dd;
    assert r[..4] == y;
    assert r[5..7] == m;
    assert r[8..] == dd;
  }
}

/** Sequence operations standing for JavaScript's `filter` and the stable `sort`. */
module Seqs {
  import opened Text

  /** Two pushes in turn append both elements. */
  lemma AppendTwo<T>(s: seq<T>, a: T, b: T)
    ensures s + [a] + [b] == s + [a, b]
  {
  }

  /** `s.filter(p)` */
  function Filter<T>(s: seq<T>, p: T -> bool): (r: seq<T>)
    ensures |r| <= |s|
    ensures forall i :: 0 <= i < |r| ==> p(r[i])
    ensures forall x :: x in r ==> x in s
    ensures forall x :: x in s && p(x) ==> x in r
  {
    if s == [] then []
    else if p(s[0]) then [s[0]] + Filter(s[1..], p)
    else Filter(s[1..], p)
  }

  /** `s.replace(/\D/g, '')` is `s.filter` of the digits: every digit is kept, in order. */
  lemma {:induction false} DigitsOfIsFilter(s: string)
    ensures DigitsOf(s) == Filter(s, IsDigit)
  {
    if s != [] {
      DigitsOfIsFilter(s[1..]);
    }
  }

  /** `a` can be obtained from `b` by deleting elements. */
  predicate IsSubsequence<T(==)>(a: seq<T>, b: seq<T>)
    decreases |b|
  {
    if a == [] then true
    else if b == [] then false
    else if a[0] == b[0] then IsSubsequence(a[1..], b[1..])
    else IsSubsequence(a, b[1..])
  }

  lemma {:induction false} SubsequenceOfTail<T>(a: seq<T>, b: seq<T>)
    requires b != [] && IsSubsequence(a, b[1..])
    ensures IsSubsequence(a, b)
    decreases |b|, 1
  {
    if a != [] && a[0] == b[0] {
      DropHead(a, b[1..]);
    }
  }

  lemma {:induction false} DropHead<T>(a: seq<T>, c: seq<T>)
    requires a != [] && IsSubsequence(a, c)
    ensures IsSubsequence(a[1..], c)
    decreases |c|, 2
  {
    if a[0] == c[0] {
      SubsequenceOfTail(a[1..], c);
    } else {
      DropHead(a, c[1..]);
      SubsequenceOfTail(a[1..], c);
    }
  }

  lemma {:induction false} SubsequenceRefl<T>(s: seq<T>)
    ensures IsSubsequence(s, s)
  {
    if s != [] {
      SubsequenceRefl(s[1..]);
    }
  }

  /** Deleting elements twice is deleting elements once. */
  lemma {:induction false} SubsequenceTrans<T>(a: seq<T>, b: seq<T>, c: seq<T>)
    requires IsSubsequence(a, b) && IsSubsequence(b, c)
    ensures IsSubsequence(a, c)
    decreases |c|
  {
    if a != [] {
      if b[0] == c[0] {
        if a[0] == b[0] {
          SubsequenceTrans(a[1..], b[1..], c[1..]);
        } else {
          SubsequenceTrans(a, b[1..], c[1..]);
          SubsequenceOfTail(a, c);
        }
      } else {
        SubsequenceTrans(a, b, c[1..]);
        SubsequenceOfTail(a, c);
      }
    }
  }

  /** Filtering keeps the elements in their order. */
  lemma {:induction false} FilterIsSubsequence<T>(s: seq<T>, p: T -> bool)
    ensures IsSubsequence(Filter(s, p), s)
  {
    if s != [] {
      FilterIsSubsequence(s[1..], p);
      if !p(s[0]) {
        SubsequenceOfTail(Filter(s[1..], p), s);
      }
    }
  }

  /** Filtering a list all of whose elements pass gives the list back. */
  lemma {:induction false} FilterAllPass<T>(s: seq<T>, p: T -> bool)
    requires forall x :: x in s ==> p(x)
    ensures Filter(s, p) == s
  {
    if s != [] {
      FilterAllPass(s[1..], p);
    }
  }

  lemma {:induction false} FilterAppend<T>(a: seq<T>, b: seq<T>, p: T -> bool)
    ensures Filter(a + b, p) == Filter(a, p) + Filter(b, p)
  {
    if a != [] {
      var ab := a + b;
      assert ab[0] == a[0] && ab[1..] == a[1..] + b;
      FilterAppend(a[1..], b, p);
      if p(a[0]) {
        calc {
          Filter(ab, p);
          [a[0]] + Filter(a[1..] + b, p);
          [a[0]] + (Filter(a[1..], p) + Filter(b, p));
          ([a[0]] + Filter(a[1..], p)) + Filter(b, p);
          Filter(a, p) + Filter(b, p);
        }
      } else {
        calc {
          Filter(ab, p);
          Filter(a[1..] + b, p);
          Filter(a[1..], p) + Filter(b, p);
          Filter(a, p) + Filter(b, p);
        }
      }
    } else {
      assert a + b == b;
    }
  }

  predicate SortedBy<T>(s: seq<T>, key: T -> int) {
    forall i, j :: 0 <= i < j < |s| ==> key(s[i]) <= key(s[j])
  }

  lemma SortedTail<T>(s: seq<T>, key: T -> int)
    requires s != [] && SortedBy(s, key)
    ensures SortedBy(s[1..], key)
  {
  }

  /** An element no greater than the first of a sorted sequence can go in front of it. */
  lemma SortedCons<T>(h: T, t: seq<T>, key: T -> int)
    requires SortedBy(t, key)
    requires t != [] ==> key(h) <= key(t[0])
    ensures SortedBy([h] + t, key)
  {
    var r := [h] + t;
    forall i, j | 0 <= i < j < |r|
      ensures key(r[i]) <= key(r[j])
    {
      if i > 0 {
        assert r[i] == t[i - 1] && r[j] == t[j - 1];
      } else {
        assert r[j] == t[j - 1];
      }
    }
  }

  function Insert<T>(x: T, s: seq<T>, key: T -> int): (r: seq<T>)
    requires SortedBy(s, key)
    ensures SortedBy(r, key)
    ensures multiset(r) == multiset(s) + multiset{x}
    ensures |r| == |s| + 1
    ensures r[0] == x || (s != [] && r[0] == s[0])
  {
    if s == [] then [x]
    else if key(x) <= key(s[0]) then
      SortedCons(x, s, key);
      assert multiset([x] + s) == multiset{x} + multiset(s);
      [x] + s
    else
      SortedTail(s, key);
      var rest := Insert(x, s[1..], key);
      InsertBehindHead(x, s[0], s[1..], rest, key);
      assert s == [s[0]] + s[1..];
      [s[0]] + rest
  }

  /** The step of `Insert` that keeps the head of `s` in front of the insertion into its tail. */
  lemma InsertBehindHead<T>(x: T, h: T, t: seq<T>, rest: seq<T>, key: T -> int)
    requires SortedBy([h] + t, key) && key(h) < key(x)
    requires SortedBy(rest, key) && |rest| == |t| + 1
    requires multiset(rest) == multiset(t) + multiset{x}
    requires rest[0] == x || (t != [] && rest[0] == t[0])
    ensures SortedBy([h] + rest, key)
    ensures multiset([h] + rest) == multiset([h] + t) + multiset{x}
  {
    if t != [] {
      assert ([h] + t)[0] == h && ([h] + t)[1] == t[0];
      assert key(h) <= key(t[0]);
    }
    SortedCons(h, rest, key);
    assert multiset([h] + rest) == multiset{h} + multiset(rest);
    assert multiset([h] + t) == multiset{h} + multiset(t);
  }

  /**
   * The result of a stable sort by ascending `key`: an element is placed
   * before every later element whose key is not smaller, so elements with
   * equal keys keep their order.
   */
  function SortBy<T>(s: seq<T>, key: T -> int): (r: seq<T>)
    ensures SortedBy(r, key)
    ensures multiset(r) == multiset(s)
    ensures |r| == |s|
  {
    if s == [] then []
    else
      assert s == [s[0]] + s[1..];
      Insert(s[0], SortBy(s[1..], key), key)
  }

  /** The elements whose key is `k`. */
  function HasKey<T>(key: T -> int, k: int): T -> bool {
    e => key(e) == k
  }

  lemma FilterCons<T>(h: T, t: seq<T>, p: T -> bool)
    ensures Filter([h] + t, p) == (if p(h) then [h] else []) + Filter(t, p)
  {
    assert ([h] + t)[0] == h && ([h] + t)[1..] == t;
  }

  /** Inserting `x` puts it before every element of its own key class. */
  lemma {:induction false} InsertKeyClass<T>(x: T, s: seq<T>, key: T -> int, k: int)
    requires SortedBy(s, key)
    ensures Filter(Insert(x, s, key), HasKey(key, k)) ==
            (if key(x) == k then [x] else []) + Filter(s, HasKey(key, k))
    decreases |s|
  {
    if s == [] || key(x) <= key(s[0]) {
      assert Insert(x, s, key) == [x] + s;
      FilterCons(x, s, HasKey(key, k));
    } else {
      SortedTail(s, key);
      InsertKeyClass(x, s[1..], key, k);
      assert Insert(x, s, key) == [s[0]] + Insert(x, s[1..], key);
      assert s == [s[0]] + s[1..];
      PastSmallerHead(x, s[0], s[1..], Insert(x, s[1..], key), key, k);
    }
  }

  /**
   * Going past a head `h` whose key is smaller than that of `x` keeps `x`
   * in front of its key class: `h` and `x` are never in the same class.
   */
  lemma PastSmallerHead<T>(x: T, h: T, t: seq<T>, rest: seq<T>, key: T -> int, k: int)
    requires key(x) > key(h)
    requires Filter(rest, HasKey(key, k)) == (if key(x) == k then [x] else []) + Filter(t, HasKey(key, k))
    ensures Filter([h] + rest, HasKey(key, k)) == (if key(x) == k then [x] else []) + Filter([h] + t, HasKey(key, k))
  {
    var p := HasKey(key, k);
    FilterCons(h, rest, p);
    FilterCons(h, t, p);
    var tail := Filter(t, p);
    var xs: seq<T> := if key(x) == k then [x] else [];
    var hs: seq<T> := if p(h) then [h] else [];
    assert xs == [] || hs == [];
    if xs == [] {
      assert xs + tail == tail && xs + (hs + tail) == hs + tail;
    } else {
      assert hs + (xs + tail) == xs + tail && hs + tail == tail;
    }
  }

  /**
   * The sort is stable: the elements of each key class come out in the
   * order they went in.
   */
  lemma {:induction false} SortByStable<T>(s: seq<T>, key: T -> int, k: int)
    ensures Filter(SortBy(s, key), HasKey(key, k)) == Filter(s, HasKey(key, k))
    decreases |s|
  {
    if s != [] {
      SortByStable(s[1..], key, k);
      InsertKeyClass(s[0], SortBy(s[1..], key), key, k);
    }
  }
}
