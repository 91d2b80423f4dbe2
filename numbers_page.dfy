/**
  Helpers of the numbers task page: two-digit zero padding, the labels of the answer
  buttons (every distinct sum of two presentable numbers, in ascending order), and the
  name of the downloaded CSV file.
*/
module NumbersPage {
  import opened Wrappers
  import opened Text
  import LegacyGame

  /** `n` zeros. */
  function Zeros(n: nat): (z: string)
    ensures |z| == n && forall i | 0 <= i < n :: z[i] == '0'
  {
    if n == 0 then [] else "0" + Zeros(n - 1)
  }

  /** A text padded on the left with zeros to at least two characters. */
  function Padded(s: string): (r: string)
    ensures |r| >= 2 && |r| == if |s| >= 2 then |s| else 2
    ensures r[|r| - |s|..] == s
    ensures forall i | 0 <= i < |r| - |s| :: r[i] == '0'
    ensures |s| >= 2 ==> r == s
  {
    if |s| >= 2 then s else Zeros(2 - |s|) + s
  }

  /** `pad(n)`: the text of n, padded to two characters. */
  function PadNumber(n: int): string
  {
    Padded(IntToString(n))
  }

  /** `pad(n)`, as the page writes it: prepend '0' while the text is shorter than two characters. */
  method Pad(n: int) returns (r: string)
    ensures r == PadNumber(n)
  {
    r := PadText(IntToString(n));
  }

  /** The loop of `pad`: prepend '0' to the text while it is shorter than two characters. */
  method PadText(s: string) returns (r: string)
    ensures r == Padded(s)
  {
    r := s;
    while |r| < 2
      invariant |s| <= |r| <= 2 || r == s
      invariant r == Zeros(|r| - |s|) + s
      decreases 2 - |r|
    {
      assert "0" + Zeros(|r| - |s|) == Zeros(|r| + 1 - |s|);
      r := "0" + r;
    }
  }

  /** Padding an already padded text changes nothing, so `pad(pad(n)) == pad(n)`. */
  lemma PadIdempotent(s: string)
    ensures Padded(Padded(s)) == Padded(s)
  {
  }

  /** A single digit n is padded to '0' followed by that digit. */
  lemma PadDigit(n: nat)
    requires n < 10
    ensures PadNumber(n) == ['0', DigitChar(n)]
  {
    assert IntToString(n) == [DigitChar(n)];
  }

  /** A number from 0 to 99 is padded to exactly its two decimal digits. */
  lemma {:induction false} PadTwoDigits(n: nat)
    requires n < 100
    ensures PadNumber(n) == [DigitChar(n / 10), DigitChar(n % 10)]
  {
    if n < 10 {
      PadDigit(n);
    } else {
      var hi, lo := n / 10, n % 10;
      assert hi < 10;
      assert NatToString(hi) == [DigitChar(hi)];
      assert IntToString(n) == NatToString(n) == NatToString(hi) + [DigitChar(lo)];
    }
  }

  // ---------------------------------------------------------------------------
  // The answer buttons

  /** Every sum n + m of two presentable numbers. */
  ghost function Sums(numbers: seq<int>): set<int>
  {
    set a, b | 0 <= a < |numbers| && 0 <= b < |numbers| :: numbers[a] + numbers[b]
  }

  /** The sums whose first term is among the first i numbers. */
  ghost function PrefixSums(numbers: seq<int>, i: nat): set<int>
  {
    set a, b | 0 <= a < i && a < |numbers| && 0 <= b < |numbers| :: numbers[a] + numbers[b]
  }

  /** The sums of numbers[i] and one of the first j numbers. */
  ghost function RowSums(numbers: seq<int>, i: nat, j: nat): set<int>
    requires i < |numbers|
  {
    set b | 0 <= b < j && b < |numbers| :: numbers[i] + numbers[b]
  }

  lemma RowSumsStep(numbers: seq<int>, i: nat, j: nat)
    requires i < |numbers| && j < |numbers|
    ensures RowSums(numbers, i, j + 1) == RowSums(numbers, i, j) + {numbers[i] + numbers[j]}
  {
    var longer := RowSums(numbers, i, j + 1);
    forall x | x in longer ensures x in RowSums(numbers, i, j) + {numbers[i] + numbers[j]} {
      var b :| 0 <= b < j + 1 && b < |numbers| && x == numbers[i] + numbers[b];
      if b < j {
        assert x in RowSums(numbers, i, j);
      }
    }
  }

  lemma PrefixSumsStep(numbers: seq<int>, i: nat)
    requires i < |numbers|
    ensures PrefixSums(numbers, i + 1) == PrefixSums(numbers, i) + RowSums(numbers, i, |numbers|)
  {
    var longer := PrefixSums(numbers, i + 1);
    forall x | x in longer ensures x in PrefixSums(numbers, i) + RowSums(numbers, i, |numbers|) {
      var a, b :| 0 <= a < i + 1 && a < |numbers| && 0 <= b < |numbers| && x == numbers[a] + numbers[b];
      if a < i {
        assert x in PrefixSums(numbers, i);
      } else {
        assert x in RowSums(numbers, i, |numbers|);
      }
    }
    forall x | x in RowSums(numbers, i, |numbers|) ensures x in longer {
      var b :| 0 <= b < |numbers| && x == numbers[i] + numbers[b];
      assert 0 <= i < i + 1 && 0 <= b < |numbers|;
    }
  }

  predicate StrictlyAscending(s: seq<int>)
  {
    forall i, j | 0 <= i < j < |s| :: s[i] < s[j]
  }

  lemma HasMember(keys: set<int>)
    requires keys != {}
    ensures exists m :: m in keys
  {
    if forall m :: m !in keys {
      assert false;
    }
  }

  /** A nonempty finite set of integers has a least element. */
  lemma {:induction false} MinExists(keys: set<int>)
    requires keys != {}
    ensures exists m :: m in keys && forall k | k in keys :: m <= k
    decreases keys
  {
    HasMember(keys);
    var k :| k in keys;
    var rest := keys - {k};
    if rest == {} {
      forall x | x in keys ensures k <= x {
        assert x !in rest;
      }
      assert k in keys && forall x | x in keys :: k <= x;
    } else {
      MinExists(rest);
      var r :| r in rest && forall x | x in rest :: r <= x;
      var m := if k < r then k else r;
      assert m in keys;
      forall x | x in keys ensures m <= x {
        if x != k {
          assert x in rest;
        }
      }
      assert m in keys && forall x | x in keys :: m <= x;
    }
  }

  /**
    `Object.keys(buttons).map(Number).sort((a, b) => a - b)`: the keys in ascending
    order, found by taking the smallest remaining key each time.
  */
  method SortedKeys(keys: set<int>) returns (sorted: seq<int>)
    ensures StrictlyAscending(sorted)
    ensures forall x :: x in sorted <==> x in keys
  {
    sorted := [];
    var rest := keys;
    while rest != {}
      invariant StrictlyAscending(sorted)
      invariant forall x :: x in keys <==> x in sorted || x in rest
      invariant forall x, y | x in sorted && y in rest :: x < y
      decreases |rest|
    {
      MinExists(rest);
      var m :| m in rest && forall k | k in rest :: m <= k;
      forall i | 0 <= i < |sorted| ensures sorted[i] < m {
        assert sorted[i] in sorted;
      }
      sorted := sorted + [m];
      rest := rest - {m};
    }
  }

  /**
    `addButtons`: one button per distinct sum of two presentable numbers, in ascending
    order; the page marks each sum as a key of `buttons` in two nested loops.
  */
  method ButtonValues(numbers: seq<int>) returns (values: seq<int>)
    ensures StrictlyAscending(values)
    ensures forall x :: x in values <==> x in Sums(numbers)
  {
    var buttons: set<int> := {};
    for i := 0 to |numbers|
      invariant buttons == PrefixSums(numbers, i)
    {
      for j := 0 to |numbers|
        invariant buttons == PrefixSums(numbers, i) + RowSums(numbers, i, j)
      {
        RowSumsStep(numbers, i, j);
        buttons := buttons + {numbers[i] + numbers[j]};
      }
      PrefixSumsStep(numbers, i);
    }
    assert PrefixSums(numbers, |numbers|) == Sums(numbers);
    values := SortedKeys(buttons);
  }

  /** Two ascending lists with the same elements are the same list. */
  lemma {:induction false} AscendingUnique(a: seq<int>, b: seq<int>)
    requires StrictlyAscending(a) && StrictlyAscending(b)
    requires forall x :: x in a <==> x in b
    ensures a == b
    decreases |a|
  {
    if a != [] {
      assert a[0] in a;
    }
    if b != [] {
      assert b[0] in b;
    }
    if a != [] && b != [] {
      assert a[0] == b[0] by {
        assert a[0] in b && b[0] in a;
      }
      forall x ensures x in a[1..] <==> x in b[1..] {
        if x in a[1..] {
          assert x in b && x != b[0];
        }
        if x in b[1..] {
          assert x in a && x != a[0];
        }
      }
      AscendingUnique(a[1..], b[1..]);
    }
  }

  /** The page reads its numbers from the game: `game.NUMBERS`, the digits 1 to 9. */
  lemma DigitSums()
    ensures forall x :: x in Sums(LegacyGame.NUMBERS) <==> 2 <= x <= 18
  {
    var digits := LegacyGame.NUMBERS;
    forall x | 2 <= x <= 18 ensures x in Sums(digits) {
      var a := if x <= 10 then 0 else x - 10;
      assert digits[a] + digits[x - 2 - a] == x;
    }
  }

  /** For the digits 1 to 9 the buttons are labelled 2, 3, ..., 18. */
  lemma NineDigitButtons(values: seq<int>)
    requires StrictlyAscending(values)
    requires forall x :: x in values <==> x in Sums(LegacyGame.NUMBERS)
    ensures values == [2, 3, 4, 5, 6, 7, 8, 9, 10, 11, 12, 13, 14, 15, 16, 17, 18]
  {
    DigitSums();
    var expected := [2, 3, 4, 5, 6, 7, 8, 9, 10, 11, 12, 13, 14, 15, 16, 17, 18];
    assert forall x :: x in expected <==> 2 <= x <= 18;
    AscendingUnique(values, expected);
  }

  // ---------------------------------------------------------------------------
  // The download file name

  const PREFIX: string := "numbersTask_s"
  const SUFFIX: string := ".csv"

  /**
    The file name for a session that started in the given year, month (0-based, as `Date`
    gives it), day, hour and minute: the prefix, the date and time fields, the suffix.
  */
  function Filename(year: int, month0: int, day: int, hours: int, minutes: int): string
  {
    PREFIX + Body(year, month0, day, hours, minutes) + SUFFIX
  }

  /** The year as written, then the padded month (1-based), day, '_', hours and minutes. */
  function Body(year: int, month0: int, day: int, hours: int, minutes: int): string
  {
    IntToString(year) + PadNumber(month0 + 1) + PadNumber(day) + "_" + PadNumber(hours) + PadNumber(minutes)
  }

  /** A date and time as the page reads it from `Date`. */
  datatype Stamp = Stamp(year: int, month0: int, day: int, hours: int, minutes: int)

  predicate InRange(t: Stamp)
  {
    0 <= t.year && 0 <= t.month0 < 12 && 1 <= t.day <= 31 && 0 <= t.hours < 24 && 0 <= t.minutes < 60
  }

  /** Two decimal digits read back as a number. */
  function TwoDigits(s: string): Option<int>
    requires |s| == 2
  {
    if AllDigits(s) then Some(DigitValue(s[0]) * 10 + DigitValue(s[1])) else None
  }

  /** The year, then fixed-width month, day, '_', hours and minutes. */
  function ParseBody(body: string): Option<Stamp>
  {
    var m := |body|;
    if m < 10 then None
    else
      var year := body[..m - 9];
      if body[m - 5] != '_' || !AllDigits(year) then None
      else
        match (TwoDigits(body[m - 9..m - 7]), TwoDigits(body[m - 7..m - 5]),
               TwoDigits(body[m - 4..m - 2]), TwoDigits(body[m - 2..]))
        case (Some(mo), Some(d), Some(h), Some(mi)) => Some(Stamp(ParseNat(year), mo - 1, d, h, mi))
        case _ => None
  }

  /** Reading a file name back: the prefix, the body, the suffix. */
  function ParseFilename(f: string): Option<Stamp>
  {
    var n, p, q := |f|, |PREFIX|, |SUFFIX|;
    if n < p + q || f[..p] != PREFIX || f[n - q..] != SUFFIX then None
    else ParseBody(f[p..n - q])
  }

  lemma TwoDigitsOfPad(n: nat)
    requires n < 100
    ensures |PadNumber(n)| == 2 && TwoDigits(PadNumber(n)) == Some(n)
  {
    PadTwoDigits(n);
    TwoDigitsRead(PadNumber(n), n);
  }

  /** The two decimal digits of n read back as n. */
  lemma TwoDigitsRead(p: string, n: nat)
    requires n < 100 && p == [DigitChar(n / 10), DigitChar(n % 10)]
    ensures |p| == 2 && TwoDigits(p) == Some(n)
  {
    var hi, lo := n / 10, n % 10;
    assert AllDigits(p) by {
      assert IsDigit(p[0]) && IsDigit(p[1]);
    }
    assert DigitValue(p[0]) == hi && DigitValue(p[1]) == lo;
    assert hi * 10 + lo == n;
  }

  lemma ParseAffixes(body: string)
    ensures ParseFilename(PREFIX + body + SUFFIX) == ParseBody(body)
  {
    var f := PREFIX + body + SUFFIX;
    assert f[..|PREFIX|] == PREFIX && f[|f| - |SUFFIX|..] == SUFFIX;
    assert f[|PREFIX|..|f| - |SUFFIX|] == body;
  }

  /** A body cut at its fixed offsets from the end gives back the pieces it was made of. */
  lemma {:induction false} SplitBody(body: string, y: string, mo: string, d: string, h: string, mi: string)
    requires body == y + mo + d + "_" + h + mi
    requires |y| >= 1 && AllDigits(y) && |mo| == 2 && |d| == 2 && |h| == 2 && |mi| == 2
    requires TwoDigits(mo).Some? && TwoDigits(d).Some? && TwoDigits(h).Some? && TwoDigits(mi).Some?
    ensures ParseBody(body) ==
      Some(Stamp(ParseNat(y), TwoDigits(mo).value - 1, TwoDigits(d).value, TwoDigits(h).value, TwoDigits(mi).value))
  {
    var m := |body|;
    assert body[..m - 9] == y;
    assert body[m - 9..m - 7] == mo && body[m - 7..m - 5] == d;
    assert body[m - 5] == '_';
    assert body[m - 4..m - 2] == h && body[m - 2..] == mi;
  }

  /** A year, four two-digit fields and the '_' between day and hours read back as a date and time. */
  lemma {:induction false} ParseBodyParts(t: Stamp, y: string, mo: string, d: string, h: string, mi: string)
    requires |y| >= 1 && AllDigits(y) && ParseNat(y) == t.year
    requires |mo| == 2 && TwoDigits(mo) == Some(t.month0 + 1)
    requires |d| == 2 && TwoDigits(d) == Some(t.day)
    requires |h| == 2 && TwoDigits(h) == Some(t.hours)
    requires |mi| == 2 && TwoDigits(mi) == Some(t.minutes)
    ensures ParseBody(y + mo + d + "_" + h + mi) == Some(t)
  {
    SplitBody(y + mo + d + "_" + h + mi, y, mo, d, h, mi);
  }

  /** The year is written so that it reads back. */
  lemma YearReadsBack(t: Stamp)
    requires InRange(t)
    ensures |IntToString(t.year)| >= 1 && AllDigits(IntToString(t.year)) && ParseNat(IntToString(t.year)) == t.year
  {
    ParseNatToString(t.year);
  }

  /** Month, day, hours and minutes are written so that they read back. */
  lemma PadsReadBack(t: Stamp)
    requires InRange(t)
    ensures |PadNumber(t.month0 + 1)| == 2 && TwoDigits(PadNumber(t.month0 + 1)) == Some(t.month0 + 1)
    ensures |PadNumber(t.day)| == 2 && TwoDigits(PadNumber(t.day)) == Some(t.day)
    ensures |PadNumber(t.hours)| == 2 && TwoDigits(PadNumber(t.hours)) == Some(t.hours)
    ensures |PadNumber(t.minutes)| == 2 && TwoDigits(PadNumber(t.minutes)) == Some(t.minutes)
  {
    TwoDigitsOfPad(t.month0 + 1);
    TwoDigitsOfPad(t.day);
    TwoDigitsOfPad(t.hours);
    TwoDigitsOfPad(t.minutes);
  }

  /** The body of the file name of an in-range date and time reads back as that date and time. */
  lemma BodyRoundTrip(t: Stamp)
    requires InRange(t)
    ensures ParseBody(Body(t.year, t.month0, t.day, t.hours, t.minutes)) == Some(t)
  {
    var y, mo, d, h, mi := IntToString(t.year), PadNumber(t.month0 + 1), PadNumber(t.day), PadNumber(t.hours), PadNumber(t.minutes);
    assert Body(t.year, t.month0, t.day, t.hours, t.minutes) == y + mo + d + "_" + h + mi;
    YearReadsBack(t);
    PadsReadBack(t);
    ParseBodyParts(t, y, mo, d, h, mi);
  }

  /** The file name of an in-range date and time determines that date and time. */
  lemma FilenameRoundTrip(t: Stamp)
    requires InRange(t)
    ensures ParseFilename(Filename(t.year, t.month0, t.day, t.hours, t.minutes)) == Some(t)
  {
    ParseAffixes(Body(t.year, t.month0, t.day, t.hours, t.minutes));
    BodyRoundTrip(t);
  }
}
