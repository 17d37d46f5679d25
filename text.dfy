/**
 * Python string operations the core relies on, on `seq<char>`: lexicographic comparison
 * (`a < b` on `str`), `startswith`, `in`, `split`, `join`, `lower`, `str(n)`, `int(s)`,
 * `float(s)`, and the scanner that reads back the `$k` placeholders of a SQL text.
 */
module Text {
  import opened Wrappers

  // ----------------------------------------------------------------------------------
  // Lexicographic order (Python compares str by code point, a proper prefix is smaller)
  // ----------------------------------------------------------------------------------

  predicate Less(a: string, b: string)
    decreases |a|
  {
    if |a| == 0 then |b| > 0
    else |b| > 0 && (a[0] < b[0] || (a[0] == b[0] && Less(a[1..], b[1..])))
  }

  predicate LessEq(a: string, b: string)
  {
    a == b || Less(a, b)
  }

  lemma {:induction false} LessIrreflexive(a: string)
    ensures !Less(a, a)
    decreases |a|
  {
    if |a| > 0 {
      LessIrreflexive(a[1..]);
    }
  }

  lemma {:induction false} LessTransitive(a: string, b: string, c: string)
    requires Less(a, b) && Less(b, c)
    ensures Less(a, c)
    decreases |a|
  {
    if |a| > 0 && a[0] == b[0] && b[0] == c[0] {
      LessTransitive(a[1..], b[1..], c[1..]);
    }
  }

  lemma {:induction false} LessTrichotomy(a: string, b: string)
    ensures Less(a, b) || a == b || Less(b, a)
    decreases |a|
  {
    if |a| > 0 && |b| > 0 && a[0] == b[0] {
      LessTrichotomy(a[1..], b[1..]);
      if a[1..] == b[1..] {
        assert a == [a[0]] + a[1..] && b == [b[0]] + b[1..];
      }
    }
  }

  lemma LessAsymmetric(a: string, b: string)
    requires Less(a, b)
    ensures !Less(b, a) && a != b
  {
    if Less(b, a) {
      LessTransitive(a, b, a);
      LessIrreflexive(a);
    }
    if a == b {
      LessIrreflexive(a);
    }
  }

  // ----------------------------------------------------------------------------------
  // Prefix and substring tests
  // ----------------------------------------------------------------------------------

  /** `s.startswith(prefix)` */
  predicate StartsWith(s: string, prefix: string)
  {
    |prefix| <= |s| && s[..|prefix|] == prefix
  }

  predicate OccursAt(s: string, sub: string, i: int)
  {
    0 <= i <= |s| - |sub| && s[i..i + |sub|] == sub
  }

  /** `sub in s` */
  predicate Contains(s: string, sub: string)
  {
    exists i | 0 <= i <= |s| - |sub| :: OccursAt(s, sub, i)
  }

  /** ASCII part of `str.lower()`. */
  function LowerChar(c: char): char
  {
    if 'A' <= c <= 'Z' then (c as int + 32) as char else c
  }

  function Lower(s: string): (r: string)
    ensures |r| == |s|
    ensures forall i | 0 <= i < |s| :: r[i] == LowerChar(s[i])
  {
    seq(|s|, i requires 0 <= i < |s| => LowerChar(s[i]))
  }

  lemma LowerIdempotent(s: string)
    ensures Lower(Lower(s)) == Lower(s)
  {
  }

  // ----------------------------------------------------------------------------------
  // split / join
  // ----------------------------------------------------------------------------------

  /** `sep.join(parts)` */
  function Join(parts: seq<string>, sep: string): string
    decreases |parts|
  {
    if |parts| == 0 then ""
    else if |parts| == 1 then parts[0]
    else parts[0] + sep + Join(parts[1..], sep)
  }

  /** `s.split(sep)` for a one-character separator: every separator ends a piece. */
  function Split(s: string, sep: char): (parts: seq<string>)
    ensures |parts| >= 1
    decreases |s|
  {
    if |s| == 0 then [""]
    else
      var rest := Split(s[1..], sep);
      if s[0] == sep then [""] + rest
      else [[s[0]] + rest[0]] + rest[1..]
  }

  function Occurrences(s: string, c: char): nat
    decreases |s|
  {
    if |s| == 0 then 0 else (if s[0] == c then 1 else 0) + Occurrences(s[1..], c)
  }

  /** Joining the pieces with the separator gives the string back. */
  lemma {:induction false} JoinSplit(s: string, sep: char)
    ensures Join(Split(s, sep), [sep]) == s
    decreases |s|
  {
    if |s| > 0 {
      var rest := Split(s[1..], sep);
      JoinSplit(s[1..], sep);
      if s[0] == sep {
        assert Split(s, sep) == [""] + rest;
        assert Join([""] + rest, [sep]) == "" + [sep] + Join(rest, [sep]);
        assert s == [s[0]] + s[1..];
      } else {
        var parts := Split(s, sep);
        assert parts == [[s[0]] + rest[0]] + rest[1..];
        if |rest| == 1 {
          assert Join(parts, [sep]) == [s[0]] + rest[0];
        } else {
          assert parts[1..] == rest[1..];
          assert Join(rest, [sep]) == rest[0] + [sep] + Join(rest[1..], [sep]);
          assert Join(parts, [sep]) == [s[0]] + rest[0] + [sep] + Join(rest[1..], [sep]);
        }
        assert s == [s[0]] + s[1..];
      }
    }
  }

  /** There is one piece more than there are separators, and no piece holds a separator. */
  lemma {:induction false} SplitShape(s: string, sep: char)
    ensures |Split(s, sep)| == Occurrences(s, sep) + 1
    ensures forall k | 0 <= k < |Split(s, sep)| :: sep !in Split(s, sep)[k]
    decreases |s|
  {
    if |s| > 0 {
      SplitShape(s[1..], sep);
      var rest := Split(s[1..], sep);
      if s[0] != sep {
        var parts := Split(s, sep);
        assert parts[0] == [s[0]] + rest[0];
        forall k | 1 <= k < |parts|
          ensures sep !in parts[k]
        {
          assert parts[k] == rest[k];
        }
      }
    }
  }

  // ----------------------------------------------------------------------------------
  // Decimal digits
  // ----------------------------------------------------------------------------------

  predicate IsDigit(c: char)
  {
    '0' <= c <= '9'
  }

  predicate AllDigits(s: string)
  {
    forall i | 0 <= i < |s| :: IsDigit(s[i])
  }

  function DigitValue(c: char): nat
    requires IsDigit(c)
  {
    c as int - '0' as int
  }

  function DigitChar(d: nat): (c: char)
    requires d < 10
    ensures IsDigit(c) && DigitValue(c) == d
  {
    ('0' as int + d) as char
  }

  function Pow10(k: nat): (p: nat)
    ensures p >= 1
  {
    if k == 0 then 1 else 10 * Pow10(k - 1)
  }

  /** The number a string of decimal digits denotes, most significant digit first. */
  function DigitsValue(s: string): nat
    requires AllDigits(s)
    decreases |s|
  {
    if |s| == 0 then 0 else DigitsValue(s[..|s| - 1]) * 10 + DigitValue(s[|s| - 1])
  }

  lemma {:induction false} DigitsValueBound(s: string)
    requires AllDigits(s)
    ensures DigitsValue(s) < Pow10(|s|)
    decreases |s|
  {
    if |s| > 0 {
      DigitsValueBound(s[..|s| - 1]);
    }
  }

  /** `str(n)` for a natural number. */
  function NatToString(n: nat): (s: string)
    ensures 1 <= |s| && AllDigits(s)
    decreases n
  {
    if n < 10 then [DigitChar(n)] else NatToString(n / 10) + [DigitChar(n % 10)]
  }

  lemma {:induction false} NatToStringValue(n: nat)
    ensures DigitsValue(NatToString(n)) == n
    decreases n
  {
    if n >= 10 {
      NatToStringValue(n / 10);
      var s := NatToString(n);
      assert s[..|s| - 1] == NatToString(n / 10);
    }
  }

  /** `str(i)` for an integer. */
  function IntToString(i: int): (s: string)
    ensures 1 <= |s|
  {
    if i < 0 then "-" + NatToString(-i) else NatToString(i)
  }

  /** `'%0<width>d' % n`: the last `width` decimal digits of `n`, zero-filled. */
  function Pad(n: nat, width: nat): (s: string)
    ensures |s| == width && AllDigits(s)
    decreases width
  {
    if width == 0 then "" else Pad(n / 10, width - 1) + [DigitChar(n % 10)]
  }

  lemma {:induction false} PadValue(n: nat, width: nat)
    requires n < Pow10(width)
    ensures DigitsValue(Pad(n, width)) == n
    decreases width
  {
    if width > 0 {
      assert n / 10 < Pow10(width - 1);
      PadValue(n / 10, width - 1);
      var s := Pad(n, width);
      assert s[..|s| - 1] == Pad(n / 10, width - 1);
    }
  }

  /** `int(s)` on its plain form: an optional sign followed by at least one digit. */
  function ParseInt(s: string): (r: Option<int>)
    ensures r.Some? ==> 1 <= |s|
  {
    if |s| > 0 && (s[0] == '-' || s[0] == '+') then
      var body := s[1..];
      if |body| > 0 && AllDigits(body) then
        var v: int := DigitsValue(body);
        Some(if s[0] == '-' then -v else v)
      else None
    else if |s| > 0 && AllDigits(s) then Some(DigitsValue(s))
    else None
  }

  /** `int(str(i)) == i` */
  lemma ParseIntOfIntToString(i: int)
    ensures ParseInt(IntToString(i)) == Some(i)
  {
    var s := IntToString(i);
    if i < 0 {
      var t := NatToString(-i);
      NatToStringValue(-i);
      assert s == "-" + t;
      assert s[0] == '-' && s[1..] == t;
    } else {
      NatToStringValue(i);
      assert IsDigit(s[0]);
    }
  }

  /** Index of the first occurrence of `c` in `s`. */
  function Find(s: string, c: char): (r: Option<nat>)
    ensures r.Some? ==> r.value < |s| && s[r.value] == c && c !in s[..r.value]
    ensures r.None? ==> c !in s
    decreases |s|
  {
    if |s| == 0 then None
    else if s[0] == c then Some(0)
    else match Find(s[1..], c)
      case None => None
      case Some(k) => Some(k + 1)
  }

  /** `float(s)` on its plain decimal form: a sign, digits, and an optional fraction. */
  function ParseReal(s: string): (r: Option<real>)
  {
    var signed := |s| > 0 && (s[0] == '-' || s[0] == '+');
    var body := if signed then s[1..] else s;
    var neg := signed && s[0] == '-';
    var magnitude :=
      match Find(body, '.')
      case None =>
        if |body| > 0 && AllDigits(body) then Some(DigitsValue(body) as real) else None
      case Some(p) =>
        var whole := body[..p];
        var frac := body[p + 1..];
        if AllDigits(whole) && AllDigits(frac) && |whole| + |frac| > 0 then
          Some(DigitsValue(whole) as real + DigitsValue(frac) as real / Pow10(|frac|) as real)
        else None;
    match magnitude
    case None => None
    case Some(m) => Some(if neg then -m else m)
  }

  /** `float(str(i)) == i` for the integers a vendor sends. */
  lemma ParseRealOfIntToString(i: int)
    ensures ParseReal(IntToString(i)) == Some(i as real)
  {
    var n: nat := if i < 0 then -i else i;
    NatToStringValue(n);
    var body := NatToString(n);
    assert Find(body, '.') == None by {
      assert forall k | 0 <= k < |body| :: body[k] != '.';
    }
    if i < 0 {
      assert IntToString(i)[1..] == body;
    }
  }

  // ----------------------------------------------------------------------------------
  // SQL placeholders `$1`, `$2`, ...
  // ----------------------------------------------------------------------------------

  /** Length of the run of digits that starts `s`. */
  function DigitRun(s: string): (n: nat)
    ensures n <= |s| && AllDigits(s[..n]) && (n == |s| || !IsDigit(s[n]))
    decreases |s|
  {
    if |s| > 0 && IsDigit(s[0]) then
      var m := DigitRun(s[1..]);
      assert s[..1 + m] == [s[0]] + s[1..][..m];
      1 + m
    else 0
  }

  /** The numbers of the placeholders `$k` in a SQL text, in order of appearance. */
  function Placeholders(s: string): seq<nat>
    decreases |s|
  {
    if |s| == 0 then []
    else if s[0] == '$' && DigitRun(s[1..]) > 0 then
      var n := DigitRun(s[1..]);
      assert s[1..1 + n] == s[1..][..n];
      [DigitsValue(s[1..1 + n])] + Placeholders(s[1 + n..])
    else Placeholders(s[1..])
  }

  /** `f"${k}"` */
  function Placeholder(k: nat): string
  {
    "$" + NatToString(k)
  }

  /** `[1, 2, ..., n]` */
  function Iota(n: nat): (r: seq<nat>)
    ensures |r| == n && forall i | 0 <= i < n :: r[i] == i + 1
  {
    seq(n, i requires 0 <= i < n => i + 1)
  }

  /** The numbers `from`, `from + 1`, ..., `from + k - 1`. */
  function Numbered(from: nat, k: nat): (r: seq<nat>)
    ensures |r| == k && forall i | 0 <= i < k :: r[i] == from + i
  {
    seq(k, i requires 0 <= i < k => from + i)
  }

  lemma {:induction false} DigitRunConcat(a: string, b: string)
    requires |b| == 0 || !IsDigit(b[0])
    ensures DigitRun(a + b) == DigitRun(a)
    decreases |a|
  {
    if |a| > 0 && IsDigit(a[0]) {
      assert (a + b)[1..] == a[1..] + b;
      DigitRunConcat(a[1..], b);
    }
  }

  /** Text before a `$` reads no placeholder out of its neighbour. */
  lemma {:induction false} PlaceholdersSkip(a: string, b: string)
    requires '$' !in a
    ensures Placeholders(a + b) == Placeholders(b)
    decreases |a|
  {
    if |a| > 0 {
      assert (a + b)[1..] == a[1..] + b;
      PlaceholdersSkip(a[1..], b);
    } else {
      assert a + b == b;
    }
  }

  /** Placeholders of a concatenation, when the second part cannot lengthen a number of the first. */
  lemma {:induction false} PlaceholdersConcat(a: string, b: string)
    requires |b| == 0 || !IsDigit(b[0])
    ensures Placeholders(a + b) == Placeholders(a) + Placeholders(b)
    decreases |a|, 1
  {
    if |a| == 0 {
      assert a + b == b;
    } else if a[0] == '$' && DigitRun(a[1..]) > 0 {
      PlaceholdersConcatHead(a, b);
    } else {
      PlaceholdersConcatPlain(a, b);
    }
  }

  /** `PlaceholdersConcat` when `a` starts with a placeholder. */
  lemma {:induction false} PlaceholdersConcatHead(a: string, b: string)
    requires |b| == 0 || !IsDigit(b[0])
    requires |a| > 0 && a[0] == '$' && DigitRun(a[1..]) > 0
    ensures Placeholders(a + b) == Placeholders(a) + Placeholders(b)
    decreases |a|, 0
  {
    var n := DigitRun(a[1..]);
    var v := DigitsValue(a[1..][..n]);
    var rest := a[1 + n..];
    PlaceholderSplit(a, n, v, rest);
    PlaceholderSplitConcat(a, b, n, v, rest);
    PlaceholdersConcat(rest, b);
    AppendAssocNat([v], Placeholders(rest), Placeholders(b));
  }

  /** `PlaceholdersConcat` when `a` does not start with a placeholder. */
  lemma {:induction false} PlaceholdersConcatPlain(a: string, b: string)
    requires |b| == 0 || !IsDigit(b[0])
    requires |a| > 0 && !(a[0] == '$' && DigitRun(a[1..]) > 0)
    ensures Placeholders(a + b) == Placeholders(a) + Placeholders(b)
    decreases |a|, 0
  {
    var ab := a + b;
    assert Placeholders(ab) == Placeholders(a[1..] + b) by {
      assert ab[1..] == a[1..] + b;
      DigitRunConcat(a[1..], b);
      NoPlaceholderAt(ab);
    }
    NoPlaceholderAt(a);
    PlaceholdersConcat(a[1..], b);
  }

  /** `s` starts with the placeholder `$` followed by `n` digits of value `v`. */
  lemma PlaceholderSplit(s: string, n: nat, v: nat, rest: string)
    requires |s| > 0 && s[0] == '$' && n == DigitRun(s[1..]) && n > 0
    requires v == DigitsValue(s[1..][..n]) && rest == s[1 + n..]
    ensures Placeholders(s) == [v] + Placeholders(rest)
  {
    assert s[1..1 + n] == s[1..][..n];
  }

  /** The leading placeholder of `a` stays the leading placeholder of `a + b`. */
  lemma PlaceholderSplitConcat(a: string, b: string, n: nat, v: nat, rest: string)
    requires |b| == 0 || !IsDigit(b[0])
    requires |a| > 0 && a[0] == '$' && n == DigitRun(a[1..]) && n > 0
    requires v == DigitsValue(a[1..][..n]) && rest == a[1 + n..]
    ensures Placeholders(a + b) == [v] + Placeholders(rest + b)
  {
    var ab := a + b;
    assert ab[1..] == a[1..] + b;
    DigitRunConcat(a[1..], b);
    assert ab[1..][..n] == a[1..][..n];
    PlaceholderSplit(ab, n, v, rest + b);
  }

  /** `s` does not start with a placeholder. */
  lemma NoPlaceholderAt(s: string)
    requires |s| > 0 && !(s[0] == '$' && DigitRun(s[1..]) > 0)
    ensures Placeholders(s) == Placeholders(s[1..])
  {
  }

  lemma AppendAssocNat(x: seq<nat>, y: seq<nat>, z: seq<nat>)
    ensures x + (y + z) == (x + y) + z
  {
  }

  lemma {:induction false} DigitRunAll(s: string)
    requires AllDigits(s)
    ensures DigitRun(s) == |s|
    decreases |s|
  {
    if |s| > 0 {
      DigitRunAll(s[1..]);
    }
  }

  lemma PlaceholdersOfPlaceholder(k: nat)
    ensures Placeholders(Placeholder(k)) == [k]
  {
    var s := Placeholder(k);
    var digits := NatToString(k);
    assert s[1..] == digits;
    DigitRunAll(digits);
    assert s[1..1 + |digits|] == digits;
    NatToStringValue(k);
    assert s[1 + |digits|..] == [];
  }

  /** A fixed text followed by one placeholder reads as that one number. */
  lemma PlaceholdersOfClause(text: string, k: nat)
    requires '$' !in text
    ensures Placeholders(text + Placeholder(k)) == [k]
  {
    PlaceholdersSkip(text, Placeholder(k));
    PlaceholdersOfPlaceholder(k);
  }

  /** Placeholders of each part, in order. */
  function PlaceholdersOfParts(parts: seq<string>): seq<nat>
    decreases |parts|
  {
    if |parts| == 0 then [] else Placeholders(parts[0]) + PlaceholdersOfParts(parts[1..])
  }

  /** Joining SQL fragments with a separator that holds no `$` and starts with no digit. */
  lemma {:induction false} PlaceholdersJoin(parts: seq<string>, sep: string)
    requires |sep| > 0 && !IsDigit(sep[0]) && '$' !in sep
    ensures Placeholders(Join(parts, sep)) == PlaceholdersOfParts(parts)
    decreases |parts|
  {
    if |parts| == 1 {
      assert PlaceholdersOfParts(parts) == Placeholders(parts[0]) + [];
    } else if |parts| > 1 {
      var tail := Join(parts[1..], sep);
      PlaceholdersJoin(parts[1..], sep);
      assert Join(parts, sep) == parts[0] + (sep + tail);
      PlaceholdersConcat(parts[0], sep + tail);
      PlaceholdersSkip(sep, tail);
    }
  }

  lemma PlaceholdersOfPartsAppend(a: seq<string>, b: seq<string>)
    ensures PlaceholdersOfParts(a + b) == PlaceholdersOfParts(a) + PlaceholdersOfParts(b)
    decreases |a|
  {
    if |a| == 0 {
      assert a + b == b;
    } else {
      assert (a + b)[1..] == a[1..] + b;
      PlaceholdersOfPartsAppend(a[1..], b);
    }
  }

  /** `s.endswith(suffix)` */
  predicate EndsWith(s: string, suffix: string)
  {
    |suffix| <= |s| && s[|s| - |suffix|..] == suffix
  }

  /** Joining two non-empty runs of parts puts one separator between them. */
  lemma {:induction false} JoinConcat(p: seq<string>, q: seq<string>, sep: string)
    requires |p| > 0 && |q| > 0
    ensures Join(p + q, sep) == Join(p, sep) + sep + Join(q, sep)
    decreases |p|
  {
    if |p| == 1 {
      assert (p + q)[1..] == q;
    } else {
      assert (p + q)[1..] == p[1..] + q;
      JoinConcat(p[1..], q, sep);
    }
  }

  /** A joined text starts with its first parts and ends with its last ones. */
  lemma JoinEnds(head: seq<string>, mid: seq<string>, tail: seq<string>, sep: string)
    requires |head| > 0 && |tail| > 0
    ensures StartsWith(Join(head + mid + tail, sep), Join(head, sep))
    ensures EndsWith(Join(head + mid + tail, sep), Join(tail, sep))
  {
    if |mid| > 0 {
      JoinConcat(head, mid, sep);
    } else {
      assert head + mid == head;
    }
    JoinConcat(head + mid, tail, sep);
    var a := Join(head + mid, sep);
    assert a[..|Join(head, sep)|] == Join(head, sep);
  }

  /** Text without `$` holds no placeholder. */
  lemma NoPlaceholders(s: string)
    requires '$' !in s
    ensures Placeholders(s) == []
  {
    PlaceholdersSkip(s, "");
    assert s + "" == s;
  }

  lemma IntToStringNoDollar(i: int)
    ensures '$' !in IntToString(i)
  {
    var s := IntToString(i);
    if i < 0 {
      assert s == "-" + NatToString(-i);
    }
    assert forall k | 0 <= k < |s| :: s[k] != '$';
  }

  /** The numbers `$b`, `$(b+1)`, ... of a run of placeholders. */
  lemma {:induction false} PlaceholdersOfRun(b: nat, m: nat)
    ensures PlaceholdersOfParts(seq(m, i requires 0 <= i < m => Placeholder(b + i)))
            == Numbered(b, m)
    decreases m
  {
    if m > 0 {
      var run := seq(m, i requires 0 <= i < m => Placeholder(b + i));
      assert run[1..] == seq(m - 1, i requires 0 <= i < m - 1 => Placeholder(b + 1 + i));
      PlaceholdersOfRun(b + 1, m - 1);
      PlaceholdersOfPlaceholder(b);
      assert Numbered(b, m) == [b] + Numbered(b + 1, m - 1);
    }
  }

  /** Counting on from `n`: `[1..n] + [n+1..n+k] == [1..n+k]`. */
  lemma IotaExtend(n: nat, k: nat)
    ensures Iota(n) + Numbered(n + 1, k) == Iota(n + k)
  {
  }
}
