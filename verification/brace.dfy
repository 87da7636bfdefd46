/**
  The brace quantifier `{m}`, `{m,}`, `{m,n}`: a hand-written prefix matcher
  for the text after `{`, standing for the anchored pattern
  digits, optionally a comma and optional digits, then `}`.
 */
module Brace {
  import opened Wrappers

  /** An ASCII decimal digit, the class `\d` of the source's patterns. */
  predicate IsDigit(c: char) {
    '0' <= c <= '9'
  }

  predicate AllDigits(ds: seq<char>) {
    forall k :: 0 <= k < |ds| ==> IsDigit(ds[k])
  }

  /** The value of a digit character (0 for any other character). */
  function DigitValue(c: char): nat {
    if IsDigit(c) then c as nat - '0' as nat else 0
  }

  /** The value of a string of decimal digits, most significant first. */
  function Decimal(ds: seq<char>): nat {
    if ds == [] then 0 else Decimal(ds[..|ds| - 1]) * 10 + DigitValue(ds[|ds| - 1])
  }

  /** The bounds a brace quantifier gives (`max == None` is unbounded), and how many characters after `{` it occupies. */
  datatype Quantifier = Quantifier(min: nat, max: Option<nat>, length: nat)

  /** The length of the longest run of digits in `s` that starts at `from`. */
  function DigitRun(s: seq<char>, from: nat): (n: nat)
    requires from <= |s|
    ensures from + n <= |s|
    decreases |s| - from
  {
    if from < |s| && IsDigit(s[from]) then 1 + DigitRun(s, from + 1) else 0
  }

  lemma {:induction false} DigitRunSpec(s: seq<char>, from: nat)
    requires from <= |s|
    ensures AllDigits(s[from..from + DigitRun(s, from)])
    ensures from + DigitRun(s, from) == |s| || !IsDigit(s[from + DigitRun(s, from)])
    decreases |s| - from
  {
    if from < |s| && IsDigit(s[from]) {
      DigitRunSpec(s, from + 1);
      assert s[from..from + DigitRun(s, from)] == [s[from]] + s[from + 1..from + 1 + DigitRun(s, from + 1)];
    }
  }

  /** Reads a brace quantifier at the start of `s` (the text just after `{`), or None when there is none. */
  function Match(s: seq<char>): (r: Option<Quantifier>)
    ensures r.Some? ==> 2 <= r.value.length <= |s| && s[r.value.length - 1] == '}'
  {
    var d := DigitRun(s, 0);
    if d == 0 || d == |s| then None
    else if s[d] == '}' then Some(Quantifier(Decimal(s[..d]), Some(Decimal(s[..d])), d + 1))
    else if s[d] != ',' then None
    else
      var e := DigitRun(s, d + 1);
      if d + 1 + e == |s| || s[d + 1 + e] != '}' then None
      else
        var max := if e == 0 then None else Some(Decimal(s[d + 1..d + 1 + e]));
        Some(Quantifier(Decimal(s[..d]), max, d + 2 + e))
  }

  /** The text of a quantifier after its `{`: `low`, then, when `comma`, a comma and `high`, then `}`. */
  function Text(low: seq<char>, comma: bool, high: seq<char>): seq<char> {
    low + (if comma then [','] + high else []) + ['}']
  }

  predicate WellFormedText(low: seq<char>, comma: bool, high: seq<char>) {
    |low| > 0 && AllDigits(low) && AllDigits(high) && (!comma ==> high == [])
  }

  /** What a quantifier text means: `{m}` is m..m, `{m,}` is m..unbounded, `{m,n}` is m..n, as written. */
  function Denotes(low: seq<char>, comma: bool, high: seq<char>): Quantifier
    requires WellFormedText(low, comma, high)
  {
    var max := if !comma then Some(Decimal(low)) else if high == [] then None else Some(Decimal(high));
    Quantifier(Decimal(low), max, |Text(low, comma, high)|)
  }

  lemma {:induction false} DigitRunExact(s: seq<char>, from: nat, n: nat)
    requires from + n <= |s|
    requires forall k :: from <= k < from + n ==> IsDigit(s[k])
    requires from + n == |s| || !IsDigit(s[from + n])
    ensures DigitRun(s, from) == n
    decreases n
  {
    if n > 0 {
      DigitRunExact(s, from + 1, n - 1);
    }
  }

  /** Every quantifier text, whatever follows it, is recognised with the bounds it denotes and exactly its own length. */
  lemma MatchComplete(low: seq<char>, comma: bool, high: seq<char>, rest: seq<char>)
    requires WellFormedText(low, comma, high)
    ensures Match(Text(low, comma, high) + rest) == Some(Denotes(low, comma, high))
  {
    var s := Text(low, comma, high) + rest;
    var d := |low|;
    DigitRunExact(s, 0, d);
    assert s[..d] == low;
    if comma {
      assert s[d] == ',';
      var e := |high|;
      DigitRunExact(s, d + 1, e);
      assert s[d + 1..d + 1 + e] == high;
      assert s[d + 1 + e] == '}';
    } else {
      assert s[d] == '}';
    }
  }

  /** The `{m}` case of MatchSound: a digit run closed at once by `}`. */
  lemma SoundExact(s: seq<char>, d: nat)
    requires d == DigitRun(s, 0) && 0 < d < |s| && s[d] == '}'
    ensures WellFormedText(s[..d], false, [])
    ensures s == Text(s[..d], false, []) + s[d + 1..]
    ensures Match(s) == Some(Denotes(s[..d], false, []))
  {
    var low := s[..d];
    assert AllDigits(low) by {
      DigitRunSpec(s, 0);
      assert low == s[0..0 + d];
    }
    assert Text(low, false, []) == low + ['}'];
    assert s == low + [s[d]] + s[d + 1..];
  }

  /** The `{m,}` and `{m,n}` cases of MatchSound: a digit run, a comma, a second (possibly empty) digit run, then `}`. */
  lemma SoundComma(s: seq<char>, d: nat, e: nat)
    requires d == DigitRun(s, 0) && 0 < d < |s| && s[d] == ','
    requires e == DigitRun(s, d + 1) && d + 1 + e < |s| && s[d + 1 + e] == '}'
    ensures WellFormedText(s[..d], true, s[d + 1..d + 1 + e])
    ensures s == Text(s[..d], true, s[d + 1..d + 1 + e]) + s[d + 2 + e..]
    ensures Match(s) == Some(Denotes(s[..d], true, s[d + 1..d + 1 + e]))
  {
    var low, high := s[..d], s[d + 1..d + 1 + e];
    assert AllDigits(low) by {
      DigitRunSpec(s, 0);
      assert low == s[0..0 + d];
    }
    assert AllDigits(high) by {
      DigitRunSpec(s, d + 1);
    }
    assert Text(low, true, high) == low + [','] + high + ['}'];
    assert s == low + [s[d]] + high + [s[d + 1 + e]] + s[d + 2 + e..];
  }

  /** Whatever the matcher recognises is a quantifier text, followed by anything, with the bounds that text denotes. */
  lemma MatchSound(s: seq<char>)
    requires Match(s).Some?
    ensures exists low, comma, high, rest ::
      WellFormedText(low, comma, high) && s == Text(low, comma, high) + rest &&
      Match(s).value == Denotes(low, comma, high)
  {
    var d := DigitRun(s, 0);
    if s[d] == '}' {
      SoundExact(s, d);
      var low, rest := s[..d], s[d + 1..];
      assert WellFormedText(low, false, []) && s == Text(low, false, []) + rest &&
        Match(s).value == Denotes(low, false, []);
    } else {
      var e := DigitRun(s, d + 1);
      SoundComma(s, d, e);
      var low, high, rest := s[..d], s[d + 1..d + 1 + e], s[d + 2 + e..];
      assert WellFormedText(low, true, high) && s == Text(low, true, high) + rest &&
        Match(s).value == Denotes(low, true, high);
    }
  }
  /** A recognised quantifier text is made of digits, at most one comma and its closing `}`: nothing else is consumed. */
  lemma {:induction false} MatchSpan(s: seq<char>)
    requires Match(s).Some?
    ensures forall k :: 0 <= k < Match(s).value.length ==> IsDigit(s[k]) || s[k] == ',' || s[k] == '}'
  {
    var d := DigitRun(s, 0);
    DigitRunSpec(s, 0);
    assert forall k :: 0 <= k < d ==> IsDigit(s[k]) by {
      forall k | 0 <= k < d ensures IsDigit(s[k]) {
        assert s[0..0 + d][k] == s[k];
      }
    }
    if s[d] != '}' {
      var e := DigitRun(s, d + 1);
      DigitRunSpec(s, d + 1);
      forall k | d + 1 <= k < d + 1 + e ensures IsDigit(s[k]) {
        assert s[d + 1..d + 1 + e][k - d - 1] == s[k];
      }
    }
  }
}
