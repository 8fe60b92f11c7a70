/** The pieces of Python's `str` behaviour the handlers and stages rely on:
    substring tests (`needle in hay`), `split(sep)` and `sep.join(parts)`,
    whitespace `split()`, `int()` of a decimal literal and `str()` of an int. */
module Text {
  import opened Results
  import opened Seqs

  // ---------------------------------------------------------------------
  // Substring test: `needle in hay`
  // ---------------------------------------------------------------------

  /** `needle` appears in `hay` starting at position `i`. */
  ghost predicate OccursAt(hay: string, needle: string, i: int) {
    0 <= i && i + |needle| <= |hay| && hay[i..i + |needle|] == needle
  }

  /** Python's `needle in hay`; the empty needle occurs everywhere. */
  function Contains(hay: string, needle: string): (b: bool)
    ensures b <==> exists i :: OccursAt(hay, needle, i)
    decreases |hay|
  {
    if |needle| > |hay| then
      false
    else if hay[..|needle|] == needle then
      assert OccursAt(hay, needle, 0);
      true
    else
      OccursShift(hay, needle);
      Contains(hay[1..], needle)
  }

  /** When `needle` is not at the front of `hay`, it occurs in `hay` exactly
      when it occurs in `hay[1..]`. */
  lemma OccursShift(hay: string, needle: string)
    requires |needle| <= |hay|
    requires hay[..|needle|] != needle
    ensures (exists i :: OccursAt(hay[1..], needle, i)) <==> (exists i :: OccursAt(hay, needle, i))
  {
    forall i | OccursAt(hay[1..], needle, i)
      ensures OccursAt(hay, needle, i + 1)
    {
      assert hay[1..][i..i + |needle|] == hay[i + 1..i + 1 + |needle|];
    }
    forall i | OccursAt(hay, needle, i)
      ensures OccursAt(hay[1..], needle, i - 1)
    {
      assert i != 0;
      assert hay[1..][i - 1..i - 1 + |needle|] == hay[i..i + |needle|];
    }
  }

  /** A one-character needle occurs exactly when the character is in the string. */
  lemma ContainsChar(hay: string, c: char)
    ensures Contains(hay, [c]) <==> c in hay
  {
    if c in hay {
      var i :| 0 <= i < |hay| && hay[i] == c;
      assert OccursAt(hay, [c], i);
    }
    if Contains(hay, [c]) {
      var i :| OccursAt(hay, [c], i);
      assert hay[i] == hay[i..i + 1][0];
    }
  }

  // ---------------------------------------------------------------------
  // `s.split(sep)` for a one-character separator, and `sep.join(parts)`
  // ---------------------------------------------------------------------

  /** Position of the first occurrence of `c` in `s`. */
  function IndexOf(s: string, c: char): (i: nat)
    requires c in s
    ensures i < |s| && s[i] == c && c !in s[..i]
  {
    if s[0] == c then 0
    else
      var j := IndexOf(s[1..], c);
      assert s[..1 + j] == [s[0]] + s[1..][..j];
      1 + j
  }

  /** `sep.join(parts)`. */
  function Join(parts: seq<string>, sep: string): string {
    if |parts| == 0 then ""
    else if |parts| == 1 then parts[0]
    else parts[0] + sep + Join(parts[1..], sep)
  }

  /** `s.split(sep)`: never empty, no piece holds the separator, and joining
      the pieces back with the separator gives `s` again. */
  function Split(s: string, sep: char): (parts: seq<string>)
    ensures |parts| >= 1
    ensures forall k :: 0 <= k < |parts| ==> sep !in parts[k]
    ensures Join(parts, [sep]) == s
    decreases |s|
  {
    if sep !in s then [s]
    else
      var i := IndexOf(s, sep);
      var rest := Split(s[i + 1..], sep);
      assert ([s[..i]] + rest)[1..] == rest;
      assert s == s[..i] + [sep] + s[i + 1..];
      [s[..i]] + rest
  }

  /** `split` yields one more piece than there are separators in `s`. */
  lemma {:induction false} SplitCount(s: string, sep: char)
    ensures |Split(s, sep)| == multiset(s)[sep] + 1
    decreases |s|
  {
    if sep in s {
      var i := IndexOf(s, sep);
      var rest := s[i + 1..];
      SplitCount(rest, sep);
      assert Split(s, sep) == [s[..i]] + Split(rest, sep);
      assert s == s[..i] + [sep] + rest;
      assert multiset(s) == multiset(s[..i]) + multiset{sep} + multiset(rest);
      assert multiset(s[..i])[sep] == 0;
    } else {
      assert multiset(s)[sep] == 0;
    }
  }

  lemma IndexOfAfterPrefix(a: string, c: char, b: string)
    requires c !in a
    ensures c in a + [c] + b
    ensures IndexOf(a + [c] + b, c) == |a|
    decreases |a|
  {
    assert (a + [c] + b)[|a|] == c;
    if |a| > 0 {
      assert (a + [c] + b)[1..] == a[1..] + [c] + b;
      IndexOfAfterPrefix(a[1..], c, b);
    }
  }

  /** Splitting the join of separator-free pieces recovers the pieces. */
  lemma {:induction false} SplitJoin(parts: seq<string>, sep: char)
    requires |parts| >= 1
    requires forall k :: 0 <= k < |parts| ==> sep !in parts[k]
    ensures Split(Join(parts, [sep]), sep) == parts
  {
    if |parts| == 1 {
      assert Join(parts, [sep]) == parts[0];
      assert sep !in parts[0];
    } else {
      var rest := Join(parts[1..], [sep]);
      var s := parts[0] + [sep] + rest;
      assert Join(parts, [sep]) == s;
      IndexOfAfterPrefix(parts[0], sep, rest);
      assert s[..|parts[0]|] == parts[0];
      assert s[|parts[0]| + 1..] == rest;
      assert Split(s, sep) == [parts[0]] + Split(rest, sep);
      assert forall k :: 0 <= k < |parts[1..]| ==> sep !in parts[1..][k] by {
        forall k | 0 <= k < |parts[1..]| ensures sep !in parts[1..][k] {
          assert parts[1..][k] == parts[k + 1];
        }
      }
      SplitJoin(parts[1..], sep);
      assert parts == [parts[0]] + parts[1..];
    }
  }

  /** A separator-free first field comes off `split` as the first piece,
      and the rest is split on its own. */
  lemma SplitAfterPiece(a: string, sep: char, rest: string)
    requires sep !in a
    ensures Split(a + [sep] + rest, sep) == [a] + Split(rest, sep)
  {
    var s := a + [sep] + rest;
    IndexOfAfterPrefix(a, sep, rest);
    assert s[..|a|] == a;
    assert s[|a| + 1..] == rest;
  }

  // ---------------------------------------------------------------------
  // `s.split()` with no argument: maximal runs of non-whitespace
  // ---------------------------------------------------------------------

  /** The characters Python's `str.isspace` accepts. */
  predicate IsSpace(c: char) {
    || c == ' '
    || ('\t' <= c <= '\r')
    || ('\U{1C}' <= c <= '\U{1F}')
    || c == '\U{85}' || c == '\U{A0}' || c == '\U{1680}'
    || ('\U{2000}' <= c <= '\U{200A}')
    || c == '\U{2028}' || c == '\U{2029}' || c == '\U{202F}'
    || c == '\U{205F}' || c == '\U{3000}'
  }

  /** A word of `split()`: non-empty and free of whitespace. */
  ghost predicate IsWord(w: string) {
    |w| > 0 && forall k :: 0 <= k < |w| ==> !IsSpace(w[k])
  }

  /** The characters of `s` that are not whitespace, in order. */
  ghost function NonSpace(s: string): string {
    if |s| == 0 then ""
    else (if IsSpace(s[0]) then "" else [s[0]]) + NonSpace(s[1..])
  }

  /** The concatenation of a list of strings, `"".join(ws)`. */
  ghost function Concat(ws: seq<string>): string {
    if |ws| == 0 then "" else ws[0] + Concat(ws[1..])
  }

  lemma {:induction false} NonSpaceAppend(a: string, b: string)
    ensures NonSpace(a + b) == NonSpace(a) + NonSpace(b)
    decreases |a|
  {
    if |a| > 0 {
      assert (a + b)[1..] == a[1..] + b;
      NonSpaceAppend(a[1..], b);
    } else {
      assert a + b == b;
    }
  }

  lemma {:induction false} NonSpaceOfWord(w: string)
    requires forall k :: 0 <= k < |w| ==> !IsSpace(w[k])
    ensures NonSpace(w) == w
    decreases |w|
  {
    if |w| > 0 {
      NonSpaceOfWord(w[1..]);
      assert w == [w[0]] + w[1..];
    }
  }

  /** Length of the leading run of non-whitespace characters. */
  function WordLength(s: string): (n: nat)
    requires |s| > 0 && !IsSpace(s[0])
    ensures 1 <= n <= |s|
    ensures forall k :: 0 <= k < n ==> !IsSpace(s[k])
    ensures n < |s| ==> IsSpace(s[n])
  {
    if |s| == 1 || IsSpace(s[1]) then 1 else 1 + WordLength(s[1..])
  }

  /** `s.split()`: the words of `s`, in order. Every piece is a word, the
      pieces hold exactly the non-whitespace characters of `s`, and since
      two words are separated by at least one whitespace character there
      are at most half as many words as characters, rounded up. */
  function Words(s: string): (ws: seq<string>)
    ensures forall k :: 0 <= k < |ws| ==> IsWord(ws[k])
    ensures Concat(ws) == NonSpace(s)
    ensures 2 * |ws| <= |s| + 1
    ensures |s| > 0 && IsSpace(s[0]) ==> 2 * |ws| <= |s|
    decreases |s|
  {
    if |s| == 0 then []
    else if IsSpace(s[0]) then
      var ws := Words(s[1..]);
      assert NonSpace(s) == NonSpace(s[1..]);
      ws
    else
      var n := WordLength(s);
      var rest := Words(s[n..]);
      WordThenWords(s, n, rest);
      [s[..n]] + rest
  }

  /** A leading word of length `n`, followed by the words of the rest of
      `s`, are the words of `s`. */
  lemma WordThenWords(s: string, n: nat, rest: seq<string>)
    requires 0 < n <= |s|
    requires forall k :: 0 <= k < n ==> !IsSpace(s[k])
    requires forall k :: 0 <= k < |rest| ==> IsWord(rest[k])
    requires Concat(rest) == NonSpace(s[n..])
    ensures forall k :: 0 <= k < |rest| + 1 ==> IsWord(([s[..n]] + rest)[k])
    ensures Concat([s[..n]] + rest) == NonSpace(s)
  {
    var word := s[..n];
    assert IsWord(word) by {
      assert forall k :: 0 <= k < |word| ==> word[k] == s[k];
    }
    AllWordsCons(word, rest);
    NonSpaceOfPrefix(s, n);
    ConcatCons(word, rest);
  }

  lemma AllWordsCons(word: string, rest: seq<string>)
    requires IsWord(word)
    requires forall k :: 0 <= k < |rest| ==> IsWord(rest[k])
    ensures forall k :: 0 <= k < |rest| + 1 ==> IsWord(([word] + rest)[k])
  {
    var ws := [word] + rest;
    assert forall k :: 1 <= k < |ws| ==> ws[k] == rest[k - 1];
  }

  lemma ConcatCons(word: string, rest: seq<string>)
    ensures Concat([word] + rest) == word + Concat(rest)
  {
    assert ([word] + rest)[1..] == rest;
  }

  /** Splitting `s` after a leading word keeps that word whole. */
  lemma NonSpaceOfPrefix(s: string, n: nat)
    requires 0 < n <= |s|
    requires forall k :: 0 <= k < n ==> !IsSpace(s[k])
    ensures NonSpace(s) == s[..n] + NonSpace(s[n..])
  {
    assert s == s[..n] + s[n..];
    NonSpaceAppend(s[..n], s[n..]);
    NonSpaceOfWord(s[..n]);
  }

  /** The number of words `s` begins, counted by position: a character that
      is not whitespace and comes first (when `afterSpace` holds) or right
      after whitespace starts a word. */
  ghost function WordStarts(s: string, afterSpace: bool): nat
    decreases |s|
  {
    if |s| == 0 then 0
    else (if afterSpace && !IsSpace(s[0]) then 1 else 0) + WordStarts(s[1..], IsSpace(s[0]))
  }

  /** `split()` gives as many words as `s` has word starts. */
  lemma {:induction false} WordsCount(s: string)
    ensures |Words(s)| == WordStarts(s, true)
    decreases |s|
  {
    if |s| > 0 {
      if IsSpace(s[0]) {
        WordsCount(s[1..]);
      } else {
        var n := WordLength(s);
        assert Words(s) == [s[..n]] + Words(s[n..]);
        InsideWord(s, 1, n);
        AfterWord(s[n..]);
        WordsCount(s[n..]);
      }
    }
  }

  /** Inside a word no new word starts. */
  lemma {:induction false} InsideWord(s: string, i: nat, n: nat)
    requires 1 <= i <= n <= |s|
    requires forall k :: 0 <= k < n ==> !IsSpace(s[k])
    ensures WordStarts(s[i..], false) == WordStarts(s[n..], false)
    decreases n - i
  {
    if i < n {
      assert s[i..][0] == s[i];
      assert s[i..][1..] == s[i + 1..];
      InsideWord(s, i + 1, n);
    }
  }

  /** Where a word ends, the flag no longer matters. */
  lemma AfterWord(t: string)
    requires |t| == 0 || IsSpace(t[0])
    ensures WordStarts(t, false) == WordStarts(t, true)
  {
  }

  /** `s` cut at every whitespace character, keeping the empty pieces
      between adjacent whitespace and at the ends. */
  ghost function SpacePieces(s: string): (ps: seq<string>)
    ensures |ps| >= 1
    decreases |s|
  {
    if |s| == 0 then [""]
    else
      var rest := SpacePieces(s[1..]);
      if IsSpace(s[0]) then [""] + rest
      else [[s[0]] + rest[0]] + rest[1..]
  }

  predicate NonEmpty(w: string) {
    |w| > 0
  }

  /** `split()` is cutting at every whitespace character and dropping the
      empty pieces, so each word is a whole maximal run of non-whitespace. */
  lemma {:induction false} WordsAreRuns(s: string)
    ensures Words(s) == Filter(SpacePieces(s), NonEmpty)
    decreases |s|
  {
    if |s| > 0 {
      if IsSpace(s[0]) {
        var rest := SpacePieces(s[1..]);
        assert ([""] + rest)[1..] == rest;
        WordsAreRuns(s[1..]);
      } else {
        var n := WordLength(s);
        var tail := SpacePieces(s[n..]);
        RunPiece(s, 0, n);
        assert s[0..] == s && s[0..n] == s[..n];
        assert tail[0] == "";
        assert s[..n] + tail[0] == s[..n];
        var ps := [s[..n]] + tail[1..];
        assert SpacePieces(s) == ps;
        assert ps[1..] == tail[1..];
        assert Filter(SpacePieces(s), NonEmpty) == [s[..n]] + Filter(tail[1..], NonEmpty);
        assert tail == [""] + tail[1..];
        assert Filter(tail, NonEmpty) == Filter(tail[1..], NonEmpty);
        WordsAreRuns(s[n..]);
      }
    }
  }

  /** From inside a run of non-whitespace ending at `n`, the first piece is
      the rest of the run glued to the first piece after it. */
  lemma {:induction false} RunPiece(s: string, i: nat, n: nat)
    requires i <= n <= |s|
    requires forall k :: 0 <= k < n ==> !IsSpace(s[k])
    ensures SpacePieces(s[i..]) == [s[i..n] + SpacePieces(s[n..])[0]] + SpacePieces(s[n..])[1..]
    decreases n - i
  {
    var tail := SpacePieces(s[n..]);
    if i == n {
      assert s[i..n] + tail[0] == tail[0];
      assert tail == [tail[0]] + tail[1..];
    } else {
      assert s[i..][0] == s[i];
      assert s[i..][1..] == s[i + 1..];
      RunPiece(s, i + 1, n);
      assert [s[i]] + (s[i + 1..n] + tail[0]) == s[i..n] + tail[0];
    }
  }

  // ---------------------------------------------------------------------
  // `str(i)` and `int(s)` for decimal integers
  // ---------------------------------------------------------------------

  predicate IsDigit(c: char) {
    '0' <= c <= '9'
  }

  predicate AllDigits(s: string) {
    forall k :: 0 <= k < |s| ==> IsDigit(s[k])
  }

  function DigitChar(d: nat): (c: char)
    requires d < 10
    ensures IsDigit(c)
  {
    (('0' as int) + d) as char
  }

  function DigitValue(c: char): nat
    requires IsDigit(c)
  {
    (c as int) - ('0' as int)
  }

  /** The value of a string of decimal digits, most significant first. */
  function DigitsValue(d: string): nat
    requires AllDigits(d)
  {
    if |d| == 0 then 0 else DigitsValue(d[..|d| - 1]) * 10 + DigitValue(d[|d| - 1])
  }

  /** `str(n)` for a non-negative int: at least one digit, no leading zero. */
  function NatToString(n: nat): (s: string)
    ensures |s| >= 1 && AllDigits(s)
    ensures s[0] == '0' ==> n == 0
  {
    if n < 10 then [DigitChar(n)]
    else NatToString(n / 10) + [DigitChar(n % 10)]
  }

  /** `str(i)`: a `-` before the digits exactly when `i` is negative. */
  function IntToString(i: int): (s: string)
    ensures |s| >= 1
    ensures s[0] == '-' <==> i < 0
    ensures i >= 0 ==> IsDigit(s[0])
  {
    if i < 0 then "-" + NatToString(-i) else NatToString(i)
  }

  /** `str(n)` of a two-digit number is its tens digit, then its units digit. */
  lemma TwoDigitText(n: int)
    requires 10 <= n < 100
    ensures IntToString(n) == [DigitChar(n / 10), DigitChar(n % 10)]
  {
    assert NatToString(n / 10) == [DigitChar(n / 10)];
  }

  /** `str(i)` holds only digits and a minus sign. */
  lemma IntTextChars(i: int)
    ensures forall k :: 0 <= k < |IntToString(i)| ==> IntToString(i)[k] == '-' || IsDigit(IntToString(i)[k])
  {
    if i < 0 {
      var d := NatToString(-i);
      assert IntToString(i) == "-" + d;
      assert forall k :: 1 <= k < |IntToString(i)| ==> IntToString(i)[k] == d[k - 1];
    }
  }

  /** `int(s)`: an optional `+` or `-` followed by one or more decimal digits;
      anything else is a `ValueError`, modelled as `None`. */
  function ParseInt(s: string): (r: Option<int>)
    ensures r.Some? <==>
      || (|s| > 0 && AllDigits(s))
      || (|s| > 1 && (s[0] == '+' || s[0] == '-') && AllDigits(s[1..]))
  {
    if |s| > 0 && (s[0] == '+' || s[0] == '-') then
      var d := s[1..];
      if |d| > 0 && AllDigits(d) then
        var magnitude: int := DigitsValue(d);
        Some(if s[0] == '-' then -magnitude else magnitude)
      else None
    else if |s| > 0 && AllDigits(s) then Some(DigitsValue(s))
    else None
  }

  lemma {:induction false} DigitsRoundTrip(n: nat)
    ensures DigitsValue(NatToString(n)) == n
  {
    if n >= 10 {
      var s := NatToString(n);
      assert s[..|s| - 1] == NatToString(n / 10);
      DigitsRoundTrip(n / 10);
    }
  }

  /** `int(str(i)) == i` for every int. */
  lemma ParseIntRoundTrip(i: int)
    ensures ParseInt(IntToString(i)) == Some(i)
  {
    if i < 0 {
      ParseMinusRoundTrip(-i);
    } else {
      ParseNatRoundTrip(i);
    }
  }

  lemma ParseNatRoundTrip(n: nat)
    ensures ParseInt(NatToString(n)) == Some(n)
  {
    var s := NatToString(n);
    assert IsDigit(s[0]);
    DigitsRoundTrip(n);
  }

  lemma ParseMinusRoundTrip(n: nat)
    ensures ParseInt("-" + NatToString(n)) == Some(0 - n)
  {
    assert ("-" + NatToString(n))[1..] == NatToString(n);
    DigitsRoundTrip(n);
  }

  /** `int("+" + str(i)) == i` for every non-negative int. */
  lemma ParsePlusRoundTrip(i: int)
    requires i >= 0
    ensures ParseInt("+" + IntToString(i)) == Some(i)
  {
    assert ("+" + IntToString(i))[1..] == NatToString(i);
    DigitsRoundTrip(i);
  }

  /** `t` shows the number `n` in decimal starting at position `i`. */
  ghost predicate ReadsAt(t: string, i: nat, n: int) {
    i + |IntToString(n)| <= |t| && ParseInt(t[i..i + |IntToString(n)|]) == Some(n)
  }

  /** The middle part of a concatenation sits right after the first. */
  lemma Middle(a: string, b: string, c: string)
    ensures (a + b + c)[|a|..|a| + |b|] == b
  {
  }

  /** A number rendered into a line with `str()` reads back from its place. */
  lemma NumberAt(lead: string, n: int, tail: string)
    ensures ReadsAt(lead + IntToString(n) + tail, |lead|, n)
  {
    Middle(lead, IntToString(n), tail);
    ParseIntRoundTrip(n);
  }

  /** In `lead + str(n) + mid + field + tail`, the number reads back from its
      place and `field` sits right after `mid`. */
  lemma NumberThenText(lead: string, n: int, mid: string, field: string, tail: string)
    ensures var t := lead + IntToString(n) + mid + field + tail;
            var i := |lead| + |IntToString(n)| + |mid|;
            && ReadsAt(t, |lead|, n)
            && i + |field| <= |t| && t[i..i + |field|] == field
  {
    var c := IntToString(n);
    var t := lead + c + mid + field + tail;
    assert t == lead + c + (mid + field + tail);
    NumberAt(lead, n, mid + field + tail);
    Middle(lead + c + mid, field, tail);
  }

  /** Two numbers rendered into a line with `str()` both read back from
      their places, and the line starts with its lead. */
  lemma TwoNumbersAt(lead: string, n: int, mid: string, m: int, tail: string)
    ensures var t := lead + IntToString(n) + mid + IntToString(m) + tail;
            && t[..|lead|] == lead
            && ReadsAt(t, |lead|, n)
            && ReadsAt(t, |lead| + |IntToString(n)| + |mid|, m)
  {
    var t := lead + IntToString(n) + mid + IntToString(m) + tail;
    NumberThenText(lead, n, mid, IntToString(m), tail);
    ParseIntRoundTrip(m);
    assert t[..|lead|] == lead;
  }
}
