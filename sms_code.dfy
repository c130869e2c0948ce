/**
  Extraction of a one-time code from a retrieved SMS body.

  The plugin compiles the pattern `\d{4,6}` and calls `find()` once on the
  message (or on "" when the message is null). `\d` is taken as the ASCII
  digits '0' to '9', the quantifier is greedy and the pattern is unanchored, so the first
  match starts at the leftmost position followed by four digits and takes as
  many digits as follow there, at most six. With a match the plugin pushes the
  matched text; without one it pushes the original message, null included.
*/
module SmsCode {
  import opened Wrappers

  /** The bounds of the quantifier `{4,6}`. */
  const MinDigits: nat := 4
  const MaxDigits: nat := 6

  /** The digit class `\d`, taken here as the ASCII digits '0' to '9'. */
  predicate IsDigit(c: char) {
    '0' <= c <= '9'
  }

  predicate AllDigits(s: string) {
    forall k :: 0 <= k < |s| ==> IsDigit(s[k])
  }

  /** A match region, as `Matcher.start()` and `Matcher.end()` report it. */
  datatype Match = Match(start: nat, end: nat)

  /** The number of consecutive digits in `s` starting at index `i`. */
  function DigitRun(s: string, i: nat): (n: nat)
    requires i <= |s|
    ensures i + n <= |s|
    ensures forall k :: i <= k < i + n ==> IsDigit(s[k])
    ensures i + n == |s| || !IsDigit(s[i + n])
    decreases |s| - i
  {
    if i == |s| || !IsDigit(s[i]) then 0 else 1 + DigitRun(s, i + 1)
  }

  /** The greedy match of `\d{4,6}` anchored at index `i`, if there is one. */
  function MatchAt(s: string, i: nat): (m: Option<Match>)
    requires i <= |s|
    ensures m.None? <==> !(i + MinDigits <= |s| && forall k :: i <= k < i + MinDigits ==> IsDigit(s[k]))
    ensures m.Some? ==> m.value.start == i && m.value.end <= |s|
    ensures m.Some? ==> MinDigits <= m.value.end - i <= MaxDigits
    ensures m.Some? ==> forall k :: i <= k < m.value.end ==> IsDigit(s[k])
    ensures m.Some? ==> m.value.end == i + MaxDigits || m.value.end == |s| || !IsDigit(s[m.value.end])
  {
    var n := DigitRun(s, i);
    if n < MinDigits then None
    else Some(Match(i, i + if n < MaxDigits then n else MaxDigits))
  }

  /** `Matcher.find()` begun at index `i`: try every start position from `i` up to `|s|`. */
  function FindFrom(s: string, i: nat): (m: Option<Match>)
    requires i <= |s|
    ensures m.Some? ==> i <= m.value.start && m.value.start + MinDigits <= m.value.end <= m.value.start + MaxDigits
    ensures m.Some? ==> m.value.end <= |s|
    decreases |s| - i
  {
    match MatchAt(s, i)
    case Some(m) => Some(m)
    case None => if i == |s| then None else FindFrom(s, i + 1)
  }

  /** The first call of `find()` on a fresh matcher. */
  function Find(s: string): (m: Option<Match>)
    ensures m.Some? ==> m.value.start + MinDigits <= m.value.end <= m.value.start + MaxDigits
    ensures m.Some? ==> m.value.end <= |s|
  {
    FindFrom(s, 0)
  }

  /**
    The value `onReceive` passes to `setCode` for a message that may be null:
    the message itself, or a code of four to six digits cut from it.
  */
  function Extract(message: Option<string>): (r: Option<string>)
    ensures r == message || (r.Some? && MinDigits <= |r.value| <= MaxDigits && AllDigits(r.value))
    ensures message.None? ==> r.None?
  {
    var s := message.GetOr("");
    match Find(s)
    case Some(m) => FindIsFirst(s); Some(s[m.start..m.end])
    case None => message
  }

  // ---------------------------------------------------------------------
  // A reference definition of "the first match", independent of the scan

  /** Four digits begin at index `i`: the least the pattern needs to match there. */
  ghost predicate FourDigitsAt(s: string, i: int) {
    0 <= i && i + MinDigits <= |s| && AllDigits(s[i..i + MinDigits])
  }

  /** The message holds a run of at least four digits somewhere. */
  ghost predicate ContainsCode(s: string) {
    exists i :: FourDigitsAt(s, i)
  }

  /**
    `m` is the leftmost-greedy match of `\d{4,6}` in `s`: it starts at the first
    index followed by four digits, covers only digits, has 4 to 6 of them, and
    stops only at the sixth digit, at the end of the text or before a non-digit.
  */
  ghost predicate IsFirstMatch(s: string, m: Match) {
    && FourDigitsAt(s, m.start)
    && (forall j :: 0 <= j < m.start ==> !FourDigitsAt(s, j))
    && m.start + MinDigits <= m.end <= m.start + MaxDigits
    && m.end <= |s|
    && AllDigits(s[m.start..m.end])
    && (m.end == m.start + MaxDigits || m.end == |s| || !IsDigit(s[m.end]))
  }

  /** A slice consists of digits exactly when each of its characters in `s` is a digit. */
  lemma AllDigitsSlice(s: string, a: nat, b: nat)
    requires a <= b <= |s|
    ensures AllDigits(s[a..b]) <==> forall k :: a <= k < b ==> IsDigit(s[k])
  {
  }

  /** A digit run of length at least four is exactly where four digits begin. */
  lemma DigitRunAtLeastFour(s: string, i: nat)
    requires i <= |s|
    ensures DigitRun(s, i) >= MinDigits <==> FourDigitsAt(s, i)
  {
  }

  /** The scan from `i` finds the first index at or after `i` where four digits begin. */
  lemma {:induction false} FindFromFirst(s: string, i: nat)
    requires i <= |s|
    ensures FindFrom(s, i).None? <==> forall j :: i <= j <= |s| ==> !FourDigitsAt(s, j)
    ensures FindFrom(s, i).Some? ==>
              && FourDigitsAt(s, FindFrom(s, i).value.start)
              && forall j :: i <= j < FindFrom(s, i).value.start ==> !FourDigitsAt(s, j)
    ensures FindFrom(s, i).Some? ==> FindFrom(s, i) == MatchAt(s, FindFrom(s, i).value.start)
    decreases |s| - i
  {
    DigitRunAtLeastFour(s, i);
    if MatchAt(s, i).None? && i < |s| {
      FindFromFirst(s, i + 1);
    }
  }

  /** Whatever the scan returns is the leftmost-greedy match. */
  lemma FindIsFirst(s: string)
    requires Find(s).Some?
    ensures IsFirstMatch(s, Find(s).value)
  {
    FindFromFirst(s, 0);
    var m := Find(s).value;
    var n := DigitRun(s, m.start);
    assert m == MatchAt(s, m.start).value;
    AllDigitsSlice(s, m.start, m.end);
    if m.end < m.start + MaxDigits {
      assert m.end == m.start + n;
    }
  }

  /** There is at most one leftmost-greedy match. */
  lemma FirstMatchUnique(s: string, m1: Match, m2: Match)
    requires IsFirstMatch(s, m1) && IsFirstMatch(s, m2)
    ensures m1 == m2
  {
    assert m1.start == m2.start;
    AllDigitsSlice(s, m1.start, m1.end);
    AllDigitsSlice(s, m2.start, m2.end);
  }

  /** `find()` matches exactly when four consecutive digits occur. */
  lemma FindNoneIff(s: string)
    ensures Find(s).None? <==> !ContainsCode(s)
  {
    FindFromFirst(s, 0);
    if ContainsCode(s) {
      var i :| FourDigitsAt(s, i);
      assert 0 <= i <= |s|;
    }
  }

  /** `find()` returns `m` if and only if `m` is the leftmost-greedy match. */
  lemma FindIsFirstMatch(s: string, m: Match)
    ensures Find(s) == Some(m) <==> IsFirstMatch(s, m)
  {
    if Find(s) == Some(m) {
      FindIsFirst(s);
    }
    if IsFirstMatch(s, m) {
      FindNoneIff(s);
      FindIsFirst(s);
      FirstMatchUnique(s, m, Find(s).value);
    }
  }

  // ---------------------------------------------------------------------
  // What `onReceive` pushes

  /**
    When four digits first begin at index `i`, the pushed code starts there and
    runs over the digits that follow, stopping after six.
  */
  lemma ExtractEarliestGreedy(message: Option<string>, i: nat)
    requires FourDigitsAt(message.GetOr(""), i)
    requires forall j :: 0 <= j < i ==> !FourDigitsAt(message.GetOr(""), j)
    ensures var s := message.GetOr("");
            var n := DigitRun(s, i);
            Extract(message) == Some(s[i..i + if n < MaxDigits then n else MaxDigits])
  {
    var s := message.GetOr("");
    FindNoneIff(s);
    FindIsFirst(s);
    var m := Find(s).value;
    assert m.start == i;
    FindFromFirst(s, 0);
  }

  /** A run of seven or more digits is not rejected: its first six digits are pushed. */
  lemma ExtractLongRun(message: Option<string>, i: nat)
    requires i + MaxDigits + 1 <= |message.GetOr("")|
    requires AllDigits(message.GetOr("")[i..i + MaxDigits + 1])
    requires forall j :: 0 <= j < i ==> !FourDigitsAt(message.GetOr(""), j)
    ensures Extract(message) == Some(message.GetOr("")[i..i + MaxDigits])
  {
    var s := message.GetOr("");
    AllDigitsSlice(s, i, i + MaxDigits + 1);
    AllDigitsSlice(s, i, i + MinDigits);
    ExtractEarliestGreedy(message, i);
    var n := DigitRun(s, i);
    assert i + n == |s| || !IsDigit(s[i + n]);
  }

  /** When four consecutive digits occur, the pushed code has 4 to 6 digits and
      occurs in the message at index `k`. */
  lemma ExtractedCodeShape(message: Option<string>) returns (k: nat)
    requires ContainsCode(message.GetOr(""))
    ensures Extract(message).Some?
    ensures var c := Extract(message).value;
            && MinDigits <= |c| <= MaxDigits && AllDigits(c)
            && k + |c| <= |message.GetOr("")| && message.GetOr("")[k..k + |c|] == c
  {
    var s := message.GetOr("");
    FindNoneIff(s);
    FindIsFirst(s);
    k := Find(s).value.start;
  }

  /**
    Without four consecutive digits the original message is pushed unchanged;
    in particular a null message is pushed as null, because the match ran on "".
  */
  lemma ExtractFallback(message: Option<string>)
    requires !ContainsCode(message.GetOr(""))
    ensures Extract(message) == message
  {
    FindNoneIff(message.GetOr(""));
  }

  /** A null message is pushed as null. */
  lemma ExtractNull()
    ensures Extract(None) == None
  {
  }
}

/**
  Worked examples of the extraction. Each message is a parameter fixed by the
  precondition, and the scan is evaluated a few positions at a time, from the
  end of the message towards its start.
*/
module SmsCodeExamples {
  import opened Wrappers
  import opened SmsCode

  lemma SixDigitCode(s: string)
    requires s == "Use 123456 to sign in."
    ensures Extract(Some(s)) == Some("123456")
  {
    assert DigitRun(s, 10) == 0;
    assert DigitRun(s, 8) == 2;
    assert DigitRun(s, 6) == 4;
    assert DigitRun(s, 4) == 6;
    assert FindFrom(s, 4) == Some(Match(4, 10));
    assert FindFrom(s, 2) == Some(Match(4, 10));
    assert FindFrom(s, 0) == Some(Match(4, 10));
    assert s[4..10] == "123456";
  }

  /** The scan of the message in ShortRunsFallBack from its "567" onwards. */
  lemma ShortRunsTail(s: string)
    requires s == "OTP 12 34 567 sent"
    ensures FindFrom(s, 10) == None
  {
    assert FindFrom(s, 18) == None;
    assert FindFrom(s, 16) == None;
    assert FindFrom(s, 14) == None;
    assert DigitRun(s, 12) == 1;
    assert DigitRun(s, 10) == 3;
    assert FindFrom(s, 12) == None;
  }

  lemma ShortRunsFallBack(s: string)
    requires s == "OTP 12 34 567 sent"
    ensures Extract(Some(s)) == Some(s)
  {
    ShortRunsTail(s);
    assert DigitRun(s, 9) == 0;
    assert DigitRun(s, 7) == 2;
    assert FindFrom(s, 8) == None;
    assert FindFrom(s, 6) == None;
    assert DigitRun(s, 6) == 0;
    assert DigitRun(s, 4) == 2;
    assert FindFrom(s, 4) == None;
    assert FindFrom(s, 2) == None;
    assert FindFrom(s, 0) == None;
  }

  lemma TwoDigitsFallBack(s: string)
    requires s == "Verification: 99"
    ensures Extract(Some(s)) == Some(s)
  {
    assert DigitRun(s, 14) == 2;
    assert FindFrom(s, 14) == None;
    assert FindFrom(s, 12) == None;
    assert FindFrom(s, 10) == None;
    assert FindFrom(s, 8) == None;
    assert FindFrom(s, 6) == None;
    assert FindFrom(s, 4) == None;
    assert FindFrom(s, 2) == None;
    assert FindFrom(s, 0) == None;
  }

  lemma SevenDigitsTruncated(s: string)
    requires s == "PIN 1234567"
    ensures Extract(Some(s)) == Some("123456")
  {
    assert DigitRun(s, 10) == 1;
    assert DigitRun(s, 8) == 3;
    assert DigitRun(s, 6) == 5;
    assert DigitRun(s, 4) == 7;
    assert FindFrom(s, 4) == Some(Match(4, 10));
    assert FindFrom(s, 2) == Some(Match(4, 10));
    assert FindFrom(s, 0) == Some(Match(4, 10));
    assert s[4..10] == "123456";
  }

  lemma EarliestRunWins(s: string)
    requires s == "1234 or 567890"
    ensures Extract(Some(s)) == Some("1234")
  {
    assert DigitRun(s, 4) == 0;
    assert DigitRun(s, 2) == 2;
    assert DigitRun(s, 0) == 4;
    assert s[0..4] == "1234";
  }
}
