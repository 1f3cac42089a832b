/** Reading a weight from the scale's serial output. Each line is trimmed; the number
    starts at the first start character (a digit, and for Scale_2 and Scale_3 also
    '-'); from there the longest run of digits, '.' and '-' is kept and everything
    after it (a unit such as "kg") is dropped. A line with no start character is
    skipped and the reader waits for the next one. The serial input is a finite
    sequence of lines; when it holds no usable line the firmware would still be
    waiting, which the model reports as `None`. */
module ScaleReader {
  import opened Options
  import opened CText

  /** Scale_1 starts the number only at a digit; Scale_2 and Scale_3 also at '-'. */
  datatype StartRule = DigitOnly | DigitOrMinus

  predicate IsDigit(c: char) { '0' <= c <= '9' }

  /** Characters kept in the numeric run. */
  predicate IsRunChar(c: char) { IsDigit(c) || c == '.' || c == '-' }

  predicate IsStart(c: char, rule: StartRule)
  {
    IsDigit(c) || (rule == DigitOrMinus && c == '-')
  }

  /** `isspace`: the characters `String::trim` removes at both ends. */
  predicate IsSpace(c: char)
  {
    c == ' ' || c == '\t' || c == '\n' || c == '\r' || c as int == 11 || c as int == 12
  }

  /** `s` without its leading white space. */
  function TrimStart(s: string): (t: string)
    ensures |t| <= |s|
    ensures t == [] || !IsSpace(t[0])
  {
    if s != [] && IsSpace(s[0]) then TrimStart(s[1..]) else s
  }

  /** `s` without its trailing white space. */
  function TrimEnd(s: string): (t: string)
    ensures |t| <= |s|
    ensures t == [] || !IsSpace(t[|t| - 1])
  {
    if s != [] && IsSpace(s[|s| - 1]) then TrimEnd(s[..|s| - 1]) else s
  }

  /** Trimming the front keeps a suffix of the text and removes only white space. */
  lemma {:induction false} TrimStartMeaning(s: string)
    ensures TrimStart(s) == s[|s| - |TrimStart(s)|..]
    ensures forall j :: 0 <= j < |s| - |TrimStart(s)| ==> IsSpace(s[j])
    decreases |s|
  {
    if s != [] && IsSpace(s[0]) {
      TrimStartMeaning(s[1..]);
      forall j | 1 <= j < |s| - |TrimStart(s)|
        ensures IsSpace(s[j])
      {
        assert s[j] == s[1..][j - 1];
      }
    }
  }

  /** Trimming the back keeps a prefix of the text and removes only white space. */
  lemma {:induction false} TrimEndMeaning(s: string)
    ensures TrimEnd(s) == s[..|TrimEnd(s)|]
    ensures forall j :: |TrimEnd(s)| <= j < |s| ==> IsSpace(s[j])
    decreases |s|
  {
    if s != [] && IsSpace(s[|s| - 1]) {
      TrimEndMeaning(s[..|s| - 1]);
      forall j | |TrimEnd(s)| <= j < |s| - 1
        ensures IsSpace(s[j])
      {
        assert s[j] == s[..|s| - 1][j];
      }
    }
  }

  /** `String::trim`. */
  function Trim(s: string): (t: string)
    ensures |t| <= |s|
    ensures t == [] || (!IsSpace(t[0]) && !IsSpace(t[|t| - 1]))
  {
    TrimEndKeepsFront(TrimStart(s));
    TrimEnd(TrimStart(s))
  }

  /** Trimming the back never changes the first character that remains. */
  lemma {:induction false} TrimEndKeepsFront(s: string)
    ensures TrimEnd(s) == [] || TrimEnd(s)[0] == s[0]
    decreases |s|
  {
    if s != [] && IsSpace(s[|s| - 1]) {
      TrimEndKeepsFront(s[..|s| - 1]);
    }
  }

  /** Trimming keeps one contiguous slice of the text and removes only white space,
      all of the leading and all of the trailing white space. */
  lemma TrimMeaning(s: string)
    ensures var a := |s| - |TrimStart(s)|;
      var t := Trim(s);
      a + |t| <= |s| && t == s[a..a + |t|] &&
      (forall j :: 0 <= j < a ==> IsSpace(s[j])) &&
      (forall j :: a + |t| <= j < |s| ==> IsSpace(s[j])) &&
      (t == [] || (!IsSpace(t[0]) && !IsSpace(t[|t| - 1])))
  {
    var u := TrimStart(s);
    var a := |s| - |u|;
    var t := Trim(s);
    TrimStartMeaning(s);
    TrimEndMeaning(u);
    assert t == u[..|t|];
    forall j | a + |t| <= j < |s|
      ensures IsSpace(s[j])
    {
      assert s[j] == u[j - a];
    }
  }

  /** Index of the first start character of `s`, or `|s|` when there is none. */
  function FirstStart(s: string, rule: StartRule): (i: nat)
    ensures i <= |s|
    ensures i < |s| ==> IsStart(s[i], rule)
    ensures forall j :: 0 <= j < i ==> !IsStart(s[j], rule)
  {
    if s == [] then 0
    else if IsStart(s[0], rule) then 0
    else 1 + FirstStart(s[1..], rule)
  }

  /** End of the longest run of digits, '.' and '-' that begins at `i`. */
  function RunEnd(s: string, i: nat): (e: nat)
    requires i <= |s|
    ensures i <= e <= |s|
    ensures forall j :: i <= j < e ==> IsRunChar(s[j])
    ensures e < |s| ==> !IsRunChar(s[e])
    decreases |s| - i
  {
    if i == |s| || !IsRunChar(s[i]) then i else RunEnd(s, i + 1)
  }

  /** The run kept from `s`: from its first start character to the end of the run. */
  function Extract(s: string, rule: StartRule): Option<string>
  {
    var i := FirstStart(s, rule);
    if i == |s| then None else Some(s[i..RunEnd(s, i)])
  }

  /** What `docCan` / `docMotLanCan` keep from one serial line, or `None` when the
      line is skipped. */
  function Reading(line: string, rule: StartRule): (r: Option<string>)
  {
    var t := Trim(line);
    if |t| == 0 then None else Extract(t, rule)
  }

  /** The first start position is determined by its two defining properties. */
  lemma FirstStartUnique(s: string, rule: StartRule, i: nat)
    requires i <= |s| && (i < |s| ==> IsStart(s[i], rule))
    requires forall j :: 0 <= j < i ==> !IsStart(s[j], rule)
    ensures FirstStart(s, rule) == i
  {
  }

  /** A run end is determined by its two defining properties. */
  lemma RunEndUnique(s: string, i: nat, e: nat)
    requires i <= e <= |s|
    requires forall j :: i <= j < e ==> IsRunChar(s[j])
    requires e < |s| ==> !IsRunChar(s[e])
    ensures e == RunEnd(s, i)
  {
  }

  /** What a kept run looks like: non-empty, opening with a start character, made of
      digits, '.' and '-' only, and followed by the end of the line or a character
      outside that set; lines without a start character are exactly those skipped. */
  lemma ReadingMeaning(line: string, rule: StartRule)
    ensures var t := Trim(line);
      Reading(line, rule).None? <==> forall j :: 0 <= j < |t| ==> !IsStart(t[j], rule)
    ensures Reading(line, rule).Some? ==>
      var t := Trim(line);
      var i := FirstStart(t, rule);
      var run := Reading(line, rule).value;
      |run| >= 1 && IsStart(run[0], rule) &&
      (forall j :: 0 <= j < |run| ==> IsRunChar(run[j])) &&
      i + |run| <= |t| && run == t[i..i + |run|] &&
      (i + |run| == |t| || !IsRunChar(t[i + |run|]))
  {
    var t := Trim(line);
    var i := FirstStart(t, rule);
    if i < |t| {
      assert IsRunChar(t[i]);
    }
  }

  /** Dropping leading white space does not change the kept run. */
  lemma ExtractSkipsLeading(s: string, rule: StartRule)
    requires s != [] && IsSpace(s[0])
    ensures Extract(s, rule) == Extract(s[1..], rule)
  {
    var i := FirstStart(s, rule);
    var u := s[1..];
    assert !IsStart(s[0], rule);
    forall j | 0 <= j < i - 1
      ensures !IsStart(u[j], rule)
    {
      assert u[j] == s[j + 1];
    }
    FirstStartUnique(u, rule, i - 1);
    if i < |s| {
      var e := RunEnd(s, i);
      assert i >= 1;
      RunEndUnique(u, i - 1, e - 1);
      assert s[i..e] == u[i - 1..e - 1] by {
        forall k | 0 <= k < e - i
          ensures s[i..e][k] == u[i - 1..e - 1][k]
        {
          assert u[i - 1 + k] == s[i + k];
        }
      }
    }
  }

  /** Dropping trailing white space does not change the kept run. */
  lemma ExtractSkipsTrailing(s: string, rule: StartRule)
    requires s != [] && IsSpace(s[|s| - 1])
    ensures Extract(s, rule) == Extract(s[..|s| - 1], rule)
  {
    var n := |s| - 1;
    var u := s[..n];
    var i := FirstStart(s, rule);
    var k := FirstStart(u, rule);
    if i < n {
      assert k == i;
      var e := RunEnd(s, i);
      assert !IsRunChar(s[n]);
      assert e <= n;
      RunEndUnique(u, i, e);
      assert s[i..e] == u[i..e] by {
        forall j | i <= j < e
          ensures s[j] == u[j]
        {
        }
      }
    } else {
      assert k == n;
    }
  }

  lemma {:induction false} TrimStartInert(s: string, rule: StartRule)
    ensures Extract(TrimStart(s), rule) == Extract(s, rule)
    decreases |s|
  {
    if s != [] && IsSpace(s[0]) {
      ExtractSkipsLeading(s, rule);
      TrimStartInert(s[1..], rule);
    }
  }

  lemma {:induction false} TrimEndInert(s: string, rule: StartRule)
    ensures Extract(TrimEnd(s), rule) == Extract(s, rule)
    decreases |s|
  {
    if s != [] && IsSpace(s[|s| - 1]) {
      ExtractSkipsTrailing(s, rule);
      TrimEndInert(s[..|s| - 1], rule);
    }
  }

  /** Trimming the line never changes what is kept: the run is the one found in the
      raw line. */
  lemma ReadingIgnoresTrim(line: string, rule: StartRule)
    ensures Reading(line, rule) == Extract(line, rule)
  {
    TrimStartInert(line, rule);
    TrimEndInert(TrimStart(line), rule);
  }

  /** Everything a digit-first reader accepts, a sign-first reader accepts too. */
  lemma SignRuleAcceptsMore(line: string)
    ensures Reading(line, DigitOnly).Some? ==> Reading(line, DigitOrMinus).Some?
  {
    ReadingMeaning(line, DigitOnly);
    ReadingMeaning(line, DigitOrMinus);
    if Reading(line, DigitOnly).Some? {
      var t := Trim(line);
      var i := FirstStart(t, DigitOnly);
      assert IsStart(t[i], DigitOrMinus);
    }
  }

  /** One usable line: its index in the serial input and the run kept from it. */
  datatype Scan = Scan(line: nat, run: string)

  /** The first usable line at or after `from`, with its run. */
  function NextReading(lines: seq<string>, rule: StartRule, from: nat): (r: Option<Scan>)
    requires from <= |lines|
    ensures r.Some? ==>
      from <= r.value.line < |lines| &&
      Reading(lines[r.value.line], rule) == Some(r.value.run) &&
      forall j :: from <= j < r.value.line ==> Reading(lines[j], rule).None?
    ensures r.None? ==> forall j :: from <= j < |lines| ==> Reading(lines[j], rule).None?
    decreases |lines| - from
  {
    if from == |lines| then None
    else
      match Reading(lines[from], rule)
      case Some(run) => Some(Scan(from, run))
      case None => NextReading(lines, rule, from + 1)
  }

  /** The body of the read loop for one line: trim, find the start, keep the run. */
  method ParseLine(raw: string, rule: StartRule) returns (run: Option<string>)
    ensures run == Reading(raw, rule)
  {
    var t := Trim(raw);
    if |t| == 0 {
      return None;
    }
    var startIdx: int := -1;
    var i := 0;
    while i < |t|
      invariant 0 <= i <= |t|
      invariant forall j :: 0 <= j < i ==> !IsStart(t[j], rule)
    {
      if IsStart(t[i], rule) {
        startIdx := i;
        break;
      }
      i := i + 1;
    }
    if startIdx == -1 {
      FirstStartUnique(t, rule, |t|);
      return None;
    }
    FirstStartUnique(t, rule, startIdx);
    var cleanWeight := TakeRun(t, startIdx);
    assert Extract(t, rule) == Some(cleanWeight);
    return Some(cleanWeight);
  }

  /** The second half of the read loop's body: characters from `start` on while
      they are digits, '.' or '-'. */
  method TakeRun(t: string, start: nat) returns (run: string)
    requires start <= |t|
    ensures run == t[start..RunEnd(t, start)]
  {
    var numericPart := t[start..];
    run := "";
    var k := 0;
    while k < |numericPart|
      invariant 0 <= k <= |numericPart|
      invariant run == numericPart[..k]
      invariant forall j :: start <= j < start + k ==> IsRunChar(t[j])
    {
      var c := numericPart[k];
      if !IsRunChar(c) {
        break;
      }
      run := run + [c];
      k := k + 1;
    }
    assert run == t[start..start + k];
    assert start + k < |t| ==> !IsRunChar(t[start + k]);
    RunEndUnique(t, start, start + k);
  }

  /** The blocking read loop: consumes lines from position `from` on until one is
      usable. */
  method ReadWeight(lines: seq<string>, rule: StartRule, from: nat) returns (r: Option<Scan>)
    requires from <= |lines|
    ensures r == NextReading(lines, rule, from)
  {
    var i := from;
    while i < |lines|
      invariant from <= i <= |lines|
      invariant NextReading(lines, rule, i) == NextReading(lines, rule, from)
    {
      var run := ParseLine(lines[i], rule);
      if run.Some? {
        return Some(Scan(i, run.value));
      }
      i := i + 1;
    }
    return None;
  }

  /** A kept run holds no NUL and only 8-bit characters, so it fits a C character
      array unchanged. */
  lemma RunIsCText(line: string, rule: StartRule)
    requires Reading(line, rule).Some?
    ensures IsCText(Reading(line, rule).value)
  {
    ReadingMeaning(line, rule);
  }

  /** The reading of a line with no white space at either end, given where its run
      starts and ends. */
  lemma ReadingAt(s: string, rule: StartRule, i: nat, e: nat)
    requires s != [] && !IsSpace(s[0]) && !IsSpace(s[|s| - 1])
    requires i < e <= |s| && IsStart(s[i], rule)
    requires forall j :: 0 <= j < i ==> !IsStart(s[j], rule)
    requires forall j :: i <= j < e ==> IsRunChar(s[j])
    requires e < |s| ==> !IsRunChar(s[e])
    ensures Reading(s, rule) == Some(s[i..e])
  {
    assert TrimStart(s) == s;
    assert TrimEnd(s) == s;
    assert FirstStart(s, rule) == i;
    RunEndUnique(s, i, e);
  }

  /** A reading with a unit suffix keeps just the number. */
  lemma UnitSuffixDropped()
    ensures Reading("12.34 kg", DigitOrMinus) == Some("12.34")
    ensures Reading("12.34 kg", DigitOnly) == Some("12.34")
  {
    var s := "12.34 kg";
    assert !IsSpace(s[0]) && !IsSpace(s[7]);
    assert IsRunChar(s[0]) && IsRunChar(s[1]) && IsRunChar(s[2]) && IsRunChar(s[3]) && IsRunChar(s[4]);
    assert !IsRunChar(s[5]);
    ReadingAt(s, DigitOrMinus, 0, 5);
    ReadingAt(s, DigitOnly, 0, 5);
    assert s[0..5] == "12.34";
  }

  /** The two start rules differ on a sign after vendor text: Scale_2 and Scale_3
      keep "-5.5", Scale_1 drops the sign and keeps "5.5". */
  lemma SignDivergence()
    ensures Reading("abc-5.5g", DigitOrMinus) == Some("-5.5")
    ensures Reading("abc-5.5g", DigitOnly) == Some("5.5")
  {
    SignKept("abc-5.5g");
    SignDropped("abc-5.5g");
  }

  lemma SignKept(s: string)
    requires s == "abc-5.5g"
    ensures Reading(s, DigitOrMinus) == Some("-5.5")
  {
    assert !IsSpace(s[0]) && !IsSpace(s[7]);
    assert !IsStart(s[0], DigitOrMinus) && !IsStart(s[1], DigitOrMinus) && !IsStart(s[2], DigitOrMinus);
    assert IsRunChar(s[3]) && IsRunChar(s[4]) && IsRunChar(s[5]) && IsRunChar(s[6]);
    assert !IsRunChar(s[7]);
    ReadingAt(s, DigitOrMinus, 3, 7);
    assert s[3..7] == "-5.5";
  }

  lemma SignDropped(s: string)
    requires s == "abc-5.5g"
    ensures Reading(s, DigitOnly) == Some("5.5")
  {
    assert !IsSpace(s[0]) && !IsSpace(s[7]);
    assert !IsStart(s[0], DigitOnly) && !IsStart(s[1], DigitOnly);
    assert !IsStart(s[2], DigitOnly) && !IsStart(s[3], DigitOnly);
    assert IsRunChar(s[4]) && IsRunChar(s[5]) && IsRunChar(s[6]);
    assert !IsRunChar(s[7]);
    ReadingAt(s, DigitOnly, 4, 7);
    assert s[4..7] == "5.5";
  }
}
