/** `normalize_summary` of `issues.rs`: a one-line summary within a byte limit. */
module Summary {

  /** Unicode White_Space. */
  predicate IsWhitespace(c: char) {
    var n := c as int;
    || 0x09 <= n <= 0x0D || n == 0x20 || n == 0x85 || n == 0xA0 || n == 0x1680 || 0x2000 <= n <= 0x200A
    || n == 0x2028 || n == 0x2029 || n == 0x202F || n == 0x205F || n == 0x3000
  }

  /** Unicode category Cc. */
  predicate IsControl(c: char) {
    var n := c as int;
    n <= 0x1F || 0x7F <= n <= 0x9F
  }

  predicate Blank(c: char) { IsWhitespace(c) || IsControl(c) }

  function Utf8Length(c: char): (n: nat)
    ensures 1 <= n <= 4
  {
    var n := c as int;
    if n < 0x80 then 1 else if n < 0x800 then 2 else if n < 0x1_0000 then 3 else 4
  }

  function Size(s: string): nat {
    if s == [] then 0 else Size(s[..|s| - 1]) + Utf8Length(s[|s| - 1])
  }

  // ---- the bytes ----

  /** The UTF-8 encoding of a character, by its number. */
  function Encode(c: char): seq<int> {
    var n := c as int;
    if n < 0x80 then [n]
    else if n < 0x800 then [0xC0 + n / 0x40, 0x80 + n % 0x40]
    else if n < 0x1_0000 then [0xE0 + n / 0x1000, 0x80 + n / 0x40 % 0x40, 0x80 + n % 0x40]
    else [0xF0 + n / 0x4_0000, 0x80 + n / 0x1000 % 0x40, 0x80 + n / 0x40 % 0x40, 0x80 + n % 0x40]
  }

  /** How many bytes a character has, and its number, by its first byte alone and the ones that follow. */
  function Decode(bytes: seq<int>): (nat, int) {
    if bytes == [] then (0, 0)
    else if bytes[0] < 0x80 then (1, bytes[0])
    else if bytes[0] < 0xE0 && |bytes| >= 2 then (2, (bytes[0] - 0xC0) * 0x40 + (bytes[1] - 0x80))
    else if bytes[0] < 0xF0 && |bytes| >= 3 then
      (3, (bytes[0] - 0xE0) * 0x1000 + (bytes[1] - 0x80) * 0x40 + (bytes[2] - 0x80))
    else if |bytes| >= 4 then
      (4, (bytes[0] - 0xF0) * 0x4_0000 + (bytes[1] - 0x80) * 0x1000 + (bytes[2] - 0x80) * 0x40 + (bytes[3] - 0x80))
    else (0, 0)
  }

  /** The encoding reads back as the character, whatever follows it, and has the length the limit counts. */
  lemma EncodeRoundTrips(c: char, rest: seq<int>)
    ensures Decode(Encode(c) + rest) == (Utf8Length(c), c as int) && |Encode(c)| == Utf8Length(c)
    ensures forall i :: 0 <= i < |Encode(c)| ==> Encode(c)[i] < 0x100
  {
    var n := c as int;
    var all := Encode(c) + rest;
    assert forall i :: 0 <= i < |Encode(c)| ==> all[i] == Encode(c)[i];
    assert n == n / 0x40 * 0x40 + n % 0x40;
    assert n / 0x40 == n / 0x1000 * 0x40 + n / 0x40 % 0x40;
    assert n / 0x1000 == n / 0x4_0000 * 0x40 + n / 0x1000 % 0x40;
  }

  function EncodeAll(s: string): seq<int> {
    if s == [] then [] else EncodeAll(s[..|s| - 1]) + Encode(s[|s| - 1])
  }

  /** So the limit bounds the encoded length. */
  lemma {:induction false} SizeIsEncodedLength(s: string)
    ensures Size(s) == |EncodeAll(s)|
  {
    if s != [] {
      SizeIsEncodedLength(s[..|s| - 1]);
      EncodeRoundTrips(s[|s| - 1], []);
    }
  }

  const FALLBACK: string := "Error event"

  // ---- the reference ----

  /** Blanks at the ends are dropped, and each run of blanks inside becomes one space. */
  function Collapse(s: string): string {
    if s == [] then []
    else
      var rest, c := Collapse(s[..|s| - 1]), s[|s| - 1];
      if Blank(c) then rest
      else if rest != [] && Blank(s[|s| - 2]) then rest + [' ', c]
      else rest + [c]
  }

  predicate Closed(s: string) { s == [] || s[|s| - 1] != ' ' }

  /** Characters are taken off the end until the rest fits and does not end in a space. */
  function Trim(s: string, maximum: nat): string {
    if Closed(s) && Size(s) <= maximum then s
    else if s == [] then []
    else Trim(s[..|s| - 1], maximum)
  }

  function Normalize(s: string, maximum: nat): string {
    var kept := Trim(Collapse(s), maximum);
    if kept == [] then FALLBACK else kept
  }

  // ---- what the reference means ----

  /** No blank but the space, none at either end and no two together. */
  predicate Clean(s: string) {
    && (forall i :: 0 <= i < |s| && Blank(s[i]) ==> s[i] == ' ')
    && (s != [] ==> s[0] != ' ' && s[|s| - 1] != ' ')
    && (forall i :: 0 < i < |s| ==> s[i - 1] != ' ' || s[i] != ' ')
  }

  function NonBlanks(s: string): string {
    if s == [] then []
    else NonBlanks(s[..|s| - 1]) + if Blank(s[|s| - 1]) then [] else [s[|s| - 1]]
  }

  lemma NonBlanksMore(s: string, c: char)
    ensures NonBlanks(s + [c]) == NonBlanks(s) + if Blank(c) then [] else [c]
  {
    assert (s + [c])[..|s|] == s;
  }

  lemma SpaceIsBlank()
    ensures Blank(' ')
  {
  }

  lemma CleanMore(s: string, c: char)
    requires Clean(s) && !Blank(c)
    ensures Clean(s + [c]) && (s != [] ==> Clean(s + [' ', c]))
  {
    SpaceIsBlank();
    hide Blank;
  }

  lemma CleanPrefix(s: string, n: nat)
    requires Clean(s) && n <= |s| && Closed(s[..n])
    ensures Clean(s[..n])
  {
    hide Blank;
  }

  /** Collapsing keeps all characters that are not blank, in order. */
  lemma {:induction false} CollapseIsClean(s: string)
    ensures Clean(Collapse(s)) && NonBlanks(Collapse(s)) == NonBlanks(s)
  {
    hide Blank, Clean;
    if s == [] {
      EmptyIsClean();
    } else {
      var rest, c := Collapse(s[..|s| - 1]), s[|s| - 1];
      CollapseIsClean(s[..|s| - 1]);
      if !Blank(c) {
        CleanMore(rest, c);
        NonBlanksSpaced(rest, c);
      }
    }
  }

  lemma NonBlanksSpaced(s: string, c: char)
    requires !Blank(c)
    ensures NonBlanks(s + [c]) == NonBlanks(s) + [c] && NonBlanks(s + [' ', c]) == NonBlanks(s) + [c]
  {
    SpaceIsBlank();
    hide Blank;
    NonBlanksMore(s, c);
    NonBlanksMore(s, ' ');
    NonBlanksMore(s + [' '], c);
    assert s + [' ', c] == (s + [' ']) + [c];
  }

  lemma EmptyIsClean()
    ensures Clean([])
  {
  }

  lemma {:induction false} CleanIsCollapsed(s: string, n: nat)
    requires Clean(s) && n <= |s|
    ensures Collapse(s[..n]) == if n > 0 && s[n - 1] == ' ' then s[..n - 1] else s[..n]
  {
    if n > 0 {
      assert s[..n][..n - 1] == s[..n - 1];
      CleanIsCollapsed(s, n - 1);
      if n > 1 && s[n - 2] == ' ' {
        assert s[..n] == s[..n - 2] + [' ', s[n - 1]];
      }
    }
  }

  lemma {:induction false} CollapseGrows(s: string, n: nat)
    requires n <= |s|
    ensures Collapse(s[..n]) <= Collapse(s)
    decreases |s| - n
  {
    if n < |s| {
      assert s[..n + 1][..n] == s[..n];
      CollapseGrows(s, n + 1);
    } else {
      assert s[..n] == s;
    }
  }

  lemma {:induction false} SizeGrows(s: string, n: nat)
    requires n <= |s|
    ensures Size(s[..n]) <= Size(s)
  {
    if n < |s| {
      assert s[..|s| - 1][..n] == s[..n];
      SizeGrows(s[..|s| - 1], n);
    } else {
      assert s[..n] == s;
    }
  }

  lemma SizeMore(s: string, c: char)
    ensures Size(s + [c]) == Size(s) + Utf8Length(c)
  {
    assert (s + [c])[..|s|] == s;
  }

  ghost predicate Keeps(s: string, maximum: nat, n: nat)
    requires n <= |s|
  {
    Closed(s[..n]) && Size(s[..n]) <= maximum
  }

  /** Trimming finds the longest prefix that fits and does not end in a space. */
  lemma {:induction false} TrimIsLongest(s: string, maximum: nat)
    ensures var kept := Trim(s, maximum); kept <= s && Keeps(s, maximum, |kept|)
    ensures forall n :: |Trim(s, maximum)| < n <= |s| ==> !Keeps(s, maximum, n)
  {
    if Closed(s) && Size(s) <= maximum {
      assert s[..|s|] == s;
    } else if s != [] {
      var shorter := s[..|s| - 1];
      TrimIsLongest(shorter, maximum);
      forall n | |Trim(s, maximum)| < n <= |s| ensures !Keeps(s, maximum, n) {
        if n == |s| {
          assert s[..n] == s;
        } else {
          assert !Keeps(shorter, maximum, n) && shorter[..n] == s[..n];
        }
      }
      assert shorter[..|Trim(s, maximum)|] == s[..|Trim(s, maximum)|];
    }
  }

  lemma TrimIs(s: string, maximum: nat, kept: nat)
    requires kept <= |s| && Keeps(s, maximum, kept)
    requires forall n :: kept < n <= |s| ==> !Keeps(s, maximum, n)
    ensures Trim(s, maximum) == s[..kept]
  {
    TrimIsLongest(s, maximum);
  }

  /** The result is clean and within the limit, or the fixed text. */
  lemma NormalizeIsClean(s: string, maximum: nat)
    ensures Clean(Normalize(s, maximum))
    ensures
      || Normalize(s, maximum) == FALLBACK
      || (Size(Normalize(s, maximum)) <= maximum && Normalize(s, maximum) <= Collapse(s))
  {
    var kept := Trim(Collapse(s), maximum);
    CollapseIsClean(s);
    TrimIsLongest(Collapse(s), maximum);
    assert Collapse(s)[..|kept|] == kept;
    CleanPrefix(Collapse(s), |kept|);
    FallbackSize(0);
    hide Clean, Collapse, Trim, Size;
  }

  // ---- the loop ----

  lemma OneMore(value: string, i: nat)
    requires i < |value|
    ensures
      var output, c := Collapse(value[..i]), value[i];
      Collapse(value[..i + 1]) ==
        if Blank(c) then output
        else if output != [] && i > 0 && Blank(value[i - 1]) then output + [' ', c]
        else output + [c]
  {
    assert value[..i + 1][..i] == value[..i];
  }

  /** Where the loop stops, nothing longer can be kept. */
  lemma StopIsLongest(value: string, maximum: nat, i: nat)
    requires i < |value| && !Blank(value[i])
    requires Size(Collapse(value[..i])) <= maximum < Size(Collapse(value[..i + 1]))
    ensures Trim(Collapse(value), maximum) == Collapse(value[..i])
  {
    var all, output, longer := Collapse(value), Collapse(value[..i]), Collapse(value[..i + 1]);
    CollapseGrows(value, i);
    CollapseGrows(value, i + 1);
    CollapseIsClean(value[..i]);
    OneMore(value, i);
    hide Collapse, Blank, Clean, Trim;
    assert all[..|output|] == output && all[..|longer|] == longer;
    forall n | |output| < n <= |all| ensures !Keeps(all, maximum, n) {
      LongerDoesNotFit(all, output, longer, maximum, n);
    }
    TrimIs(all, maximum, |output|);
  }

  lemma LongerDoesNotFit(all: string, output: string, longer: string, maximum: nat, n: nat)
    requires output <= longer <= all && |output| < n <= |all| && maximum < Size(longer)
    requires |longer| == |output| + 1 || (|longer| == |output| + 2 && longer[|output|] == ' ')
    ensures !Keeps(all, maximum, n)
  {
    if n < |longer| {
      assert all[..n][n - 1] == longer[n - 1];
    } else {
      assert all[..n][..|longer|] == longer;
      SizeGrows(all[..n], |longer|);
    }
  }

  lemma NothingDropped(s: string, maximum: nat)
    requires Size(Collapse(s)) <= maximum
    ensures Trim(Collapse(s), maximum) == Collapse(s)
  {
    CollapseIsClean(s);
  }

  /** What the loop's byte count adds up to. */
  lemma OneMoreSize(value: string, i: nat)
    requires i < |value| && !Blank(value[i])
    ensures
      var output := Collapse(value[..i]);
      Size(Collapse(value[..i + 1])) ==
        Size(output) + (if output != [] && i > 0 && Blank(value[i - 1]) then 1 else 0) + Utf8Length(value[i])
  {
    var output, c := Collapse(value[..i]), value[i];
    OneMore(value, i);
    hide Blank, Collapse;
    SizeMore(output, ' ');
    SizeMore(output + [' '], c);
    SizeMore(output, c);
    assert (output + [' ']) + [c] == output + [' ', c];
  }

  method NormalizeSummary(value: string, maximum: nat) returns (r: string)
    ensures r == Normalize(value, maximum)
  {
    hide Blank, Collapse, Size, Trim;
    NothingYet(value);
    var output: string, size, pendingSpace, i := [], 0, false, 0;
    while i < |value|
      invariant i <= |value| && output == Collapse(value[..i]) && size == Size(output) <= maximum
      invariant pendingSpace <==> output != [] && i > 0 && Blank(value[i - 1])
    {
      var c := value[i];
      OneMore(value, i);
      if Blank(c) {
        pendingSpace := output != [];
        i := i + 1;
        continue;
      }
      OneMoreSize(value, i);
      var required := (if pendingSpace then 1 else 0) + Utf8Length(c);
      if size + required > maximum {
        StopIsLongest(value, maximum, i);
        break;
      }
      if pendingSpace {
        assert output + [' ', c] == (output + [' ']) + [c];
        output := output + [' '];
        pendingSpace := false;
      }
      output := output + [c];
      size := size + required;
      i := i + 1;
    }
    if i == |value| {
      assert value[..i] == value;
      NothingDropped(value, maximum);
    }
    r := if output == [] then FALLBACK else output;
  }

  lemma NothingYet(value: string)
    ensures Collapse(value[..0]) == [] && Size([]) == 0
  {
  }

  // ---- idempotence ----

  lemma KeptIsKept(s: string, maximum: nat)
    requires Clean(s) && s != [] && Size(s) <= maximum
    ensures Normalize(s, maximum) == s
  {
    CleanIsCollapsed(s, |s|);
    assert s[..|s|] == s;
  }

  lemma FallbackSize(n: nat)
    requires n <= 11
    ensures Size(FALLBACK[..n]) == n && Clean(FALLBACK)
  {
    if n > 0 {
      assert FALLBACK[..n][..n - 1] == FALLBACK[..n - 1];
      FallbackSize(n - 1);
    }
  }

  /** A short limit cuts the fixed text too. */
  lemma FallbackIsCut(maximum: nat)
    ensures Normalize(FALLBACK, maximum) == FALLBACK <==> maximum == 0 || maximum >= 11
  {
    FallbackSize(11);
    assert FALLBACK[..11] == FALLBACK;
    CleanIsCollapsed(FALLBACK, 11);
    TrimIsLongest(FALLBACK, maximum);
    var kept := Trim(FALLBACK, maximum);
    FallbackSize(|kept|);
    assert FALLBACK[..|kept|] == kept;
    if maximum >= 1 {
      FallbackSize(1);
      assert Keeps(FALLBACK, maximum, 1);
    }
  }

  /** Something of the text is kept exactly if its first character that is not blank fits. */
  lemma KeepsSomething(s: string, maximum: nat)
    requires Clean(s)
    ensures Trim(s, maximum) != [] <==> s != [] && Utf8Length(s[0]) <= maximum
  {
    TrimIsLongest(s, maximum);
    if s != [] {
      var kept := Trim(s, maximum);
      assert s[..1] == [] + [s[0]];
      SizeMore([], s[0]);
      assert Keeps(s, maximum, 1) <==> Utf8Length(s[0]) <= maximum;
      assert s[..|kept|] == kept;
      if kept != [] {
        assert kept[..1] == s[..1];
        SizeGrows(kept, 1);
      }
    }
  }

  /** Normalizing again changes nothing, except that a limit of 1 to 10 bytes cuts the fixed text that stands
      in when nothing of the input fits. */
  lemma IdempotentExactlyWhen(s: string, maximum: nat)
    ensures
      Normalize(Normalize(s, maximum), maximum) == Normalize(s, maximum) <==>
      maximum == 0 || maximum >= 11 || (Collapse(s) != [] && Utf8Length(Collapse(s)[0]) <= maximum)
  {
    var kept := Trim(Collapse(s), maximum);
    CollapseIsClean(s);
    KeepsSomething(Collapse(s), maximum);
    NormalizeIsClean(s, maximum);
    TrimIsLongest(Collapse(s), maximum);
    assert Collapse(s)[..|kept|] == kept;
    if kept == [] { FallbackIsCut(maximum); } else { KeptIsKept(kept, maximum); }
  }
}
