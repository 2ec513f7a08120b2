/**
 * Card extraction in process_gate_card: `re.findall` with the pattern
 * `\b\d{13,19}\|\d{1,2}\|\d{2,4}\|\d{3,4}\b` over the stripped message.
 *
 * Each field of the pattern is a digit run followed by a character that is
 * not a digit ('|' or the closing word boundary), so backtracking never
 * finds a shorter alternative: a match at a position exists exactly when
 * the maximal digit runs there have the required lengths. MatchAt states
 * that reading; IsCardToken is the independent reference definition by
 * fields, and MatchAtSound / MatchAtComplete connect the two.
 */
module Tokens {
  import opened Wrappers
  import opened Text

  /** The four pattern fields, in order: 13-19, 1-2, 2-4 and 3-4 digits. */
  predicate CardFields(f0: string, f1: string, f2: string, f3: string) {
    && AllDigits(f0) && 13 <= |f0| <= 19
    && AllDigits(f1) && 1 <= |f1| <= 2
    && AllDigits(f2) && 2 <= |f2| <= 4
    && AllDigits(f3) && 3 <= |f3| <= 4
  }

  /** Four fields joined by '|'. */
  function Layout(f0: string, f1: string, f2: string, f3: string): string {
    (f0 + "|") + ((f1 + "|") + ((f2 + "|") + f3))
  }

  /** A token as the pattern describes it: four '|'-separated fields of 13-19, 1-2, 2-4 and 3-4 digits. */
  predicate IsCardToken(t: string) {
    var f := Split(t, '|');
    |f| == 4 && CardFields(f[0], f[1], f[2], f[3])
  }

  /** The longest run of digits that starts at `i`. */
  function DigitRun(s: string, i: nat): (k: nat)
    requires i <= |s|
    ensures i + k <= |s|
    decreases |s| - i
  {
    if i < |s| && IsDigit(s[i]) then 1 + DigitRun(s, i + 1) else 0
  }

  lemma {:induction false} DigitRunSpec(s: string, i: nat)
    requires i <= |s|
    ensures var k := DigitRun(s, i); AllDigits(s[i..i + k]) && (i + k == |s| || !IsDigit(s[i + k]))
    decreases |s| - i
  {
    if i < |s| && IsDigit(s[i]) {
      DigitRunSpec(s, i + 1);
      var k := DigitRun(s, i + 1);
      assert s[i..i + 1 + k] == [s[i]] + s[i + 1..i + 1 + k];
    }
  }

  lemma {:induction false} DigitRunExact(s: string, i: nat, k: nat)
    requires i + k <= |s| && AllDigits(s[i..i + k])
    requires i + k == |s| || !IsDigit(s[i + k])
    ensures DigitRun(s, i) == k
    decreases k
  {
    if k > 0 {
      assert s[i..i + k][0] == s[i];
      assert s[i + 1..i + k] == s[i..i + k][1..];
      DigitRunExact(s, i + 1, k - 1);
    }
  }

  /** One inner field of the pattern: `lo` to `hi` digits from `i`, then '|'; the position after the '|'. */
  function BarField(s: string, i: nat, lo: nat, hi: nat): (r: Option<nat>)
    requires i <= |s|
    ensures r.Some? ==> i < r.value <= |s|
  {
    var k := DigitRun(s, i);
    if lo <= k <= hi && i + k < |s| && s[i + k] == '|' then Some(i + k + 1) else None
  }

  /** The last field: `lo` to `hi` digits from `i`, then a word boundary; the position after the digits. */
  function EndField(s: string, i: nat, lo: nat, hi: nat): (r: Option<nat>)
    requires i <= |s|
    ensures r.Some? ==> i < r.value <= |s|
  {
    var k := DigitRun(s, i);
    if 0 < lo <= k <= hi && (i + k == |s| || !IsWordChar(s[i + k])) then Some(i + k) else None
  }

  /** Where a match of the card pattern that starts at `p` ends, if there is one. */
  function MatchAt(s: string, p: nat): (r: Option<nat>)
    requires p <= |s|
    ensures r.Some? ==> p < r.value <= |s|
  {
    if p > 0 && IsWordChar(s[p - 1]) then None
    else
      match BarField(s, p, 13, 19)
      case None => None
      case Some(q) =>
        match BarField(s, q, 1, 2)
        case None => None
        case Some(y) =>
          match BarField(s, y, 2, 4)
          case None => None
          case Some(v) => EndField(s, v, 3, 4)
  }

  lemma DigitsHaveNoBar(x: string)
    requires AllDigits(x)
    ensures '|' !in x
  {
  }

  lemma BarFieldSound(s: string, i: nat, lo: nat, hi: nat)
    requires i <= |s| && BarField(s, i, lo, hi).Some?
    ensures var e := BarField(s, i, lo, hi).value;
      && AllDigits(s[i..e - 1]) && lo <= e - 1 - i <= hi && s[e - 1] == '|'
  {
    DigitRunSpec(s, i);
  }

  lemma EndFieldSound(s: string, i: nat, lo: nat, hi: nat)
    requires i <= |s| && EndField(s, i, lo, hi).Some?
    ensures var e := EndField(s, i, lo, hi).value;
      && AllDigits(s[i..e]) && lo <= e - i <= hi
      && (e == |s| || !IsWordChar(s[e]))
  {
    DigitRunSpec(s, i);
  }

  /** Four digit fields joined by '|' split back into those fields. */
  lemma SplitLayout(f0: string, f1: string, f2: string, f3: string)
    requires AllDigits(f0) && AllDigits(f1) && AllDigits(f2) && AllDigits(f3)
    ensures Split(Layout(f0, f1, f2, f3), '|') == [f0, f1, f2, f3]
  {
    DigitsHaveNoBar(f0);
    DigitsHaveNoBar(f1);
    DigitsHaveNoBar(f2);
    DigitsHaveNoBar(f3);
    var t2 := f2 + "|" + f3;
    var t1 := f1 + "|" + t2;
    var t0 := f0 + "|" + t1;
    assert Layout(f0, f1, f2, f3) == t0;
    SplitNoSep(f3, '|');
    SplitField(f2, '|', f3);
    SplitField(f1, '|', t2);
    SplitField(f0, '|', t1);
  }

  lemma CardTokenOfFields(f0: string, f1: string, f2: string, f3: string)
    requires CardFields(f0, f1, f2, f3)
    ensures IsCardToken(Layout(f0, f1, f2, f3))
  {
    SplitLayout(f0, f1, f2, f3);
  }

  /** The four fields of a card token: the token is those fields joined by '|'. */
  lemma TokenParts(t: string) returns (f0: string, f1: string, f2: string, f3: string)
    requires IsCardToken(t)
    ensures CardFields(f0, f1, f2, f3) && t == Layout(f0, f1, f2, f3)
  {
    var f := Split(t, '|');
    f0, f1, f2, f3 := f[0], f[1], f[2], f[3];
    JoinOfSplit(t, '|');
    var g1 := f[1..];
    var g2 := g1[1..];
    assert g2[1..] == [f3];
    assert Join(g2, '|') == (f2 + "|") + f3;
    assert Join(g1, '|') == (f1 + "|") + Join(g2, '|');
    assert Join(f, '|') == (f0 + "|") + Join(g1, '|');
  }

  /** A card token starts and ends with a digit. */
  lemma TokenEdges(t: string)
    requires IsCardToken(t)
    ensures |t| > 0 && IsDigit(t[0]) && IsDigit(t[|t| - 1])
  {
    var f0, f1, f2, f3 := TokenParts(t);
    assert t[0] == f0[0];
    assert t[|t| - 1] == f3[|f3| - 1];
  }

  lemma SliceJoin(s: string, a: nat, b: nat, c: nat)
    requires a <= b <= c <= |s|
    ensures s[a..c] == s[a..b] + s[b..c]
  {
  }

  lemma SliceOfConcat(s: string, p: nat, a: string, b: string)
    requires p + |a| + |b| <= |s| && s[p..p + |a| + |b|] == a + b
    ensures s[p..p + |a|] == a && s[p + |a|..p + |a| + |b|] == b
  {
    var w := s[p..p + |a| + |b|];
    assert s[p..p + |a|] == w[..|a|];
    assert s[p + |a|..p + |a| + |b|] == w[|a|..];
  }

  /** The fields of what MatchAt accepts. */
  lemma MatchAtParts(s: string, p: nat) returns (f0: string, f1: string, f2: string, f3: string)
    requires p <= |s| && MatchAt(s, p).Some?
    ensures CardFields(f0, f1, f2, f3) && s[p..MatchAt(s, p).value] == Layout(f0, f1, f2, f3)
  {
    var q := BarField(s, p, 13, 19).value;
    var y := BarField(s, q, 1, 2).value;
    var v := BarField(s, y, 2, 4).value;
    var e := EndField(s, v, 3, 4).value;
    BarFieldSound(s, p, 13, 19);
    BarFieldSound(s, q, 1, 2);
    BarFieldSound(s, y, 2, 4);
    EndFieldSound(s, v, 3, 4);
    f0, f1, f2, f3 := s[p..q - 1], s[q..y - 1], s[y..v - 1], s[v..e];
    LayoutOfSlices(s, p, q, y, v, e);
  }

  /** Text cut at three bars is the layout of the four pieces between them. */
  lemma LayoutOfSlices(s: string, p: nat, q: nat, y: nat, v: nat, e: nat)
    requires p < q <= y - 1 && y <= v - 1 && v <= e <= |s|
    requires s[q - 1] == '|' && s[y - 1] == '|' && s[v - 1] == '|'
    ensures s[p..e] == Layout(s[p..q - 1], s[q..y - 1], s[y..v - 1], s[v..e])
  {
    BarPiece(s, v, e);
    BarPiece(s, y, e);
    BarPiece(s, q, e);
    SliceJoin(s, p, q - 1, e);
    var f0, f1, f2, f3 := s[p..q - 1], s[q..y - 1], s[y..v - 1], s[v..e];
    assert s[p..e] == (f0 + "|") + s[q..e];
  }

  /** A field closed by the bar at `j - 1`, and the text after that bar. */
  lemma BarPiece(s: string, j: nat, e: nat)
    requires 0 < j <= e <= |s| && s[j - 1] == '|'
    ensures s[j - 1..e] == "|" + s[j..e]
  {
  }

  /** What MatchAt accepts is a card token bounded by non-word characters. */
  lemma MatchAtSound(s: string, p: nat)
    requires p <= |s| && MatchAt(s, p).Some?
    ensures IsCardToken(s[p..MatchAt(s, p).value])
    ensures p == 0 || !IsWordChar(s[p - 1])
    ensures MatchAt(s, p).value == |s| || !IsWordChar(s[MatchAt(s, p).value])
  {
    var f0, f1, f2, f3 := MatchAtParts(s, p);
    CardTokenOfFields(f0, f1, f2, f3);
    var q := BarField(s, p, 13, 19).value;
    var y := BarField(s, q, 1, 2).value;
    var v := BarField(s, y, 2, 4).value;
    EndFieldSound(s, v, 3, 4);
  }

  /** A card token bounded by non-word characters is matched where it starts, and ends where it ends. */
  lemma MatchAtComplete(s: string, p: nat, t: string)
    requires IsCardToken(t)
    requires p + |t| <= |s| && s[p..p + |t|] == t
    requires p == 0 || !IsWordChar(s[p - 1])
    requires p + |t| == |s| || !IsWordChar(s[p + |t|])
    ensures MatchAt(s, p) == Some(p + |t|)
  {
    var f0, f1, f2, f3 := TokenParts(t);
    MatchLayout(s, p, f0, f1, f2, f3);
  }

  lemma MatchLayout(s: string, p: nat, f0: string, f1: string, f2: string, f3: string)
    requires CardFields(f0, f1, f2, f3)
    requires p + |Layout(f0, f1, f2, f3)| <= |s| && s[p..p + |Layout(f0, f1, f2, f3)|] == Layout(f0, f1, f2, f3)
    requires p == 0 || !IsWordChar(s[p - 1])
    requires p + |Layout(f0, f1, f2, f3)| == |s| || !IsWordChar(s[p + |Layout(f0, f1, f2, f3)|])
    ensures MatchAt(s, p) == Some(p + |Layout(f0, f1, f2, f3)|)
  {
    LayoutSlices(s, p, f0, f1, f2, f3);
    var q := p + |f0| + 1;
    var y := q + |f1| + 1;
    var v := y + |f2| + 1;
    MatchAtOfDigits(s, p, q, y, v, v + |f3|);
  }

  /** Where the fields and bars of a layout sit inside the text. */
  lemma LayoutSlices(s: string, p: nat, f0: string, f1: string, f2: string, f3: string)
    requires p + |Layout(f0, f1, f2, f3)| <= |s| && s[p..p + |Layout(f0, f1, f2, f3)|] == Layout(f0, f1, f2, f3)
    ensures var q := p + |f0| + 1; var y := q + |f1| + 1; var v := y + |f2| + 1;
      && s[p..q - 1] == f0 && s[q - 1] == '|'
      && s[q..y - 1] == f1 && s[y - 1] == '|'
      && s[y..v - 1] == f2 && s[v - 1] == '|'
      && s[v..v + |f3|] == f3 && v + |f3| == p + |Layout(f0, f1, f2, f3)|
  {
    var r1 := (f1 + "|") + ((f2 + "|") + f3);
    var r2 := (f2 + "|") + f3;
    BarFieldSlice(s, p, f0, r1);
    BarFieldSlice(s, p + |f0| + 1, f1, r2);
    BarFieldSlice(s, p + |f0| + 1 + |f1| + 1, f2, f3);
  }

  /** A field and its bar at the front of the text that remains to be matched. */
  lemma BarFieldSlice(s: string, i: nat, f: string, rest: string)
    requires i + |f| + 1 + |rest| <= |s| && s[i..i + |f| + 1 + |rest|] == (f + "|") + rest
    ensures s[i..i + |f|] == f && s[i + |f|] == '|'
    ensures s[i + |f| + 1..i + |f| + 1 + |rest|] == rest
  {
    SliceOfConcat(s, i, f + "|", rest);
    var w := s[i..i + |f| + 1];
    assert s[i..i + |f|] == w[..|f|];
    assert s[i + |f|] == w[|f|];
  }

  /** The pattern matches at `p` when its four digit fields and three bars lie where stated. */
  lemma MatchAtOfDigits(s: string, p: nat, q: nat, y: nat, v: nat, e: nat)
    requires p < q <= y - 1 && y <= v - 1 && v <= e <= |s|
    requires AllDigits(s[p..q - 1]) && 13 <= q - 1 - p <= 19 && s[q - 1] == '|'
    requires AllDigits(s[q..y - 1]) && 1 <= y - 1 - q <= 2 && s[y - 1] == '|'
    requires AllDigits(s[y..v - 1]) && 2 <= v - 1 - y <= 4 && s[v - 1] == '|'
    requires AllDigits(s[v..e]) && 3 <= e - v <= 4
    requires p == 0 || !IsWordChar(s[p - 1])
    requires e == |s| || !IsWordChar(s[e])
    ensures MatchAt(s, p) == Some(e)
  {
    BarFieldExact(s, p, q - 1, 13, 19);
    BarFieldExact(s, q, y - 1, 1, 2);
    BarFieldExact(s, y, v - 1, 2, 4);
    EndFieldExact(s, v, e, 3, 4);
    MatchAtOfFields(s, p, q, y, v, e);
  }

  /** A digit run from `i` to `j`, of a length the field allows, closed by '|'. */
  lemma BarFieldExact(s: string, i: nat, j: nat, lo: nat, hi: nat)
    requires i <= j < |s| && AllDigits(s[i..j]) && lo <= j - i <= hi && s[j] == '|'
    ensures BarField(s, i, lo, hi) == Some(j + 1)
  {
    DigitRunExact(s, i, j - i);
  }

  /** A digit run from `i` to `j`, of a length the field allows, closed by a word boundary. */
  lemma EndFieldExact(s: string, i: nat, j: nat, lo: nat, hi: nat)
    requires i <= j <= |s| && AllDigits(s[i..j]) && 0 < lo <= j - i <= hi
    requires j == |s| || !IsWordChar(s[j])
    ensures EndField(s, i, lo, hi) == Some(j)
  {
    DigitRunExact(s, i, j - i);
  }

  lemma MatchAtOfFields(s: string, p: nat, q: nat, y: nat, v: nat, e: nat)
    requires p <= q <= y <= v <= |s|
    requires p == 0 || !IsWordChar(s[p - 1])
    requires BarField(s, p, 13, 19) == Some(q) && BarField(s, q, 1, 2) == Some(y)
    requires BarField(s, y, 2, 4) == Some(v) && EndField(s, v, 3, 4) == Some(e)
    ensures MatchAt(s, p) == Some(e)
  {
  }

  /** `re.findall` from position `pos`: each match is reported, and the scan resumes where it ended. */
  function FindAll(s: string, pos: nat): seq<string>
    requires pos <= |s|
    decreases |s| - pos
  {
    if pos == |s| then []
    else
      match MatchAt(s, pos)
      case Some(e) => [s[pos..e]] + FindAll(s, e)
      case None => FindAll(s, pos + 1)
  }

  /** The tokens of a submitted message (`re.findall(card_pattern, message_text.strip())`). */
  function ExtractTokens(text: string): seq<string> {
    FindAll(Strip(text), 0)
  }

  lemma {:induction false} FindAllSound(s: string, pos: nat)
    requires pos <= |s|
    ensures forall i :: 0 <= i < |FindAll(s, pos)| ==> IsCardToken(FindAll(s, pos)[i])
    decreases |s| - pos
  {
    if pos < |s| {
      match MatchAt(s, pos)
      case Some(e) =>
        MatchAtSound(s, pos);
        FindAllSound(s, e);
      case None =>
        FindAllSound(s, pos + 1);
    }
  }

  /** Every extracted token is a card token, so it has exactly four fields. */
  lemma ExtractedAreTokens(text: string)
    ensures forall i :: 0 <= i < |ExtractTokens(text)| ==> IsCardToken(ExtractTokens(text)[i])
  {
    FindAllSound(Strip(text), 0);
  }

  lemma NoMatchAtNonDigit(s: string, pos: nat)
    requires pos < |s| && !IsDigit(s[pos])
    ensures MatchAt(s, pos) == None
  {
    assert DigitRun(s, pos) == 0;
  }

  /** Text without digits contributes no match. */
  lemma {:induction false} SkipNoDigits(s: string, pos: nat, k: nat)
    requires pos + k <= |s| && NoDigits(s[pos..pos + k])
    ensures FindAll(s, pos) == FindAll(s, pos + k)
    decreases k
  {
    if k > 0 {
      assert s[pos..pos + k][0] == s[pos];
      NoMatchAtNonDigit(s, pos);
      assert FindAll(s, pos) == FindAll(s, pos + 1);
      assert s[pos + 1..pos + k] == s[pos..pos + k][1..];
      SkipNoDigits(s, pos + 1, k - 1);
    }
  }

  /** noise[0] + tokens[0] + noise[1] + ... + tokens[n-1] + noise[n]. */
  function Interleave(noise: seq<string>, tokens: seq<string>): string
    requires |noise| == |tokens| + 1
  {
    if tokens == [] then noise[0] else noise[0] + tokens[0] + Interleave(noise[1..], tokens[1..])
  }

  /** Separators without digits that put a non-word character on both sides of every token. */
  predicate WellSeparated(noise: seq<string>, tokens: seq<string>)
    requires |noise| == |tokens| + 1
  {
    && (forall i :: 0 <= i < |noise| ==> NoDigits(noise[i]))
    && (forall i :: 0 < i < |tokens| ==> noise[i] != [])
    && (forall i :: 0 <= i < |noise| && noise[i] != [] ==>
          !IsWordChar(noise[i][0]) && !IsWordChar(noise[i][|noise[i]| - 1]))
  }

  lemma SuffixOfConcat(s: string, p: nat, a: string, b: string)
    requires p <= |s| && s[p..] == a + b
    ensures p + |a| <= |s| && s[p..p + |a|] == a && s[p + |a|..] == b
  {
    assert s[p..p + |a|] == s[p..][..|a|];
    assert s[p + |a|..] == s[p..][|a|..];
  }

  /** One token, preceded by digit-free noise and bounded by non-word characters, is extracted whole. */
  lemma StepOver(s: string, p: nat, n0: string, t: string)
    requires NoDigits(n0) && IsCardToken(t)
    requires p + |n0| + |t| <= |s| && s[p..p + |n0|] == n0 && s[p + |n0|..p + |n0| + |t|] == t
    requires p + |n0| == 0 || !IsWordChar(s[p + |n0| - 1])
    requires p + |n0| + |t| == |s| || !IsWordChar(s[p + |n0| + |t|])
    ensures FindAll(s, p) == [t] + FindAll(s, p + |n0| + |t|)
  {
    TokenAt(s, p + |n0|, t);
    SkipNoise(s, p, n0);
  }

  lemma NoiseSlice(s: string, p: nat, n0: string)
    requires p + |n0| <= |s| && s[p..p + |n0|] == n0 && NoDigits(n0)
    ensures NoDigits(s[p..p + |n0|])
  {
  }

  lemma SkipNoise(s: string, p: nat, n0: string)
    requires p + |n0| <= |s| && s[p..p + |n0|] == n0 && NoDigits(n0)
    ensures FindAll(s, p) == FindAll(s, p + |n0|)
  {
    NoiseSlice(s, p, n0);
    SkipNoDigits(s, p, |n0|);
  }

  lemma TokenAt(s: string, q: nat, t: string)
    requires IsCardToken(t)
    requires q + |t| <= |s| && s[q..q + |t|] == t
    requires q == 0 || !IsWordChar(s[q - 1])
    requires q + |t| == |s| || !IsWordChar(s[q + |t|])
    ensures FindAll(s, q) == [t] + FindAll(s, q + |t|)
  {
    MatchAtComplete(s, q, t);
    FindAllAt(s, q, q + |t|);
    SameHead(s[q..q + |t|], t, FindAll(s, q + |t|));
  }

  /** A match at `q` is reported first, and the scan resumes where it ends. */
  lemma FindAllAt(s: string, q: nat, e: nat)
    requires q <= |s| && MatchAt(s, q) == Some(e)
    ensures FindAll(s, q) == [s[q..e]] + FindAll(s, e)
  {
  }

  lemma SameHead(a: string, b: string, rest: seq<string>)
    requires a == b
    ensures [a] + rest == [b] + rest
  {
  }

  /** An interleaving starts with its first separator's first character. */
  lemma InterleaveFirst(noise: seq<string>, tokens: seq<string>)
    requires |noise| == |tokens| + 1
    requires noise[0] != [] || tokens == []
    ensures var r := Interleave(noise, tokens); (noise[0] == [] && r == []) || (r != [] && r[0] == noise[0][0])
  {
  }

  /** What the rest of an interleaving inherits from the whole. */
  lemma WellSeparatedTail(noise: seq<string>, tokens: seq<string>)
    requires |noise| == |tokens| + 1 && tokens != [] && WellSeparated(noise, tokens)
    requires forall i :: 0 <= i < |tokens| ==> IsCardToken(tokens[i])
    ensures WellSeparated(noise[1..], tokens[1..])
    ensures forall i :: 0 <= i < |tokens[1..]| ==> IsCardToken(tokens[1..][i])
    ensures tokens[1..] != [] ==> noise[1..][0] != []
  {
    forall i | 0 < i < |tokens[1..]| ensures noise[1..][i] != [] {
      assert noise[1..][i] == noise[i + 1];
    }
    assert forall i :: 0 <= i < |tokens[1..]| ==> tokens[1..][i] == tokens[i + 1];
  }

  lemma NoiseOnly(s: string, p: nat, n0: string)
    requires p <= |s| && s[p..] == n0 && NoDigits(n0)
    ensures FindAll(s, p) == []
  {
    assert s[p..p + |n0|] == n0;
    SkipNoDigits(s, p, |n0|);
  }

  /** What the scan meets from `p` on: digit-free noise alone, or one bounded token step and a chain after it. */
  predicate Chain(s: string, p: nat, noise: seq<string>, tokens: seq<string>)
    requires |noise| == |tokens| + 1 && p <= |s|
    decreases |tokens|, 1
  {
    if tokens == [] then NoDigits(noise[0]) && s[p..] == noise[0]
    else Step(s, p, noise, tokens)
  }

  /** Digit-free noise, then a token bounded by non-word characters, then the rest of the chain. */
  predicate Step(s: string, p: nat, noise: seq<string>, tokens: seq<string>)
    requires |noise| == |tokens| + 1 && p <= |s| && tokens != []
    decreases |tokens|, 0
  {
    var n0, t := noise[0], tokens[0];
    && NoDigits(n0) && IsCardToken(t)
    && p + |n0| + |t| <= |s| && s[p..p + |n0|] == n0 && s[p + |n0|..p + |n0| + |t|] == t
    && (p + |n0| == 0 || !IsWordChar(s[p + |n0| - 1]))
    && (p + |n0| + |t| == |s| || !IsWordChar(s[p + |n0| + |t|]))
    && Chain(s, p + |n0| + |t|, noise[1..], tokens[1..])
  }

  lemma {:induction false} FindAllChain(s: string, p: nat, noise: seq<string>, tokens: seq<string>)
    requires |noise| == |tokens| + 1 && p <= |s| && Chain(s, p, noise, tokens)
    ensures FindAll(s, p) == tokens
    decreases |tokens|
  {
    if tokens == [] {
      NoiseOnly(s, p, noise[0]);
    } else {
      ChainHead(s, p, noise, tokens);
      ChainTail(s, p, noise, tokens);
      FindAllChain(s, p + |noise[0]| + |tokens[0]|, noise[1..], tokens[1..]);
      Rejoin(FindAll(s, p), FindAll(s, p + |noise[0]| + |tokens[0]|), tokens);
    }
  }

  lemma Rejoin<T>(x: seq<T>, y: seq<T>, ys: seq<T>)
    requires ys != [] && x == [ys[0]] + y && y == ys[1..]
    ensures x == ys
  {
    assert ys == [ys[0]] + ys[1..];
  }

  lemma ChainHead(s: string, p: nat, noise: seq<string>, tokens: seq<string>)
    requires |noise| == |tokens| + 1 && p <= |s| && tokens != [] && Chain(s, p, noise, tokens)
    ensures p + |noise[0]| + |tokens[0]| <= |s|
    ensures FindAll(s, p) == [tokens[0]] + FindAll(s, p + |noise[0]| + |tokens[0]|)
  {
    assert Step(s, p, noise, tokens);
    StepOver(s, p, noise[0], tokens[0]);
  }

  lemma ChainTail(s: string, p: nat, noise: seq<string>, tokens: seq<string>)
    requires |noise| == |tokens| + 1 && p <= |s| && tokens != [] && Chain(s, p, noise, tokens)
    ensures p + |noise[0]| + |tokens[0]| <= |s|
    ensures Chain(s, p + |noise[0]| + |tokens[0]|, noise[1..], tokens[1..])
  {
    assert Step(s, p, noise, tokens);
  }

  /** The suffix `s[p..]`, a well-separated interleaving, is such a chain. */
  lemma {:induction false} InterleaveChain(s: string, p: nat, noise: seq<string>, tokens: seq<string>)
    requires |noise| == |tokens| + 1 && WellSeparated(noise, tokens)
    requires forall i :: 0 <= i < |tokens| ==> IsCardToken(tokens[i])
    requires p <= |s| && s[p..] == Interleave(noise, tokens)
    requires tokens != [] && noise[0] == [] ==> p == 0 || !IsWordChar(s[p - 1])
    ensures Chain(s, p, noise, tokens)
    decreases |tokens|
  {
    if tokens != [] {
      var p' := InterleaveSlices(s, p, noise, tokens);
      WellSeparatedTail(noise, tokens);
      InterleaveChain(s, p', noise[1..], tokens[1..]);
    }
  }

  /** Scanning the suffix `s[p..]`, an interleaving of noise and tokens, yields the tokens. */
  lemma FindAllInterleave(s: string, p: nat, noise: seq<string>, tokens: seq<string>)
    requires |noise| == |tokens| + 1 && WellSeparated(noise, tokens)
    requires forall i :: 0 <= i < |tokens| ==> IsCardToken(tokens[i])
    requires p <= |s| && s[p..] == Interleave(noise, tokens)
    requires tokens != [] && noise[0] == [] ==> p == 0 || !IsWordChar(s[p - 1])
    ensures FindAll(s, p) == tokens
  {
    InterleaveChain(s, p, noise, tokens);
    FindAllChain(s, p, noise, tokens);
  }

  /** Where the first separator and token of an interleaving sit inside the text. */
  lemma InterleaveSlices(s: string, p: nat, noise: seq<string>, tokens: seq<string>) returns (p': nat)
    requires |noise| == |tokens| + 1 && WellSeparated(noise, tokens) && tokens != []
    requires forall i :: 0 <= i < |tokens| ==> IsCardToken(tokens[i])
    requires p <= |s| && s[p..] == Interleave(noise, tokens)
    requires noise[0] == [] ==> p == 0 || !IsWordChar(s[p - 1])
    ensures var n0, t := noise[0], tokens[0];
      && NoDigits(n0) && IsCardToken(t)
      && p + |n0| + |t| <= |s| && s[p..p + |n0|] == n0 && s[p + |n0|..p + |n0| + |t|] == t
      && (p + |n0| == 0 || !IsWordChar(s[p + |n0| - 1]))
      && (p + |n0| + |t| == |s| || !IsWordChar(s[p + |n0| + |t|]))
      && p' == p + |n0| + |t| && s[p'..] == Interleave(noise[1..], tokens[1..])
  {
    var n0 := noise[0];
    var t := tokens[0];
    var rest := Interleave(noise[1..], tokens[1..]);
    SuffixOfConcat(s, p, n0 + t, rest);
    SliceOfConcat(s, p, n0, t);
    p' := p + |n0| + |t|;
    if n0 != [] {
      assert s[p + |n0| - 1] == n0[|n0| - 1];
    }
    assert noise[1..][0] == noise[1];
    InterleaveFirst(noise[1..], tokens[1..]);
    if rest != [] {
      assert s[p'] == rest[0];
    }
  }


  /** The last character of an interleaving is not whitespace when the last separator does not end in whitespace. */
  lemma {:induction false} InterleaveLast(noise: seq<string>, tokens: seq<string>)
    requires |noise| == |tokens| + 1 && tokens != []
    requires forall i :: 0 <= i < |tokens| ==> IsCardToken(tokens[i])
    requires noise[|tokens|] == [] || !IsSpace(noise[|tokens|][|noise[|tokens|]| - 1])
    ensures var s := Interleave(noise, tokens); |s| > 0 && !IsSpace(s[|s| - 1])
    decreases |tokens|
  {
    var t := tokens[0];
    TokenEdges(t);
    var rest := Interleave(noise[1..], tokens[1..]);
    var s := noise[0] + t + rest;
    if tokens[1..] != [] {
      InterleaveLast(noise[1..], tokens[1..]);
      assert s[|s| - 1] == rest[|rest| - 1];
    } else if rest != [] {
      assert s[|s| - 1] == rest[|rest| - 1];
    } else {
      assert s[|s| - 1] == t[|t| - 1];
    }
  }

  /**
   * Extraction returns exactly the tokens of the message, in order, whatever
   * digit-free text separates them, provided each token is
   * bounded by non-word characters.
   */
  lemma ExtractInterleaved(noise: seq<string>, tokens: seq<string>)
    requires |noise| == |tokens| + 1 && WellSeparated(noise, tokens)
    requires forall i :: 0 <= i < |tokens| ==> IsCardToken(tokens[i])
    requires noise[0] == [] || !IsSpace(noise[0][0])
    requires noise[|tokens|] == [] || !IsSpace(noise[|tokens|][|noise[|tokens|]| - 1])
    ensures ExtractTokens(Interleave(noise, tokens)) == tokens
  {
    var s := Interleave(noise, tokens);
    if tokens != [] {
      InterleaveLast(noise, tokens);
      TokenEdges(tokens[0]);
      assert s[0] == (noise[0] + tokens[0])[0];
    }
    StripUnchanged(s);
    FindAllInterleave(s, 0, noise, tokens);
  }
}
