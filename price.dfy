/**
 * The price extraction of `Ppomppu.getProductDetail`: three regular expressions tried
 * in order, the first that matches anywhere in the title supplies the price text.
 *
 *   Won     `(\d{1,3}(?:,\d{3})*)\s*원`    "35,750원", "9,000 원"
 *   Manwon  `(\d+)만원`                     "24만원"
 *   Paren   `\((\d{1,3}(?:,\d{3})*)[\/,)]`  "(35,750/)", "(35,750,)", "(35,750)"
 *
 * Each pattern is modelled as the test "does it match at position p, and with what
 * capture", which is what backtracking settles to, and `FirstMatchFrom` is the
 * leftmost search of `String.prototype.match`.
 */
module PriceExtraction {
  import opened Wrappers
  import opened Strings

  /** The three price patterns, in the order they are tried. */
  datatype Pattern = Won | Manwon | Paren

  /** A comma group `,\d{3}` starts at index `i`. */
  predicate GroupAt(s: string, i: nat) {
    i + 4 <= |s| && s[i] == ',' && IsDigit(s[i + 1]) && IsDigit(s[i + 2]) && IsDigit(s[i + 3])
  }

  /** The end of the longest run of comma groups `(?:,\d{3})*` that starts at `i`. */
  function GroupsEnd(s: string, i: nat): (e: nat)
    requires i <= |s|
    ensures i <= e <= |s| && (i == e || i + 4 <= e)
    ensures !GroupAt(s, e)
    ensures forall k :: i <= k < e ==> IsDigit(s[k]) || s[k] == ','
    ensures i < e ==> GroupAt(s, e - 4)
    decreases |s| - i
  {
    if GroupAt(s, i) then GroupsEnd(s, i + 4) else i
  }

  /** What a price pattern can capture: a digit followed by digits and commas. */
  predicate IsPriceText(c: string) {
    c != [] && IsDigit(c[0]) && forall k :: 0 <= k < |c| ==> IsDigit(c[k]) || c[k] == ','
  }

  /** The capture of the Won pattern when its match starts at index `p`. */
  function WonAt(s: string, p: nat): (cap: Option<string>)
    requires p <= |s|
    ensures cap.Some? ==> IsPriceText(cap.value)
  {
    // \d{1,3} cannot give back digits: the next character would be a digit again
    var d := DigitRunEnd(s, p);
    if 1 <= d - p <= 3 then
      var e := GroupsEnd(s, d);
      var f := SpaceRunEnd(s, e);
      if f < |s| && s[f] == '원' then Some(s[p..e]) else None
    else None
  }

  /** The capture of the Manwon pattern when its match starts at index `p`. */
  function ManwonAt(s: string, p: nat): (cap: Option<string>)
    requires p <= |s|
    ensures cap.Some? ==> IsPriceText(cap.value)
  {
    var d := DigitRunEnd(s, p);
    if p < d && OccursAt(s, "만원", d) then Some(s[p..d]) else None
  }

  /** The characters that may close a Paren match: `[\/,)]`. */
  predicate IsParenEnd(c: char) {
    c == '/' || c == ',' || c == ')'
  }

  /** The capture of the Paren pattern when its match starts at index `p`. */
  function ParenAt(s: string, p: nat): (cap: Option<string>)
    requires p <= |s|
    ensures cap.Some? ==> IsPriceText(cap.value)
  {
    if p < |s| && s[p] == '(' then
      var d := DigitRunEnd(s, p + 1);
      if 1 <= d - (p + 1) <= 3 then
        var e := GroupsEnd(s, d);
        if e < |s| && IsParenEnd(s[e]) then Some(s[p + 1..e])
        // giving back the last group leaves its `,` as the terminator
        else if d < e then Some(s[p + 1..e - 4])
        else None
      else None
    else None
  }

  /** The capture of `pat` when its match starts at index `p`, or `None` when none does. */
  function MatchAt(s: string, pat: Pattern, p: nat): (cap: Option<string>)
    requires p <= |s|
    ensures cap.Some? ==> IsPriceText(cap.value)
  {
    match pat
    case Won => WonAt(s, p)
    case Manwon => ManwonAt(s, p)
    case Paren => ParenAt(s, p)
  }

  /** The leftmost index at or after `from` where `pat` matches. */
  function FirstMatchFrom(s: string, pat: Pattern, from: nat): (r: Option<nat>)
    requires from <= |s|
    ensures r.Some? ==> from <= r.value <= |s| && MatchAt(s, pat, r.value).Some?
    ensures forall q: nat :: from <= q <= |s| && (r.None? || q < r.value) ==> MatchAt(s, pat, q).None?
    decreases |s| - from
  {
    if MatchAt(s, pat, from).Some? then Some(from)
    else if from == |s| then None
    else FirstMatchFrom(s, pat, from + 1)
  }

  /** `title.match(re)?.[1]`: the capture of the leftmost match of `pat`. */
  function Capture(s: string, pat: Pattern): (cap: Option<string>)
    ensures cap.Some? ==> IsPriceText(cap.value)
    ensures cap.None? <==> forall q: nat :: q <= |s| ==> MatchAt(s, pat, q).None?
  {
    match FirstMatchFrom(s, pat, 0)
    case None => None
    case Some(p) => MatchAt(s, pat, p)
  }

  /** `m1 || m2 || m3`: the first of the three patterns that matches supplies the capture. */
  function PriceCapture(title: string): (cap: Option<string>)
    ensures cap.Some? ==> IsPriceText(cap.value)
    ensures Capture(title, Won).Some? ==> cap == Capture(title, Won)
    ensures Capture(title, Won).None? && Capture(title, Manwon).Some? ==> cap == Capture(title, Manwon)
    ensures Capture(title, Won).None? && Capture(title, Manwon).None? ==> cap == Capture(title, Paren)
  {
    var won := Capture(title, Won);
    if won.Some? then won
    else
      var manwon := Capture(title, Manwon);
      if manwon.Some? then manwon else Capture(title, Paren)
  }

  /** Digits and commas without the commas are digits. */
  lemma {:induction false} DigitsWithoutCommas(c: string)
    requires forall k :: 0 <= k < |c| ==> IsDigit(c[k]) || c[k] == ','
    ensures AllDigits(Without(c, {','}))
    decreases |c|
  {
    if c != [] {
      var c' := c[..|c| - 1];
      assert forall k :: 0 <= k < |c'| ==> c'[k] == c[k];
      DigitsWithoutCommas(c');
    }
  }

  /** A price text keeps at least its first digit once its commas are removed. */
  lemma PriceTextDigits(c: string)
    requires IsPriceText(c)
    ensures AllDigits(Without(c, {','}))
    ensures Without(c, {','}) != []
  {
    DigitsWithoutCommas(c);
    WithoutAppend([c[0]], c[1..], {','});
    assert [c[0]] + c[1..] == c;
    assert Without([c[0]], {','}) == [c[0]] by {
      assert [c[0]][..0] == [];
    }
  }

  /** The number a captured price text stands for: its digits without the commas,
      scaled by 10000 when the title mentions 만원, and with a three-digit capture
      ending in `00` read as thousands (`"500"` becomes `"5000"`). */
  function PriceOfText(cap: string, manwon: bool): nat
    requires IsPriceText(cap)
  {
    PriceTextDigits(cap);
    var digits := Without(cap, {','});
    if manwon then DigitsValue(digits) * 10000
    else if EndsWith(digits, "00") && |digits| == 3 then
      assert AllDigits(digits[..1] + "000");
      DigitsValue(digits[..1] + "000")
    else DigitsValue(digits)
  }

  /** The price of the detail page; a title that none of the patterns matches has price 0. */
  function ExtractPrice(title: string): (price: nat)
    ensures PriceCapture(title).None? ==> price == 0
    ensures PriceCapture(title).Some? ==> price == PriceOfText(PriceCapture(title).value, Contains(title, "만원"))
  {
    match PriceCapture(title)
    case None => 0
    case Some(cap) => PriceOfText(cap, Contains(title, "만원"))
  }

  // ---------------------------------------------------------------------------
  // The formats the patterns are written for, and what extraction makes of them

  /** A number below 1000 as exactly three digits. */
  function Pad3(m: nat): (t: string)
    requires m < 1000
    ensures |t| == 3 && AllDigits(t)
  {
    [DigitChar(m / 100), DigitChar(m / 10 % 10), DigitChar(m % 10)]
  }

  /** `n` written with thousands separators: 35750 as "35,750". */
  function Commafy(n: nat): (t: string)
    ensures t != []
  {
    if n < 1000 then NatToString(n) else Commafy(n / 1000) + [','] + Pad3(n % 1000)
  }

  /** A sequence of comma groups `,ddd,ddd...`. */
  predicate IsGroupSeq(g: string)
    decreases |g|
  {
    g == [] || (GroupAt(g, 0) && IsGroupSeq(g[4..]))
  }

  predicate NoDigits(s: string) {
    forall k :: 0 <= k < |s| ==> !IsDigit(s[k])
  }

  /** The price a title quoting `n` won yields: three-digit round hundreds are read as
      thousands, every other amount as itself. */
  function QuotedWon(n: nat): nat {
    if 100 <= n < 1000 && n % 100 == 0 then n * 10 else n
  }

  lemma {:induction false} GroupSeqAppend(g: string, h: string)
    requires IsGroupSeq(g) && IsGroupSeq(h)
    ensures IsGroupSeq(g + h)
    decreases |g|
  {
    if g == [] {
      assert g + h == h;
    } else {
      GroupSeqAppend(g[4..], h);
      assert (g + h)[4..] == g[4..] + h;
    }
  }

  /** `Commafy(n)` is a one-to-three digit head followed by comma groups. */
  lemma {:induction false} CommafySplit(n: nat) returns (h: nat)
    ensures 1 <= h <= 3 && h <= |Commafy(n)|
    ensures AllDigits(Commafy(n)[..h])
    ensures IsGroupSeq(Commafy(n)[h..])
  {
    if n < 1000 {
      NatToStringLength(n);
      h := |Commafy(n)|;
      assert Commafy(n)[h..] == [];
    } else {
      var c := Commafy(n / 1000);
      h := CommafySplit(n / 1000);
      var g := [','] + Pad3(n % 1000);
      assert Commafy(n) == c + g;
      assert GroupAt(g, 0) && g[4..] == [];
      assert IsGroupSeq(g);
      GroupSeqAppend(c[h..], g);
      PrefixAndRest(c, g, h);
    }
  }

  lemma PrefixAndRest(c: string, g: string, h: nat)
    requires h <= |c|
    ensures (c + g)[h..] == c[h..] + g
    ensures (c + g)[..h] == c[..h]
  {
  }

  /** A matched run of comma groups ends where the groups end. */
  lemma {:induction false} GroupsEndOfSeq(s: string, i: nat, g: string)
    requires i + |g| <= |s| && s[i..i + |g|] == g && IsGroupSeq(g)
    requires !GroupAt(s, i + |g|)
    ensures GroupsEnd(s, i) == i + |g|
    decreases |g|
  {
    if g != [] {
      assert s[i..i + 4] == g[..4];
      assert GroupAt(s, i);
      assert s[i + 4..i + 4 + |g[4..]|] == g[4..];
      GroupsEndOfSeq(s, i + 4, g[4..]);
    }
  }

  lemma Pad3Value(m: nat)
    requires m < 1000
    ensures DigitsValue(Pad3(m)) == m
  {
    var t := Pad3(m);
    var a, b, c := m / 100, m / 10 % 10, m % 10;
    assert t[..2][..1] == [t[0]];
    assert [t[0]][..0] == [];
    assert DigitsValue([t[0]]) == a;
    assert DigitsValue(t[..2]) == a * 10 + b;
    assert DigitsValue(t) == (a * 10 + b) * 10 + c;
    assert m / 10 == a * 10 + b;
  }

  /** A separator followed by three digits loses only the separator. */
  lemma WithoutGroup(p: string)
    requires AllDigits(p)
    ensures Without([','] + p, {','}) == p
  {
    WithoutAppend([','], p, {','});
    assert [','][..0] == [];
  }

  /** One step of `Commafy` above 1000, as digits: the head's digits, then three more. */
  lemma CommafyStepDigits(n: nat)
    requires n >= 1000
    ensures Without(Commafy(n), {','}) == Without(Commafy(n / 1000), {','}) + Pad3(n % 1000)
  {
    var c, p := Commafy(n / 1000), Pad3(n % 1000);
    assert Commafy(n) == c + ([','] + p);
    WithoutAppend(c, [','] + p, {','});
    WithoutGroup(p);
  }

  /** One step of `Commafy` above 1000 keeps the value of its digits: the head's digits
      stand for `n / 1000`, the three more for `n % 1000`. */
  lemma CommafyStepValue(n: nat)
    requires n >= 1000
    requires AllDigits(Without(Commafy(n / 1000), {','}))
    requires DigitsValue(Without(Commafy(n / 1000), {','})) == n / 1000
    requires |Without(Commafy(n / 1000), {','})| >= 1
    ensures AllDigits(Without(Commafy(n), {','}))
    ensures DigitsValue(Without(Commafy(n), {','})) == n
    ensures |Without(Commafy(n), {','})| >= 4
  {
    var w, p := Without(Commafy(n / 1000), {','}), Pad3(n % 1000);
    CommafyStepDigits(n);
    DigitsValueAppend(w, p);
    Pad3Value(n % 1000);
    assert Pow10(|p|) == 1000;
    assert DigitsValue(w + p) == (n / 1000) * 1000 + n % 1000;
  }

  /** Removing the separators from `Commafy(n)` gives the digits of a number whose value is `n`. */
  lemma {:induction false} CommafyValue(n: nat)
    ensures AllDigits(Without(Commafy(n), {','}))
    ensures DigitsValue(Without(Commafy(n), {','})) == n
    ensures n < 1000 ==> Without(Commafy(n), {','}) == NatToString(n)
    ensures n >= 1000 ==> |Without(Commafy(n), {','})| >= 4
  {
    if n < 1000 {
      NatToStringRoundTrip(n);
    } else {
      CommafyValue(n / 1000);
      assert |Without(Commafy(n / 1000), {','})| >= 1 by {
        NatToStringLength(n / 1000);
      }
      CommafyStepValue(n);
    }
  }

  /** A three-digit number prints as its padded form. */
  lemma NatToStringThreeDigits(n: nat)
    requires 100 <= n < 1000
    ensures NatToString(n) == Pad3(n)
  {
    assert n / 10 / 10 == n / 100;
    assert NatToString(n / 100) == [DigitChar(n / 100)];
    assert NatToString(n / 10) == [DigitChar(n / 100), DigitChar(n / 10 % 10)];
  }

  /** The thousands reading of a three-digit capture ending in `00`. */
  lemma RoundHundreds(n: nat)
    requires 100 <= n < 1000
    ensures var t := NatToString(n);
      EndsWith(t, "00") <==> n % 100 == 0
    ensures var t := NatToString(n);
      EndsWith(t, "00") ==> AllDigits(t[..1] + "000") && DigitsValue(t[..1] + "000") == n * 10
  {
    NatToStringThreeDigits(n);
    var t := Pad3(n);
    var a, b, c := n / 100, n / 10 % 10, n % 10;
    assert n % 100 == b * 10 + c;
    assert t[1..] == [DigitChar(b), DigitChar(c)];
    assert EndsWith(t, "00") <==> b == 0 && c == 0;
    if EndsWith(t, "00") {
      assert t[..1] == [DigitChar(a)];
      DigitsValueAppend(t[..1], "000");
      assert [DigitChar(a)][..0] == [];
      assert DigitsValue(t[..1]) == a;
      assert DigitsValue("000") == 0 by {
        assert "000"[..2] == "00" && "00"[..1] == "0" && "0"[..0] == [];
      }
      assert Pow10(3) == 1000;
    }
  }

  /** A position that does not start with a digit starts no Won or Manwon match. */
  lemma NoMatchWithoutDigit(s: string, pat: Pattern, q: nat)
    requires pat != Paren && q <= |s| && (q == |s| || !IsDigit(s[q]))
    ensures MatchAt(s, pat, q).None?
  {
    DigitRunEndIs(s, q, q);
  }

  /** When `pat` matches at `p` and nowhere before, that match supplies the capture. */
  lemma LeftmostCapture(s: string, pat: Pattern, p: nat)
    requires p <= |s| && MatchAt(s, pat, p).Some?
    requires forall q: nat :: q < p ==> MatchAt(s, pat, q).None?
    ensures Capture(s, pat) == MatchAt(s, pat, p)
  {
    var r := FirstMatchFrom(s, pat, 0);
    assert r.Some? && r.value == p;
  }

  /** A title without the character 만 does not mention 만원. */
  lemma NoManwonMention(s: string)
    requires forall k :: 0 <= k < |s| ==> s[k] != '만'
    ensures !Contains(s, "만원")
  {
    assert forall i: nat :: OccursAt(s, "만원", i) ==> s[i] == s[i..i + 2][0];
  }

  /** The digits before the first separator of a formatted number form a whole digit run. */
  lemma HeadDigitsEnd(s: string, p: nat, c: string, h: nat)
    requires p + |c| <= |s| && s[p..p + |c|] == c
    requires h <= |c| && AllDigits(c[..h]) && IsGroupSeq(c[h..])
    requires p + |c| == |s| || !IsDigit(s[p + |c|])
    ensures DigitRunEnd(s, p) == p + h
  {
    assert forall k :: p <= k < p + h ==> s[k] == c[..h][k - p];
    if h < |c| {
      assert GroupAt(c[h..], 0);
      assert s[p + h] == c[h..][0];
    }
    DigitRunEndIs(s, p, p + h);
  }

  /** A Won match read off where its digit run, its comma groups and the white space
      after them end. */
  lemma WonMatchAt(s: string, p: nat, d: nat, e: nat, f: nat)
    requires p <= |s| && DigitRunEnd(s, p) == d && 1 <= d - p <= 3
    requires GroupsEnd(s, d) == e && SpaceRunEnd(s, e) == f
    requires f < |s| && s[f] == '원'
    ensures MatchAt(s, Won, p) == Some(s[p..e])
  {
  }

  /** Where no digit comes before `p`, no Won match starts before `p`. */
  lemma NoWonMatchBefore(s: string, p: nat)
    requires p <= |s|
    requires forall k :: 0 <= k < p ==> !IsDigit(s[k])
    ensures forall q: nat :: q < p ==> MatchAt(s, Won, q).None?
  {
    forall q: nat | q < p ensures MatchAt(s, Won, q).None? {
      NoMatchWithoutDigit(s, Won, q);
    }
  }

  /** The Won match of `s` captures `c` when the digit at `p` is the first digit of `s`,
      its digit run ends at `d`, its comma groups end at `e`, where `c` does, and white
      space then leads to a 원 at `f`. */
  lemma WonCapture(s: string, p: nat, c: string, d: nat, e: nat, f: nat)
    requires e == p + |c| && e <= |s| && s[p..e] == c
    requires DigitRunEnd(s, p) == d && p + 1 <= d <= p + 3 && GroupsEnd(s, d) == e
    requires SpaceRunEnd(s, e) == f && f < |s| && s[f] == '원'
    requires forall k :: 0 <= k < p ==> !IsDigit(s[k])
    ensures Capture(s, Won) == Some(c)
  {
    WonMatchAt(s, p, d, e, f);
    NoWonMatchBefore(s, p);
    LeftmostCapture(s, Won, p);
  }

  /** Where the parts of `pre + c + gap + "원" + post` sit. */
  lemma WonLayout(pre: string, c: string, gap: string, post: string)
    ensures var s := pre + c + gap + "원" + post; var p := |pre|; var e := p + |c|;
      var f := e + |gap|;
      && |s| == f + 1 + |post| && s[p..e] == c && s[f] == '원'
      && (forall k :: 0 <= k < p ==> s[k] == pre[k])
      && (forall k :: e <= k < f ==> s[k] == gap[k - e])
  {
  }

  /** The Won match of a title quoting `Commafy(n)` won starts at the number and
      captures it. */
  lemma WonMatch(pre: string, c: string, h: nat, gap: string, post: string)
    requires 1 <= h <= 3 && h <= |c| && AllDigits(c[..h]) && IsGroupSeq(c[h..])
    requires NoDigits(pre) && AllSpace(gap)
    ensures Capture(pre + c + gap + "원" + post, Won) == Some(c)
  {
    var s := pre + c + gap + "원" + post;
    var p, e, f := |pre|, |pre| + |c|, |pre| + |c| + |gap|;
    WonLayout(pre, c, gap, post);
    assert IsSpace(s[e]) || s[e] == '원' by {
      if e < f { assert s[e] == gap[0]; }
    }
    FormattedRunEnds(s, p, c, h, p + h, e);
    SpaceRunEndIs(s, e, f);
    WonCapture(s, p, c, p + h, e, f);
  }

  /** The price of a captured `Commafy(n)` in a title that does not mention 만원. */
  lemma PriceOfCommafied(n: nat)
    ensures IsPriceText(Commafy(n))
    ensures PriceOfText(Commafy(n), false) == QuotedWon(n)
  {
    var h := CommafySplit(n);
    CommafyValue(n);
    if 100 <= n < 1000 {
      RoundHundreds(n);
    } else if n < 100 {
      NatToStringLength(n);
    }
  }

  /** No 만 anywhere in `pre + c + gap + "원" + post` when `pre` and `post` have none. */
  lemma NoManIn(pre: string, c: string, gap: string, post: string)
    requires IsPriceText(c) && AllSpace(gap)
    requires forall k :: 0 <= k < |pre| ==> pre[k] != '만'
    requires forall k :: 0 <= k < |post| ==> post[k] != '만'
    ensures var s := pre + c + gap + "원" + post;
      forall k :: 0 <= k < |s| ==> s[k] != '만'
  {
    var s := pre + c + gap + "원" + post;
    var p, e := |pre|, |pre| + |c|;
    forall k | 0 <= k < |s| ensures s[k] != '만' {
      if k < p { assert s[k] == pre[k]; }
      else if k < e { assert s[k] == c[k - p]; }
      else if k < e + |gap| { assert s[k] == gap[k - e]; }
      else if k > e + |gap| { assert s[k] == post[k - e - |gap| - 1]; }
    }
  }

  /** A title quoting an amount in won, `35,750원` or `9,000 원`, yields that amount (round
      hundreds below 1000 read as thousands), provided nothing before it is a digit and
      the title does not mention 만. */
  lemma WonRoundTrip(pre: string, n: nat, gap: string, post: string)
    requires NoDigits(pre) && AllSpace(gap)
    requires forall k :: 0 <= k < |pre| ==> pre[k] != '만'
    requires forall k :: 0 <= k < |post| ==> post[k] != '만'
    ensures ExtractPrice(pre + Commafy(n) + gap + "원" + post) == QuotedWon(n)
  {
    var c := Commafy(n);
    var s := pre + c + gap + "원" + post;
    var h := CommafySplit(n);
    WonMatch(pre, c, h, gap, post);
    PriceOfCommafied(n);
    NoManIn(pre, c, gap, post);
    NoManwonMention(s);
  }

  /** Digits followed by 만 start no Won match: the white space and 원 are missing. */
  lemma NoWonInsideManwon(s: string, p: nat, e: nat, q: nat)
    requires p <= q < e < |s| && s[e] == '만'
    requires forall k :: p <= k < e ==> IsDigit(s[k])
    ensures MatchAt(s, Won, q).None?
  {
    DigitRunEndIs(s, q, e);
    SpaceRunEndIs(s, e, e);
  }

  /** Digits at `p..e` followed by 만, and no other digit: the Won pattern matches
      nowhere. */
  lemma NoWonBeforeMan(s: string, p: nat, e: nat)
    requires p <= e < |s| && s[e] == '만'
    requires forall k :: 0 <= k < p ==> !IsDigit(s[k])
    requires forall k :: p <= k < e ==> IsDigit(s[k])
    requires forall k :: e <= k < |s| ==> !IsDigit(s[k])
    ensures Capture(s, Won).None?
  {
    forall q: nat | q <= |s| ensures MatchAt(s, Won, q).None? {
      if p <= q < e {
        NoWonInsideManwon(s, p, e, q);
      } else {
        NoMatchWithoutDigit(s, Won, q);
      }
    }
  }

  /** The first digits of `s`, the text `t` at `p..e`, followed by 만원: the Manwon
      match captures them. */
  lemma ManwonCapture(s: string, p: nat, e: nat, t: string)
    requires p < e && OccursAt(s, "만원", e) && s[p..e] == t
    requires forall k :: 0 <= k < p ==> !IsDigit(s[k])
    requires forall k :: p <= k < e ==> IsDigit(s[k])
    ensures Capture(s, Manwon) == Some(t)
  {
    assert s[e] == s[e..e + 2][0];
    DigitRunEndIs(s, p, e);
    forall q: nat | q < p ensures MatchAt(s, Manwon, q).None? {
      NoMatchWithoutDigit(s, Manwon, q);
    }
    LeftmostCapture(s, Manwon, p);
  }

  /** Where the parts of `pre + t + "만원" + post` sit. */
  lemma ManwonLayout(pre: string, t: string, post: string)
    ensures var s := pre + t + "만원" + post; var p := |pre|; var e := p + |t|;
      && |s| == e + 2 + |post| && s[p..e] == t && s[e] == '만' && s[e + 1] == '원'
      && OccursAt(s, "만원", e)
      && (forall k :: 0 <= k < p ==> s[k] == pre[k])
      && (forall k :: p <= k < e ==> s[k] == t[k - p])
      && (forall k :: e + 2 <= k < |s| ==> s[k] == post[k - e - 2])
  {
    var s := pre + t + "만원" + post;
    assert s[|pre| + |t|..|pre| + |t| + 2] == "만원";
  }

  /** The Manwon match of `pre + NatToString(n) + "만원" + post` captures the number,
      and the Won pattern matches nowhere in it. */
  lemma ManwonMatch(pre: string, n: nat, post: string)
    requires NoDigits(pre) && NoDigits(post)
    ensures var s := pre + NatToString(n) + "만원" + post;
      Capture(s, Won).None? && Capture(s, Manwon) == Some(NatToString(n))
  {
    var t := NatToString(n);
    var s := pre + t + "만원" + post;
    var p, e := |pre|, |pre| + |t|;
    ManwonLayout(pre, t, post);
    assert forall k :: e <= k < |s| ==> !IsDigit(s[k]) by {
      forall k | e <= k < |s| ensures !IsDigit(s[k]) {
        if e + 2 <= k { assert s[k] == post[k - e - 2]; }
      }
    }
    NoWonBeforeMan(s, p, e);
    ManwonCapture(s, p, e, t);
  }

  /** A title quoting an amount in units of 10000 won, `24만원`, yields that amount times
      10000, provided the rest of the title has no digits. */
  lemma ManwonRoundTrip(pre: string, n: nat, post: string)
    requires NoDigits(pre) && NoDigits(post)
    ensures ExtractPrice(pre + NatToString(n) + "만원" + post) == n * 10000
  {
    var t := NatToString(n);
    var s := pre + t + "만원" + post;
    ManwonMatch(pre, n, post);
    assert PriceCapture(s) == Some(t);
    assert OccursAt(s, "만원", |pre| + |t|) by {
      assert s[|pre| + |t|..|pre| + |t| + 2] == "만원";
    }
    ContainsAt(s, "만원", |pre| + |t|);
    assert Without(t, {','}) == t;
    NatToStringRoundTrip(n);
  }

  /** Without the character 원 the Won pattern matches nowhere. */
  lemma NoWonWithoutWonSign(s: string)
    requires forall k :: 0 <= k < |s| ==> s[k] != '원'
    ensures Capture(s, Won).None?
  {
  }

  /** Without the character 만 the Manwon pattern matches nowhere. */
  lemma NoManwonWithoutMan(s: string)
    requires forall k :: 0 <= k < |s| ==> s[k] != '만'
    ensures Capture(s, Manwon).None?
  {
    forall q: nat | q <= |s| ensures MatchAt(s, Manwon, q).None? {
      var d := DigitRunEnd(s, q);
      if d + 2 <= |s| { assert s[d..d + 2][0] == s[d]; }
    }
  }

  /** A Paren match read off where its digit run and its comma groups end. */
  lemma ParenMatchAt(s: string, p: nat, d: nat, e: nat)
    requires p < |s| && s[p] == '(' && p + 1 <= d <= |s|
    requires DigitRunEnd(s, p + 1) == d && 1 <= d - (p + 1) <= 3 && GroupsEnd(s, d) == e
    requires e < |s| && IsParenEnd(s[e])
    ensures MatchAt(s, Paren, p) == Some(s[p + 1..e])
  {
  }

  /** A formatted number `c` at `i` followed by a non-digit: its digit run ends at `d`,
      after the head of `h` digits, and its comma groups end at `e`, where `c` does. */
  lemma FormattedRunEnds(s: string, i: nat, c: string, h: nat, d: nat, e: nat)
    requires d == i + h && e == i + |c|
    requires e < |s| && s[i..e] == c && !IsDigit(s[e]) && !GroupAt(s, e)
    requires h <= |c| && AllDigits(c[..h]) && IsGroupSeq(c[h..])
    ensures DigitRunEnd(s, i) == d && GroupsEnd(s, d) == e
  {
    HeadDigitsEnd(s, i, c, h);
    assert s[d..e] == c[h..];
    GroupsEndOfSeq(s, d, c[h..]);
  }

  /** Where no digit comes before `p`, no Paren match starts before `p`. */
  lemma NoParenMatchBefore(s: string, p: nat)
    requires p < |s| && !IsDigit(s[p])
    requires forall k :: 0 <= k < p ==> !IsDigit(s[k])
    ensures forall q: nat :: q < p ==> MatchAt(s, Paren, q).None?
  {
    forall q: nat | q < p ensures MatchAt(s, Paren, q).None? {
      DigitRunEndIs(s, q + 1, q + 1);
    }
  }

  /** Where the parts of `pre + "(" + c + [term] + post` sit. */
  lemma ParenLayout(pre: string, c: string, term: char, post: string)
    ensures var s := pre + "(" + c + [term] + post; var p := |pre|; var e := p + 1 + |c|;
      && |s| == e + 1 + |post| && s[p] == '(' && s[p + 1..e] == c && s[e] == term
      && (forall k :: 0 <= k < p ==> s[k] == pre[k])
      && (forall k :: e < k < |s| ==> s[k] == post[k - e - 1])
  {
  }

  /** The Paren match of `s` captures `c` when the `(` at `p` is the first place a Paren
      match can start, its digit run ends at `d` and its comma groups end at `e`, where
      `c` does. */
  lemma ParenCapture(s: string, p: nat, c: string, d: nat, e: nat)
    requires e == p + 1 + |c| && e < |s| && s[p] == '(' && s[p + 1..e] == c
    requires DigitRunEnd(s, p + 1) == d && p + 2 <= d <= p + 4 && GroupsEnd(s, d) == e
    requires IsParenEnd(s[e])
    requires forall k :: 0 <= k < p ==> !IsDigit(s[k])
    ensures Capture(s, Paren) == Some(c)
  {
    ParenMatchAt(s, p, d, e);
    NoParenMatchBefore(s, p);
    LeftmostCapture(s, Paren, p);
  }

  /** The Paren match of `pre + "(" + Commafy(n) + [term] + post` captures the number. */
  lemma ParenMatch(pre: string, c: string, h: nat, term: char, post: string)
    requires 1 <= h <= 3 && h <= |c| && AllDigits(c[..h]) && IsGroupSeq(c[h..])
    requires IsParenEnd(term) && NoDigits(pre) && NoDigits(post)
    ensures Capture(pre + "(" + c + [term] + post, Paren) == Some(c)
  {
    var s := pre + "(" + c + [term] + post;
    var p := |pre|;
    ParenLayout(pre, c, term, post);
    assert !GroupAt(s, p + 1 + |c|) by {
      if p + 2 + |c| < |s| { assert s[p + 2 + |c|] == post[0]; }
    }
    FormattedRunEnds(s, p + 1, c, h, p + 1 + h, p + 1 + |c|);
    ParenCapture(s, p, c, p + 1 + h, p + 1 + |c|);
  }

  /** No 원 or 만 anywhere in `pre + "(" + c + [term] + post` when `pre` and `post` have none. */
  lemma NoSignsInParen(pre: string, c: string, term: char, post: string)
    requires IsPriceText(c) && IsParenEnd(term)
    requires forall k :: 0 <= k < |pre| ==> pre[k] != '원' && pre[k] != '만'
    requires forall k :: 0 <= k < |post| ==> post[k] != '원' && post[k] != '만'
    ensures var s := pre + "(" + c + [term] + post;
      forall k :: 0 <= k < |s| ==> s[k] != '원' && s[k] != '만'
  {
    var s := pre + "(" + c + [term] + post;
    var p := |pre|;
    forall k | 0 <= k < |s| ensures s[k] != '원' && s[k] != '만' {
      if k < p { assert s[k] == pre[k]; }
      else if p < k <= p + |c| { assert s[k] == c[k - p - 1]; }
      else if k > p + |c| + 1 { assert s[k] == post[k - p - |c| - 2]; }
    }
  }

  /** A title quoting an amount in parentheses, `(35,750/`, `(35,750,` or `(35,750)`,
      yields that amount (round hundreds below 1000 read as thousands), provided the rest
      of the title has no digits and neither 원 nor 만. */
  lemma ParenRoundTrip(pre: string, n: nat, term: char, post: string)
    requires IsParenEnd(term) && NoDigits(pre) && NoDigits(post)
    requires forall k :: 0 <= k < |pre| ==> pre[k] != '원' && pre[k] != '만'
    requires forall k :: 0 <= k < |post| ==> post[k] != '원' && post[k] != '만'
    ensures ExtractPrice(pre + "(" + Commafy(n) + [term] + post) == QuotedWon(n)
  {
    var c := Commafy(n);
    var s := pre + "(" + c + [term] + post;
    var h := CommafySplit(n);
    PriceOfCommafied(n);
    NoSignsInParen(pre, c, term, post);
    NoWonWithoutWonSign(s);
    NoManwonWithoutMan(s);
    ParenMatch(pre, c, h, term, post);
    NoManwonMention(s);
  }

  /** A run of four or more digits written without separators before 원: no match can
      start inside the run until only three digits are left, so the capture is the
      run's last three digits. */
  lemma UncommaedRunCapture(pre: string, t: string, post: string)
    requires NoDigits(pre) && |t| >= 4 && AllDigits(t)
    ensures Capture(pre + t + "원" + post, Won) == Some(t[|t| - 3..])
  {
    var s := pre + t + "원" + post;
    var p, e := |pre| + |t| - 3, |pre| + |t|;
    assert forall k :: |pre| <= k < e ==> s[k] == t[k - |pre|];
    assert s[e] == '원';
    assert s[p..e] == t[|t| - 3..];
    DigitRunEndIs(s, p, e);
    SpaceRunEndIs(s, e, e);
    WonMatchAt(s, p, e, e, e);
    forall q: nat | q < p ensures MatchAt(s, Won, q).None? {
      if q < |pre| {
        assert s[q] == pre[q];
        NoMatchWithoutDigit(s, Won, q);
      } else {
        DigitRunEndIs(s, q, e);
      }
    }
    LeftmostCapture(s, Won, p);
  }

  /** A title without 만 is priced from its Won capture, when it has one. */
  lemma PriceOfWonCapture(s: string, c: string)
    requires Capture(s, Won) == Some(c)
    requires forall k :: 0 <= k < |s| ==> s[k] != '만'
    ensures IsPriceText(c)
    ensures ExtractPrice(s) == PriceOfText(c, false)
  {
    NoManwonMention(s);
  }

  /** No 만 anywhere in `pre + t + "원" + post` for a digit run `t` when `pre` and
      `post` have none. */
  lemma NoManInRun(pre: string, t: string, post: string)
    requires AllDigits(t)
    requires forall k :: 0 <= k < |pre| ==> pre[k] != '만'
    requires forall k :: 0 <= k < |post| ==> post[k] != '만'
    ensures var s := pre + t + "원" + post;
      forall k :: 0 <= k < |s| ==> s[k] != '만'
  {
    var s := pre + t + "원" + post;
    var p, e := |pre|, |pre| + |t|;
    forall k | 0 <= k < |s| ensures s[k] != '만' {
      if k < p { assert s[k] == pre[k]; }
      else if k < e { assert s[k] == t[k - p]; }
      else if k > e { assert s[k] == post[k - e - 1]; }
    }
  }

  /** The price of such a title `s` is read from the capture `c`, those three digits alone. */
  lemma UncommaedRunPrice(pre: string, t: string, post: string, s: string, c: string)
    requires NoDigits(pre) && |t| >= 4 && AllDigits(t)
    requires forall k :: 0 <= k < |pre| ==> pre[k] != '만'
    requires forall k :: 0 <= k < |post| ==> post[k] != '만'
    requires s == pre + t + "원" + post && c == t[|t| - 3..]
    ensures IsPriceText(c)
    ensures ExtractPrice(s) == PriceOfText(c, false)
  {
    UncommaedRunCapture(pre, t, post);
    NoManInRun(pre, t, post);
    PriceOfWonCapture(s, c);
  }

  /** A run of zeros reads as 0. */
  lemma {:induction false} ZerosValue(z: string)
    requires forall k :: 0 <= k < |z| ==> z[k] == '0'
    ensures AllDigits(z) && DigitsValue(z) == 0
  {
    if z != [] {
      ZerosValue(z[..|z| - 1]);
    }
  }

  /** The capture `750` is worth 750: it does not end in `00`. */
  lemma PriceOfSevenFifty()
    ensures IsPriceText("750") && PriceOfText("750", false) == 750
  {
    var c := "750";
    assert Without(c, {','}) == c;
    assert !EndsWith(c, "00") by {
      assert c[|c| - 2..] == "50";
    }
    assert DigitsValue("7") == 7 by {
      assert "7"[..0] == [];
    }
    assert DigitsValue("75") == 75 by {
      assert "75"[..1] == "7";
    }
    assert DigitsValue(c) == 750 by {
      assert c[..2] == "75";
    }
  }

  /** The capture `000` is a round hundred worth 0. */
  lemma PriceOfTripleZero()
    ensures IsPriceText("000") && PriceOfText("000", false) == 0
  {
    var c := "000";
    assert Without(c, {','}) == c;
    ZerosValue(c[..1] + "000");
  }

  /** `35750원`, without a separator, yields 750. */
  lemma UncommaedRunExample(pre: string, post: string)
    requires NoDigits(pre)
    requires forall k :: 0 <= k < |pre| ==> pre[k] != '만'
    requires forall k :: 0 <= k < |post| ==> post[k] != '만'
    ensures ExtractPrice(pre + "35750" + "원" + post) == 750
  {
    var t := "35750";
    assert "750" == t[|t| - 3..];
    UncommaedRunPrice(pre, t, post, pre + t + "원" + post, "750");
    PriceOfSevenFifty();
  }

  /** `10000원` yields `000`, which the round-hundreds rule reads as 0. */
  lemma UncommaedZerosExample(pre: string, post: string)
    requires NoDigits(pre)
    requires forall k :: 0 <= k < |pre| ==> pre[k] != '만'
    requires forall k :: 0 <= k < |post| ==> post[k] != '만'
    ensures ExtractPrice(pre + "10000" + "원" + post) == 0
  {
    var t := "10000";
    assert "000" == t[|t| - 3..];
    UncommaedRunPrice(pre, t, post, pre + t + "원" + post, "000");
    PriceOfTripleZero();
  }

  /** `35,750원` in a title is 35750. */
  lemma WonExample(title: string)
    requires title == "[쿠팡] 마우스 35,750원 무료배송"
    ensures ExtractPrice(title) == 35750
  {
    assert Commafy(35750) == "35,750" by {
      assert Pad3(750) == "750";
    }
    assert "[쿠팡] 마우스 " + Commafy(35750) + "" + "원" + " 무료배송" == title;
    WonRoundTrip("[쿠팡] 마우스 ", 35750, "", " 무료배송");
  }

  /** `9,000 원`, with a space before 원, is 9000. */
  lemma SpacedWonExample(title: string)
    requires title == "생수 9,000 원"
    ensures ExtractPrice(title) == 9000
  {
    assert Commafy(9000) == "9,000" by {
      assert Pad3(0) == "000";
    }
    assert "생수 " + Commafy(9000) + " " + "원" + "" == title;
    WonRoundTrip("생수 ", 9000, " ", "");
  }

  /** `24만원` is 240000. */
  lemma ManwonExample(title: string)
    requires title == "사과 24만원"
    ensures ExtractPrice(title) == 240000
  {
    assert NatToString(24) == "24";
    assert "사과 " + NatToString(24) + "만원" + "" == title;
    ManwonRoundTrip("사과 ", 24, "");
  }

  /** `(35,750/` is 35750. */
  lemma ParenExample(title: string)
    requires title == "라면 (35,750/무료)"
    ensures ExtractPrice(title) == 35750
  {
    assert Commafy(35750) == "35,750" by {
      assert Pad3(750) == "750";
    }
    assert "라면 " + "(" + Commafy(35750) + ['/'] + "무료)" == title;
    ParenRoundTrip("라면 ", 35750, '/', "무료)");
  }

  /** A three-digit round amount is read as thousands: `500원` is 5000. */
  lemma RoundHundredsExample(title: string)
    requires title == "커피 500원"
    ensures ExtractPrice(title) == 5000
  {
    assert Commafy(500) == "500";
    assert "커피 " + Commafy(500) + "" + "원" + "" == title;
    WonRoundTrip("커피 ", 500, "", "");
  }
}
