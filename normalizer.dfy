/**
 * The text normaliser shared by the crawlers: title cleanup (`_cleanTitle`), the
 * three-pattern price extraction and the free-shipping keyword test of
 * `Ppomppu.getProductDetail`.
 *
 * The regular expressions of the source are unanchored and leftmost-first; each is
 * modelled as the deterministic scan that its backtracking amounts to.
 */
module TextNormalizer {
  import opened Wrappers
  import opened Strings

  // ---------------------------------------------------------------------------
  // Title cleanup: title.replace(/\)\s*\d{1,2}\s*$/, ')').trim()

  /** What may follow the `)` for the cleanup pattern to match: optional white space,
      one or two digits, optional white space, then the end of the string. */
  predicate IsArtifactTail(t: string) {
    var a := SpaceRunEnd(t, 0);
    var b := DigitRunEnd(t, a);
    1 <= b - a <= 2 && SpaceRunEnd(t, b) == |t|
  }

  /** The cleanup pattern matches `s` starting at the `)` at index `j`. */
  predicate ArtifactAt(s: string, j: nat) {
    j < |s| && s[j] == ')' && IsArtifactTail(s[j + 1..])
  }

  /** An artifact tail is made of white space and digits only. */
  lemma ArtifactTailHasNoParen(t: string)
    requires IsArtifactTail(t)
    ensures forall k :: 0 <= k < |t| ==> t[k] != ')'
  {
    var a := SpaceRunEnd(t, 0);
    var b := DigitRunEnd(t, a);
    forall k | 0 <= k < |t| ensures t[k] != ')' {
      if k < a { assert IsSpace(t[k]); }
      else if k < b { assert IsDigit(t[k]); }
      else { assert IsSpace(t[k]); }
    }
  }

  /** Only the last `)` of a string can start a match of the cleanup pattern. */
  lemma ArtifactIsAtLastParen(s: string, j: nat)
    requires ArtifactAt(s, j)
    ensures LastIndexOf(s, ')') == Some(j)
  {
    ArtifactTailHasNoParen(s[j + 1..]);
    assert forall k :: j < k < |s| ==> s[k] == s[j + 1..][k - j - 1];
  }

  /** Every match of the cleanup pattern starts at the last `)`. */
  lemma ArtifactsAtLastParen(s: string)
    ensures forall j: nat :: ArtifactAt(s, j) ==> LastIndexOf(s, ')') == Some(j)
  {
    forall j: nat | ArtifactAt(s, j) ensures LastIndexOf(s, ')') == Some(j) {
      ArtifactIsAtLastParen(s, j);
    }
  }

  /** The `replace` step of `_cleanTitle`: a match is replaced by the `)` it starts with. */
  function StripArtifact(s: string): (r: string)
    ensures forall j: nat :: ArtifactAt(s, j) ==> r == s[..j + 1]
    ensures (forall j: nat :: !ArtifactAt(s, j)) ==> r == s
  {
    ArtifactsAtLastParen(s);
    var last := LastIndexOf(s, ')');
    if last.Some? && ArtifactAt(s, last.value) then s[..last.value + 1] else s
  }

  /** `_cleanTitle`: drops a trailing `)` + 1-2 digits artifact (keeping the `)`) and trims. */
  function CleanTitle(s: string): (r: string)
    ensures IsTrimmed(r)
    ensures forall j: nat :: ArtifactAt(s, j) ==> r == Trim(s[..j + 1])
    ensures (forall j: nat :: !ArtifactAt(s, j)) ==> r == Trim(s)
  {
    Trim(StripArtifact(s))
  }

  /** White space after an artifact tail is still part of the tail. */
  lemma ArtifactTailPadded(t: string, pad: string)
    requires IsArtifactTail(t) && AllSpace(pad)
    ensures IsArtifactTail(t + pad)
  {
    var u := t + pad;
    var a := SpaceRunEnd(t, 0);
    var b := DigitRunEnd(t, a);
    assert forall k :: 0 <= k < |t| ==> u[k] == t[k];
    assert forall k :: |t| <= k < |u| ==> u[k] == pad[k - |t|];
    SpaceRunEndIs(u, 0, a);
    assert b == |t| ==> b == |u| || !IsDigit(u[b]);
    DigitRunEndIs(u, a, b);
    SpaceRunEndIs(u, b, |u|);
  }

  /** A string that ends in `)` keeps that `)` when trimmed. */
  lemma TrimKeepsFinalParen(x: string)
    requires x != [] && x[|x| - 1] == ')'
    ensures Trim(x) != [] && Trim(x)[|Trim(x)| - 1] == ')'
  {
    assert SpaceRunStart(x, |x|) == |x|;
  }

  /** A trimmed title that ends in `)` carries no artifact. */
  lemma NoArtifactAfterFinalParen(r: string)
    requires r != [] && r[|r| - 1] == ')'
    ensures forall j: nat :: !ArtifactAt(r, j)
  {
    forall j: nat | ArtifactAt(r, j) ensures false {
      ArtifactIsAtLastParen(r, j);
    }
  }

  /** A title with no artifact has none after trimming either. */
  lemma NoArtifactInTrim(s: string)
    requires forall j: nat :: !ArtifactAt(s, j)
    ensures forall j: nat :: !ArtifactAt(Trim(s), j)
  {
    var r := Trim(s);
    var off := TrimSplit(s);
    forall j: nat | ArtifactAt(r, j) ensures false {
      var pad := s[off + |r|..];
      assert AllSpace(pad) by {
        forall k | 0 <= k < |pad| ensures IsSpace(pad[k]) { assert pad[k] == s[off + |r| + k]; }
      }
      assert s[off + j] == r[j];
      assert s[off + j + 1..] == r[j + 1..] + pad;
      ArtifactTailPadded(r[j + 1..], pad);
      assert ArtifactAt(s, off + j);
    }
  }

  /** A trimmed title without an artifact is its own cleanup. */
  lemma CleanTitleOfClean(r: string)
    requires IsTrimmed(r)
    requires forall j: nat :: !ArtifactAt(r, j)
    ensures CleanTitle(r) == r
  {
    assert StripArtifact(r) == r;
    TrimOfPadded([], r, []);
    assert [] + r + [] == r;
  }

  /** A title that ends in `)` carries no artifact once trimmed. */
  lemma NoArtifactAfterCut(x: string)
    requires x != [] && x[|x| - 1] == ')'
    ensures forall i: nat :: !ArtifactAt(Trim(x), i)
  {
    TrimKeepsFinalParen(x);
    NoArtifactAfterFinalParen(Trim(x));
  }

  /** A cleaned title carries no artifact. */
  lemma CleanTitleHasNoArtifact(s: string)
    ensures forall j: nat :: !ArtifactAt(CleanTitle(s), j)
  {
    if j: nat :| ArtifactAt(s, j) {
      var x := s[..j + 1];
      assert CleanTitle(s) == Trim(x);
      NoArtifactAfterCut(x);
    } else {
      assert CleanTitle(s) == Trim(s);
      NoArtifactInTrim(s);
    }
  }

  /** Cleaning a title a second time changes nothing. */
  lemma CleanTitleIdempotent(s: string)
    ensures CleanTitle(CleanTitle(s)) == CleanTitle(s)
  {
    CleanTitleHasNoArtifact(s);
    CleanTitleOfClean(CleanTitle(s));
  }

  /** The artifact of a title with a trailing ` 12` is removed, the `)` is kept. */
  lemma CleanTitleExample()
    ensures CleanTitle("[SellerX] Great Deal) 12") == "[SellerX] Great Deal)"
  {
    var s := "[SellerX] Great Deal) 12";
    assert s[21..] == " 12";
    assert ArtifactAt(s, 20);
    var x := s[..21];
    assert x == "[SellerX] Great Deal)";
    TrimOfPadded("", x, "");
    assert "" + x + "" == x;
  }

  // ---------------------------------------------------------------------------
  // Free-shipping inference

  /** `freeShipping`: 'Y' when the title names free or promotional shipping. */
  function FreeShipping(title: string): (flag: string)
    ensures flag == "Y" || flag == "N"
    ensures flag == "Y" <==>
      exists i: nat :: OccursAt(title, "무료", i) || OccursAt(title, "무배", i) || OccursAt(title, "와우", i)
  {
    if Contains(title, "무료") || Contains(title, "무배") || Contains(title, "와우") then "Y" else "N"
  }
}
