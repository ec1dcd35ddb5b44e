/**
  Extraction of a textual change summary from the host page: four selector
  groups are tried in order and the first whose accumulated text is non-empty
  is used; the result is trimmed, with a fixed explanatory string when nothing
  is left.
 */
module DiffExtraction {
  import opened JsText
  import opened HostPage

  const NoDiffFallback: string :=
    "No diff content available - please " + "ensure you are on a GitHub compare " + "page with visible changes."

  /** Code-block texts of this length or less are skipped as trivial. */
  const MinCodeBlockLength: nat := 10

  /** A code-block text counts when its JavaScript `length` (in UTF-16 code
      units) exceeds the threshold. */
  predicate IsCodeBlock(text: string) {
    Utf16Length(text) > MinCodeBlockLength
  }

  /** The texts joined in document order (the `forEach` with `+=` over a group). */
  function Concat(texts: seq<string>): string {
    if texts == [] then "" else Concat(texts[..|texts| - 1]) + texts[|texts| - 1]
  }

  /** The code-block strategy: each text longer than the threshold, followed by a newline. */
  function CodeBlocks(texts: seq<string>): string {
    if texts == [] then ""
    else
      var last := texts[|texts| - 1];
      CodeBlocks(texts[..|texts| - 1]) + (if IsCodeBlock(last) then last + "\n" else "")
  }

  /** The texts a strategy contributes, one per selector group, in the order they are tried. */
  function Strategies(p: Page): seq<string> {
    [Concat(p.diffTexts), Concat(p.commitTexts), CodeBlocks(p.codeTexts), Concat(p.headerTexts)]
  }

  /** The first non-empty text, or empty when there is none. */
  function FirstNonEmpty(xs: seq<string>): string {
    if xs == [] then "" else if xs[0] != "" then xs[0] else FirstNonEmpty(xs[1..])
  }

  /** The change summary: the first non-empty strategy's text, trimmed; the
      fallback string when that trims to nothing. */
  function DiffText(p: Page): (r: string)
    ensures r != ""
  {
    TrimOr(FirstNonEmpty(Strategies(p)), NoDiffFallback)
  }

  /** `text.trim() || fallback` */
  function TrimOr(text: string, fallback: string): string {
    var t := Trim(text);
    if t != "" then t else fallback
  }

  /** Appends each text to `acc`, as the source's `forEach` over one selector group does. */
  method AppendTexts(acc: string, texts: seq<string>) returns (r: string)
    ensures r == acc + Concat(texts)
  {
    r := acc;
    var i := 0;
    while i < |texts|
      invariant 0 <= i <= |texts|
      invariant r == acc + Concat(texts[..i])
    {
      assert texts[..i + 1][..i] == texts[..i];
      r := r + texts[i];
      i := i + 1;
    }
    assert texts[..|texts|] == texts;
  }

  /** Appends each code-block text longer than the threshold, followed by a newline. */
  method AppendCodeBlocks(acc: string, texts: seq<string>) returns (r: string)
    ensures r == acc + CodeBlocks(texts)
  {
    r := acc;
    var i := 0;
    while i < |texts|
      invariant 0 <= i <= |texts|
      invariant r == acc + CodeBlocks(texts[..i])
    {
      assert texts[..i + 1][..i] == texts[..i];
      var text := texts[i];
      if IsCodeBlock(text) {
        r := r + text + "\n";
      }
      i := i + 1;
    }
    assert texts[..|texts|] == texts;
  }

  /** The source's extraction procedure: each later group is consulted only
      while the accumulated text is still empty. It computes the change summary. */
  method ExtractDiffData(p: Page) returns (r: string)
    ensures r == DiffText(p)
    ensures r != ""
  {
    var content := "";
    if |p.diffTexts| > 0 {
      content := AppendTexts(content, p.diffTexts);
    }
    assert content == Strategies(p)[0];
    if content == "" {
      content := AppendTexts(content, p.commitTexts);
      assert content == Strategies(p)[1];
    }
    if content == "" {
      content := AppendCodeBlocks(content, p.codeTexts);
      assert content == Strategies(p)[2];
    }
    if content == "" {
      content := AppendTexts(content, p.headerTexts);
      assert content == Strategies(p)[3];
    }
    var trimmed := Trim(content);
    r := if trimmed != "" then trimmed else NoDiffFallback;
    assert content == FirstNonEmpty(Strategies(p)) by {
      FirstNonEmptyOfFour(Concat(p.diffTexts), Concat(p.commitTexts), CodeBlocks(p.codeTexts), Concat(p.headerTexts));
    }
  }

  // ---------------------------------------------------------------------------
  // The strategy chain

  lemma FirstNonEmptyOfFour(a: string, b: string, c: string, d: string)
    ensures FirstNonEmpty([a, b, c, d]) == if a != "" then a else if b != "" then b else if c != "" then c else d
  {
    assert [d][1..] == [];
    assert FirstNonEmpty([d]) == d;
    assert [c, d][1..] == [d];
    assert FirstNonEmpty([c, d]) == if c != "" then c else d;
    assert [b, c, d][1..] == [c, d];
    assert FirstNonEmpty([b, c, d]) == if b != "" then b else if c != "" then c else d;
    assert [a, b, c, d][1..] == [b, c, d];
  }

  lemma {:induction false} FirstNonEmptyAt(xs: seq<string>, k: nat)
    requires k < |xs| && xs[k] != ""
    requires forall j :: 0 <= j < k ==> xs[j] == ""
    ensures FirstNonEmpty(xs) == xs[k]
  {
    if k > 0 {
      FirstNonEmptyAt(xs[1..], k - 1);
    }
  }

  lemma {:induction false} FirstNonEmptyNone(xs: seq<string>)
    requires forall j :: 0 <= j < |xs| ==> xs[j] == ""
    ensures FirstNonEmpty(xs) == ""
  {
    if xs != [] {
      FirstNonEmptyNone(xs[1..]);
    }
  }

  lemma {:induction false} FirstNonEmptyPrefix(xs: seq<string>, ys: seq<string>, k: nat)
    requires k < |xs| && k < |ys| && xs[..k + 1] == ys[..k + 1] && xs[k] != ""
    ensures FirstNonEmpty(xs) == FirstNonEmpty(ys)
  {
    assert xs[0] == xs[..k + 1][0] && ys[0] == ys[..k + 1][0];
    if xs[0] == "" {
      assert xs[1..][..k] == xs[..k + 1][1..];
      assert ys[1..][..k] == ys[..k + 1][1..];
      FirstNonEmptyPrefix(xs[1..], ys[1..], k - 1);
    }
  }

  /** The strategy that wins is the first whose text is non-empty: when strategies
      0..k-1 yield nothing and strategy k yields something, the summary is
      strategy k's text trimmed (or the fallback when it is blank). */
  lemma FirstStrategyWins(p: Page, k: nat)
    requires k < 4 && Strategies(p)[k] != ""
    requires forall j :: 0 <= j < k ==> Strategies(p)[j] == ""
    ensures Trim(Strategies(p)[k]) != "" ==> DiffText(p) == Trim(Strategies(p)[k])
    ensures Trim(Strategies(p)[k]) == "" ==> DiffText(p) == NoDiffFallback
  {
    FirstNonEmptyAt(Strategies(p), k);
  }

  /** When no strategy yields anything, the summary is the fallback string. */
  lemma NoStrategyGivesFallback(p: Page)
    requires forall j :: 0 <= j < 4 ==> Strategies(p)[j] == ""
    ensures DiffText(p) == NoDiffFallback
  {
    FirstNonEmptyNone(Strategies(p));
  }

  /** Once strategy k yields non-empty text, later groups are not consulted: two
      pages that agree on strategies 0..k have the same summary, whatever their
      later groups hold. */
  lemma LaterStrategiesIgnored(p: Page, q: Page, k: nat)
    requires k < 4 && Strategies(p)[k] != ""
    requires Strategies(p)[..k + 1] == Strategies(q)[..k + 1]
    ensures DiffText(p) == DiffText(q)
  {
    FirstNonEmptyPrefix(Strategies(p), Strategies(q), k);
  }

  /** A strategy that yields only whitespace still stops the chain (the check is
      on the untrimmed text), so the summary is the fallback even when a later
      group has content. */
  lemma WhitespaceStrategyGivesFallback(p: Page, k: nat)
    requires k < 4 && Strategies(p)[k] != "" && AllWhitespace(Strategies(p)[k])
    requires forall j :: 0 <= j < k ==> Strategies(p)[j] == ""
    ensures DiffText(p) == NoDiffFallback
  {
    FirstNonEmptyAt(Strategies(p), k);
    TrimEmptyIff(Strategies(p)[k]);
  }

  /** The fallback string is its own trim. */
  lemma FallbackUnpadded()
    ensures Trim(NoDiffFallback) == NoDiffFallback
  {
    assert NoDiffFallback[0] == 'N' && NoDiffFallback[|NoDiffFallback| - 1] == '.';
    TrimOfUnpadded(NoDiffFallback);
  }

  /** Trimming, with an unpadded fallback for a blank result, gives an unpadded text. */
  lemma TrimOrUnpadded(text: string, fallback: string)
    requires Trim(fallback) == fallback
    ensures Trim(TrimOr(text, fallback)) == TrimOr(text, fallback)
  {
    TrimIdempotent(text);
  }

  /** The summary is never padded with whitespace. */
  lemma DiffTextIsTrimmed(p: Page)
    ensures Trim(DiffText(p)) == DiffText(p)
  {
    FallbackUnpadded();
    TrimOrUnpadded(FirstNonEmpty(Strategies(p)), NoDiffFallback);
  }

  /** No length cap is applied: for every bound there is a page whose summary exceeds it. */
  lemma DiffTextUnbounded(n: nat) returns (p: Page)
    ensures |DiffText(p)| > n
  {
    var text := seq(n + 1, _ => 'x');
    p := Page("", None, [text], [], [], []);
    assert Concat([text]) == text by {
      assert [text][..0] == [];
    }
    FirstNonEmptyAt(Strategies(p), 0);
    TrimOfUnpadded(text);
  }

  // ---------------------------------------------------------------------------
  // The accumulated text of one group

  lemma {:induction false} ConcatAppend(a: seq<string>, b: seq<string>)
    ensures Concat(a + b) == Concat(a) + Concat(b)
    decreases |b|
  {
    if b == [] {
      assert a + b == a;
    } else {
      var init, last := b[..|b| - 1], b[|b| - 1];
      var ab := a + b;
      assert ab[..|ab| - 1] == a + init;
      assert ab[|ab| - 1] == last;
      ConcatAppend(a, init);
      assert Concat(ab) == Concat(a) + Concat(init) + last;
    }
  }

  /** A group's accumulated text is empty exactly when every matched element's text is. */
  lemma {:induction false} ConcatEmptyIff(texts: seq<string>)
    ensures Concat(texts) == "" <==> forall i :: 0 <= i < |texts| ==> texts[i] == ""
  {
    if texts != [] {
      var init := texts[..|texts| - 1];
      ConcatEmptyIff(init);
      if Concat(texts) == "" {
        forall i | 0 <= i < |texts| ensures texts[i] == "" {
          if i < |init| { assert texts[i] == init[i]; }
        }
      } else {
        forall i | 0 <= i < |init| ensures init[i] == "" ==> texts[i] == "" { }
      }
    }
  }

  /** The texts longer than the threshold, in document order. */
  function LongTexts(texts: seq<string>): seq<string> {
    if texts == [] then []
    else
      var last := texts[|texts| - 1];
      LongTexts(texts[..|texts| - 1]) + (if IsCodeBlock(last) then [last] else [])
  }

  lemma {:induction false} LongTextsSpec(texts: seq<string>)
    ensures forall t :: t in LongTexts(texts) <==> t in texts && IsCodeBlock(t)
  {
    if texts != [] {
      var init := texts[..|texts| - 1];
      LongTextsSpec(init);
      assert texts == init + [texts[|texts| - 1]];
    }
  }

  function WithNewlines(texts: seq<string>): seq<string> {
    seq(|texts|, i requires 0 <= i < |texts| => texts[i] + "\n")
  }

  /** The code-block strategy is exactly the long texts, in document order, each
      followed by a newline; short texts contribute nothing. */
  lemma {:induction false} CodeBlocksFilter(texts: seq<string>)
    ensures CodeBlocks(texts) == Concat(WithNewlines(LongTexts(texts)))
    ensures forall t :: t in LongTexts(texts) <==> t in texts && IsCodeBlock(t)
  {
    LongTextsSpec(texts);
    if texts != [] {
      var init := texts[..|texts| - 1];
      var last := texts[|texts| - 1];
      CodeBlocksFilter(init);
      var tail := if IsCodeBlock(last) then [last] else [];
      WithNewlinesAppend(LongTexts(init), tail);
      ConcatAppend(WithNewlines(LongTexts(init)), WithNewlines(tail));
      ConcatTail(last);
    }
  }

  lemma WithNewlinesAppend(a: seq<string>, b: seq<string>)
    ensures WithNewlines(a + b) == WithNewlines(a) + WithNewlines(b)
  {
    assert forall i :: 0 <= i < |a| + |b| ==> WithNewlines(a + b)[i] == (WithNewlines(a) + WithNewlines(b))[i];
  }

  /** The code-block contribution of one text. */
  lemma ConcatTail(last: string)
    ensures Concat(WithNewlines(if IsCodeBlock(last) then [last] else []))
            == if IsCodeBlock(last) then last + "\n" else ""
  {
    if IsCodeBlock(last) {
      assert WithNewlines([last]) == [last + "\n"];
      assert WithNewlines([last])[..0] == [];
    } else {
      assert WithNewlines([]) == [];
    }
  }

  /** The threshold is on UTF-16 code units: six characters from outside the
      Basic Multilingual Plane make a length of 12, so such a block is kept. */
  lemma AstralCodeBlockKept()
    ensures var t := seq(6, _ => '\U{1F389}'); |t| == 6 && CodeBlocks([t]) == t + "\n"
  {
    var t: string := seq(6, _ => '\U{1F389}');
    var ts: seq<string> := [t];
    Utf16LengthAstral(t);
    assert ts[..0] == [];
  }

  /** The code-block strategy yields nothing exactly when no code block is longer than the threshold. */
  lemma {:induction false} CodeBlocksEmptyIff(texts: seq<string>)
    ensures CodeBlocks(texts) == "" <==> forall i :: 0 <= i < |texts| ==> !IsCodeBlock(texts[i])
  {
    if texts != [] {
      var init := texts[..|texts| - 1];
      CodeBlocksEmptyIff(init);
      if CodeBlocks(texts) == "" {
        forall i | 0 <= i < |texts| ensures !IsCodeBlock(texts[i]) {
          if i < |init| { assert texts[i] == init[i]; }
        }
      } else {
        forall i | 0 <= i < |init| ensures !IsCodeBlock(init[i]) ==> !IsCodeBlock(texts[i]) { }
      }
    }
  }
}
