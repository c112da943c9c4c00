/**
 * `parseDisk`: the instance-storage description of a pricing feed
 * ("ebsonly", "2 x 40 SSD", "10 GB", ...) read into a disk record. The two
 * regular expressions of the source are modelled as scanners built from
 * greedy runs (`Span`); each scanner returns the whole decomposition of its
 * input, and the lemmas below show that it finds one exactly when the
 * regular expression matches and that its captures are the greedy ones.
 */
module DiskSpec {
  import opened Wrappers
  import opened Text

  /** The disk record; a field the parser did not set is `None`. */
  datatype Disk = Disk(ebsOnly: Option<bool>, disks: Option<nat>, size: Option<nat>, ssd: Option<bool>)

  const EbsOnlyDisk := Disk(Some(true), Some(0), Some(0), Some(false))
  const EmptyDisk := Disk(None, None, None, None)

  /** A decomposition of a text as `/^\s*(\d+)\s*x\s*(\d+)\s*(\w+)?\s*$/` reads it. */
  datatype TimesMatch = TimesMatch(
    lead: string, count: string, gap1: string, gap2: string,
    size: string, gap3: string, tag: string, trail: string)

  predicate TimesShape(m: TimesMatch)
  {
    && AllSpace(m.lead) && m.count != [] && AllDigits(m.count) && AllSpace(m.gap1)
    && AllSpace(m.gap2) && m.size != [] && AllDigits(m.size) && AllSpace(m.gap3)
    && AllWord(m.tag) && AllSpace(m.trail)
  }

  function TimesText(m: TimesMatch): string
  {
    m.lead + m.count + m.gap1 + "x" + m.gap2 + m.size + m.gap3 + m.tag + m.trail
  }

  /** A decomposition of a text as `/^\s*(\d+)\s*(\w+)\s*$/` reads it. */
  datatype LabelMatch = LabelMatch(lead: string, size: string, gap: string, tag: string, trail: string)

  predicate LabelShape(m: LabelMatch)
  {
    && AllSpace(m.lead) && m.size != [] && AllDigits(m.size) && AllSpace(m.gap)
    && m.tag != [] && AllWord(m.tag) && AllSpace(m.trail)
  }

  function LabelText(m: LabelMatch): string
  {
    m.lead + m.size + m.gap + m.tag + m.trail
  }

  /** Every character of `s[i..j]` satisfies `p`. */
  predicate Run(s: string, i: nat, j: nat, p: char -> bool)
    requires i <= j <= |s|
  {
    forall k :: i <= k < j ==> p(s[k])
  }

  lemma SpaceSlice(s: string, i: nat, j: nat)
    requires i <= j <= |s| && Run(s, i, j, IsSpace)
    ensures AllSpace(s[i..j])
  {
  }

  lemma DigitSlice(s: string, i: nat, j: nat)
    requires i <= j <= |s| && Run(s, i, j, IsDigit)
    ensures AllDigits(s[i..j])
  {
  }

  lemma WordSlice(s: string, i: nat, j: nat)
    requires i <= j <= |s| && Run(s, i, j, IsWordChar)
    ensures AllWord(s[i..j])
  {
  }

  /** Two adjacent slices glue into one. */
  lemma Glue(s: string, i: nat, j: nat)
    requires i <= j <= |s|
    ensures s[..i] + s[i..j] == s[..j]
  {
  }

  /**
   * Where the `N x M [label]` scanner cuts a text: after the leading blanks
   * (`a`), the count (`n`), the blanks before `x` (`b`, the position of the
   * `x`), the blanks after it (`c`), the size (`m`), the blanks before the
   * label (`d`) and the label (`l`).
   */
  datatype TimesAt = TimesAt(a: nat, n: nat, b: nat, c: nat, m: nat, d: nat, l: nat)

  /** Read at the cuts `k`, the text `s` has the layout of the `N x M [label]` grammar. */
  predicate TimesLayout(s: string, k: TimesAt)
  {
    && k.a < k.n <= k.b < |s| && s[k.b] == 'x' && k.b + 1 <= k.c < k.m <= k.d <= k.l <= |s|
    && Run(s, 0, k.a, IsSpace) && Run(s, k.a, k.n, IsDigit) && Run(s, k.n, k.b, IsSpace)
    && Run(s, k.b + 1, k.c, IsSpace) && Run(s, k.c, k.m, IsDigit) && Run(s, k.m, k.d, IsSpace)
    && Run(s, k.d, k.l, IsWordChar) && Run(s, k.l, |s|, IsSpace)
  }

  /** The pieces of `s` between the cuts `k`. */
  function CutTimes(s: string, k: TimesAt): TimesMatch
    requires TimesLayout(s, k)
  {
    TimesMatch(s[..k.a], s[k.a..k.n], s[k.n..k.b], s[k.b + 1..k.c], s[k.c..k.m], s[k.m..k.d], s[k.d..k.l], s[k.l..])
  }

  /** The cuts of a layout given as pieces. */
  function TimesCutsOf(m: TimesMatch): TimesAt
  {
    var a := |m.lead|;
    var n := a + |m.count|;
    var b := n + |m.gap1|;
    var c := b + 1 + |m.gap2|;
    var mm := c + |m.size|;
    var d := mm + |m.gap3|;
    TimesAt(a, n, b, c, mm, d, d + |m.tag|)
  }

  /**
   * `/^\s*(\d+)\s*x\s*(\d+)\s*(\w+)?\s*$/` as a scanner: each group is the
   * greedy run of its character class that starts where the previous one
   * stopped; the whole text must be used up.
   */
  function ScanTimes(s: string): (r: Option<TimesAt>)
    ensures r.Some? ==> TimesLayout(s, r.value)
  {
    var a := Span(s, 0, IsSpace);
    var n := Span(s, a, IsDigit);
    var b := Span(s, n, IsSpace);
    if n == a || b == |s| || s[b] != 'x' then None
    else ScanFactor(s, a, n, b)
  }

  /** The part of `ScanTimes` after the `x` at `b`: the size, its label and the trailing blanks. */
  function ScanFactor(s: string, a: nat, n: nat, b: nat): (r: Option<TimesAt>)
    requires a < n <= b < |s| && s[b] == 'x'
    requires Run(s, 0, a, IsSpace) && Run(s, a, n, IsDigit) && Run(s, n, b, IsSpace)
    ensures r.Some? ==> r.value.a == a && r.value.n == n && r.value.b == b && TimesLayout(s, r.value)
  {
    var c := Span(s, b + 1, IsSpace);
    var m := Span(s, c, IsDigit);
    var d := Span(s, m, IsSpace);
    var l := Span(s, d, IsWordChar);
    if m == c || Span(s, l, IsSpace) != |s| then None
    else Some(TimesAt(a, n, b, c, m, d, l))
  }

  /** The captures of the `N x M [label]` grammar, if it matches. */
  function MatchTimes(s: string): Option<TimesMatch>
  {
    match ScanTimes(s)
    case None => None
    case Some(k) => Some(CutTimes(s, k))
  }

  /** Each slice between the cuts of a layout is a run of its class. */
  lemma TimesSlicesShaped(s: string, k: TimesAt)
    requires TimesLayout(s, k)
    ensures TimesShape(CutTimes(s, k))
  {
    SpaceSlice(s, 0, k.a); DigitSlice(s, k.a, k.n); SpaceSlice(s, k.n, k.b); SpaceSlice(s, k.b + 1, k.c);
    DigitSlice(s, k.c, k.m); SpaceSlice(s, k.m, k.d); WordSlice(s, k.d, k.l); SpaceSlice(s, k.l, |s|);
  }

  /** Slices between ordered cuts, with the `x` at `b`, spell the text. */
  lemma GlueCuts(s: string, a: nat, n: nat, b: nat, c: nat, m: nat, d: nat, l: nat)
    requires a <= n <= b < |s| && s[b] == 'x' && b + 1 <= c <= m <= d <= l <= |s|
    ensures s[..a] + s[a..n] + s[n..b] + "x" + s[b + 1..c] + s[c..m] + s[m..d] + s[d..l] + s[l..] == s
  {
    assert s[b..b + 1] == "x";
    calc {
      s[..a] + s[a..n] + s[n..b] + "x" + s[b + 1..c] + s[c..m] + s[m..d] + s[d..l] + s[l..];
      { Glue(s, a, n); Glue(s, n, b); }
      s[..b] + s[b..b + 1] + s[b + 1..c] + s[c..m] + s[m..d] + s[d..l] + s[l..];
      { Glue(s, b, b + 1); Glue(s, b + 1, c); Glue(s, c, m); }
      s[..m] + s[m..d] + s[d..l] + s[l..];
      { Glue(s, m, d); Glue(s, d, l); Glue(s, l, |s|); }
      s;
    }
  }

  /** The slices between the cuts and the `x` spell the text. */
  lemma TimesGlue(s: string, k: TimesAt)
    requires TimesLayout(s, k)
    ensures TimesText(CutTimes(s, k)) == s
  {
    GlueCuts(s, k.a, k.n, k.b, k.c, k.m, k.d, k.l);
  }

  /** Cutting a text where it has the layout gives pieces of the right classes that spell the text. */
  lemma TimesPieces(s: string, k: TimesAt)
    requires TimesLayout(s, k)
    ensures TimesShape(CutTimes(s, k)) && TimesText(CutTimes(s, k)) == s
  {
    TimesSlicesShaped(s, k);
    TimesGlue(s, k);
  }

  /** Whatever the `N x M [label]` grammar captures is a layout of its input. */
  lemma MatchTimesSound(s: string)
    ensures MatchTimes(s).Some? ==> TimesShape(MatchTimes(s).value) && TimesText(MatchTimes(s).value) == s
  {
    if ScanTimes(s).Some? {
      TimesPieces(s, ScanTimes(s).value);
    }
  }

  /** Where the `N label` scanner cuts a text: after the leading blanks (`a`), the size (`n`), the gap (`b`) and the label (`l`). */
  datatype LabelAt = LabelAt(a: nat, n: nat, b: nat, l: nat)

  /** Read at the cuts `k`, the text `s` has the layout of the `N label` grammar. */
  predicate LabelLayout(s: string, k: LabelAt)
  {
    && k.a < k.n <= k.b < k.l <= |s|
    && Run(s, 0, k.a, IsSpace) && Run(s, k.a, k.n, IsDigit) && Run(s, k.n, k.b, IsSpace)
    && Run(s, k.b, k.l, IsWordChar) && Run(s, k.l, |s|, IsSpace)
  }

  function CutLabel(s: string, k: LabelAt): LabelMatch
    requires LabelLayout(s, k)
  {
    LabelMatch(s[..k.a], s[k.a..k.n], s[k.n..k.b], s[k.b..k.l], s[k.l..])
  }

  function LabelCutsOf(m: LabelMatch): LabelAt
  {
    var a := |m.lead|;
    var n := a + |m.size|;
    var b := n + |m.gap|;
    LabelAt(a, n, b, b + |m.tag|)
  }

  /**
   * `/^\s*(\d+)\s*(\w+)\s*$/` as a scanner. When the text after the digits
   * is blank, the regular expression backtracks: the digit group gives up
   * its last digit and that digit becomes the label.
   */
  function ScanLabel(s: string): (r: Option<LabelAt>)
    ensures r.Some? ==> LabelLayout(s, r.value)
  {
    var a := Span(s, 0, IsSpace);
    var n := Span(s, a, IsDigit);
    if n == a then None
    else
      var b := Span(s, n, IsSpace);
      var l := Span(s, b, IsWordChar);
      if l > b && Span(s, l, IsSpace) == |s| then
        Some(LabelAt(a, n, b, l))
      else if b == |s| && n - a >= 2 then
        assert Run(s, n - 1, n, IsWordChar);
        Some(LabelAt(a, n - 1, n - 1, n))
      else
        None
  }

  /** The captures of the `N label` grammar, if it matches. */
  function MatchSizeLabel(s: string): Option<LabelMatch>
  {
    match ScanLabel(s)
    case None => None
    case Some(k) => Some(CutLabel(s, k))
  }

  lemma LabelPieces(s: string, k: LabelAt)
    requires LabelLayout(s, k)
    ensures LabelShape(CutLabel(s, k)) && LabelText(CutLabel(s, k)) == s
  {
    SpaceSlice(s, 0, k.a); DigitSlice(s, k.a, k.n); SpaceSlice(s, k.n, k.b); WordSlice(s, k.b, k.l); SpaceSlice(s, k.l, |s|);
    Glue(s, k.a, k.n); Glue(s, k.n, k.b); Glue(s, k.b, k.l); Glue(s, k.l, |s|);
  }

  /** Whatever the `N label` grammar captures is a layout of its input. */
  lemma MatchSizeLabelSound(s: string)
    ensures MatchSizeLabel(s).Some? ==> LabelShape(MatchSizeLabel(s).value) && LabelText(MatchSizeLabel(s).value) == s
  {
    if ScanLabel(s).Some? {
      LabelPieces(s, ScanLabel(s).value);
    }
  }

  lemma LabelRuns(m: LabelMatch)
    requires LabelShape(m)
    ensures LabelLayout(LabelText(m), LabelCutsOf(m))
    ensures CutLabel(LabelText(m), LabelCutsOf(m)) == m
  {
    var s := LabelText(m);
    var k := LabelCutsOf(m);
    assert s[..k.a] == m.lead && s[k.a..k.n] == m.size && s[k.n..k.b] == m.gap;
    assert s[k.b..k.l] == m.tag && s[k.l..] == m.trail;
    RunOf(s, 0, k.a, m.lead, IsSpace);
    RunOf(s, k.a, k.n, m.size, IsDigit);
    RunOf(s, k.n, k.b, m.gap, IsSpace);
    RunOf(s, k.b, k.l, m.tag, IsWordChar);
    RunOf(s, k.l, |s|, m.trail, IsSpace);
  }

  /** The label starts with a non-digit, or blanks part it from the size: then the size run ends where the layout says. */
  predicate LabelParted(s: string, k: LabelAt)
    requires LabelLayout(s, k)
  {
    k.n < k.b || !IsDigit(s[k.b])
  }

  /** On a layout whose label is parted from the size, the scanner finds the size and the start of the label where the layout has them. */
  lemma ScanLabelHead(s: string, k: LabelAt)
    requires LabelLayout(s, k) && LabelParted(s, k)
    ensures Span(s, 0, IsSpace) == k.a && Span(s, k.a, IsDigit) == k.n && Span(s, k.n, IsSpace) == k.b
  {
    assert IsDigit(s[k.a]);
    SpanIs(s, 0, k.a, IsSpace);
    assert k.n < k.b ==> IsSpace(s[k.n]);
    SpanIs(s, k.a, k.n, IsDigit);
    assert IsWordChar(s[k.b]);
    SpanIs(s, k.n, k.b, IsSpace);
  }

  /**
   * `/^\s*(\d+)\s*(\w+)\s*$/` matches every text that has the layout, with a
   * size at least as long (its digit group is greedy); when the label is
   * parted from the size, the captures are exactly the layout's.
   */
  lemma ScanLabelComplete(s: string, k: LabelAt)
    requires LabelLayout(s, k)
    ensures var r := ScanLabel(s);
      && r.Some? && r.value.a == k.a && k.n <= r.value.n
      && (LabelParted(s, k) ==> r.value == k)
  {
    if LabelParted(s, k) {
      ScanLabelParted(s, k);
    } else {
      ScanLabelJoined(s, k);
    }
  }

  lemma ScanLabelParted(s: string, k: LabelAt)
    requires LabelLayout(s, k) && LabelParted(s, k)
    ensures ScanLabel(s) == Some(k)
  {
    assert k.l < |s| ==> IsSpace(s[k.l]);
    ScanLabelHead(s, k);
    SpanIs(s, k.b, k.l, IsWordChar);
    SpanIs(s, k.l, |s|, IsSpace);
  }

  /** A label that begins with a digit right after the size: the greedy digit run swallows it, at least up to the layout's size. */
  lemma ScanLabelJoined(s: string, k: LabelAt)
    requires LabelLayout(s, k) && !LabelParted(s, k)
    ensures var r := ScanLabel(s);
      r.Some? && r.value.a == k.a && k.n <= r.value.n
  {
    assert IsDigit(s[k.a]);
    SpanIs(s, 0, k.a, IsSpace);
    var n := Span(s, k.a, IsDigit);
    if n < k.l {
      assert k.l < |s| ==> IsSpace(s[k.l]);
      assert IsWordChar(s[n]);
      SpanIs(s, n, n, IsSpace);
      SpanIs(s, n, k.l, IsWordChar);
      SpanIs(s, k.l, |s|, IsSpace);
    } else {
      SpanIs(s, n, |s|, IsSpace);
      SpanIs(s, |s|, |s|, IsWordChar);
    }
  }

  lemma MatchSizeLabelComplete(m: LabelMatch)
    requires LabelShape(m)
    ensures var r := MatchSizeLabel(LabelText(m));
      && r.Some? && |r.value.size| >= |m.size|
      && (m.gap != [] || !IsDigit(m.tag[0]) ==> r.value == m)
  {
    var s := LabelText(m);
    var k := LabelCutsOf(m);
    LabelRuns(m);
    ScanLabelComplete(s, k);
    assert k.n == k.b ==> s[k.b] == m.tag[0];
  }

  /** `parseDisk`: the three grammars in order; text none of them reads gives an empty record. */
  function ParseDisk(s: string): (d: Disk)
    ensures d.ebsOnly.Some? <==> s == "ebsonly"
    ensures s == "ebsonly" ==> d == Disk(Some(true), Some(0), Some(0), Some(false))
    ensures d == EmptyDisk || (d.disks.Some? && d.size.Some? && d.ssd.Some?)
  {
    if s == "ebsonly" then
      EbsOnlyDisk
    else
      match MatchTimes(s)
      case Some(m) => Disk(None, Some(DigitsValue(m.count)), Some(DigitsValue(m.size)), Some(m.tag == "SSD"))
      case None =>
        match MatchSizeLabel(s)
        case Some(m) => Disk(None, Some(1), Some(DigitsValue(m.size)), Some(m.tag == "SSD"))
        case None => EmptyDisk
  }

  /** Where each piece of a `N x M [label]` layout sits in its text. */
  lemma TimesSlices(m: TimesMatch)
    ensures var s := TimesText(m);
      var p1 := |m.lead|;
      var p2 := p1 + |m.count|;
      var p3 := p2 + |m.gap1|;
      var p4 := p3 + 1;
      var p5 := p4 + |m.gap2|;
      var p6 := p5 + |m.size|;
      var p7 := p6 + |m.gap3|;
      var p8 := p7 + |m.tag|;
      && |s| == p8 + |m.trail|
      && s[..p1] == m.lead && s[p1..p2] == m.count && s[p2..p3] == m.gap1 && s[p3] == 'x'
      && s[p4..p5] == m.gap2 && s[p5..p6] == m.size && s[p6..p7] == m.gap3
      && s[p7..p8] == m.tag && s[p8..] == m.trail
  {
    var s := TimesText(m);
    var a1 := m.lead;
    var a2 := a1 + m.count;
    var a3 := a2 + m.gap1;
    var a4 := a3 + "x";
    var a5 := a4 + m.gap2;
    var a6 := a5 + m.size;
    var a7 := a6 + m.gap3;
    var a8 := a7 + m.tag;
    assert s[..|s|] == a8 + m.trail;
    Piece(s, a8, m.trail);
    Piece(s, a7, m.tag);
    Piece(s, a6, m.gap3);
    Piece(s, a5, m.size);
    Piece(s, a4, m.gap2);
    Piece(s, a3, "x");
    Piece(s, a2, m.gap1);
    Piece(s, a1, m.count);
  }

  /** A prefix of `s` that is `a + b` splits into `a` and `b`. */
  lemma Piece(s: string, a: string, b: string)
    requires |a| + |b| <= |s| && s[..|a| + |b|] == a + b
    ensures s[..|a|] == a && s[|a|..|a| + |b|] == b
  {
    assert s[..|a|] == (a + b)[..|a|];
    assert s[|a|..|a| + |b|] == (a + b)[|a|..];
  }

  /** The size group ends where the layout says: a blank, a non-digit label or the end follows it. */
  predicate SizeEnds(m: TimesMatch)
  {
    m.gap3 != [] || m.tag == [] || !IsDigit(m.tag[0])
  }

  lemma RunOf(s: string, i: nat, j: nat, piece: string, p: char -> bool)
    requires i <= j <= |s| && s[i..j] == piece
    requires forall k :: 0 <= k < |piece| ==> p(piece[k])
    ensures Run(s, i, j, p)
  {
    assert forall k :: i <= k < j ==> s[k] == piece[k - i];
  }

  /** Blanks, then at most one word, then blanks to the end: the tail both regular expressions accept. */
  lemma BlankWordBlank(s: string, q: nat, w: nat, e: nat)
    requires q <= w <= e <= |s|
    requires Run(s, q, w, IsSpace) && Run(s, w, e, IsWordChar) && Run(s, e, |s|, IsSpace)
    ensures var d := Span(s, q, IsSpace);
      var l := Span(s, d, IsWordChar);
      && Span(s, l, IsSpace) == |s| && s[d..l] == s[w..e]
      && (w < e ==> d == w && l == e)
  {
    if w < e {
      assert IsWordChar(s[w]);
      SpanIs(s, q, w, IsSpace);
      assert e < |s| ==> IsSpace(s[e]);
      SpanIs(s, w, e, IsWordChar);
      SpanIs(s, e, |s|, IsSpace);
    } else {
      SpanIs(s, q, |s|, IsSpace);
      SpanIs(s, |s|, |s|, IsWordChar);
      SpanIs(s, |s|, |s|, IsSpace);
    }
  }

  /** Spelling out a layout and cutting it where its pieces meet gives the layout back. */
  lemma TimesRuns(m: TimesMatch)
    requires TimesShape(m)
    ensures TimesLayout(TimesText(m), TimesCutsOf(m))
    ensures CutTimes(TimesText(m), TimesCutsOf(m)) == m
  {
    TimesHeadRuns(m);
    TimesTailRuns(m);
    TimesCutBack(m);
  }

  lemma TimesCutBack(m: TimesMatch)
    requires TimesLayout(TimesText(m), TimesCutsOf(m))
    ensures CutTimes(TimesText(m), TimesCutsOf(m)) == m
  {
    TimesSlices(m);
  }

  lemma TimesHeadRuns(m: TimesMatch)
    requires TimesShape(m)
    ensures var s := TimesText(m);
      var k := TimesCutsOf(m);
      && k.b < |s| && s[k.b] == 'x'
      && Run(s, 0, k.a, IsSpace) && Run(s, k.a, k.n, IsDigit) && Run(s, k.n, k.b, IsSpace)
  {
    var s := TimesText(m);
    var k := TimesCutsOf(m);
    TimesSlices(m);
    RunOf(s, 0, k.a, m.lead, IsSpace);
    RunOf(s, k.a, k.n, m.count, IsDigit);
    RunOf(s, k.n, k.b, m.gap1, IsSpace);
  }

  lemma TimesTailRuns(m: TimesMatch)
    requires TimesShape(m)
    ensures var s := TimesText(m);
      var k := TimesCutsOf(m);
      && k.l <= |s|
      && Run(s, k.b + 1, k.c, IsSpace) && Run(s, k.c, k.m, IsDigit) && Run(s, k.m, k.d, IsSpace)
      && Run(s, k.d, k.l, IsWordChar) && Run(s, k.l, |s|, IsSpace)
  {
    var s := TimesText(m);
    var k := TimesCutsOf(m);
    TimesSlices(m);
    RunOf(s, k.b + 1, k.c, m.gap2, IsSpace);
    RunOf(s, k.c, k.m, m.size, IsDigit);
    RunOf(s, k.m, k.d, m.gap3, IsSpace);
    RunOf(s, k.d, k.l, m.tag, IsWordChar);
    RunOf(s, k.l, |s|, m.trail, IsSpace);
  }

  /** On a layout, the scanner finds the count and the `x` where the layout has them. */
  lemma ScanTimesHead(s: string, k: TimesAt)
    requires TimesLayout(s, k)
    ensures Span(s, 0, IsSpace) == k.a && Span(s, k.a, IsDigit) == k.n && Span(s, k.n, IsSpace) == k.b
    ensures Span(s, k.b + 1, IsSpace) == k.c
  {
    assert IsDigit(s[k.a]);
    SpanIs(s, 0, k.a, IsSpace);
    assert k.n < k.b ==> IsSpace(s[k.n]);
    SpanIs(s, k.a, k.n, IsDigit);
    SpanIs(s, k.n, k.b, IsSpace);
    assert IsDigit(s[k.c]);
    SpanIs(s, k.b + 1, k.c, IsSpace);
  }

  /** On a layout, the greedy size run stops inside the label at the latest, and the rest is read as blanks around one word. */
  lemma ScanTimesTail(s: string, k: TimesAt)
    requires TimesLayout(s, k)
    ensures var mm := Span(s, k.c, IsDigit);
      var d := Span(s, mm, IsSpace);
      var l := Span(s, d, IsWordChar);
      && k.m <= mm <= k.l && Span(s, l, IsSpace) == |s|
      && (k.m == |s| || !IsDigit(s[k.m]) ==> mm == k.m && s[d..l] == s[k.d..k.l])
  {
    var mm := Span(s, k.c, IsDigit);
    assert k.l < |s| ==> IsSpace(s[k.l]);
    assert k.m < k.d ==> IsSpace(s[k.m]);
    if mm == k.m {
      BlankWordBlank(s, k.m, k.d, k.l);
    } else {
      BlankWordBlank(s, mm, mm, k.l);
    }
  }

  /** The scanner's result, given where each of its greedy runs ends. */
  lemma ScanTimesFrom(s: string, a: nat, n: nat, b: nat, c: nat, mm: nat, d: nat, l: nat)
    requires Span(s, 0, IsSpace) == a && Span(s, a, IsDigit) == n && Span(s, n, IsSpace) == b
    requires n != a && b < |s| && s[b] == 'x'
    requires Span(s, b + 1, IsSpace) == c && Span(s, c, IsDigit) == mm && Span(s, mm, IsSpace) == d
    requires Span(s, d, IsWordChar) == l && mm != c && Span(s, l, IsSpace) == |s|
    ensures ScanTimes(s) == Some(TimesAt(a, n, b, c, mm, d, l))
  {
    ScanFactorFrom(s, a, n, b, c, mm, d, l);
  }

  /** The factor scanner's result, given where each of its greedy runs ends. */
  lemma ScanFactorFrom(s: string, a: nat, n: nat, b: nat, c: nat, mm: nat, d: nat, l: nat)
    requires a < n <= b < |s| && s[b] == 'x'
    requires Run(s, 0, a, IsSpace) && Run(s, a, n, IsDigit) && Run(s, n, b, IsSpace)
    requires Span(s, b + 1, IsSpace) == c && Span(s, c, IsDigit) == mm && Span(s, mm, IsSpace) == d
    requires Span(s, d, IsWordChar) == l && mm != c && Span(s, l, IsSpace) == |s|
    ensures ScanFactor(s, a, n, b) == Some(TimesAt(a, n, b, c, mm, d, l))
  {
  }

  /** On a layout, the scanner succeeds with the same count; its size is at least as long, and the same when the layout's size ends at a non-digit. */
  lemma ScanTimesComplete(s: string, k: TimesAt)
    requires TimesLayout(s, k)
    ensures var r := ScanTimes(s);
      && r.Some? && r.value.a == k.a && r.value.n == k.n && r.value.c == k.c && k.m <= r.value.m
      && (k.m == |s| || !IsDigit(s[k.m]) ==> r.value.m == k.m && s[r.value.d..r.value.l] == s[k.d..k.l])
  {
    ScanTimesHead(s, k);
    ScanTimesTail(s, k);
    var mm := Span(s, k.c, IsDigit);
    var d := Span(s, mm, IsSpace);
    var l := Span(s, d, IsWordChar);
    ScanTimesFrom(s, k.a, k.n, k.b, k.c, mm, d, l);
  }

  /** What `MatchTimes` captures from a text with the layout `k`. */
  lemma MatchTimesAt(s: string, k: TimesAt)
    requires TimesLayout(s, k)
    ensures var r := MatchTimes(s);
      && r.Some? && r.value.count == CutTimes(s, k).count && |r.value.size| >= |CutTimes(s, k).size|
      && (k.m == |s| || !IsDigit(s[k.m]) ==> r.value.size == CutTimes(s, k).size && r.value.tag == CutTimes(s, k).tag)
  {
    ScanTimesComplete(s, k);
  }

  /** A layout's size ends where it says exactly when no digit follows it in its text. */
  lemma SizeEndsAt(m: TimesMatch)
    requires TimesShape(m)
    ensures var s := TimesText(m);
      var p := TimesCutsOf(m).m;
      SizeEnds(m) ==> p == |s| || !IsDigit(s[p])
  {
    var s := TimesText(m);
    var k := TimesCutsOf(m);
    TimesSlices(m);
    if SizeEnds(m) && k.m < |s| {
      if m.gap3 != [] {
        assert s[k.m] == m.gap3[0];
      } else if m.tag != [] {
        assert s[k.m] == m.tag[0];
      } else {
        assert s[k.m] == m.trail[0];
      }
    }
  }

  /**
   * `/^\s*(\d+)\s*x\s*(\d+)\s*(\w+)?\s*$/` matches every text that has the
   * layout, with the same count and a size at least as long, since its size
   * group is greedy; when the size ends where the layout says, the size and
   * the label are exactly the layout's.
   */
  lemma MatchTimesComplete(m: TimesMatch)
    requires TimesShape(m)
    ensures var r := MatchTimes(TimesText(m));
      && r.Some? && r.value.count == m.count && |r.value.size| >= |m.size|
      && (SizeEnds(m) ==> r.value.size == m.size && r.value.tag == m.tag)
  {
    TimesRuns(m);
    SizeEndsAt(m);
    MatchTimesAt(TimesText(m), TimesCutsOf(m));
  }

  /** No text that holds a digit is the word "ebsonly". */
  lemma NotEbsOnly(s: string, i: nat)
    requires i < |s| && IsDigit(s[i])
    ensures s != "ebsonly"
  {
  }

  /** A text with the `N x M [label]` layout is read by that grammar: `N` disks; when the size ends where the layout says, of `M` GB each, SSD exactly when the label is "SSD". */
  lemma ParseTimesForm(m: TimesMatch)
    requires TimesShape(m)
    ensures var d := ParseDisk(TimesText(m));
      && d.ebsOnly.None? && d.disks == Some(DigitsValue(m.count))
      && (SizeEnds(m) ==> d == Disk(None, Some(DigitsValue(m.count)), Some(DigitsValue(m.size)), Some(m.tag == "SSD")))
  {
    var s := TimesText(m);
    TimesRuns(m);
    NotEbsOnly(s, TimesCutsOf(m).a);
    MatchTimesComplete(m);
  }

  /** On a parted `N label` layout whose label is not an `x` followed by a digit, the `N x M` scanner finds nothing. */
  lemma ScanTimesMissesLabel(s: string, k: LabelAt)
    requires LabelLayout(s, k) && LabelParted(s, k)
    requires s[k.b] != 'x' || k.b + 1 == k.l || !IsDigit(s[k.b + 1])
    ensures ScanTimes(s).None?
  {
    ScanLabelHead(s, k);
    if s[k.b] == 'x' {
      if k.b + 1 < k.l {
        assert !IsSpace(s[k.b + 1]);
        SpanIs(s, k.b + 1, k.b + 1, IsSpace);
        SpanIs(s, k.b + 1, k.b + 1, IsDigit);
      } else {
        SpanIs(s, k.b + 1, |s|, IsSpace);
        SpanIs(s, |s|, |s|, IsDigit);
      }
    }
  }

  /**
   * `/^\s*(\d+)\s*x\s*(\d+)\s*(\w+)?\s*$/` does not read a text with the
   * `N label` layout whose label is parted from the size, unless the label
   * is an `x` directly followed by a digit.
   */
  lemma LabelNotTimes(m: LabelMatch)
    requires LabelShape(m) && (m.gap != [] || !IsDigit(m.tag[0]))
    requires m.tag[0] != 'x' || |m.tag| == 1 || !IsDigit(m.tag[1])
    ensures MatchTimes(LabelText(m)).None?
  {
    var s := LabelText(m);
    var k := LabelCutsOf(m);
    LabelRuns(m);
    assert s[k.b] == m.tag[0];
    if |m.tag| >= 2 {
      assert s[k.b + 1] == m.tag[1];
    }
    ScanTimesMissesLabel(s, k);
  }

  /**
   * A text with the `N label` layout, whose label is parted from the size
   * and which the `N x M [label]` grammar does not read, is read by the
   * `N label` grammar: one disk of `N` GB, SSD exactly when the label is "SSD".
   */
  lemma ParseLabelForm(m: LabelMatch)
    requires LabelShape(m) && (m.gap != [] || !IsDigit(m.tag[0])) && MatchTimes(LabelText(m)).None?
    ensures ParseDisk(LabelText(m)) == Disk(None, Some(1), Some(DigitsValue(m.size)), Some(m.tag == "SSD"))
  {
    var s := LabelText(m);
    var k := LabelCutsOf(m);
    LabelRuns(m);
    assert s[k.b] == m.tag[0];
    ScanLabelHead(s, k);
    NotEbsOnly(s, k.a);
    MatchSizeLabelComplete(m);
  }

  /** Blanks, digits from `a` to `n`, blanks: the `N x M` scanner finds no `x`, and the `N label` scanner only reads it by backtracking one digit. */
  lemma ScanBare(s: string, a: nat, n: nat)
    requires a < n <= |s| && Run(s, 0, a, IsSpace) && Run(s, a, n, IsDigit) && Run(s, n, |s|, IsSpace)
    ensures ScanTimes(s).None?
    ensures ScanLabel(s) == if n - a >= 2 then Some(LabelAt(a, n - 1, n - 1, n)) else None
  {
    assert IsDigit(s[a]);
    SpanIs(s, 0, a, IsSpace);
    assert n < |s| ==> IsSpace(s[n]);
    SpanIs(s, a, n, IsDigit);
    SpanIs(s, n, |s|, IsSpace);
    SpanIs(s, |s|, |s|, IsWordChar);
  }

  /** Where the pieces of a bare number sit in its text. */
  lemma BareRuns(lead: string, digits: string, trail: string)
    requires AllSpace(lead) && AllDigits(digits) && digits != [] && AllSpace(trail)
    ensures var s := lead + digits + trail;
      var a := |lead|;
      var n := a + |digits|;
      && n <= |s| && Run(s, 0, a, IsSpace) && Run(s, a, n, IsDigit) && Run(s, n, |s|, IsSpace)
      && s[a..n - 1] == digits[..|digits| - 1]
  {
    var s := lead + digits + trail;
    var a := |lead|;
    var n := a + |digits|;
    assert s[..a] == lead && s[a..n] == digits && s[n..] == trail;
    RunOf(s, 0, a, lead, IsSpace);
    RunOf(s, a, n, digits, IsDigit);
    RunOf(s, n, |s|, trail, IsSpace);
  }

  /**
   * A bare number of two digits or more is read by the `N label` grammar
   * after backtracking: its last digit becomes the label, so the size loses
   * that digit ("160" gives a size of 16).
   */
  lemma ParseBareNumber(lead: string, digits: string, trail: string)
    requires AllSpace(lead) && AllDigits(digits) && |digits| >= 2 && AllSpace(trail)
    ensures ParseDisk(lead + digits + trail) == Disk(None, Some(1), Some(DigitsValue(digits[..|digits| - 1])), Some(false))
  {
    var s := lead + digits + trail;
    var a := |lead|;
    var n := a + |digits|;
    BareRuns(lead, digits, trail);
    NotEbsOnly(s, a);
    ScanBare(s, a, n);
    assert |s[n - 1..n]| == 1;
  }

  /** A bare one-digit number is read by neither grammar: the record stays empty. */
  lemma ParseOneDigit(lead: string, digit: char, trail: string)
    requires AllSpace(lead) && IsDigit(digit) && AllSpace(trail)
    ensures ParseDisk(lead + [digit] + trail) == EmptyDisk
  {
    var s := lead + [digit] + trail;
    var a := |lead|;
    BareRuns(lead, [digit], trail);
    NotEbsOnly(s, a);
    ScanBare(s, a, a + 1);
  }

  /** The record stays empty exactly when the text is not "ebsonly" and has the layout of neither grammar. */
  lemma ParseDiskEmpty(s: string)
    ensures ParseDisk(s) == EmptyDisk <==>
      && s != "ebsonly"
      && (forall m :: TimesShape(m) ==> TimesText(m) != s)
      && (forall m :: LabelShape(m) ==> LabelText(m) != s)
  {
    MatchTimesSound(s);
    MatchSizeLabelSound(s);
    if ParseDisk(s) == EmptyDisk {
      forall m | TimesShape(m)
        ensures TimesText(m) != s
      {
        MatchTimesComplete(m);
      }
      forall m | LabelShape(m)
        ensures LabelText(m) != s
      {
        MatchSizeLabelComplete(m);
      }
    }
  }

  /** The records the feeds' usual descriptions give. */
  lemma ParseTimesExample()
    ensures ParseDisk("2 x 40 SSD") == Disk(None, Some(2), Some(40), Some(true))
  {
    var t := TimesMatch("", "2", " ", " ", "40", " ", "SSD", "");
    assert TimesShape(t);
    assert TimesText(t) == "2 x 40 SSD";
    ParseTimesForm(t);
    assert DigitsValue("2") == 2;
    assert DigitsValue("40") == 40;
  }

  lemma ParseLabelExample()
    ensures ParseDisk("10 GB") == Disk(None, Some(1), Some(10), Some(false))
  {
    var g := LabelMatch("", "10", " ", "GB", "");
    assert LabelText(g) == "10 GB";
    LabelNotTimes(g);
    ParseLabelForm(g);
  }

  /** A label that starts with `x` but has no size after it is still a label. */
  lemma ParseXLabelExample()
    ensures ParseDisk("10 xlarge") == Disk(None, Some(1), Some(10), Some(false))
  {
    var g := LabelMatch("", "10", " ", "xlarge", "");
    assert LabelText(g) == "10 xlarge";
    LabelNotTimes(g);
    ParseLabelForm(g);
  }

  lemma ParseBareNumberExample()
    ensures ParseDisk("160") == Disk(None, Some(1), Some(16), Some(false))
  {
    assert "160"[..2] == "16";
    assert DigitsValue("16") == 16;
    assert "" + "160" + "" == "160";
    ParseBareNumber("", "160", "");
  }

}
