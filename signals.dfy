/** The technical signal classifier of active_trading_engine.py: seven crossing rules
    collect reason labels in a fixed order, and a tie-broken decision renders them as
    one signal string ("NEUTRAAL", "VERKOOP - …", "KOOP (STERK) - …", "KOOP - …",
    "ZWAK SIGNAAL - …").
 */
module Signals {
  import opened Common

  /** The optional keyword thresholds of the classifier. */
  datatype Thresholds = Thresholds(rsiOversold: real, rsiOverbought: real, volumeThreshold: real)

  /** rsi_oversold = 30, rsi_overbought = 70, volume_drempel = 1.5 when not supplied. */
  const DefaultThresholds := Thresholds(30.0, 70.0, 1.5)

  /** The columns the classifier reads from one row. */
  datatype Snapshot = Snapshot(
    price: Cell,           // 'Huidige koers (EUR)'
    prevPrice: Cell,       // 'Vorige koers (EUR)'
    rsi: Cell,             // 'RSI'
    rsiPrev: Cell,         // 'RSI_prev'
    macd: Cell,            // 'MACD'
    macdSignal: Cell,      // 'MACD_signal'
    macdPrev: Cell,        // 'MACD_prev'
    macdSignalPrev: Cell,  // 'MACD_signal_prev'
    ma20: Cell,            // '20d MA'
    volumeRatio: Cell)     // 'Volume Ratio', 0.0 when the column is absent

  datatype Reason =
    | RsiBullishCross | MacdBullishCross | PriceAboveMa20 | HighVolume
    | RsiBearishCross | MacdBearishCross | PriceBelowMa20

  const RsiBullishLabel: string := "RSI Bullish Cross"
  const MacdBullishLabel: string := "MACD Bullish Cross"
  const PriceAboveLabel: string := "Koers > 20d MA"
  const HighVolumeLabel: string := "Hoog Volume"
  const RsiBearishLabel: string := "RSI Bearish Cross"
  const MacdBearishLabel: string := "MACD Bearish Cross"
  const PriceBelowLabel: string := "Koers < 20d MA"

  /** The text each rule appends to the reason list. */
  function Label(r: Reason): string
  {
    match r
    case RsiBullishCross => RsiBullishLabel
    case MacdBullishCross => MacdBullishLabel
    case PriceAboveMa20 => PriceAboveLabel
    case HighVolume => HighVolumeLabel
    case RsiBearishCross => RsiBearishLabel
    case MacdBearishCross => MacdBearishLabel
    case PriceBelowMa20 => PriceBelowLabel
  }

  /** Position of a rule in the order in which the classifier evaluates it. */
  function Rank(r: Reason): nat
  {
    match r
    case RsiBullishCross => 0
    case MacdBullishCross => 1
    case PriceAboveMa20 => 2
    case HighVolume => 3
    case RsiBearishCross => 4
    case MacdBearishCross => 5
    case PriceBelowMa20 => 6
  }

  /** The condition of each rule. A rule whose inputs are not all numbers never fires:
      an absent column reads as None and is skipped, a NaN fails every comparison. The
      current value is compared strictly, the previous one non-strictly. */
  predicate Fires(r: Reason, s: Snapshot, th: Thresholds)
    ensures r == HighVolume ==>
      (Fires(r, s, th) <==> (s.volumeRatio.Num? && s.volumeRatio.x > th.volumeThreshold)
                            || (s.volumeRatio.Missing? && 0.0 > th.volumeThreshold))
  {
    match r
    case RsiBullishCross =>
      s.rsi.Num? && s.rsiPrev.Num? && s.rsi.x > th.rsiOversold && s.rsiPrev.x <= th.rsiOversold
    case MacdBullishCross =>
      s.macd.Num? && s.macdSignal.Num? && s.macdPrev.Num? && s.macdSignalPrev.Num?
      && s.macd.x > s.macdSignal.x && s.macdPrev.x <= s.macdSignalPrev.x
    case PriceAboveMa20 =>
      s.price.Num? && s.prevPrice.Num? && s.ma20.Num? && s.price.x > s.ma20.x && s.prevPrice.x <= s.ma20.x
    case HighVolume =>
      Gt(GetOr(s.volumeRatio, 0.0), th.volumeThreshold)
    case RsiBearishCross =>
      s.rsi.Num? && s.rsiPrev.Num? && s.rsi.x < th.rsiOverbought && s.rsiPrev.x >= th.rsiOverbought
    case MacdBearishCross =>
      s.macd.Num? && s.macdSignal.Num? && s.macdPrev.Num? && s.macdSignalPrev.Num?
      && s.macd.x < s.macdSignal.x && s.macdPrev.x >= s.macdSignalPrev.x
    case PriceBelowMa20 =>
      s.price.Num? && s.prevPrice.Num? && s.ma20.Num? && s.price.x < s.ma20.x && s.prevPrice.x >= s.ma20.x
  }

  function When(r: Reason, s: Snapshot, th: Thresholds): seq<Reason>
  {
    if Fires(r, s, th) then [r] else []
  }

  /** Strictly increasing evaluation order: no rule twice, none out of order. */
  predicate Ranked(rs: seq<Reason>)
  {
    forall i, j :: 0 <= i < j < |rs| ==> Rank(rs[i]) < Rank(rs[j])
  }

  /** Every reason in `rs` is evaluated before rule number `k`. */
  predicate Below(rs: seq<Reason>, k: int)
  {
    forall i :: 0 <= i < |rs| ==> Rank(rs[i]) < k
  }

  /** Appending the outcome of rule number `k` keeps a list ranked. */
  lemma AppendWhen(rs: seq<Reason>, q: Reason, s: Snapshot, th: Thresholds)
    requires Ranked(rs) && Below(rs, Rank(q))
    ensures Ranked(rs + When(q, s, th)) && Below(rs + When(q, s, th), Rank(q) + 1)
    ensures forall r :: r in rs + When(q, s, th) <==> r in rs || (r == q && Fires(q, s, th))
  {
  }

  /** The list `signalen_gevonden`: the seven rules are evaluated in turn, each appending
      its label when it fires, so the list holds exactly the rules that fire, each once,
      in evaluation order. */
  function Reasons(s: Snapshot, th: Thresholds): (rs: seq<Reason>)
    ensures forall r :: r in rs <==> Fires(r, s, th)
    ensures Ranked(rs)
  {
    var l0: seq<Reason> := [];
    AppendWhen(l0, RsiBullishCross, s, th);
    var l1 := l0 + When(RsiBullishCross, s, th);
    AppendWhen(l1, MacdBullishCross, s, th);
    var l2 := l1 + When(MacdBullishCross, s, th);
    AppendWhen(l2, PriceAboveMa20, s, th);
    var l3 := l2 + When(PriceAboveMa20, s, th);
    AppendWhen(l3, HighVolume, s, th);
    var l4 := l3 + When(HighVolume, s, th);
    AppendWhen(l4, RsiBearishCross, s, th);
    var l5 := l4 + When(RsiBearishCross, s, th);
    AppendWhen(l5, MacdBearishCross, s, th);
    var l6 := l5 + When(MacdBearishCross, s, th);
    AppendWhen(l6, PriceBelowMa20, s, th);
    var l7 := l6 + When(PriceBelowMa20, s, th);
    l7
  }

  function Labels(rs: seq<Reason>): (ls: seq<string>)
    ensures |ls| == |rs| && forall i :: 0 <= i < |rs| ==> ls[i] == Label(rs[i])
  {
    if |rs| == 0 then [] else [Label(rs[0])] + Labels(rs[1..])
  }

  /** `", ".join(signalen_gevonden)` */
  function ReasonText(rs: seq<Reason>): string
  {
    Join(Labels(rs), ", ")
  }

  predicate IsBearish(r: Reason)
  {
    r == RsiBearishCross || r == MacdBearishCross
  }

  predicate HasBearish(rs: seq<Reason>)
  {
    exists i :: 0 <= i < |rs| && IsBearish(rs[i])
  }

  datatype SignalKind = Neutral | Sell | StrongBuy | Buy | Weak

  /** The classifier's verdict: the label, the reasons behind it and the rendered string. */
  datatype Signal = Signal(kind: SignalKind, reasons: seq<Reason>, text: string)

  /** bepaal_signaal_per_rij. The sell test searches the joined text for "Bearish"; the
      contract states the decision in terms of the reasons themselves. */
  function Classify(s: Snapshot, th: Thresholds): (sig: Signal)
    ensures sig.reasons == Reasons(s, th)
    ensures sig.kind == Neutral <==> |sig.reasons| == 0
    ensures sig.kind == Neutral <==> sig.text == "NEUTRAAL"
    ensures sig.kind == Sell <==> |sig.reasons| >= 2 && HasBearish(sig.reasons)
    ensures sig.kind == StrongBuy <==> |sig.reasons| >= 3 && !HasBearish(sig.reasons)
    ensures sig.kind == Buy <==> |sig.reasons| == 2 && !HasBearish(sig.reasons)
    ensures sig.kind == Weak <==> |sig.reasons| == 1
    ensures sig.kind == Sell ==> sig.text == "VERKOOP - " + ReasonText(sig.reasons)
    ensures sig.kind == StrongBuy ==> sig.text == "KOOP (STERK) - " + ReasonText(sig.reasons)
    ensures sig.kind == Buy ==> sig.text == "KOOP - " + ReasonText(sig.reasons)
    ensures sig.kind == Weak ==> sig.text == "ZWAK SIGNAAL - " + Label(sig.reasons[0])
  {
    var rs := Reasons(s, th);
    var n := |rs|;
    if n == 0 then Signal(Neutral, rs, "NEUTRAAL")
    else
      var text := ReasonText(rs);
      BearishInText(rs);
      if Contains(text, "Bearish") && n >= 2 then Signal(Sell, rs, "VERKOOP - " + text)
      else if n >= 3 then Signal(StrongBuy, rs, "KOOP (STERK) - " + text)
      else if n >= 2 then Signal(Buy, rs, "KOOP - " + text)
      else Signal(Weak, rs, "ZWAK SIGNAAL - " + text)
  }

  /** The string bepaal_signaal_per_rij returns. */
  function SignalText(s: Snapshot, th: Thresholds): (t: string)
    ensures t == "NEUTRAAL" <==> forall r :: !Fires(r, s, th)
  {
    var sig := Classify(s, th);
    assert |sig.reasons| > 0 ==> sig.reasons[0] in sig.reasons;
    sig.text
  }

  // ---------------------------------------------------------------------------
  // What the joined text contains
  // ---------------------------------------------------------------------------

  /** `s` does not contain the character `c`. */
  ghost predicate Lacks(s: string, c: char)
  {
    forall i :: 0 <= i < |s| ==> s[i] != c
  }

  // One lemma per label literal: no capital 'O' or 'E', and "Be" only in the bearish ones.
  lemma RsiBullishLiteral()
    ensures var l := RsiBullishLabel; NoPair(l, 'B', 'e') && Lacks(l, 'O') && Lacks(l, 'E')
  {}
  lemma MacdBullishLiteral()
    ensures var l := MacdBullishLabel; NoPair(l, 'B', 'e') && Lacks(l, 'O') && Lacks(l, 'E')
  {}
  lemma PriceAboveLiteral()
    ensures var l := PriceAboveLabel; NoPair(l, 'B', 'e') && Lacks(l, 'O') && Lacks(l, 'E')
  {}
  lemma HighVolumeLiteral()
    ensures var l := HighVolumeLabel; NoPair(l, 'B', 'e') && Lacks(l, 'O') && Lacks(l, 'E')
  {}
  lemma RsiBearishLiteral()
    ensures var l := RsiBearishLabel; OccursAt(l, "Bearish", 4) && Lacks(l, 'O') && Lacks(l, 'E')
  {}
  lemma MacdBearishLiteral()
    ensures var l := MacdBearishLabel; OccursAt(l, "Bearish", 5) && Lacks(l, 'O') && Lacks(l, 'E')
  {}
  lemma PriceBelowLiteral()
    ensures var l := PriceBelowLabel; NoPair(l, 'B', 'e') && Lacks(l, 'O') && Lacks(l, 'E')
  {}

  lemma LabelChars(r: Reason)
    ensures Lacks(Label(r), 'O') && Lacks(Label(r), 'E')
    ensures !IsBearish(r) ==> NoPair(Label(r), 'B', 'e')
  {
    match r
    case RsiBullishCross => RsiBullishLiteral();
    case MacdBullishCross => MacdBullishLiteral();
    case PriceAboveMa20 => PriceAboveLiteral();
    case HighVolume => HighVolumeLiteral();
    case RsiBearishCross => RsiBearishLiteral();
    case MacdBearishCross => MacdBearishLiteral();
    case PriceBelowMa20 => PriceBelowLiteral();
  }

  /** What a label contains: "Be" only in the bearish ones; never the pairs "KO" or "VE";
      and it does not end in 'B', 'K' or 'V'. */
  lemma LabelPairs(r: Reason)
    ensures !IsBearish(r) ==> NoPair(Label(r), 'B', 'e')
    ensures NoPair(Label(r), 'K', 'O') && NoPair(Label(r), 'V', 'E')
    ensures var l := Label(r); |l| > 0 && l[|l| - 1] != 'B' && l[|l| - 1] != 'K' && l[|l| - 1] != 'V'
  {
    LabelChars(r);
  }

  lemma BearishLabel(r: Reason)
    requires IsBearish(r)
    ensures Contains(Label(r), "Bearish")
  {
    if r == RsiBearishCross {
      RsiBearishLiteral();
      OccursIn(Label(r), "Bearish", 4);
    } else {
      MacdBearishLiteral();
      OccursIn(Label(r), "Bearish", 5);
    }
  }

  lemma {:induction false} JoinNoPair(parts: seq<string>, sep: string, x: char, y: char)
    requires forall i :: 0 <= i < |parts| ==> NoPair(parts[i], x, y)
    requires forall i :: 0 <= i < |parts| ==> |parts[i]| > 0 && parts[i][|parts[i]| - 1] != x
    requires NoPair(sep, x, y) && (|sep| == 0 || sep[|sep| - 1] != x)
    ensures NoPair(Join(parts, sep), x, y)
    decreases |parts|
  {
    if |parts| >= 2 {
      JoinNoPair(parts[1..], sep, x, y);
      NoPairConcat(parts[0], sep, x, y);
      NoPairConcat(parts[0] + sep, Join(parts[1..], sep), x, y);
    }
  }

  /** The pair `x y` occurs in none of the labels of `rs`, so not in their joined text. */
  lemma ReasonTextNoPair(rs: seq<Reason>, x: char, y: char)
    requires forall i :: 0 <= i < |rs| ==> NoPair(Label(rs[i]), x, y)
    requires x == 'B' || x == 'K' || x == 'V'
    ensures NoPair(ReasonText(rs), x, y)
  {
    var ls := Labels(rs);
    assert NoPair(", ", x, y);
    forall i | 0 <= i < |ls| ensures |ls[i]| > 0 && ls[i][|ls[i]| - 1] != x {
      LabelPairs(rs[i]);
    }
    assert forall i :: 0 <= i < |ls| ==> NoPair(ls[i], x, y);
    JoinNoPair(ls, ", ", x, y);
    assert NoPair(Join(ls, ", "), x, y);
  }

  lemma ReasonTextCons(rs: seq<Reason>)
    requires |rs| >= 1
    ensures |rs| == 1 ==> ReasonText(rs) == Label(rs[0])
    ensures |rs| >= 2 ==> ReasonText(rs) == Label(rs[0]) + ", " + ReasonText(rs[1..])
  {
    assert Labels(rs)[1..] == Labels(rs[1..]);
  }

  /** Without a bearish reason no label holds "Be", so neither does the joined text. */
  lemma NoBearishText(rs: seq<Reason>)
    requires !HasBearish(rs)
    ensures !Contains(ReasonText(rs), "Bearish")
  {
    forall i | 0 <= i < |rs| ensures NoPair(Label(rs[i]), 'B', 'e') {
      LabelPairs(rs[i]);
    }
    ReasonTextNoPair(rs, 'B', 'e');
    NoPairNotContains(ReasonText(rs), "Bearish");
  }

  lemma FirstBearishText(rs: seq<Reason>)
    requires |rs| >= 1 && IsBearish(rs[0])
    ensures Contains(ReasonText(rs), "Bearish")
  {
    ReasonTextCons(rs);
    var l := Label(rs[0]);
    BearishLabel(rs[0]);
    if |rs| >= 2 {
      var tail := ", " + ReasonText(rs[1..]);
      assert ReasonText(rs) == "" + l + tail;
      ContainsInConcat("", l, tail, "Bearish");
    }
  }

  lemma LaterBearishText(rs: seq<Reason>)
    requires |rs| >= 2 && Contains(ReasonText(rs[1..]), "Bearish")
    ensures Contains(ReasonText(rs), "Bearish")
  {
    ReasonTextCons(rs);
    assert ReasonText(rs) == Label(rs[0]) + ", " + ReasonText(rs[1..]) + "";
    ContainsInConcat(Label(rs[0]) + ", ", ReasonText(rs[1..]), "", "Bearish");
  }

  /** The sell test `"Bearish" in signaal_tekst` holds exactly when a bearish rule fired. */
  lemma {:induction false} BearishInText(rs: seq<Reason>)
    ensures Contains(ReasonText(rs), "Bearish") <==> HasBearish(rs)
    decreases |rs|
  {
    if !HasBearish(rs) {
      NoBearishText(rs);
    } else if IsBearish(rs[0]) {
      FirstBearishText(rs);
    } else {
      var i :| 0 <= i < |rs| && IsBearish(rs[i]);
      assert IsBearish(rs[1..][i - 1]);
      BearishInText(rs[1..]);
      LaterBearishText(rs);
    }
  }

  /** A verdict prefix followed by a reason text contains neither "KOOP" nor "VERKOOP"
      unless the prefix does: the labels hold no "KO" and no "VE". */
  lemma PrefixedLacks(prefix: string, rs: seq<Reason>, pat: string)
    requires |pat| >= 2 && ((pat[0] == 'K' && pat[1] == 'O') || (pat[0] == 'V' && pat[1] == 'E'))
    requires NoPair(prefix, pat[0], pat[1]) && |prefix| > 0 && prefix[|prefix| - 1] != pat[0]
    ensures !Contains(prefix + ReasonText(rs), pat)
  {
    var x, y := pat[0], pat[1];
    forall i | 0 <= i < |rs| ensures NoPair(Label(rs[i]), x, y) {
      LabelPairs(rs[i]);
    }
    ReasonTextNoPair(rs, x, y);
    NoPairConcat(prefix, ReasonText(rs), x, y);
    NoPairNotContains(prefix + ReasonText(rs), pat);
  }

  lemma NeutralKeywords()
    ensures !Contains("NEUTRAAL", "KOOP") && !Contains("NEUTRAAL", "VERKOOP")
  {
    assert NoPair("NEUTRAAL", 'K', 'O') && NoPair("NEUTRAAL", 'V', 'E');
    NoPairNotContains("NEUTRAAL", "KOOP");
    NoPairNotContains("NEUTRAAL", "VERKOOP");
  }

  lemma WeakKeywords(rs: seq<Reason>)
    ensures !Contains("ZWAK SIGNAAL - " + ReasonText(rs), "KOOP")
    ensures !Contains("ZWAK SIGNAAL - " + ReasonText(rs), "VERKOOP")
  {
    assert NoPair("ZWAK SIGNAAL - ", 'K', 'O') && NoPair("ZWAK SIGNAAL - ", 'V', 'E');
    PrefixedLacks("ZWAK SIGNAAL - ", rs, "KOOP");
    PrefixedLacks("ZWAK SIGNAAL - ", rs, "VERKOOP");
  }

  lemma SellKeywords(t: string)
    ensures Contains("VERKOOP - " + t, "KOOP") && Contains("VERKOOP - " + t, "VERKOOP")
  {
    OccursIn("VERKOOP - " + t, "VERKOOP", 0);
    OccursIn("VERKOOP - " + t, "KOOP", 3);
  }

  lemma StrongBuyKeywords(rs: seq<Reason>)
    ensures Contains("KOOP (STERK) - " + ReasonText(rs), "KOOP")
    ensures !Contains("KOOP (STERK) - " + ReasonText(rs), "VERKOOP")
  {
    OccursIn("KOOP (STERK) - " + ReasonText(rs), "KOOP", 0);
    assert NoPair("KOOP (STERK) - ", 'V', 'E');
    PrefixedLacks("KOOP (STERK) - ", rs, "VERKOOP");
  }

  lemma BuyKeywords(rs: seq<Reason>)
    ensures Contains("KOOP - " + ReasonText(rs), "KOOP")
    ensures !Contains("KOOP - " + ReasonText(rs), "VERKOOP")
  {
    OccursIn("KOOP - " + ReasonText(rs), "KOOP", 0);
    assert NoPair("KOOP - ", 'V', 'E');
    PrefixedLacks("KOOP - ", rs, "VERKOOP");
  }

  /** The keywords the backtester searches for, in a text with the given verdict and reasons. */
  lemma VerdictKeywords(sig: Signal)
    requires sig.kind == Neutral ==> sig.text == "NEUTRAAL"
    requires sig.kind == Sell ==> sig.text == "VERKOOP - " + ReasonText(sig.reasons)
    requires sig.kind == StrongBuy ==> sig.text == "KOOP (STERK) - " + ReasonText(sig.reasons)
    requires sig.kind == Buy ==> sig.text == "KOOP - " + ReasonText(sig.reasons)
    requires sig.kind == Weak ==> sig.text == "ZWAK SIGNAAL - " + ReasonText(sig.reasons)
    ensures Contains(sig.text, "KOOP") <==> sig.kind in {Sell, StrongBuy, Buy}
    ensures Contains(sig.text, "VERKOOP") <==> sig.kind == Sell
  {
    match sig.kind
    case Neutral => NeutralKeywords();
    case Weak => WeakKeywords(sig.reasons);
    case Sell => SellKeywords(ReasonText(sig.reasons));
    case StrongBuy => StrongBuyKeywords(sig.reasons);
    case Buy => BuyKeywords(sig.reasons);
  }

  /** How the backtester reads a signal: the text contains "KOOP" exactly when at least two
      rules fired, and "VERKOOP" exactly when the verdict is a sell. */
  lemma SignalKeywords(s: Snapshot, th: Thresholds)
    ensures Contains(SignalText(s, th), "KOOP") <==> |Reasons(s, th)| >= 2
    ensures Contains(SignalText(s, th), "VERKOOP") <==> Classify(s, th).kind == Sell
  {
    var sig := Classify(s, th);
    if sig.kind == Weak {
      ReasonTextCons(sig.reasons);
    }
    VerdictKeywords(sig);
  }

  // ---------------------------------------------------------------------------
  // Properties of the rules
  // ---------------------------------------------------------------------------

  /** Opposite crossings exclude each other, so at most four reasons fire. For RSI this holds
      whatever the thresholds: a bullish and a bearish cross on one row would need
      oversold < rsi < overbought <= rsi_prev <= oversold. */
  lemma AtMostFourReasons(s: Snapshot, th: Thresholds)
    ensures !(Fires(RsiBullishCross, s, th) && Fires(RsiBearishCross, s, th))
    ensures !(Fires(MacdBullishCross, s, th) && Fires(MacdBearishCross, s, th))
    ensures !(Fires(PriceAboveMa20, s, th) && Fires(PriceBelowMa20, s, th))
    ensures |Reasons(s, th)| <= 4
  {
  }

  lemma VolumeAndFallingText(sig: Signal)
    requires sig.reasons == [HighVolume, PriceBelowMa20]
    requires sig.text == "KOOP - " + ReasonText(sig.reasons)
    ensures sig.text == "KOOP - Hoog Volume, Koers < 20d MA"
  {
    ReasonTextCons(sig.reasons);
    ReasonTextCons(sig.reasons[1..]);
  }

  lemma VolumeAndFallingSignal(s: Snapshot, th: Thresholds)
    requires Reasons(s, th) == [HighVolume, PriceBelowMa20]
    ensures SignalText(s, th) == "KOOP - Hoog Volume, Koers < 20d MA"
  {
    var rs := Reasons(s, th);
    assert !IsBearish(rs[0]) && !IsBearish(rs[1]);
    assert Classify(s, th).kind == Buy;
    VolumeAndFallingText(Classify(s, th));
  }

  /** A price falling below its 20-day average together with high volume is not "Bearish":
      it is rendered as a plain buy. */
  lemma FallingPriceWithVolumeIsBuy(price: real, prevPrice: real, ma20: real, volumeRatio: real)
    requires price < ma20 <= prevPrice && volumeRatio > 1.5
    ensures var s := Snapshot(Num(price), Num(prevPrice), Missing, Missing, Missing, Missing,
                              Missing, Missing, Num(ma20), Num(volumeRatio));
            SignalText(s, DefaultThresholds) == "KOOP - Hoog Volume, Koers < 20d MA"
  {
    var s := Snapshot(Num(price), Num(prevPrice), Missing, Missing, Missing, Missing,
                      Missing, Missing, Num(ma20), Num(volumeRatio));
    assert Reasons(s, DefaultThresholds) == [HighVolume, PriceBelowMa20];
    VolumeAndFallingSignal(s, DefaultThresholds);
  }

  lemma RsiRecoveryText(sig: Signal)
    requires sig.reasons == [RsiBullishCross]
    requires sig.text == "ZWAK SIGNAAL - " + Label(sig.reasons[0])
    ensures sig.text == "ZWAK SIGNAAL - RSI Bullish Cross"
  {
  }

  /** RSI rising through the oversold line with every other input absent is a weak signal
      with that single reason. */
  lemma RsiRecoveryIsWeak(rsi: real, rsiPrev: real)
    requires rsiPrev <= 30.0 < rsi
    ensures var s := Snapshot(Missing, Missing, Num(rsi), Num(rsiPrev), Missing, Missing,
                              Missing, Missing, Missing, Missing);
            SignalText(s, DefaultThresholds) == "ZWAK SIGNAAL - RSI Bullish Cross"
  {
    var s := Snapshot(Missing, Missing, Num(rsi), Num(rsiPrev), Missing, Missing,
                      Missing, Missing, Missing, Missing);
    var sig := Classify(s, DefaultThresholds);
    assert sig.reasons == [RsiBullishCross];
    RsiRecoveryText(sig);
  }

  /** The row the backtester hands to the classifier. Its indicator columns are named
      'RSI_14', 'MACD_12_26_9' and 'SMA_20' and it has no 'Huidige koers (EUR)', so of the
      columns the classifier reads only 'Volume Ratio' exists. */
  function BacktestRow(volumeRatio: Cell): Snapshot
  {
    Snapshot(Missing, Missing, Missing, Missing, Missing, Missing, Missing, Missing, Missing, volumeRatio)
  }

  /** Such a row can at most fire the volume rule, so its signal never contains "KOOP". */
  lemma BacktestRowNeverBuys(v: Cell, th: Thresholds)
    ensures Reasons(BacktestRow(v), th) == When(HighVolume, BacktestRow(v), th)
    ensures !Contains(SignalText(BacktestRow(v), th), "KOOP")
  {
    SignalKeywords(BacktestRow(v), th);
  }

  // ---------------------------------------------------------------------------
  // genereer_actieve_handel_signalen
  // ---------------------------------------------------------------------------

  /** A row of the table the active-trading screener classifies. */
  datatype ScreenRow = ScreenRow(snapshot: Snapshot, signal: Option<string>)

  /** Classifies every row of a copy of the table with the default thresholds and stores
      the result in its 'Signaal' column; the input table is a value and stays unchanged. */
  method GenerateActiveSignals(table: seq<ScreenRow>) returns (result: seq<ScreenRow>)
    ensures |result| == |table|
    ensures forall i :: 0 <= i < |table| ==>
      result[i].snapshot == table[i].snapshot
      && result[i].signal == Some(SignalText(table[i].snapshot, DefaultThresholds))
  {
    result := table;
    var i := 0;
    while i < |result|
      invariant 0 <= i <= |result| == |table|
      invariant forall k :: 0 <= k < i ==>
        result[k].snapshot == table[k].snapshot
        && result[k].signal == Some(SignalText(table[k].snapshot, DefaultThresholds))
      invariant forall k :: i <= k < |result| ==> result[k] == table[k]
    {
      var signaal := SignalText(result[i].snapshot, DefaultThresholds);
      result := result[i := result[i].(signal := Some(signaal))];
      i := i + 1;
    }
  }
}
