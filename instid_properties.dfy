/** What the instrument-id conversions and the bar table promise when they
    are used together. */
module InstIdProperties {
  import opened Wrappers
  import opened Text
  import opened Defines

  /** An OKX symbol made of ASCII upper-case letters, digits and `-` (the
      form OKX instrument ids take) survives the trip to a common id and
      back. */
  lemma {:induction false} OkxRoundTrip(instType: string, s: string)
    requires forall i :: 0 <= i < |s| ==> ('A' <= s[i] <= 'Z') || ('0' <= s[i] <= '9') || s[i] == '-'
    ensures ToCommonInstId(EX_OKX, instType, s).1
    ensures ToExchangeInstId(EX_OKX, ToCommonInstId(EX_OKX, instType, s).0) == (s, true)
  {
    var common := ToCommonInstId(EX_OKX, instType, s).0;
    ReplaceAllSingleChar(s, '-', '_');
    assert common == ToLower(ReplaceChar(s, '-', '_'));
    ReplaceAllSingleChar(common, '_', '-');
    var back := ToUpper(ReplaceChar(common, '_', '-'));
    assert ToExchangeInstId(EX_OKX, common).0 == back;
    forall i | 0 <= i < |s|
      ensures back[i] == s[i]
    {
      assert s[i] != '_';
      var c1 := if s[i] == '-' then '_' else s[i];
      assert common[i] == LowerChar(c1);
      assert ReplaceChar(common, '_', '-')[i] == (if LowerChar(c1) == '_' then '-' else LowerChar(c1));
    }
    assert back == s;
  }

  /** Every id the Binance conversion produces is classified as the type it
      was converted for. */
  lemma BinanceSpotIdsAreSpot(instId: string)
    requires ToCommonInstId(EX_BINANCE, INST_SPOT, instId).1
    ensures var c := ToCommonInstId(EX_BINANCE, INST_SPOT, instId).0;
      HasSuffix(c, "_usdt") && GetInstType(c) == INST_SPOT && !IsUsdtContract(c)
  {
    var c := ToCommonInstId(EX_BINANCE, INST_SPOT, instId).0;
    assert c[|c| - 5..] == "_usdt";
    assert c[|c| - 1] == 't';
    assert !HasSuffix(c, "_usdt_swap") by {
      assert "_usdt_swap"[9] == 'p';
    }
    assert !HasSuffix(c, "_usd_swap") by {
      assert "_usd_swap"[8] == 'p';
    }
  }

  lemma BinanceUmSwapIdsAreUmSwap(instId: string)
    ensures var r := ToCommonInstId(EX_BINANCE, INST_UM_SWAP, instId);
      r.1 && GetInstType(r.0) == INST_UM_SWAP && IsUsdtContract(r.0) && InstId2MarginCcy(r.0) == "usdt"
  {
    var c := ToCommonInstId(EX_BINANCE, INST_UM_SWAP, instId).0;
    assert c[|c| - 10..] == "_usdt_swap";
  }

  /** The OKX instrument-type lookup accepts every type `GetInstType` yields. */
  lemma CommonTypesHaveOkxType(instId: string)
    ensures CommonInstType2Okx(GetInstType(instId)).1
    ensures CommonInstType2Okx(GetInstType(instId)).0 == (if GetInstType(instId) == INST_SPOT then "SPOT" else "SWAP")
  {
  }

  /** Worked examples of the three id shapes. */
  lemma IdShapesExample()
    ensures GetInstType("btc_usdt") == INST_SPOT
    ensures GetInstType("btc_usdt_swap") == INST_UM_SWAP
    ensures GetInstType("btc_usd_swap") == INST_CM_SWAP
    ensures InstId2MarginCcy("btc_usdt_swap") == "usdt"
  {
  }

  lemma CoinMarginExample()
    ensures InstId2MarginCcy("btc_usd_swap") == "btc"
  {
    assert !IsUsdtContract("btc_usd_swap") by {
      assert "btc_usd_swap"[2] == 'c';
    }
    assert IndexOf("btc_usd_swap", '_') == 3;
  }

  lemma SpotCcysExample()
    ensures InstId2Ccys("btc_usdt") == Ok(("btc", "usdt"))
    ensures InstId2Ccys("btcusdt").Fail?
  {
    assert IndexOf("btc_usdt", '_') == 3;
    assert "btc_usdt"[4..] == "usdt";
    assert IndexOf("usdt", '_') == 4;
    assert "btc_usdt"[..3] == "btc";
    assert "usdt"[..4] == "usdt";
    assert '_' !in "btcusdt";
  }

  /** `Interval2Bar` and `Bar2Interval` are inverse to each other on the nine
      entries of the table. */
  lemma BarTableRoundTrip(interval: int, bar: string)
    ensures Interval2Bar(interval).1 ==> Bar2Interval(Interval2Bar(interval).0) == (interval, true)
    ensures Bar2Interval(bar).1 ==> Interval2Bar(Bar2Interval(bar).0) == (bar, true)
  {
  }
}
