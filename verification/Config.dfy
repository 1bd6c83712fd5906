/** Parameters of a run (src/config/scanner_config.py), fixed while the run lasts. */
module Config {
  import opened Market

  datatype ArbType = CEX_CEX | CEX_DEX | DEX_DEX | FUNDING | CROSS_CHAIN

  datatype ScannerConfig = ScannerConfig(
    minNetProfitUsd: real,
    minRoiPct: real,
    maxGasPctOfGross: real,
    maxSlippageCexPct: real,
    maxSlippageDexPct: real,
    minLiquidityCexUsd: real,
    minLiquidityDexUsd: real,
    liquidityScoreFloor: real,
    minTradeableSizeUsd: real,
    implausibleSpreadPct: real,
    stablecoinCrossquoteBps: real,
    maxBridgeTimeSec: int,
    confidenceThreshold: real,
    maxPlausibleCexSpreadPct: real,
    ambiguousTickers: set<string>,
    economicFloorEnabled: bool,
    costAmortizationUsd: real,
    gasEstimateUsd: real,
    fundingHoldHours: real,
    fundingPositionSizeUsd: real,
    fundingMinAnnualizedSpread: real)
  {
    function MaxSlippagePct(vt: VenueType): real {
      if vt == DEX then maxSlippageDexPct else maxSlippageCexPct
    }

    function MinLiquidityUsd(vt: VenueType): real {
      if vt == DEX then minLiquidityDexUsd else minLiquidityCexUsd
    }

    /** The part of validate_config's ranges that the profit path relies on. */
    predicate InRange() {
      && minNetProfitUsd >= 0.0 && minRoiPct >= 0.0
      && maxSlippageCexPct >= 0.0 && maxSlippageDexPct >= 0.0
    }
  }
}
