/**
 The bot's configuration as one immutable value, the package table built
 from it, and the pure helpers of the configuration file: package lookup,
 `calculate_price`, `mask_sensitive` and the `validate_config` start-up rule.
 */
module Config {
  import opened Wrappers
  import opened Text

  /** Every setting the modelled core reads. In the bot each one comes from
      an environment variable; `Defaults` holds the fallback values. */
  datatype Config = Config(
    discordToken: string,
    midtransServerKey: string,
    publicChannelId: int,
    databaseType: string,
    databaseUrl: string,
    price1: int,
    price5: int,
    price10: int,
    price25: int,
    price50: int,
    maxCodesPerOrder: int,
    autoDeliveryEnabled: bool,
    lowStockThreshold: int,
    stockAlertEnabled: bool,
    encryptStockCodes: bool,
    encryptionKey: string,
    deliveryMethod: string,
    deliveryRetryAttempts: int,
    enableOrderCancellation: bool,
    enableRefund: bool,
    maskingEnabled: bool,
    maskShowCharacters: int
  )

  const TokenPlaceholder: string := "YOUR_ORDER_BOT_DISCORD_TOKEN"
  const ServerKeyPlaceholder: string := "YOUR_MIDTRANS_SERVER_KEY"

  const Defaults: Config := Config(
    TokenPlaceholder, ServerKeyPlaceholder, 0, "postgresql", "",
    15000, 70000, 130000, 300000, 550000,
    50, true, 10, true, true, "default-encryption-key-change-me!",
    "dm", 3, true, true, true, 4)

  // ---------------------------------------------------------------------
  // Packages
  // ---------------------------------------------------------------------

  datatype PackageInfo = PackageInfo(quantity: int, price: int, caption: string)

  /** The five package keys of the price and package tables. */
  datatype PackageKey = OneCode | FiveCodes | TenCodes | TwentyFiveCodes | FiftyCodes

  function KeyName(k: PackageKey): string {
    match k
    case OneCode => "1_code"
    case FiveCodes => "5_codes"
    case TenCodes => "10_codes"
    case TwentyFiveCodes => "25_codes"
    case FiftyCodes => "50_codes"
  }

  /** The package key a string names, if any. */
  function ParseKey(s: string): (r: Option<PackageKey>)
    ensures r.Some? ==> KeyName(r.value) == s
    ensures r.None? ==> forall k: PackageKey :: KeyName(k) != s
  {
    if s == "1_code" then Some(OneCode)
    else if s == "5_codes" then Some(FiveCodes)
    else if s == "10_codes" then Some(TenCodes)
    else if s == "25_codes" then Some(TwentyFiveCodes)
    else if s == "50_codes" then Some(FiftyCodes)
    else None
  }

  /** The price table (`PACKAGE_PRICES`). */
  function PackagePrice(cfg: Config, k: PackageKey): int {
    match k
    case OneCode => cfg.price1
    case FiveCodes => cfg.price5
    case TenCodes => cfg.price10
    case TwentyFiveCodes => cfg.price25
    case FiftyCodes => cfg.price50
  }

  /** The package table (`PACKAGE_CONFIG`). */
  function PackageTable(cfg: Config, k: PackageKey): PackageInfo {
    match k
    case OneCode => PackageInfo(1, cfg.price1, "1 Code")
    case FiveCodes => PackageInfo(5, cfg.price5, "5 Codes")
    case TenCodes => PackageInfo(10, cfg.price10, "10 Codes")
    case TwentyFiveCodes => PackageInfo(25, cfg.price25, "25 Codes")
    case FiftyCodes => PackageInfo(50, cfg.price50, "50 Codes")
  }

  /** `get_package_info`: the table entry for a known key, None otherwise;
      every entry is priced from the price table under the same key. */
  function GetPackageInfo(cfg: Config, key: string): (r: Option<PackageInfo>)
    ensures r.Some? <==> exists k: PackageKey :: KeyName(k) == key
    ensures forall k: PackageKey :: KeyName(k) == key ==>
      r.Some? && r.value.price == PackagePrice(cfg, k)
    ensures r.Some? ==> 1 <= r.value.quantity <= 50
  {
    match ParseKey(key)
    case Some(k) => Some(PackageTable(cfg, k))
    case None => None
  }

  /** The table's entries sorted by quantity, largest first, as
      `calculate_price` iterates them. */
  function ByQuantityDesc(cfg: Config): (ps: seq<PackageInfo>)
    ensures |ps| == 5
    ensures forall i, j :: 0 <= i < j < |ps| ==> ps[i].quantity > ps[j].quantity
    ensures forall k: PackageKey :: PackageTable(cfg, k) in ps
  {
    var ps := [PackageTable(cfg, FiftyCodes), PackageTable(cfg, TwentyFiveCodes),
               PackageTable(cfg, TenCodes), PackageTable(cfg, FiveCodes), PackageTable(cfg, OneCode)];
    assert ps[0] == PackageTable(cfg, FiftyCodes) && ps[1] == PackageTable(cfg, TwentyFiveCodes)
      && ps[2] == PackageTable(cfg, TenCodes) && ps[3] == PackageTable(cfg, FiveCodes)
      && ps[4] == PackageTable(cfg, OneCode);
    ps
  }

  /** The first package in `ps` whose quantity does not exceed `quantity`:
      every package before it is too large. */
  function FirstFitting(ps: seq<PackageInfo>, quantity: int): (r: Option<PackageInfo>)
    ensures r.Some? ==> exists i :: 0 <= i < |ps| && ps[i] == r.value && ps[i].quantity <= quantity
                                    && forall j :: 0 <= j < i ==> ps[j].quantity > quantity
    ensures r.None? <==> forall i :: 0 <= i < |ps| ==> ps[i].quantity > quantity
    decreases |ps|
  {
    if |ps| == 0 then None
    else if quantity >= ps[0].quantity then Some(ps[0])
    else
      var r := FirstFitting(ps[1..], quantity);
      assert r.Some? ==> exists i :: 1 <= i < |ps| && ps[i] == r.value && ps[i].quantity <= quantity
                                     && forall j :: 0 <= j < i ==> ps[j].quantity > quantity by {
        if r.Some? {
          var i :| 0 <= i < |ps[1..]| && ps[1..][i] == r.value && ps[1..][i].quantity <= quantity
                   && forall j :: 0 <= j < i ==> ps[1..][j].quantity > quantity;
          assert forall j :: 0 <= j < i + 1 ==> ps[j].quantity > quantity by {
            forall j | 0 <= j < i + 1
              ensures ps[j].quantity > quantity
            {
              if j > 0 {
                assert ps[j] == ps[1..][j - 1];
              }
            }
          }
          assert ps[i + 1] == r.value;
        }
      }
      r
  }

  /** The package a request of `quantity` codes falls into. */
  function BestKey(quantity: int): PackageKey {
    if quantity >= 50 then FiftyCodes
    else if quantity >= 25 then TwentyFiveCodes
    else if quantity >= 10 then TenCodes
    else if quantity >= 5 then FiveCodes
    else OneCode
  }

  /** Walking the table largest first stops at the package `BestKey`
      names, and finds nothing for a request below one code. */
  lemma FitByRange(cfg: Config, quantity: int)
    ensures quantity >= 1 ==> FirstFitting(ByQuantityDesc(cfg), quantity) == Some(PackageTable(cfg, BestKey(quantity)))
    ensures quantity < 1 ==> FirstFitting(ByQuantityDesc(cfg), quantity).None?
  {
    var ps := ByQuantityDesc(cfg);
    assert ps[0].quantity == 50 && ps[1].quantity == 25 && ps[2].quantity == 10
      && ps[3].quantity == 5 && ps[4].quantity == 1;
    if quantity < 50 {
      assert FirstFitting(ps, quantity) == FirstFitting(ps[1..], quantity);
      if quantity < 25 {
        assert FirstFitting(ps[1..], quantity) == FirstFitting(ps[2..], quantity);
        if quantity < 10 {
          assert FirstFitting(ps[2..], quantity) == FirstFitting(ps[3..], quantity);
          if quantity < 5 {
            assert FirstFitting(ps[3..], quantity) == FirstFitting(ps[4..], quantity);
          }
        }
      }
    }
  }

  /** `calculate_price`: the (unscaled) price of the first package by
      descending quantity that fits, else the one-code price times
      quantity; so 1-4 codes cost the 1-code price, 5-9 the 5-code price,
      10-24 the 10-code price, 25-49 the 25-code price and 50 or more the
      50-code price, and only a request below one code is priced per code. */
  function CalculatePrice(cfg: Config, quantity: int): (r: int)
    ensures 1 <= quantity < 5 ==> r == cfg.price1
    ensures 5 <= quantity < 10 ==> r == cfg.price5
    ensures 10 <= quantity < 25 ==> r == cfg.price10
    ensures 25 <= quantity < 50 ==> r == cfg.price25
    ensures 50 <= quantity ==> r == cfg.price50
    ensures quantity < 1 ==> r == cfg.price1 * quantity
  {
    FitByRange(cfg, quantity);
    match FirstFitting(ByQuantityDesc(cfg), quantity)
    case Some(p) => p.price
    case None => cfg.price1 * quantity
  }

  /** `key` names the package with the largest quantity not above `quantity`. */
  ghost predicate IsBestFit(cfg: Config, key: PackageKey, quantity: int) {
    && PackageTable(cfg, key).quantity <= quantity
    && forall k2: PackageKey :: PackageTable(cfg, k2).quantity <= quantity
         ==> PackageTable(cfg, k2).quantity <= PackageTable(cfg, key).quantity
  }

  /** `calculate_price` charges the price of the largest package that does
      not exceed the request; the per-code fallback is reached exactly when
      the request is below every package quantity, i.e. below 1. */
  lemma CalculatePriceBestFit(cfg: Config, quantity: int)
    ensures quantity >= 1 ==>
      (exists k: PackageKey :: IsBestFit(cfg, k, quantity) && CalculatePrice(cfg, quantity) == PackageTable(cfg, k).price)
    ensures quantity < 1 ==> CalculatePrice(cfg, quantity) == cfg.price1 * quantity
  {
    if quantity >= 1 {
      BestKeyIsBestFit(cfg, quantity);
    }
  }

  lemma BestKeyIsBestFit(cfg: Config, quantity: int)
    requires quantity >= 1
    ensures IsBestFit(cfg, BestKey(quantity), quantity)
  {
  }

  // ---------------------------------------------------------------------
  // mask_sensitive
  // ---------------------------------------------------------------------

  const Stars: string := "****"

  /** The number of characters shown at each end: the explicit argument,
      else the configured default. */
  function ShowCount(cfg: Config, show: Option<int>): int {
    show.GetOr(cfg.maskShowCharacters)
  }

  /** `mask_sensitive` as written: the suffix is taken as `text[-show:]`,
      which for `show == 0` is the whole text. */
  function MaskSensitive(cfg: Config, text: string, show: Option<int>): (r: string)
    ensures !cfg.maskingEnabled ==> r == text
    ensures var n := ShowCount(cfg, show);
      cfg.maskingEnabled && 1 <= n && 2 * n < |text| ==> r == text[..n] + Stars + text[|text| - n..]
    ensures cfg.maskingEnabled && ShowCount(cfg, show) == 0 && |text| > 0 ==> r == Stars + text
  {
    var n := ShowCount(cfg, show);
    if !cfg.maskingEnabled then text
    else if |text| <= n * 2 then text
    else SliceTo(text, n) + Stars + SliceFrom(text, -n)
  }

  /** `mask_sensitive` as evidently intended: show `n` characters at each
      end, so nothing at all when `n == 0`. */
  function MaskSensitiveIntended(cfg: Config, text: string, show: Option<int>): string {
    var n := ShowCount(cfg, show);
    if !cfg.maskingEnabled then text
    else if |text| <= n * 2 then text
    else SliceTo(text, n) + Stars + (if n == 0 then "" else SliceFrom(text, -n))
  }

  /** The intended masking keeps exactly the first and last `n` characters
      around four stars, and is the identity when masking is off or the text
      is too short to hide anything. */
  lemma MaskIntendedShape(cfg: Config, text: string, show: Option<int>)
    ensures var n := ShowCount(cfg, show);
      var r := MaskSensitiveIntended(cfg, text, show);
      && (!cfg.maskingEnabled || |text| <= 2 * n ==> r == text)
      && (cfg.maskingEnabled && 0 <= n && 2 * n < |text| ==>
            && r == text[..n] + Stars + text[|text| - n..]
            && |r| == 2 * n + 4)
  {
  }

  /** For a positive show count the code as written agrees with the
      intended masking. */
  lemma MaskAgreesForPositiveShow(cfg: Config, text: string, show: Option<int>)
    requires ShowCount(cfg, show) >= 1
    ensures MaskSensitive(cfg, text, show) == MaskSensitiveIntended(cfg, text, show)
  {
  }

  /** With a show count of 0 the code as written does not mask: `text[-0:]`
      is the whole text, so the result is four stars followed by the
      secret itself. */
  lemma MaskZeroShowLeaks(cfg: Config, text: string)
    requires cfg.maskingEnabled && |text| > 0
    ensures MaskSensitive(cfg, text, Some(0)) == Stars + text
    ensures MaskSensitiveIntended(cfg, text, Some(0)) == Stars
  {
  }

  // ---------------------------------------------------------------------
  // validate_config
  // ---------------------------------------------------------------------

  const CrossMark: char := '\U{274C}'
  const Warn: string := "\U{26A0}\U{FE0F}"

  datatype ConfigReport = ConfigReport(errors: seq<string>, warnings: seq<string>, ok: bool)

  function PriceWarnings(entries: seq<(string, int)>): seq<string>
    decreases |entries|
  {
    if |entries| == 0 then []
    else
      var (k, p) := entries[0];
      (if p <= 0 then [Warn + " Invalid price for " + k + ": " + IntToString(p)] else [])
      + PriceWarnings(entries[1..])
  }

  function PriceEntries(cfg: Config): seq<(string, int)> {
    [("1_code", cfg.price1), ("5_codes", cfg.price5), ("10_codes", cfg.price10),
     ("25_codes", cfg.price25), ("50_codes", cfg.price50)]
  }

  /** An error marked with the cross for each failing check, in order. */
  function MarkedErrors(checks: seq<(bool, string)>): (es: seq<string>)
    ensures forall i :: 0 <= i < |es| ==> |es[i]| > 0 && es[i][0] == CrossMark
    ensures |es| > 0 <==> exists i :: 0 <= i < |checks| && checks[i].0
    decreases |checks|
  {
    if |checks| == 0 then []
    else
      var rest := MarkedErrors(checks[1..]);
      assert forall i :: 1 <= i < |checks| ==> checks[i] == checks[1..][i - 1];
      (if checks[0].0 then [[CrossMark] + checks[0].1] else []) + rest
  }

  /** The checks whose failure is a cross-marked error, in the order
      `validate_config` makes them. */
  function BlockingChecks(cfg: Config): seq<(bool, string)> {
    [(cfg.discordToken == TokenPlaceholder, " DISCORD_TOKEN belum di-set di .env"),
     (cfg.midtransServerKey == ServerKeyPlaceholder, " MIDTRANS_SERVER_KEY belum di-set di .env"),
     (cfg.databaseType == "postgresql" && cfg.databaseUrl == "", " DATABASE_URL required for PostgreSQL"),
     (cfg.databaseType != "sqlite" && cfg.databaseType != "postgresql",
      " DATABASE_TYPE must be 'sqlite' or 'postgresql'")]
  }

  function BlockingErrors(cfg: Config): seq<string> {
    MarkedErrors(BlockingChecks(cfg))
  }

  /** The error list: the marked errors, then the channel warning, which
      is reported among the errors but carries only the warning sign. */
  function ConfigErrors(cfg: Config): seq<string> {
    BlockingErrors(cfg)
    + (if cfg.publicChannelId == 0 then [Warn + " PUBLIC_CHANNEL_ID tidak valid"] else [])
  }

  /** Some error carries the cross mark. */
  predicate HasCrossMark(errors: seq<string>) {
    exists i :: 0 <= i < |errors| && CrossMark in errors[i]
  }

  /** The error list carries a cross mark exactly when one of the four
      blocking checks fails: the channel warning never does. */
  lemma CrossMarkBlocking(cfg: Config)
    ensures HasCrossMark(ConfigErrors(cfg)) <==>
      || cfg.discordToken == TokenPlaceholder
      || cfg.midtransServerKey == ServerKeyPlaceholder
      || (cfg.databaseType == "postgresql" && cfg.databaseUrl == "")
      || (cfg.databaseType != "sqlite" && cfg.databaseType != "postgresql")
  {
    var checks := BlockingChecks(cfg);
    assert (exists i :: 0 <= i < |checks| && checks[i].0) <==>
      checks[0].0 || checks[1].0 || checks[2].0 || checks[3].0;
    var errors := ConfigErrors(cfg);
    if |BlockingErrors(cfg)| > 0 {
      assert errors[0] == BlockingErrors(cfg)[0];
      assert CrossMark in errors[0];
    } else {
      assert CrossMark !in Warn + " PUBLIC_CHANNEL_ID tidak valid";
      assert errors == (if cfg.publicChannelId == 0 then [Warn + " PUBLIC_CHANNEL_ID tidak valid"] else []);
    }
  }

  /** `validate_config`: collects errors and warnings; start-up is refused
      exactly when some error carries the cross mark, that is, exactly for
      a placeholder token or server key, a PostgreSQL database without a
      URL, or an unknown database type. */
  function ValidateConfig(cfg: Config): (r: ConfigReport)
    ensures !r.ok <==> HasCrossMark(r.errors)
    ensures !r.ok <==>
      || cfg.discordToken == TokenPlaceholder
      || cfg.midtransServerKey == ServerKeyPlaceholder
      || (cfg.databaseType == "postgresql" && cfg.databaseUrl == "")
      || (cfg.databaseType != "sqlite" && cfg.databaseType != "postgresql")
  {
    var errors := ConfigErrors(cfg);
    var warnings := PriceWarnings(PriceEntries(cfg))
      + (if cfg.encryptStockCodes && |cfg.encryptionKey| < 16
         then [Warn + " ENCRYPTION_KEY too short (min 16 chars)"] else []);
    CrossMarkBlocking(cfg);
    ConfigReport(errors, warnings, !HasCrossMark(errors))
  }

  /** A zero public channel id, non-positive prices and a short encryption
      key are reported but never stop the bot from starting. */
  lemma WarningsNeverBlock(cfg: Config, channel: int, p1: int, p5: int, p10: int,
                           p25: int, p50: int, key: string)
    ensures ValidateConfig(cfg.(publicChannelId := channel, price1 := p1, price5 := p5,
              price10 := p10, price25 := p25, price50 := p50, encryptionKey := key)).ok
            == ValidateConfig(cfg).ok
  {
  }
}
