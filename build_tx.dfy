/** The token table behind the swap builder: the mint address and the number
    of decimals of each supported token, and the checks the builder makes
    before it contacts the aggregator. */
module BuildTx {
  import opened Wrappers
  import opened Strings

  /** Mainnet mint addresses. */
  const SolMint: string := "So11111111111111111111111111111111111111112"
  const UsdcMint: string := "EPjFWdd5AufqSSqeM2qN1xzybapC8G4wEGGkZwyTDt1v"

  /** Decimals per upper-case symbol. */
  const TokenDecimals: map<string, nat> := map["SOL" := 9, "USDC" := 6]

  /** The tokens the builder trades. */
  predicate Supported(token: string) {
    Upper(token) == "SOL" || Upper(token) == "USDC"
  }

  /** `mintForToken`: the mint of a supported token, whatever its case; any
      other token is refused with a message naming it as given. */
  function MintForToken(token: string): (r: Result<string, string>)
    ensures r.Ok? <==> Supported(token)
    ensures r.Ok? ==> (r.value == SolMint <==> Upper(token) == "SOL")
    ensures r.Ok? ==> (r.value == UsdcMint <==> Upper(token) == "USDC")
    ensures r.Err? ==> r.error == "Unsupported token: " + token + ". Only SOL and USDC are supported."
  {
    var symbol := Upper(token);
    if symbol == "SOL" then Ok(SolMint)
    else if symbol == "USDC" then Ok(UsdcMint)
    else Err("Unsupported token: " + token + ". Only SOL and USDC are supported.")
  }

  /** The decimals lookup: the entry under the upper-cased token, or an
      "Unknown token" error naming the token as given. */
  function Decimals(token: string): (r: Result<nat, string>)
    ensures r.Ok? <==> Upper(token) in TokenDecimals
    ensures r.Ok? ==> r.value == TokenDecimals[Upper(token)]
    ensures r.Err? ==> r.error == "Unknown token: " + token
  {
    var symbol := Upper(token);
    if symbol in TokenDecimals then Ok(TokenDecimals[symbol]) else Err("Unknown token: " + token)
  }

  function Pow10(n: nat): (r: nat)
    ensures r >= 1
  {
    if n == 0 then 1 else 10 * Pow10(n - 1)
  }

  /** `toSmallestUnit`: the amount in the token's smallest unit, rounded to
      the nearest integer with halves rounded up. */
  function ToSmallestUnit(amount: real, token: string): (r: Result<int, string>)
    ensures r.Ok? <==> Upper(token) in TokenDecimals
    ensures r.Err? ==> r.error == "Unknown token: " + token
    ensures r.Ok? ==>
      var scaled := amount * Pow10(TokenDecimals[Upper(token)]) as real;
      r.value as real <= scaled + 0.5 < r.value as real + 1.0
  {
    match Decimals(token)
    case Err(e) => Err(e)
    case Ok(d) => Ok((amount * Pow10(d) as real + 0.5).Floor)
  }

  /** A whole number of tokens converts without rounding. */
  lemma WholeAmountsExact(n: nat, token: string)
    requires Upper(token) in TokenDecimals
    ensures ToSmallestUnit(n as real, token) == Ok(n * Pow10(TokenDecimals[Upper(token)]))
  {
    var p := Pow10(TokenDecimals[Upper(token)]);
    assert (n as real) * (p as real) == (n * p) as real;
    assert ((n * p) as real + 0.5).Floor == n * p;
  }

  /** The two tables agree: a token has a mint exactly when it has decimals,
      and SOL has 9 while USDC has 6. */
  lemma TablesAgree(token: string)
    ensures MintForToken(token).Ok? <==> Decimals(token).Ok?
    ensures MintForToken(token) == Ok(SolMint) ==> Decimals(token) == Ok(9)
    ensures MintForToken(token) == Ok(UsdcMint) ==> Decimals(token) == Ok(6)
  {
    var symbol := Upper(token);
    if symbol in TokenDecimals {
      assert symbol == "SOL" || symbol == "USDC";
    }
    assert SolMint != UsdcMint by {
      assert SolMint[0] != UsdcMint[0];
    }
  }

  /** The mint ignores case: a token and its upper-cased form have the same
      mint, or are both refused. */
  lemma MintIgnoresCase(token: string)
    ensures MintForToken(Upper(token)).Ok? <==> MintForToken(token).Ok?
    ensures MintForToken(token).Ok? ==> MintForToken(Upper(token)) == MintForToken(token)
  {
    UpperIdempotent(token);
  }

  /** Distinct tokens have distinct mints: a swap between two different
      supported tokens never names one mint twice. */
  lemma MintsDistinct(a: string, b: string)
    requires Supported(a) && Supported(b) && Upper(a) != Upper(b)
    ensures MintForToken(a).value != MintForToken(b).value
  {
    assert SolMint[0] != UsdcMint[0];
  }

  /** The query the builder sends to the aggregator once the inputs pass its
      checks. */
  datatype SwapQuery = SwapQuery(inputMint: string, outputMint: string, amount: int, slippageBps: nat)

  /** `buildJupiterSwapTx` up to its first request: the input mint, then the
      output mint, then the amount in the input token's smallest unit, each
      check failing before any network traffic. */
  function PrepareSwap(fromToken: string, toToken: string, amount: real): (r: Result<SwapQuery, string>)
    ensures r.Ok? <==> Supported(fromToken) && Supported(toToken)
    ensures !Supported(fromToken) ==> r == Err(MintForToken(fromToken).error)
    ensures Supported(fromToken) && !Supported(toToken) ==> r == Err(MintForToken(toToken).error)
    ensures r.Ok? ==>
      r.value.inputMint == MintForToken(fromToken).value && r.value.outputMint == MintForToken(toToken).value &&
      r.value.slippageBps == 50 && Ok(r.value.amount) == ToSmallestUnit(amount, fromToken)
  {
    TablesAgree(fromToken);
    match MintForToken(fromToken)
    case Err(e) => Err(e)
    case Ok(inputMint) =>
      match MintForToken(toToken)
      case Err(e) => Err(e)
      case Ok(outputMint) =>
        match ToSmallestUnit(amount, fromToken)
        case Err(e) => Err(e)
        case Ok(units) => Ok(SwapQuery(inputMint, outputMint, units, 50))
  }
}
