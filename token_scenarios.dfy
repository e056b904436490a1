/** The RwaToken test suite replayed against the model: a fresh deployment per
    test, by the deployer, of a token named "Real World Asset Token" with symbol
    "RWA". */
module TokenScenarios {
  import opened Common
  import opened TokenContract

  const Deployer: Address := 0
  const Metadata: string := "https://example.com/metadata"
  const NewMetadata: string := "https://example.com/new-metadata"

  method Deploy() returns (t: RwaToken)
    ensures fresh(t) && t.Valid()
    ensures t.name == "Real World Asset Token" && t.symbol == "RWA" && t.owner == Deployer
    ensures t.tokenCount == 0 && t.log == []
  {
    t := new RwaToken(Deployer, "Real World Asset Token", "RWA");
  }

  /** Deployment records the name, the symbol and the deployer as owner. */
  method DeploymentScenario() returns (name: string, symbol: string, owner: Address)
    ensures name == "Real World Asset Token" && symbol == "RWA" && owner == Deployer
  {
    var t := Deploy();
    name, symbol, owner := t.name, t.symbol, t.owner;
  }

  /** The first mint creates token 1 for the recipient with the given URL and
      announces the URL. */
  method MintScenario() returns (tokenId: nat, owner: Option<Address>, uri: Result<string, TokenRevert>, emitted: seq<TokenEvent>)
    ensures tokenId == 1
    ensures owner == Some(Deployer) && uri == Ok(Metadata)
    ensures emitted == [UrlUpdated(1, Metadata)]
  {
    var t := Deploy();
    tokenId := t.Mint(Deployer, Metadata);
    owner := t.OwnerOf(1);
    uri := t.TokenURI(1);
    emitted := t.log;
  }

  /** Replacing the URL of a minted token changes what tokenURI returns and
      announces the new URL. */
  method SetUrlScenario() returns (r: Outcome<TokenRevert>, uri: Result<string, TokenRevert>, emitted: seq<TokenEvent>)
    ensures r == Pass && uri == Ok(NewMetadata)
    ensures emitted == [UrlUpdated(1, NewMetadata)]
  {
    var t := Deploy();
    var tokenId := t.Mint(Deployer, Metadata);
    var before := |t.log|;
    r := t.SetUrl(1, NewMetadata);
    uri := t.TokenURI(1);
    emitted := t.log[before..];
  }

  /** Setting the URL of a token that was never minted reverts. */
  method SetUrlNonexistentScenario() returns (r: Outcome<TokenRevert>, uri: Result<string, TokenRevert>)
    ensures r.Fail? && Message(r.error) == "RwaToken: URL set of nonexistent token"
    ensures uri.Err?
  {
    var t := Deploy();
    r := t.SetUrl(1, NewMetadata);
    uri := t.TokenURI(1);
  }

  /** Reading the URL of a token that was never minted reverts. */
  method TokenUriNonexistentScenario() returns (uri: Result<string, TokenRevert>)
    ensures uri.Err? && Message(uri.error) == "RwaToken: URL query for nonexistent token"
  {
    var t := Deploy();
    uri := t.TokenURI(1);
  }

  /** A second mint leaves the first token's owner and URL as they were. */
  method SecondMintScenario(other: Address) returns (tokenId: nat, owner: Option<Address>, uri: Result<string, TokenRevert>)
    ensures tokenId == 2
    ensures owner == Some(Deployer) && uri == Ok(Metadata)
  {
    var t := Deploy();
    var first := t.Mint(Deployer, Metadata);
    tokenId := t.Mint(other, NewMetadata);
    owner := t.OwnerOf(1);
    uri := t.TokenURI(1);
  }
}
