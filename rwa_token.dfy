/** The RwaToken contract: a non-fungible token whose ids are handed out in
    sequence from 1, each carrying an owner and a metadata URL that can be
    replaced later. */
module TokenContract {
  import opened Common

  /** The notification emitted whenever a token's URL is written. */
  datatype TokenEvent = UrlUpdated(tokenId: nat, url: string)

  /** Why a token call reverts. */
  datatype TokenRevert = UrlSetOfNonexistent | UrlQueryForNonexistent

  /** The revert text the contract reports for each failure; each text names
      its failure and no other. */
  function Message(e: TokenRevert): (m: string)
    ensures e == UrlSetOfNonexistent <==> m == "RwaToken: URL set of nonexistent token"
    ensures e == UrlQueryForNonexistent <==> m == "RwaToken: URL query for nonexistent token"
  {
    match e
    case UrlSetOfNonexistent => "RwaToken: URL set of nonexistent token"
    case UrlQueryForNonexistent => "RwaToken: URL query for nonexistent token"
  }

  class RwaToken {
    const name: string
    const symbol: string
    const owner: Address
    var tokenCount: nat
    var owners: map<nat, Address>
    var urls: map<nat, string>
    var log: seq<TokenEvent>

    /** Exactly the ids 1 .. tokenCount exist, each with an owner and a URL. */
    ghost predicate Valid()
      reads this
    {
      && (forall id :: id in owners <==> 1 <= id <= tokenCount)
      && (forall id :: id in urls <==> 1 <= id <= tokenCount)
    }

    /** Deployment records the name, the symbol and the deployer as owner;
        no token exists yet. */
    constructor (deployer: Address, tokenName: string, tokenSymbol: string)
      ensures Valid()
      ensures name == tokenName && symbol == tokenSymbol && owner == deployer
      ensures tokenCount == 0 && owners == map[] && urls == map[] && log == []
    {
      name, symbol, owner := tokenName, tokenSymbol, deployer;
      tokenCount := 0;
      owners, urls := map[], map[];
      log := [];
    }

    /** The owner of `tokenId`, or None when no such token was minted. */
    function OwnerOf(tokenId: nat): (r: Option<Address>)
      requires Valid()
      reads this
      ensures r.Some? <==> 1 <= tokenId <= tokenCount
    {
      if tokenId in owners then Some(owners[tokenId]) else None
    }

    /** The metadata URL of `tokenId`; reverts for an id never minted. */
    function TokenURI(tokenId: nat): (r: Result<string, TokenRevert>)
      requires Valid()
      reads this
      ensures r.Ok? <==> 1 <= tokenId <= tokenCount
      ensures r.Err? ==> Message(r.error) == "RwaToken: URL query for nonexistent token"
    {
      if tokenId in urls then Ok(urls[tokenId]) else Err(UrlQueryForNonexistent)
    }

    /** Creates the next token for `to` with metadata `url`. The new id is one
        past the last, so it is 1 for the first mint; no other token changes. */
    method Mint(to: Address, url: string) returns (tokenId: nat)
      requires Valid()
      modifies this
      ensures Valid()
      ensures tokenId == old(tokenCount) + 1 && tokenCount == tokenId
      ensures old(OwnerOf(tokenId)).None?
      ensures OwnerOf(tokenId) == Some(to) && TokenURI(tokenId) == Ok(url)
      ensures forall id :: id != tokenId ==> OwnerOf(id) == old(OwnerOf(id)) && TokenURI(id) == old(TokenURI(id))
      ensures owners == old(owners)[tokenId := to] && urls == old(urls)[tokenId := url]
      ensures log == old(log) + [UrlUpdated(tokenId, url)]
    {
      tokenCount := tokenCount + 1;
      tokenId := tokenCount;
      owners := owners[tokenId := to];
      urls := urls[tokenId := url];
      log := log + [UrlUpdated(tokenId, url)];
    }

    /** Replaces the URL of an existing token; reverts, changing nothing, for an
        id never minted. */
    method SetUrl(tokenId: nat, url: string) returns (r: Outcome<TokenRevert>)
      requires Valid()
      modifies this
      ensures Valid()
      ensures r == if 1 <= tokenId <= old(tokenCount) then Pass else Fail(UrlSetOfNonexistent)
      ensures r.Fail? ==> Message(r.error) == "RwaToken: URL set of nonexistent token"
      ensures r.Pass? ==> TokenURI(tokenId) == Ok(url)
      ensures r.Pass? ==> forall id :: id != tokenId ==> TokenURI(id) == old(TokenURI(id))
      ensures r.Pass? ==> urls == old(urls)[tokenId := url] && log == old(log) + [UrlUpdated(tokenId, url)]
      ensures r.Pass? ==> tokenCount == old(tokenCount) && owners == old(owners)
      ensures r.Fail? ==> unchanged(this)
    {
      if tokenId !in urls {
        return Fail(UrlSetOfNonexistent);
      }
      urls := urls[tokenId := url];
      log := log + [UrlUpdated(tokenId, url)];
      return Pass;
    }
  }
}
