/** nft_fetcher.js: fetches one page of a collection's items, folds them into
    the purchase payload {total, nfts, nftsPrices, partnerId}, and writes the
    payload and the equivalent curl command. Prices are exact reals. */
module NftFetcher {
  import opened FileHandler
  import opened Ortak
  import CurlGenerator

  /** One item of a collection: its id and its price. */
  datatype Nft = Nft(id: int, price: real)

  /** The payload written to the payload file. */
  datatype Payload = Payload(total: real, nfts: seq<int>, nftsPrices: map<int, real>, partnerId: int)

  /** The body of the item query. */
  datatype ItemsQuery = ItemsQuery(page: int, collectionId: int, partnerId: int)

  /** The page asked for when the caller passes none. */
  const DefaultPage := 10

  /** The body fetchNFTs sends: `{page, collectionId, partnerId: 0}`. */
  function RequestBody(collectionId: int, page: Option<int>): (q: ItemsQuery)
    ensures q.collectionId == collectionId && q.partnerId == 0
    ensures page.Some? ==> q.page == page.value
    ensures page.None? ==> q.page == 10
  {
    ItemsQuery(if page.Some? then page.value else DefaultPage, collectionId, 0)
  }

  /** fetchNFTs: the item list of an accepted reply; [] when the call threw,
      the status was not ok or the code was not 0. */
  function FetchNFTs(r: Response<Nft>): (items: seq<Nft>)
    ensures Accepted(r) ==> items == r.items
    ensures !Accepted(r) ==> items == []
  {
    if Accepted(r) then r.items else []
  }

  /** `!collectionId` is false: the id is a number other than 0 and NaN.
      None stands for undefined and for NaN from parseInt. */
  predicate CollectionIdGiven(collectionId: Option<int>)
  {
    collectionId.Some? && collectionId.value != 0
  }

  /** The sum of the prices, accumulated in item order. */
  function Sum(items: seq<Nft>): real
  {
    if items == [] then 0.0 else Sum(items[..|items| - 1]) + items[|items| - 1].price
  }

  /** The item ids in item order. */
  function Ids(items: seq<Nft>): (ids: seq<int>)
    ensures |ids| == |items|
    ensures forall i :: 0 <= i < |items| ==> ids[i] == items[i].id
  {
    if items == [] then [] else Ids(items[..|items| - 1]) + [items[|items| - 1].id]
  }

  /** The id-to-price object, each item assigned in order. */
  function PriceMap(items: seq<Nft>): map<int, real>
  {
    if items == [] then map[] else PriceMap(items[..|items| - 1])[items[|items| - 1].id := items[|items| - 1].price]
  }

  /** 10^10: toFixed(10) keeps ten decimal places. */
  const Scale: real := 10000000000.0

  /** The nearest multiple of 1/Scale at or above |x| - 1/(2 Scale). */
  function RoundMagnitude(x: real): real
  {
    ((x * Scale + 0.5).Floor as real) / Scale
  }

  /** parseFloat(x.toFixed(10)) on an exact value: the nearest multiple of
      10^-10, a tie going away from zero (toFixed rounds the magnitude). */
  function Round10(x: real): real
  {
    if x < 0.0 then -RoundMagnitude(-x) else RoundMagnitude(x)
  }

  /** The rounded total is within half a unit of the tenth decimal. */
  lemma Round10Close(x: real)
    ensures -0.5 / Scale <= Round10(x) - x <= 0.5 / Scale
  {
    var y := if x < 0.0 then -x else x;
    var f := (y * Scale + 0.5).Floor;
    assert f as real <= y * Scale + 0.5 < f as real + 1.0;
    assert RoundMagnitude(y) * Scale == f as real;
  }

  /** A value that already has at most ten decimals is kept as it is. */
  lemma Round10Keeps(k: int)
    ensures Round10(k as real / Scale) == k as real / Scale
  {
    if k < 0 {
      assert -(k as real / Scale) * Scale + 0.5 == (-k) as real + 0.5;
      assert (-(k as real / Scale) * Scale + 0.5).Floor == -k;
    } else {
      assert (k as real / Scale) * Scale + 0.5 == k as real + 0.5;
      assert ((k as real / Scale) * Scale + 0.5).Floor == k;
    }
  }

  /** The payload before rounding: the exact total, the ids, the prices. */
  function Accumulate(items: seq<Nft>): Payload
  {
    Payload(Sum(items), Ids(items), PriceMap(items), 0)
  }

  /** What processNFTs returns: the accumulated payload with its total
      rounded to ten decimals. */
  function Aggregate(items: seq<Nft>): Payload
  {
    Payload(Round10(Sum(items)), Ids(items), PriceMap(items), 0)
  }

  /** processNFTs: one pass over the items, accumulating the total, pushing
      each id and assigning each price. */
  method ProcessNFTs(nfts: seq<Nft>) returns (result: Payload)
    ensures result == Aggregate(nfts)
    ensures result.partnerId == 0 && |result.nfts| == |nfts|
    ensures forall i :: 0 <= i < |nfts| ==> result.nfts[i] == nfts[i].id
  {
    result := Payload(0.0, [], map[], 0);
    var i := 0;
    while i < |nfts|
      invariant 0 <= i <= |nfts|
      invariant result == Accumulate(nfts[..i])
    {
      var nft := nfts[i];
      assert nfts[..i + 1][..i] == nfts[..i];
      result := result.(total := result.total + nft.price,
                        nfts := result.nfts + [nft.id],
                        nftsPrices := result.nftsPrices[nft.id := nft.price]);
      i := i + 1;
    }
    assert nfts[..i] == nfts;
    result := result.(total := Round10(result.total));
  }

  lemma {:induction false} SumAppend(a: seq<Nft>, b: seq<Nft>)
    ensures Sum(a + b) == Sum(a) + Sum(b)
    decreases |b|
  {
    if b != [] {
      assert (a + b)[|a + b| - 1] == b[|b| - 1];
      assert (a + b)[..|a + b| - 1] == a + b[..|b| - 1];
      SumAppend(a, b[..|b| - 1]);
    } else {
      assert a + b == a;
    }
  }

  /** Taking out the item at j takes its price out of the sum. */
  lemma SumRemove(b: seq<Nft>, j: nat)
    requires j < |b|
    ensures Sum(b) == Sum(b[..j] + b[j + 1..]) + b[j].price
  {
    assert b[..j + 1] + b[j + 1..] == b;
    SumAppend(b[..j + 1], b[j + 1..]);
    assert b[..j + 1][..j] == b[..j];
    assert Sum(b[..j + 1]) == Sum(b[..j]) + b[j].price;
    SumAppend(b[..j], b[j + 1..]);
  }

  /** Taking out the item at j takes one copy of it out of the multiset. */
  lemma MultisetRemove(b: seq<Nft>, j: nat)
    requires j < |b|
    ensures multiset(b[..j] + b[j + 1..]) == multiset(b) - multiset{b[j]}
  {
    assert b == b[..j] + [b[j]] + b[j + 1..];
    assert multiset(b) == multiset(b[..j]) + multiset{b[j]} + multiset(b[j + 1..]);
  }

  /** The total does not depend on item order: any permutation of the items
      has the same sum. */
  lemma {:induction false} SumPermutation(a: seq<Nft>, b: seq<Nft>)
    requires multiset(a) == multiset(b)
    ensures Sum(a) == Sum(b)
    decreases |a|
  {
    if a == [] {
      assert |b| == |multiset(b)| == 0;
    } else {
      var x := a[|a| - 1];
      assert x in multiset(b);
      var j :| 0 <= j < |b| && b[j] == x;
      MultisetRemove(a, |a| - 1);
      MultisetRemove(b, j);
      assert a[..|a| - 1] + a[|a|..] == a[..|a| - 1];
      SumPermutation(a[..|a| - 1], b[..j] + b[j + 1..]);
      SumRemove(b, j);
    }
  }

  /** Every item's id is a key of nftsPrices, and there are no other keys. */
  lemma {:induction false} PriceMapKeys(items: seq<Nft>)
    ensures PriceMap(items).Keys == set x | x in items :: x.id
    decreases |items|
  {
    if items != [] {
      var front := items[..|items| - 1];
      PriceMapKeys(front);
      assert items == front + [items[|items| - 1]];
    }
  }

  /** The price recorded for an id is that of the last item with that id:
      later duplicates overwrite earlier ones. */
  lemma {:induction false} PriceMapLastWins(items: seq<Nft>, i: nat)
    requires i < |items|
    requires forall j :: i < j < |items| ==> items[j].id != items[i].id
    ensures items[i].id in PriceMap(items) && PriceMap(items)[items[i].id] == items[i].price
    decreases |items|
  {
    if i < |items| - 1 {
      var front := items[..|items| - 1];
      PriceMapLastWins(front, i);
    }
  }

  /** The price of an item whose id no different item shares. */
  lemma {:induction false} PriceMapMember(items: seq<Nft>, x: Nft)
    requires x in items
    requires forall y :: y in items && y.id == x.id ==> y == x
    ensures x.id in PriceMap(items) && PriceMap(items)[x.id] == x.price
    decreases |items|
  {
    var front := items[..|items| - 1];
    assert items == front + [items[|items| - 1]];
    if items[|items| - 1] != x {
      PriceMapMember(front, x);
    }
  }

  /** When an id always carries the same price, nftsPrices does not depend
      on item order. */
  lemma PriceMapPermutation(a: seq<Nft>, b: seq<Nft>)
    requires multiset(a) == multiset(b)
    requires forall x, y :: x in a && y in a && x.id == y.id ==> x == y
    ensures PriceMap(a) == PriceMap(b)
  {
    assert forall x :: x in a <==> x in b by {
      forall x ensures x in a <==> x in b {
        assert x in a <==> x in multiset(a);
        assert x in b <==> x in multiset(b);
      }
    }
    PriceMapKeys(a);
    PriceMapKeys(b);
    forall k | k in PriceMap(a)
      ensures k in PriceMap(b) && PriceMap(a)[k] == PriceMap(b)[k]
    {
      var x :| x in a && x.id == k;
      PriceMapMember(a, x);
      PriceMapMember(b, x);
    }
  }

  /** With two prices for one id, order does matter: the later one wins. */
  lemma DuplicateIdOrderMatters()
    ensures PriceMap([Nft(1, 1.0), Nft(1, 2.0)]) == map[1 := 2.0]
    ensures PriceMap([Nft(1, 2.0), Nft(1, 1.0)]) == map[1 := 1.0]
  {
    assert [Nft(1, 1.0), Nft(1, 2.0)][..1] == [Nft(1, 1.0)];
    assert [Nft(1, 2.0), Nft(1, 1.0)][..1] == [Nft(1, 2.0)];
  }

  /** No items: total 0, no ids, no prices. */
  lemma EmptyAggregate()
    ensures Aggregate([]) == Payload(0.0, [], map[], 0)
  {
    Round10Keeps(0);
  }

  /** Reordering the items changes neither the rounded total nor, when an id
      always carries the same price, the price map; the id list is permuted
      the same way. */
  lemma AggregatePermutation(a: seq<Nft>, b: seq<Nft>)
    requires multiset(a) == multiset(b)
    requires forall x, y :: x in a && y in a && x.id == y.id ==> x == y
    ensures Aggregate(a).total == Aggregate(b).total
    ensures Aggregate(a).nftsPrices == Aggregate(b).nftsPrices
  {
    SumPermutation(a, b);
    PriceMapPermutation(a, b);
  }

  /** 0.1 + 0.2 sums to 0.3 exactly; it has one decimal, so it survives the
      rounding. */
  lemma TenthsExample(a: int, b: int)
    ensures Aggregate([Nft(a, 0.1), Nft(b, 0.2)]).total == 0.3
  {
    var items := [Nft(a, 0.1), Nft(b, 0.2)];
    assert items[..1] == [Nft(a, 0.1)];
    assert [Nft(a, 0.1)][..0] == [];
    assert Sum(items[..1]) == Sum([]) + 0.1;
    assert Sum(items) == 0.3;
    Round10Keeps(3000000000);
  }

  /** Two items priced 1.2345678901 and 2.0 give the exact total
      3.2345678901, both ids in order and both prices. */
  lemma TwoItemExample(a: int, b: int)
    requires a != b
    ensures Aggregate([Nft(a, 1.2345678901), Nft(b, 2.0)])
      == Payload(3.2345678901, [a, b], map[a := 1.2345678901, b := 2.0], 0)
  {
    var items := [Nft(a, 1.2345678901), Nft(b, 2.0)];
    assert items[..1] == [Nft(a, 1.2345678901)];
    assert [Nft(a, 1.2345678901)][..0] == [];
    assert Sum(items[..1]) == Sum([]) + 1.2345678901;
    assert Sum(items) == 1.2345678901 + 2.0;
    assert Ids(items) == [a, b];
    assert PriceMap(items[..1]) == map[a := 1.2345678901];
    assert PriceMap(items) == map[a := 1.2345678901][b := 2.0];
    Round10Keeps(32345678901);
  }

  /** `${token}` of the command-line token: "undefined" when none was given. */
  function TokenText(token: Option<string>): string
  {
    if token.Some? then token.value else "undefined"
  }

  /** The files after run: untouched without a collection id or without
      items; otherwise the payload is written to payloadPath, then the curl
      command for it to curlPath. `generateCurl` renders (body, URL, token)
      as a command; run uses CurlGenerator.GenerateCurl. */
  function RunFiles(files: Files<Payload>, payloadPath: string, curlPath: string, nftUrl: string,
                    stringify: Payload -> string, generateCurl: (string, string, string) -> string,
                    collectionId: Option<int>, token: Option<string>,
                    response: Response<Nft>, payloadOk: bool, curlOk: bool): Files<Payload>
  {
    if !CollectionIdGiven(collectionId) || FetchNFTs(response) == [] then files
    else
      var p := Aggregate(FetchNFTs(response));
      var cmd := generateCurl(stringify(p), nftUrl, TokenText(token));
      Write(Write(files, payloadPath, Json(p), payloadOk), curlPath, Raw(cmd), curlOk)
  }

  class OrtakNftFetcher {
    const nftUrl: string
    const buyNftPayload: string
    const buyNftCurl: string
    /** JSON.stringify, which the model does not interpret. */
    const stringify: Payload -> string
    const disk: FileStore<Payload>

    constructor (baseUrl: string, buyNftPayload: string, buyNftCurl: string,
                 stringify: Payload -> string, disk: FileStore<Payload>)
      ensures nftUrl == baseUrl + "/panel/collections/nfts"
      ensures this.buyNftPayload == buyNftPayload && this.buyNftCurl == buyNftCurl
      ensures this.stringify == stringify && this.disk == disk
    {
      nftUrl := baseUrl + "/panel/collections/nfts";
      this.buyNftPayload := buyNftPayload;
      this.buyNftCurl := buyNftCurl;
      this.stringify := stringify;
      this.disk := disk;
    }

    /** run: the query it sends (None when it sends none) and the payload it
        returns (None for undefined). `response` is what the marketplace
        answers; payloadOk and curlOk decide whether the two writes succeed. */
    method Run(collectionId: Option<int>, page: Option<int>, token: Option<string>,
               response: Response<Nft>, payloadOk: bool, curlOk: bool)
      returns (request: Option<ItemsQuery>, result: Option<Payload>)
      modifies disk
      ensures !CollectionIdGiven(collectionId) ==> request == None && result == None
      ensures CollectionIdGiven(collectionId) ==>
        request == Some(RequestBody(collectionId.value, page))
      ensures CollectionIdGiven(collectionId) && FetchNFTs(response) == [] ==> result == None
      ensures CollectionIdGiven(collectionId) && FetchNFTs(response) != [] ==>
        result == Some(Aggregate(FetchNFTs(response)))
      ensures disk.files == RunFiles(old(disk.files), buyNftPayload, buyNftCurl, nftUrl, stringify,
                                     CurlGenerator.GenerateCurl, collectionId, token, response, payloadOk, curlOk)
    {
      if !CollectionIdGiven(collectionId) {
        return None, None;
      }
      request := Some(RequestBody(collectionId.value, page));
      var nfts := FetchNFTs(response);
      if |nfts| == 0 {
        return request, None;
      }
      var processedPayload := ProcessNFTs(nfts);
      ghost var cmd := CurlGenerator.GenerateCurl(stringify(processedPayload), nftUrl, TokenText(token));
      disk.WriteToFile(Json(processedPayload), buyNftPayload, payloadOk);
      ghost var written := disk.files;
      CurlGenerator.Run(disk, stringify(processedPayload), nftUrl, TokenText(token), buyNftCurl, curlOk);
      assert disk.files == Write(written, buyNftCurl, Raw(cmd), curlOk);
      result := Some(processedPayload);
    }
  }

  /** Without a collection id, or when the fetch failed or found no items,
      run writes nothing. */
  lemma RunWritesNothing(files: Files<Payload>, payloadPath: string, curlPath: string, nftUrl: string,
                         stringify: Payload -> string, generateCurl: (string, string, string) -> string,
                         collectionId: Option<int>, token: Option<string>,
                         response: Response<Nft>, payloadOk: bool, curlOk: bool)
    requires !CollectionIdGiven(collectionId) || !Accepted(response) || response.items == []
    ensures RunFiles(files, payloadPath, curlPath, nftUrl, stringify, generateCurl, collectionId, token, response, payloadOk, curlOk) == files
  {
  }

  /** With items and both writes succeeding, the payload file reads back as
      the aggregate of the items, the curl file holds the command for it as
      raw text, and no other file changes. */
  lemma RunOutputs(files: Files<Payload>, payloadPath: string, curlPath: string, nftUrl: string,
                   stringify: Payload -> string, generateCurl: (string, string, string) -> string,
                         collectionId: Option<int>, token: Option<string>,
                   response: Response<Nft>)
    requires CollectionIdGiven(collectionId) && Accepted(response) && response.items != []
    requires payloadPath != curlPath
    ensures var after := RunFiles(files, payloadPath, curlPath, nftUrl, stringify, generateCurl, collectionId, token, response, true, true);
      var p := Aggregate(response.items);
      Read(after, payloadPath) == Parsed(p)
      && curlPath in after && after[curlPath] == Raw(generateCurl(stringify(p), nftUrl, TokenText(token)))
      && forall q :: q != payloadPath && q != curlPath ==> Read(after, q) == Read(files, q)
  {
    var p := Aggregate(response.items);
    var cmd := generateCurl(stringify(p), nftUrl, TokenText(token));
    assert RunFiles(files, payloadPath, curlPath, nftUrl, stringify, generateCurl, collectionId, token, response, true, true)
        == Write(Write(files, payloadPath, Json(p), true), curlPath, Raw(cmd), true);
    WriteTwoFiles(files, payloadPath, curlPath, p, Raw(cmd));
  }

  /** A document written to one path and any content to another: the first
      reads back as the document, the second holds the content, and every
      other path reads as before. */
  lemma WriteTwoFiles<D>(files: Files<D>, path1: string, path2: string, doc: D, c2: Content<D>)
    requires path1 != path2
    ensures var after := Write(Write(files, path1, Json(doc), true), path2, c2, true);
      Read(after, path1) == Parsed(doc)
      && path2 in after && after[path2] == c2
      && forall q :: q != path1 && q != path2 ==> Read(after, q) == Read(files, q)
  {
    var mid := Write(files, path1, Json(doc), true);
    ReadAfterWrite(files, path1, doc, path2);
    assert Read(Write(mid, path2, c2, true), path1) == Read(mid, path1);
  }

  /** Writing the same two contents to the same two paths again changes
      nothing. */
  lemma WriteTwice<D>(files: Files<D>, path1: string, path2: string, c1: Content<D>, c2: Content<D>)
    ensures var once := Write(Write(files, path1, c1, true), path2, c2, true);
      Write(Write(once, path1, c1, true), path2, c2, true) == once
  {
    var once := files[path1 := c1][path2 := c2];
    assert once[path1 := c1][path2 := c2] == once;
  }

  /** Re-running with the same inputs leaves the same files as one run. */
  lemma RerunSameOutputs(files: Files<Payload>, payloadPath: string, curlPath: string, nftUrl: string,
                         stringify: Payload -> string, generateCurl: (string, string, string) -> string,
                         collectionId: Option<int>, token: Option<string>,
                         response: Response<Nft>)
    ensures var once := RunFiles(files, payloadPath, curlPath, nftUrl, stringify, generateCurl, collectionId, token, response, true, true);
      RunFiles(once, payloadPath, curlPath, nftUrl, stringify, generateCurl, collectionId, token, response, true, true) == once
  {
    if CollectionIdGiven(collectionId) && FetchNFTs(response) != [] {
      var p := Aggregate(FetchNFTs(response));
      var cmd := generateCurl(stringify(p), nftUrl, TokenText(token));
      var once := Write(Write(files, payloadPath, Json(p), true), curlPath, Raw(cmd), true);
      assert RunFiles(files, payloadPath, curlPath, nftUrl, stringify, generateCurl, collectionId, token, response, true, true) == once;
      assert RunFiles(once, payloadPath, curlPath, nftUrl, stringify, generateCurl, collectionId, token, response, true, true)
          == Write(Write(once, payloadPath, Json(p), true), curlPath, Raw(cmd), true);
      WriteTwice(files, payloadPath, curlPath, Json(p), Raw(cmd));
    }
  }
}
