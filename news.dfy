/** The news cards of the dashboard: processCryptoNews, which keeps the first
    two articles of one coin and shapes each into a card, and fetchLatestNews,
    which joins the three coins' cards and replaces the displayed set
    (public/app.js). */
module News {
  import opened Wrappers

  /** Cards kept per coin and in all. */
  const PerCoin: nat := 2
  const MaxCards: nat := 6

  const NoDescription: string := "No description available."
  const DefaultImage: string := "default-news.jpg"

  /** An article as the news payload gives it; `description` and
      `urlToImage` may be absent, and `coinType` is None when it is absent or
      not a string. */
  datatype NewsItem = NewsItem(
    title: string,
    description: Option<string>,
    source: string,
    url: string,
    urlToImage: Option<string>,
    coinType: Option<string>)

  /** A card ready for display. */
  datatype NewsCard = NewsCard(
    title: string,
    description: string,
    source: string,
    url: string,
    image: string,
    coinType: Option<string>,
    cardClass: string)

  /** JavaScript's falsiness for a string field: absent or empty. */
  predicate Falsy(o: Option<string>)
  {
    o.None? || o.value == ""
  }

  /** `o || fallback`. */
  function OrDefault(o: Option<string>, fallback: string): (s: string)
    ensures Falsy(o) ==> s == fallback
    ensures !Falsy(o) ==> o.Some? && s == o.value
  {
    if Falsy(o) then fallback else o.value
  }

  /** The object built for one article inside processCryptoNews. */
  function ToCard(item: NewsItem, cardClass: string): (c: NewsCard)
    ensures c.title == item.title && c.source == item.source && c.url == item.url
    ensures c.coinType == item.coinType && c.cardClass == cardClass
    ensures c.description == if Falsy(item.description) then NoDescription else item.description.value
    ensures c.image == if Falsy(item.urlToImage) then DefaultImage else item.urlToImage.value
  {
    NewsCard(item.title, OrDefault(item.description, NoDescription), item.source, item.url,
             OrDefault(item.urlToImage, DefaultImage), item.coinType, cardClass)
  }

  function Min(a: nat, b: nat): nat { if a < b then a else b }

  /** `items.map(...)`: one card of class `cardClass` per article. */
  function MapToCards(items: seq<NewsItem>, cardClass: string): (cards: seq<NewsCard>)
    ensures |cards| == |items|
    ensures forall k :: 0 <= k < |cards| ==> cards[k] == ToCard(items[k], cardClass)
  {
    if items == [] then [] else [ToCard(items[0], cardClass)] + MapToCards(items[1..], cardClass)
  }

  /** processCryptoNews: `slice(0, 2)` then the card map, so the first two
      articles, each shaped into a card of class `cardClass`. */
  function ProcessCryptoNews(items: seq<NewsItem>, cardClass: string): (cards: seq<NewsCard>)
    ensures |cards| == Min(PerCoin, |items|)
    ensures forall k :: 0 <= k < |cards| ==> cards[k] == ToCard(items[k], cardClass)
  {
    MapToCards(items[..Min(PerCoin, |items|)], cardClass)
  }

  /** Why the news step stops before anything is displayed. */
  datatype NewsError = FetchFailed | MissingCoin(coin: string)

  /** The parsed body of `/api/news`: its fields by name. */
  type NewsPayload = map<string, seq<NewsItem>>

  /** processCryptoNews for one coin's field; reading `.slice` of an absent
      field throws. */
  function CoinCards(payload: NewsPayload, coin: string, cardClass: string): (r: Result<seq<NewsCard>, NewsError>)
    ensures r.Failure? <==> coin !in payload
    ensures r.Failure? ==> r.error == MissingCoin(coin)
    ensures r.Success? ==> r.value == ProcessCryptoNews(payload[coin], cardClass)
  {
    if coin in payload then Success(ProcessCryptoNews(payload[coin], cardClass))
    else Failure(MissingCoin(coin))
  }

  /** The try block of fetchLatestNews up to `updateNewsCards`: bitcoin,
      ethereum and dogecoin cards in that order, cut to six. */
  function CombineNews(payload: NewsPayload): (r: Result<seq<NewsCard>, NewsError>)
    ensures r.Success? <==> "bitcoin" in payload && "ethereum" in payload && "dogecoin" in payload
    ensures r.Success? ==> |r.value| <= MaxCards
  {
    match CoinCards(payload, "bitcoin", "blue")
    case Failure(e) => Failure(e)
    case Success(btc) =>
      match CoinCards(payload, "ethereum", "purple")
      case Failure(e) => Failure(e)
      case Success(eth) =>
        match CoinCards(payload, "dogecoin", "orange")
        case Failure(e) => Failure(e)
        case Success(doge) =>
          var all := btc + eth + doge;
          Success(all[..Min(MaxCards, |all|)])
  }

  /** All three coins present: the result is every coin's cards, in coin
      order, and the cut to six removes nothing. */
  lemma CombineNewsComplete(payload: NewsPayload)
    requires "bitcoin" in payload && "ethereum" in payload && "dogecoin" in payload
    ensures CombineNews(payload).Success?
    ensures CombineNews(payload).value ==
              ProcessCryptoNews(payload["bitcoin"], "blue") +
              ProcessCryptoNews(payload["ethereum"], "purple") +
              ProcessCryptoNews(payload["dogecoin"], "orange")
    ensures |CombineNews(payload).value| <= MaxCards
  {
    var all := ProcessCryptoNews(payload["bitcoin"], "blue") +
               ProcessCryptoNews(payload["ethereum"], "purple") +
               ProcessCryptoNews(payload["dogecoin"], "orange");
    assert |all| <= MaxCards;
    assert all[..Min(MaxCards, |all|)] == all;
  }

  /** Any coin missing: the step fails, naming the first missing coin in the
      order the script reads them. */
  lemma CombineNewsMissing(payload: NewsPayload)
    requires !("bitcoin" in payload && "ethereum" in payload && "dogecoin" in payload)
    ensures CombineNews(payload).Failure?
    ensures "bitcoin" !in payload ==> CombineNews(payload).error == MissingCoin("bitcoin")
    ensures "bitcoin" in payload && "ethereum" !in payload ==> CombineNews(payload).error == MissingCoin("ethereum")
    ensures "bitcoin" in payload && "ethereum" in payload ==> CombineNews(payload).error == MissingCoin("dogecoin")
  {
  }

  /** `cards` holds the cards of three coins' articles in coin order: at most
      two of each, and card k of a coin is built from that coin's article k. */
  predicate InCoinOrder(cards: seq<NewsCard>, btc: seq<NewsItem>, eth: seq<NewsItem>, doge: seq<NewsItem>)
  {
    var nb := Min(PerCoin, |btc|);
    var ne := Min(PerCoin, |eth|);
    var nd := Min(PerCoin, |doge|);
    |cards| == nb + ne + nd &&
    (forall k :: 0 <= k < nb ==> cards[k] == ToCard(btc[k], "blue")) &&
    (forall k :: 0 <= k < ne ==> cards[nb + k] == ToCard(eth[k], "purple")) &&
    (forall k :: 0 <= k < nd ==> cards[nb + ne + k] == ToCard(doge[k], "orange"))
  }

  /** The three coins' processed cards, joined, are in coin order. */
  lemma ProcessedInCoinOrder(btc: seq<NewsItem>, eth: seq<NewsItem>, doge: seq<NewsItem>)
    ensures InCoinOrder(ProcessCryptoNews(btc, "blue") + ProcessCryptoNews(eth, "purple") + ProcessCryptoNews(doge, "orange"),
                        btc, eth, doge)
  {
    var b := ProcessCryptoNews(btc, "blue");
    var e := ProcessCryptoNews(eth, "purple");
    var d := ProcessCryptoNews(doge, "orange");
    var cards := b + e + d;
    forall k | 0 <= k < |b| ensures cards[k] == ToCard(btc[k], "blue") {
      assert cards[k] == (b + e)[k] == b[k];
    }
    forall k | 0 <= k < |e| ensures cards[|b| + k] == ToCard(eth[k], "purple") {
      assert cards[|b| + k] == (b + e)[|b| + k] == e[k];
    }
    forall k | 0 <= k < |d| ensures cards[|b| + |e| + k] == ToCard(doge[k], "orange") {
      assert cards[|b| + |e| + k] == d[k];
    }
  }

  /** The order of the combined cards: blue (bitcoin) before purple
      (ethereum) before orange (dogecoin), at most two of each, and card k of
      a coin is that coin's article k. */
  lemma CombineNewsLayout(payload: NewsPayload)
    requires "bitcoin" in payload && "ethereum" in payload && "dogecoin" in payload
    ensures CombineNews(payload).Success?
    ensures InCoinOrder(CombineNews(payload).value, payload["bitcoin"], payload["ethereum"], payload["dogecoin"])
  {
    CombineNewsComplete(payload);
    ProcessedInCoinOrder(payload["bitcoin"], payload["ethereum"], payload["dogecoin"]);
  }

  /** The cards updateNewsCards leaves on the page: those before the first
      card without a coinType. */
  function ShownPrefix(news: seq<NewsCard>): (shown: seq<NewsCard>)
    ensures shown <= news
    ensures forall k :: 0 <= k < |shown| ==> shown[k].coinType.Some?
    ensures |shown| < |news| ==> news[|shown|].coinType.None?
  {
    if news == [] || news[0].coinType.None? then []
    else [news[0]] + ShownPrefix(news[1..])
  }

  /** Every card is shown exactly when every card has a coinType. */
  lemma ShownPrefixComplete(news: seq<NewsCard>)
    ensures ShownPrefix(news) == news <==> forall k :: 0 <= k < |news| ==> news[k].coinType.Some?
  {
  }

  /** The prefix up to the first card without a coinType is what is shown. */
  lemma ShownPrefixAt(news: seq<NewsCard>, i: nat)
    requires i <= |news|
    requires forall k :: 0 <= k < i ==> news[k].coinType.Some?
    requires i == |news| || news[i].coinType.None?
    ensures ShownPrefix(news) == news[..i]
  {
  }

  /** The cards shown in the `.news-cards` container. */
  class NewsBoard {
    /** Whether the page has a `.news-cards` container. */
    const hasContainer: bool
    var displayed: seq<NewsCard>

    constructor (hasContainer: bool)
      ensures this.hasContainer == hasContainer && displayed == []
    {
      this.hasContainer := hasContainer;
      displayed := [];
    }

    /** updateNewsCards: clear the container, then append one card per
        entry of `news`. Building a card's tag reads `coinType.charAt`, which
        throws for a card without a string coinType; the cards appended before
        it stay. `threw` tells whether that happened. No-op without a
        container. */
    method UpdateNewsCards(news: seq<NewsCard>) returns (threw: bool)
      modifies this
      ensures displayed == if hasContainer then ShownPrefix(news) else old(displayed)
      ensures threw <==> hasContainer && ShownPrefix(news) != news
    {
      threw := false;
      if !hasContainer {
        return;
      }
      displayed := [];
      var i := 0;
      while i < |news|
        invariant 0 <= i <= |news|
        invariant displayed == news[..i]
        invariant forall k :: 0 <= k < i ==> news[k].coinType.Some?
      {
        if news[i].coinType.None? {
          threw := true;
          break;
        }
        displayed := displayed + [news[i]];
        i := i + 1;
      }
      ShownPrefixAt(news, i);
    }

    /** fetchLatestNews: `response` is the parsed body, or None when the fetch
        or the JSON parse failed. Every throw is caught. The displayed set is
        left as it was, or it is a prefix of the new set (all of it when every
        card has a coinType); old and new cards are never mixed. */
    method FetchLatestNews(response: Option<NewsPayload>)
      modifies this
      ensures response.None? ==> displayed == old(displayed)
      ensures response.Some? && CombineNews(response.value).Failure? ==> displayed == old(displayed)
      ensures response.Some? && CombineNews(response.value).Success? ==>
                displayed == if hasContainer then ShownPrefix(CombineNews(response.value).value) else old(displayed)
      ensures displayed == old(displayed) ||
              (response.Some? && CombineNews(response.value).Success? && displayed <= CombineNews(response.value).value)
    {
      if response.None? {
        return;
      }
      var combined := CombineNews(response.value);
      if combined.Failure? {
        return;
      }
      var threw := UpdateNewsCards(combined.value);
    }
  }
}
