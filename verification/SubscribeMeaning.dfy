/** What the text of a subscribe command asks for, escapes inside its strings included, against what is checked. */
module SubscribeMeaning {
  import opened Prelude
  import opened JsonTree
  import opened JsonText
  import opened MarketEvents
  import opened Subscribe

  // ---------------------------------------------------------------- what a command subscribes to

  /** The items of a list in the parameters of a command that was read. */
  function ParamList(doc: Json, key: string): Option<seq<Json>> {
    match Field(doc, "params")
    case Some(JObject(params)) =>
      (match Find(params, key)
       case Some(JArray(items)) => Some(items)
       case _ => None)
    case _ => None
  }

  predicate SubscribesToDeltas(doc: Json) {
    var channels := ParamList(doc, "channels");
    channels.Some? && JString(ORDERBOOK_DELTA) in channels.value
  }

  predicate NamesTickers(doc: Json) {
    var tickers := ParamList(doc, "market_tickers");
    tickers.Some? && tickers.value != []
  }

  lemma RequestLists(req: SubscribeRequest)
    ensures ParamList(RequestTree(req), "channels") == Some(StringItems(req.channels))
    ensures ParamList(RequestTree(req), "market_tickers") ==
            if req.tickers == [] then None else Some(StringItems(req.tickers))
  {
    FindFirst(RequestTree(req).members, "params", 2);
    var params := ParamsTree(req).members;
    FindFirst(params, "channels", 0);
    FindFirst(params, "market_tickers", 1);
  }

  lemma StringItemsHold(texts: seq<string>, text: string)
    ensures JString(text) in StringItems(texts) <==> text in texts
  {
    if text in texts {
      var i :| 0 <= i < |texts| && texts[i] == text;
      assert StringItems(texts)[i] == JString(text);
    }
  }

  // ---------------------------------------------------------------- what unescaped strings mean

  /** Between quotes as it is, the item is one whole string; it may hold escapes of its own. */
  predicate Closed(item: string) {
    var r := ParseChars(item + "\"");
    r.Parsed? && r.rest == ""
  }

  /** The string it is read as. */
  function Meaning(item: string): string
    requires Closed(item)
  {
    ParseChars(item + "\"").value
  }

  predicate AllClosed(items: seq<string>) { forall i :: 0 <= i < |items| ==> Closed(items[i]) }

  function Meanings(items: seq<string>): (texts: seq<string>)
    requires AllClosed(items)
    ensures |texts| == |items| && forall i :: 0 <= i < |items| ==> texts[i] == Meaning(items[i])
  {
    seq(|items|, i requires 0 <= i < |items| => Meaning(items[i]))
  }

  /** The request that the text of a closed one asks for. */
  function Meant(req: SubscribeRequest): SubscribeRequest
    requires AllClosed(req.channels) && AllClosed(req.tickers)
  {
    req.(channels := Meanings(req.channels), tickers := Meanings(req.tickers))
  }

  /** A string that needs no escape means itself. */
  lemma PlainMeaning(item: string)
    requires Plain(item)
    ensures Closed(item) && Meaning(item) == item
  {
    PlainParses(item, "");
    assert "\"" + "" == "\"";
  }

  lemma PlainMeanings(items: seq<string>)
    requires AllPlain(items)
    ensures AllClosed(items) && Meanings(items) == items
  {
    forall i | 0 <= i < |items|
      ensures Closed(items[i]) && Meaning(items[i]) == items[i]
    {
      PlainMeaning(items[i]);
    }
  }

  lemma ClosedParses(item: string, rest: string)
    requires Closed(item)
    ensures ParseValue(RawQuote(item) + rest) == Parsed(JString(Meaning(item)), rest)
  {
    var inside := item + "\"";
    ParseCharsLocal(inside, rest);
    assert "" + rest == rest;
    Assoc("\"", inside, rest);
    StringValue(inside + rest);
  }

  lemma {:induction false} ClosedItemsParse(items: seq<string>, rest: string)
    requires |items| > 0 && AllClosed(items)
    ensures ParseItems(RawItems(items) + ("]" + rest)) == Parsed(StringItems(Meanings(items)), rest)
  {
    var s := RawItems(items) + ("]" + rest);
    var tree := JString(Meaning(items[0]));
    RawItemsSplit(items, rest);
    ItemTreesSplit(Meanings(items));
    if |items| == 1 {
      var tail := "]" + rest;
      ClosedParses(items[0], tail);
      ItemsUnfold(s, tree, tail);
      assert tail[0] == ']' && tail[1..] == rest;
    } else {
      var more := RawItems(items[1..]) + ("]" + rest);
      var tail := "," + more;
      ClosedParses(items[0], tail);
      ClosedItemsParse(items[1..], rest);
      ItemsUnfold(s, tree, tail);
      assert tail[0] == ',' && tail[1..] == more;
      assert Meanings(items)[1..] == Meanings(items[1..]);
    }
  }

  lemma ClosedArrayParses(items: seq<string>, rest: string)
    requires AllClosed(items)
    ensures ParseValue(ArrayText(items) + rest) == Parsed(JArray(StringItems(Meanings(items))), rest)
  {
    var body := RawItems(items) + ("]" + rest);
    assert ArrayText(items) + rest == "[" + body;
    if items == [] {
      assert body == "]" + rest && body[0] == ']' && body[1..] == rest;
    } else {
      assert body[0] == '"';
      ClosedItemsParse(items, rest);
    }
    ArrayUnfolds(body);
  }

  lemma ClosedTickersParse(tickers: seq<string>, rest: string)
    requires AllClosed(tickers)
    ensures ParseMembers(TickersTail(tickers, rest)) ==
            Parsed([Member("market_tickers", JArray(StringItems(Meanings(tickers))))], rest)
  {
    var after := "}" + rest;
    KeyTextUnfolds("market_tickers", "\"market_tickers\":", ArrayText(tickers) + after);
    ClosedArrayParses(tickers, after);
    MembersUnfold(TickersTail(tickers, rest), Member("market_tickers", JArray(StringItems(Meanings(tickers)))), after);
    assert after[1..] == rest;
  }

  lemma ClosedChannelsParse(channels: seq<string>, after: string)
    requires AllClosed(channels)
    ensures ParseMember(ChannelsText(channels, after)) == Parsed(ChannelsMember(Meanings(channels)), after)
  {
    KeyTextUnfolds("channels", "\"channels\":", ArrayText(channels) + after);
    ClosedArrayParses(channels, after);
  }

  lemma ClosedParamsAlone(channels: seq<string>, rest: string)
    requires AllClosed(channels)
    ensures ParseMembers(ChannelsText(channels, "}" + rest)) == Parsed([ChannelsMember(Meanings(channels))], rest)
  {
    var after := "}" + rest;
    ClosedChannelsParse(channels, after);
    MembersUnfold(ChannelsText(channels, after), ChannelsMember(Meanings(channels)), after);
    assert after[0] == '}' && after[1..] == rest;
  }

  lemma ClosedParamsBoth(channels: seq<string>, tickers: seq<string>, rest: string)
    requires AllClosed(channels) && AllClosed(tickers)
    ensures var member := Member("market_tickers", JArray(StringItems(Meanings(tickers))));
            ParseMembers(ChannelsText(channels, "," + TickersTail(tickers, rest))) ==
            Parsed([ChannelsMember(Meanings(channels))] + [member], rest)
  {
    var after := "," + TickersTail(tickers, rest);
    ClosedChannelsParse(channels, after);
    ClosedTickersParse(tickers, rest);
    MembersUnfold(ChannelsText(channels, after), ChannelsMember(Meanings(channels)), after);
    assert after[0] == ',' && after[1..] == TickersTail(tickers, rest);
  }

  lemma ClosedParamsParse(req: SubscribeRequest, rest: string)
    requires AllClosed(req.channels) && AllClosed(req.tickers)
    ensures ParseMembers(ChannelsText(req.channels, TickersText(req) + ("}" + rest))) ==
            Parsed([ChannelsMember(Meanings(req.channels))] + TickersMember(Meant(req)), rest)
  {
    if req.tickers == [] {
      assert TickersText(req) + ("}" + rest) == "}" + rest;
      assert [ChannelsMember(Meanings(req.channels))] + [] == [ChannelsMember(Meanings(req.channels))];
      ClosedParamsAlone(req.channels, rest);
    } else {
      TickersLayout(req, rest);
      ClosedParamsBoth(req.channels, req.tickers, rest);
    }
  }

  lemma ClosedParamsMemberParses(req: SubscribeRequest)
    requires AllClosed(req.channels) && AllClosed(req.tickers)
    ensures ParseMembers(ParamsText(req)) == Parsed([Member("params", ParamsTree(Meant(req)))], "")
  {
    assert "}" + "}" == "}}";
    ClosedParamsParse(req, "}");
    ParamsUnfold(req);
  }

  /** The command's text asks for what its strings mean, whatever escapes they hold. */
  lemma ClosedCommandParses(req: SubscribeRequest)
    requires AllClosed(req.channels) && AllClosed(req.tickers)
    ensures ParseDocument(JsonOf(req)) == Some(RequestTree(Meant(req)))
  {
    CommandUnfolds(req);
    ClosedParamsMemberParses(req);
    TreeLayout(Meant(req));
  }

  /**
   * What from_config checks against what the text then says. With any strings that stay
   * closed between quotes: lists that are accepted make a command that names tickers
   * whenever it subscribes to order book deltas, if and only if there are tickers, or the
   * channel is among the channels as it is, or no channel means it. And acceptance and text
   * then agree altogether.
   */
  lemma AcceptedTextNamesTickersIff(channels: seq<string>, tickers: seq<string>, id: int)
    requires AllClosed(channels) && AllClosed(tickers)
    ensures var doc := ParseDocument(JsonOf(SubscribeRequest(id, channels, tickers)));
            var accepted := BuildRequest(channels, tickers, id).Ok?;
            var checked :=
              tickers != [] || ORDERBOOK_DELTA in channels || ORDERBOOK_DELTA !in Meanings(channels);
            && doc.Some?
            && ((accepted ==> (SubscribesToDeltas(doc.value) ==> NamesTickers(doc.value))) <==> checked)
            && ((accepted <==> (SubscribesToDeltas(doc.value) ==> NamesTickers(doc.value))) <==> checked)
  {
    var req := SubscribeRequest(id, channels, tickers);
    ClosedCommandParses(req);
    RequestLists(Meant(req));
    StringItemsHold(Meanings(channels), ORDERBOOK_DELTA);
    if ORDERBOOK_DELTA in channels {
      var i :| 0 <= i < |channels| && channels[i] == ORDERBOOK_DELTA;
      DeltaChannelPlain("");
      PlainMeaning(ORDERBOOK_DELTA);
      assert Meanings(channels)[i] == ORDERBOOK_DELTA;
    }
  }

  /** With strings that need no escape acceptance and text always agree. */
  lemma AcceptedIffTickersNamed(channels: seq<string>, tickers: seq<string>, id: int)
    requires AllPlain(channels) && AllPlain(tickers)
    ensures var doc := ParseDocument(JsonOf(SubscribeRequest(id, channels, tickers)));
            var r := BuildRequest(channels, tickers, id);
            && doc.Some?
            && (r.Ok? <==> (SubscribesToDeltas(doc.value) ==> NamesTickers(doc.value)))
            && (r.Ok? ==> JsonOf(r.value) == JsonOf(SubscribeRequest(id, channels, tickers)))
  {
    PlainMeanings(channels);
    PlainMeanings(tickers);
    AcceptedTextNamesTickersIff(channels, tickers, id);
  }

  /** A channel with an escape, 006f for the letter o. It is not the checked name but means it. */
  const ESCAPED_DELTA := "\\u006f" + "rderbook_delta"

  lemma EscapedDeltaMeansDelta()
    ensures Closed(ESCAPED_DELTA) && Meaning(ESCAPED_DELTA) == ORDERBOOK_DELTA && ESCAPED_DELTA != ORDERBOOK_DELTA
  {
    var rest := "rderbook_delta";
    var s := ESCAPED_DELTA + "\"";
    assert s[..6] == "\\u006f" && s[6..] == rest + "\"";
    assert FirstUnit(s) == Some(Unit("o", 6));
    DeltaChannelPlain("");
    assert rest == ORDERBOOK_DELTA[1..];
    PlainParses(rest, "");
    assert "\"" + "" == "\"";
    assert "o" + rest == ORDERBOOK_DELTA;
  }

  /** So it is accepted without tickers, and its command subscribes to order book deltas. */
  lemma EscapedChannelSubscribesToDeltas(id: int)
    ensures var r := BuildRequest([ESCAPED_DELTA], [], id);
            && r.Ok?
            && var doc := ParseDocument(JsonOf(r.value));
               doc.Some? && SubscribesToDeltas(doc.value) && !NamesTickers(doc.value)
  {
    EscapedDeltaMeansDelta();
    assert Meanings([ESCAPED_DELTA])[0] == ORDERBOOK_DELTA;
    AcceptedTextNamesTickersIff([ESCAPED_DELTA], [], id);
  }

  /** Quotes and comma inside one item make the text of two. */
  lemma QuoteSplitsItem(a: string, b: string)
    ensures RawItems([a + ("\",\"" + b)]) == RawItems([a, b])
  {
    assert [a, b][1..] == [b];
    assert "\",\"" + b == "\"" + ("," + ("\"" + b));
  }

  lemma DeltaChannelPlain(channel: string)
    ensures Plain(ORDERBOOK_DELTA)
    ensures !Plain(channel) ==> channel != ORDERBOOK_DELTA
  {
  }

  /**
   * A string that is not closed can do the same: the one channel below is accepted without
   * tickers, but its command is the text of two channels, order book deltas among them.
   */
  lemma QuotedChannelSubscribesToDeltas(channel: string, id: int)
    requires Plain(channel)
    ensures var channels := [channel + ("\",\"" + ORDERBOOK_DELTA)];
            var r := BuildRequest(channels, [], id);
            && r.Ok?
            && var doc := ParseDocument(JsonOf(r.value));
               doc.Some? && SubscribesToDeltas(doc.value) && !NamesTickers(doc.value)
  {
    var joined := channel + ("\",\"" + ORDERBOOK_DELTA);
    var two := SubscribeRequest(id, [channel, ORDERBOOK_DELTA], []);
    assert joined[|channel|] == '"';
    DeltaChannelPlain(joined);
    QuoteSplitsItem(channel, ORDERBOOK_DELTA);
    CommandRoundTripIff(two);
    RequestLists(two);
    assert two.channels[1] == ORDERBOOK_DELTA;
    StringItemsHold(two.channels, ORDERBOOK_DELTA);
  }
}
