/** The subscribe command: its validation, its JSON text, and when that text says what was asked. */
module Subscribe {
  import opened Prelude
  import opened JsonTree
  import opened JsonText
  import opened MarketEvents

  datatype SubscribeRequest = SubscribeRequest(id: int, channels: seq<string>, tickers: seq<string>)

  datatype SubscribeError = MissingMarketTickers

  // ---------------------------------------------------------------- validation

  predicate RequiresMarketTickers(channels: seq<string>) { ORDERBOOK_DELTA in channels }

  /** build_request: the configured lists, unless order book deltas lack tickers. */
  function BuildRequest(channels: seq<string>, tickers: seq<string>, id: int)
    : (r: Result<SubscribeRequest, SubscribeError>)
  {
    if RequiresMarketTickers(channels) && tickers == [] then Err(MissingMarketTickers)
    else Ok(SubscribeRequest(id, channels, tickers))
  }

  // ---------------------------------------------------------------- text

  /** The items in quotes as they are, without escapes. */
  function RawQuote(text: string): string { "\"" + (text + "\"") }

  function RawItems(items: seq<string>): string {
    if |items| == 0 then ""
    else if |items| == 1 then RawQuote(items[0])
    else RawQuote(items[0]) + ("," + RawItems(items[1..]))
  }

  function ArrayText(items: seq<string>): string { "[" + (RawItems(items) + "]") }

  function TickersText(req: SubscribeRequest): string {
    if req.tickers == [] then "" else ",\"market_tickers\":" + ArrayText(req.tickers)
  }

  const COMMAND := ",\"cmd\":\"subscribe\",\"params\":{\"channels\":"

  function JsonOf(req: SubscribeRequest): string {
    "{\"id\":" + (IntText(req.id) + (COMMAND + (ArrayText(req.channels) + (TickersText(req) + "}}"))))
  }

  method AppendStringArray(out: string, items: seq<string>) returns (longer: string)
    ensures longer == out + ArrayText(items)
  {
    longer := out + "[";
    for i := 0 to |items|
      invariant longer + RawItems(items[i..]) == out + "[" + RawItems(items)
    {
      ghost var before := longer;
      assert items[i..][1..] == items[i + 1..];
      longer := longer + ("\"" + (items[i] + "\""));
      if i + 1 < |items| {
        longer := longer + ",";
      }
      assert longer + RawItems(items[i + 1..]) == before + RawItems(items[i..]);
    }
    assert longer + RawItems(items[|items|..]) == longer;
    Assoc(out, "[", RawItems(items));
    Assoc(out, "[" + RawItems(items), "]");
    Assoc("[", RawItems(items), "]");
    longer := longer + "]";
  }

  method BuildJson(req: SubscribeRequest) returns (out: string)
    ensures out == JsonOf(req)
  {
    out := "{\"id\":" + IntText(req.id);
    out := out + COMMAND;
    out := AppendStringArray(out, req.channels);
    if req.tickers != [] {
      ghost var before := out;
      out := out + ",\"market_tickers\":";
      out := AppendStringArray(out, req.tickers);
      Assoc(before, ",\"market_tickers\":", ArrayText(req.tickers));
    }
    out := out + "}}";
    JsonRegroup("{\"id\":", IntText(req.id), COMMAND, ArrayText(req.channels), TickersText(req), "}}");
  }

  lemma JsonRegroup(a: string, b: string, c: string, d: string, e: string, f: string)
    ensures a + b + c + d + e + f == a + (b + (c + (d + (e + f))))
    ensures e == "" ==> a + b + c + d + f == a + (b + (c + (d + (e + f))))
  {
  }

  // ---------------------------------------------------------------- one unescaped string

  lemma PlainParses(text: string, rest: string)
    requires Plain(text)
    ensures ParseChars(text + ("\"" + rest)) == Parsed(text, rest)
  {
    EscapePlain(text);
    EscapeParses(text, rest);
  }

  /** What one turn of the string parser takes and yields: an escape is longer than what it stands for. */
  lemma FirstStep(s: string) returns (text: string, width: nat)
    requires ParseChars(s).Parsed? && s[0] != '"'
    ensures 1 <= width <= |s| && (width > 1 ==> |text| < width)
    ensures ParseChars(s) == Prepend(text, ParseChars(s[width..])) && ParseChars(s[width..]).Parsed?
    ensures width == 1 ==> text == [s[0]] && PlainChar(s[0])
    ensures forall i :: 0 <= i < width && s[i] == '"' ==> width == 2 && text == "\""
  {
    var unit := FirstUnit(s).value;
    text, width := unit.text, unit.width;
  }

  /** Behind one plain char, what is left of a text with an escape still has it. */
  lemma EscapeLiesFurther(s: string, q: nat, width: nat)
    requires 1 <= width <= q <= |s| && !Plain(s[..q])
    requires width == 1 ==> PlainChar(s[0])
    ensures width == 1 ==> !Plain(s[width..][..q - width])
  {
    if width == 1 {
      var i :| 0 <= i < q && !PlainChar(s[..q][i]);
      assert s[width..][..q - width][i - 1] == s[i];
    }
  }

  /**
   * Read up to the first quote at q, a text with an escape in front of that quote comes out
   * shorter than q, or with a quote among its first q characters.
   */
  lemma {:induction false} EscapeShortens(s: string, q: nat)
    requires q < |s| && s[q] == '"' && (forall i :: 0 <= i < q ==> s[i] != '"')
    requires ParseChars(s).Parsed? && !Plain(s[..q])
    ensures |ParseChars(s).value| < q || HasQuote(ParseChars(s).value, q)
    decreases |s|
  {
    var out := ParseChars(s).value;
    var text, width := FirstStep(s);
    var tail := s[width..];
    assert out == text + ParseChars(tail).value;
    if q < width {
      assert out[0] == '"';
    } else {
      var left := q - width;
      EscapeLiesFurther(s, q, width);
      if Plain(tail[..left]) {
        PlainPrefixParses(tail, left);
      } else {
        EscapeShortens(tail, left);
        if |ParseChars(tail).value| >= left {
          QuoteMovesRight(ParseChars(tail).value, left, text);
        }
      }
    }
  }

  predicate HasQuote(s: string, within: nat) { exists k :: 0 <= k < within && k < |s| && s[k] == '"' }

  lemma QuoteMovesRight(s: string, within: nat, text: string)
    requires HasQuote(s, within)
    ensures HasQuote(text + s, |text| + within)
  {
    var k :| 0 <= k < within && k < |s| && s[k] == '"';
    assert (text + s)[|text| + k] == '"';
  }

  lemma PlainPrefixParses(s: string, q: nat)
    requires q < |s| && s[q] == '"' && Plain(s[..q])
    ensures ParseChars(s) == Parsed(s[..q], s[q + 1..])
  {
    PlainParses(s[..q], s[q + 1..]);
    assert s == s[..q] + ("\"" + s[q + 1..]);
  }

  /** A string that needs an escape is not read back as itself. */
  lemma RawStringChanges(text: string, rest: string)
    requires !Plain(text)
    ensures var r := ParseChars(text + ("\"" + rest)); r.Malformed? || r.value != text
  {
    var s := text + ("\"" + rest);
    var q := FirstQuote(s, |text|);
    assert s[..q] == text[..q];
    if ParseChars(s).Parsed? {
      if Plain(text[..q]) {
        assert text[..|text|] == text;
        PlainPrefixParses(s, q);
      } else {
        EscapeShortens(s, q);
        assert forall k :: 0 <= k < q ==> text[k] == s[k];
        assert !HasQuote(text, q);
      }
    }
  }

  /** Put between quotes as it is, a string is read back as itself if and only if it needs no escape. */
  lemma RawStringIff(text: string, rest: string)
    ensures var r := ParseChars(text + ("\"" + rest));
            (r.Parsed? && r.value == text) <==> Plain(text)
  {
    if Plain(text) {
      PlainParses(text, rest);
    } else {
      RawStringChanges(text, rest);
    }
  }

  /** The first quote of a text that holds one at position at. */
  function FirstQuote(s: string, at: nat): (q: nat)
    requires at < |s| && s[at] == '"'
    ensures q <= at && s[q] == '"' && forall i :: 0 <= i < q ==> s[i] != '"'
    decreases |s|
  {
    if s[0] == '"' then 0 else 1 + FirstQuote(s[1..], at - 1)
  }

  // ---------------------------------------------------------------- the whole command

  predicate AllPlain(items: seq<string>) { forall i :: 0 <= i < |items| ==> Plain(items[i]) }

  lemma RawQuoteParses(text: string, rest: string)
    ensures var r := ParseValue(RawQuote(text) + rest);
            && ((r.Parsed? && r.value == JString(text)) <==> Plain(text))
            && (Plain(text) ==> r == Parsed(JString(text), rest))
  {
    var s := RawQuote(text) + rest;
    assert s[1..] == text + ("\"" + rest);
    RawStringIff(text, rest);
    if Plain(text) {
      PlainParses(text, rest);
    }
  }

  /** A list that is read begins with the value that is read first. */
  lemma FirstItem(s: string)
    requires ParseItems(s).Parsed?
    ensures ParseValue(s).Parsed? && ParseItems(s).value[0] == ParseValue(s).value
  {
  }

  lemma {:induction false} RawItemsIff(items: seq<string>, rest: string)
    requires |items| > 0
    ensures var r := ParseItems(RawItems(items) + ("]" + rest));
            && ((r.Parsed? && r.value == StringItems(items)) <==> AllPlain(items))
            && (AllPlain(items) ==> r == Parsed(StringItems(items), rest))
  {
    RawItemsSplit(items, rest);
    ItemTreesSplit(items);
    AllPlainSplits(items);
    if |items| == 1 {
      LastItemIff(items[0], rest);
    } else {
      RawItemsIff(items[1..], rest);
      NextItemIff(items[0], StringItems(items[1..]), RawItems(items[1..]) + ("]" + rest));
    }
  }

  /** The text of a list is that of its first item and the others. */
  lemma RawItemsSplit(items: seq<string>, rest: string)
    requires |items| > 0
    ensures RawItems(items) + ("]" + rest) ==
            RawQuote(items[0]) +
            if |items| == 1 then "]" + rest else "," + (RawItems(items[1..]) + ("]" + rest))
  {
    if |items| > 1 {
      var others, close := RawItems(items[1..]), "]" + rest;
      Assoc(RawQuote(items[0]), "," + others, close);
      Assoc(",", others, close);
    }
  }

  lemma ItemTreesSplit(items: seq<string>)
    requires |items| > 0
    ensures StringItems(items) == [JString(items[0])] + StringItems(items[1..])
    ensures |items| == 1 ==> StringItems(items) == [JString(items[0])]
  {
  }

  lemma AllPlainSplits(items: seq<string>)
    requires |items| > 0
    ensures AllPlain(items) <==> Plain(items[0]) && AllPlain(items[1..])
  {
    assert items == [items[0]] + items[1..];
  }

  lemma LastItemIff(item: string, rest: string)
    ensures var r := ParseItems(RawQuote(item) + ("]" + rest));
            && ((r.Parsed? && r.value == [JString(item)]) <==> Plain(item))
            && (Plain(item) ==> r == Parsed([JString(item)], rest))
  {
    var s, tail := RawQuote(item) + ("]" + rest), "]" + rest;
    RawQuoteParses(item, tail);
    assert tail[0] == ']' && tail[1..] == rest;
    if Plain(item) {
      ItemsUnfold(s, JString(item), tail);
    } else if ParseItems(s).Parsed? {
      FirstItem(s);
    }
  }

  lemma NextItemIff(item: string, others: seq<Json>, more: string)
    ensures var r, rs := ParseItems(RawQuote(item) + ("," + more)), ParseItems(more);
            && ((r.Parsed? && r.value == [JString(item)] + others) <==>
                  Plain(item) && rs.Parsed? && rs.value == others)
            && (Plain(item) && rs.Parsed? ==> r == Parsed([JString(item)] + rs.value, rs.rest))
  {
    var s, tail := RawQuote(item) + ("," + more), "," + more;
    RawQuoteParses(item, tail);
    assert tail[0] == ',' && tail[1..] == more;
    if Plain(item) {
      ItemsUnfold(s, JString(item), tail);
      SameRest(JString(item), ParseItems(more), others);
    } else if ParseItems(s).Parsed? {
      FirstItem(s);
    }
  }

  lemma SameRest(v: Json, others: Parsed<seq<Json>>, t: seq<Json>)
    ensures others.Parsed? ==> ([v] + others.value == [v] + t <==> others.value == t)
  {
    assert others.Parsed? ==> ([v] + others.value)[1..] == others.value;
    assert ([v] + t)[1..] == t;
  }

  lemma ArrayIff(items: seq<string>, rest: string)
    ensures var r := ParseValue(ArrayText(items) + rest);
            && ((r.Parsed? && r.value == JArray(StringItems(items))) <==> AllPlain(items))
            && (AllPlain(items) ==> r == Parsed(JArray(StringItems(items)), rest))
  {
    var body := RawItems(items) + ("]" + rest);
    assert ArrayText(items) + rest == "[" + body;
    if items == [] {
      assert body == "]" + rest && body[0] == ']' && body[1..] == rest;
    } else {
      assert body[0] == '"';
      RawItemsIff(items, rest);
    }
    ArrayUnfolds(body);
  }

  function TickersMember(req: SubscribeRequest): seq<Member> {
    if req.tickers == [] then [] else [Member("market_tickers", JArray(StringItems(req.tickers)))]
  }

  function ParamsTree(req: SubscribeRequest): Json {
    JObject([Member("channels", JArray(StringItems(req.channels)))] + TickersMember(req))
  }

  /** What the command is meant to say; no tickers member when the list is empty. */
  function RequestTree(req: SubscribeRequest): Json {
    JObject([Member("id", JInt(req.id)), Member("cmd", JString("subscribe")), Member("params", ParamsTree(req))])
  }

  /** A member whose key needs no escape, in front of any value text. */
  lemma KeyTextUnfolds(key: string, keyText: string, s: string)
    requires Plain(key) && |keyText| == |key| + 3
    requires keyText[0] == '"' && keyText[|keyText| - 2] == '"' && keyText[|keyText| - 1] == ':'
    requires forall i :: 0 <= i < |key| ==> keyText[i + 1] == key[i]
    ensures var v := ParseValue(s);
            ParseMember(keyText + s) == if v.Parsed? then Parsed(Member(key, v.value), v.rest) else Malformed
  {
    var text := keyText + s;
    assert text[1..] == key + ("\"" + (":" + s));
    PlainParses(key, ":" + s);
    assert (":" + s)[1..] == s;
  }

  function ChannelsText(channels: seq<string>, tail: string): string {
    "\"channels\":" + (ArrayText(channels) + tail)
  }

  function ChannelsMember(channels: seq<string>): Member { Member("channels", JArray(StringItems(channels))) }

  lemma ChannelsIff(channels: seq<string>, tail: string)
    ensures var r := ParseMember(ChannelsText(channels, tail));
            && ((r.Parsed? && r.value == ChannelsMember(channels)) <==> AllPlain(channels))
            && (AllPlain(channels) ==> r == Parsed(ChannelsMember(channels), tail))
  {
    KeyTextUnfolds("channels", "\"channels\":", ArrayText(channels) + tail);
    ArrayIff(channels, tail);
  }

  /** The members of params without tickers, up to the brace that closes them. */
  lemma ParamsAloneIff(channels: seq<string>, rest: string)
    ensures var r := ParseMembers(ChannelsText(channels, "}" + rest));
            && ((r.Parsed? && r.value == [ChannelsMember(channels)]) <==> AllPlain(channels))
            && (AllPlain(channels) ==> r.rest == rest)
  {
    ChannelsIff(channels, "}" + rest);
    assert ("}" + rest)[1..] == rest;
  }

  function TickersTail(tickers: seq<string>, rest: string): string {
    "\"market_tickers\":" + (ArrayText(tickers) + ("}" + rest))
  }

  /** The same with tickers behind the channels. */
  lemma ParamsBothIff(channels: seq<string>, tickers: seq<string>, rest: string)
    ensures var r := ParseMembers(ChannelsText(channels, "," + TickersTail(tickers, rest)));
            var member := Member("market_tickers", JArray(StringItems(tickers)));
            && ((r.Parsed? && r.value == [ChannelsMember(channels)] + [member]) <==>
                  AllPlain(channels) && AllPlain(tickers))
            && (AllPlain(channels) && AllPlain(tickers) ==> r.rest == rest)
  {
    var tail := TickersTail(tickers, rest);
    var first := ParseMember(ChannelsText(channels, "," + tail));
    ChannelsIff(channels, "," + tail);
    TickersIff(tickers, rest);
    assert ("," + tail)[1..] == tail;
    var r := ParseMembers(ChannelsText(channels, "," + tail));
    if r.Parsed? && |r.value| > 1 {
      assert r.value[0] == first.value && r.value == [r.value[0]] + r.value[1..];
    }
  }

  lemma TickersIff(tickers: seq<string>, rest: string)
    ensures var r := ParseMembers(TickersTail(tickers, rest));
            var member := Member("market_tickers", JArray(StringItems(tickers)));
            && ((r.Parsed? && r.value == [member]) <==> AllPlain(tickers))
            && (AllPlain(tickers) ==> r == Parsed([member], rest))
  {
    KeyTextUnfolds("market_tickers", "\"market_tickers\":", ArrayText(tickers) + ("}" + rest));
    ArrayIff(tickers, "}" + rest);
    assert ("}" + rest)[1..] == rest;
  }

  lemma TickersLayout(req: SubscribeRequest, rest: string)
    requires req.tickers != []
    ensures TickersText(req) + ("}" + rest) == "," + TickersTail(req.tickers, rest)
  {
    assert ",\"market_tickers\":" == "," + "\"market_tickers\":";
  }

  lemma ParamsIff(req: SubscribeRequest, rest: string)
    ensures var r := ParseMembers(ChannelsText(req.channels, TickersText(req) + ("}" + rest)));
            && ((r.Parsed? && JObject(r.value) == ParamsTree(req)) <==> AllPlain(req.channels) && AllPlain(req.tickers))
            && (AllPlain(req.channels) && AllPlain(req.tickers) ==> r.rest == rest)
  {
    if req.tickers == [] {
      assert TickersText(req) + ("}" + rest) == "}" + rest;
      assert [ChannelsMember(req.channels)] + TickersMember(req) == [ChannelsMember(req.channels)];
      ParamsAloneIff(req.channels, rest);
    } else {
      TickersLayout(req, rest);
      ParamsBothIff(req.channels, req.tickers, rest);
    }
  }

  /** Members that are read begin with the one that is read first. */
  lemma FirstMember(s: string)
    requires ParseMembers(s).Parsed?
    ensures ParseMember(s).Parsed? && ParseMembers(s).value[0] == ParseMember(s).value
  {
  }

  /** "params" with its object, closed by the brace of the command. */
  lemma ParamsMemberIff(req: SubscribeRequest)
    ensures var r := ParseMembers(ParamsText(req));
            && ((r.Parsed? && r.value == [Member("params", ParamsTree(req))]) <==>
                  AllPlain(req.channels) && AllPlain(req.tickers))
            && (AllPlain(req.channels) && AllPlain(req.tickers) ==> r.rest == "")
  {
    var body := ChannelsText(req.channels, TickersText(req) + "}}");
    assert "}" + "}" == "}}";
    ParamsIff(req, "}");
    ParamsUnfold(req);
    if !(AllPlain(req.channels) && AllPlain(req.tickers)) && ParseMembers(ParamsText(req)).Parsed? {
      FirstMember(ParamsText(req));
    }
  }

  /** "params" and its brace in front of what is in it. */
  lemma ParamsUnfold(req: SubscribeRequest)
    ensures var inner := ParseMembers(ChannelsText(req.channels, TickersText(req) + "}}"));
            && ParseMember(ParamsText(req)) ==
               (if inner.Parsed? then Parsed(Member("params", JObject(inner.value)), inner.rest) else Malformed)
            && (inner.Parsed? && inner.rest == "}" ==>
                  ParseMembers(ParamsText(req)) == Parsed([Member("params", JObject(inner.value))], ""))
  {
    var body := ChannelsText(req.channels, TickersText(req) + "}}");
    var inner := ParseMembers(body);
    KeyTextUnfolds("params", "\"params\":", "{" + body);
    assert body[0] == '"';
    ObjectUnfolds(body);
    if inner.Parsed? && inner.rest == "}" {
      MembersUnfold(ParamsText(req), Member("params", JObject(inner.value)), "}");
      assert "}"[1..] == "";
    }
  }

  function ParamsText(req: SubscribeRequest): string {
    "\"params\":" + ("{" + ChannelsText(req.channels, TickersText(req) + "}}"))
  }

  function CommandText(tail: string): string { "\"cmd\":" + (RawQuote("subscribe") + ("," + tail)) }

  lemma CommandParses(tail: string)
    ensures var r := ParseMembers(tail);
            ParseMembers(CommandText(tail)) ==
            if r.Parsed? then Parsed([Member("cmd", JString("subscribe"))] + r.value, r.rest) else Malformed
  {
    KeyTextUnfolds("cmd", "\"cmd\":", RawQuote("subscribe") + ("," + tail));
    RawQuoteParses("subscribe", "," + tail);
    MembersUnfold(CommandText(tail), Member("cmd", JString("subscribe")), "," + tail);
    assert ("," + tail)[1..] == tail;
  }

  function IdText(id: int, tail: string): string { "\"id\":" + (IntText(id) + ("," + tail)) }

  lemma IdParses(id: int, tail: string)
    ensures var r := ParseMembers(tail);
            ParseMembers(IdText(id, tail)) ==
            if r.Parsed? then Parsed([Member("id", JInt(id))] + r.value, r.rest) else Malformed
  {
    KeyTextUnfolds("id", "\"id\":", IntText(id) + ("," + tail));
    PrintParses(JInt(id), "," + tail);
    MembersUnfold(IdText(id, tail), Member("id", JInt(id)), "," + tail);
    assert ("," + tail)[1..] == tail;
  }

  lemma JsonLayout(req: SubscribeRequest)
    ensures JsonOf(req) == "{" + IdText(req.id, CommandText(ParamsText(req)))
  {
    var tail := ArrayText(req.channels) + (TickersText(req) + "}}");
    CommandLayout(tail);
    IdLayout(IntText(req.id), CommandText(ParamsText(req)));
  }

  lemma CommandLayout(tail: string)
    ensures COMMAND + tail == "," + CommandText("\"params\":" + ("{" + ("\"channels\":" + tail)))
  {
    var front := ",\"cmd\":\"subscribe\"";
    var back := ",\"params\":{\"channels\":";
    assert COMMAND == front + back;
    Assoc(front, back, tail);
    assert back + tail == "," + ("\"params\":" + ("{" + ("\"channels\":" + tail)));
    Assoc(",", "\"cmd\":", "\"subscribe\"");
    CommandFront(back + tail);
  }

  lemma CommandFront(tail: string)
    ensures ",\"cmd\":\"subscribe\"" + tail == "," + ("\"cmd\":" + (RawQuote("subscribe") + tail))
  {
  }

  lemma IdLayout(id: string, tail: string)
    ensures "{\"id\":" + (id + ("," + tail)) == "{" + ("\"id\":" + (id + ("," + tail)))
  {
  }

  /** The text is an object with id, command and what comes of the parameters. */
  lemma CommandUnfolds(req: SubscribeRequest)
    ensures var r := ParseMembers(ParamsText(req));
            var front := [Member("id", JInt(req.id))];
            ParseValue(JsonOf(req)) ==
            if r.Parsed? then Parsed(JObject(front + ([Member("cmd", JString("subscribe"))] + r.value)), r.rest)
            else Malformed
  {
    var command := CommandText(ParamsText(req));
    var body := IdText(req.id, command);
    JsonLayout(req);
    CommandParses(ParamsText(req));
    IdParses(req.id, command);
    assert body[0] == '"';
    ObjectUnfolds(body);
  }

  /**
   * The command's text parses to what was asked for if and only if no channel and no
   * ticker needs an escape. The code does not escape them.
   */
  lemma CommandRoundTripIff(req: SubscribeRequest)
    ensures ParseDocument(JsonOf(req)) == Some(RequestTree(req)) <==>
            AllPlain(req.channels) && AllPlain(req.tickers)
  {
    CommandUnfolds(req);
    ParamsMemberIff(req);
    TreeLayout(req);
    var r := ParseMembers(ParamsText(req));
    if r.Parsed? {
      SameTail(Member("id", JInt(req.id)), Member("cmd", JString("subscribe")),
               r.value, [Member("params", ParamsTree(req))]);
    }
  }

  lemma SameTail(a: Member, b: Member, s: seq<Member>, t: seq<Member>)
    ensures [a] + ([b] + s) == [a] + ([b] + t) <==> s == t
  {
    assert ([a] + ([b] + s))[2..] == s && ([a] + ([b] + t))[2..] == t;
  }

  lemma TreeLayout(req: SubscribeRequest)
    ensures RequestTree(req) ==
            JObject([Member("id", JInt(req.id))] +
                    ([Member("cmd", JString("subscribe"))] + [Member("params", ParamsTree(req))]))
  {
  }
}
