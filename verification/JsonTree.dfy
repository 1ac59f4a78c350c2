/** JSON documents as trees. Members of an object stay an ordered list, because keys may repeat. */
module JsonTree {
  import opened Prelude

  datatype Json =
    | JNull
    | JBool(flag: bool)
    | JInt(number: int)          // a number written without fraction or exponent
    | JDecimal(lexeme: string)   // any other number token
    | JString(text: string)
    | JArray(items: seq<Json>)
    | JObject(members: seq<Member>)

  datatype Member = Member(key: string, value: Json)

  /** The value of the first member called key. */
  function Find(members: seq<Member>, key: string): Option<Json> {
    if |members| == 0 then None
    else if members[0].key == key then Some(members[0].value)
    else Find(members[1..], key)
  }

  /** Find yields the first member with the key, and nothing if there is none. */
  lemma {:induction false} FindFirst(members: seq<Member>, key: string, i: nat)
    requires i <= |members| && forall j :: 0 <= j < i ==> members[j].key != key
    requires i < |members| ==> members[i].key == key
    ensures Find(members, key) == if i < |members| then Some(members[i].value) else None
  {
    if i > 0 {
      FindFirst(members[1..], key, i - 1);
    }
  }

  /** obj[key]: an error (None) when the document is no object or has no such member. */
  function Field(doc: Json, key: string): Option<Json> {
    if doc.JObject? then Find(doc.members, key) else None
  }

  function StringItems(texts: seq<string>): (items: seq<Json>)
    ensures |items| == |texts|
    ensures forall i :: 0 <= i < |texts| ==> items[i] == JString(texts[i])
  {
    seq(|texts|, i requires 0 <= i < |texts| => JString(texts[i]))
  }
}
