/** `stringifySorted` and `getId` of the mail model: the id of a message-list
    query is `ml:`, its filter written as JSON with every object's keys in
    sorted order, then `+` or `-` for whether threads are collapsed. */
module QueryIds {
  import opened Options
  import opened Strings
  import opened Ordered
  import opened Json
  import opened KeySort

  /** A lower-case hexadecimal digit. */
  function HexDigit(d: nat): char
    requires d < 16
  {
    if d < 10 then ('0' as int + d) as char else ('a' as int + d - 10) as char
  }

  /** How `JSON.stringify` writes one character inside a string: the two-
      character escapes for backspace, tab, line feed, form feed, carriage
      return, `"` and `\`; `\u00xx` for any other control character; the
      character itself otherwise. */
  function EscapeChar(c: char): string {
    if c as int == 8 then "\\b"
    else if c == '\t' then "\\t"
    else if c == '\n' then "\\n"
    else if c as int == 12 then "\\f"
    else if c == '\r' then "\\r"
    else if c == '"' then "\\\""
    else if c == '\\' then "\\\\"
    else if c as int < 32 then ['\\', 'u', '0', '0', HexDigit(c as int / 16), HexDigit(c as int % 16)]
    else [c]
  }

  function Escape(s: string): string {
    if s == [] then [] else EscapeChar(s[0]) + Escape(s[1..])
  }

  /** `JSON.stringify` of a string. */
  function Quote(s: string): string {
    "\"" + Escape(s) + "\""
  }

  /** How an object key is written before its `:`: between quotes as it
      stands (`quoteKeys` false, as the code does), or quoted as
      `JSON.stringify` quotes strings. */
  function KeyText(key: string, quoteKeys: bool): string {
    if quoteKeys then Quote(key) else "\"" + key + "\""
  }

  /** `stringifySorted( item )`: falsy values and values that are not objects
      as `JSON.stringify` writes them, arrays element by element, objects
      member by member in sorted key order. */
  function Stringify(item: Json, quoteKeys: bool): string
    decreases item, 1, 0
  {
    match item
    case JNull => "null"
    case JBool(b) => if b then "true" else "false"
    case JNum(n) => IntToString(n)
    case JStr(s) => Quote(s)
    case JArr(items) => "[" + ItemsText(items, quoteKeys) + "]"
    case JObj(members) => "{" + EntriesText(SortByKey(MemberTexts(members, quoteKeys)), quoteKeys) + "}"
  }

  /** `item.map( stringifySorted ).join( ',' )`. */
  function ItemsText(items: seq<Json>, quoteKeys: bool): string
    decreases items, 0, 0
  {
    if items == [] then ""
    else if |items| == 1 then Stringify(items[0], quoteKeys)
    else Stringify(items[0], quoteKeys) + "," + ItemsText(items[1..], quoteKeys)
  }

  /** Each member's key with its value written out. */
  function MemberTexts(members: seq<(string, Json)>, quoteKeys: bool): seq<(string, string)>
    decreases JObj(members), 0, 0
  {
    seq(|members|, i requires 0 <= i < |members| => (members[i].0, Stringify(members[i].1, quoteKeys)))
  }

  /** `'"' + key + '":' + value`, joined with `,`. */
  function EntriesText(entries: seq<(string, string)>, quoteKeys: bool): string {
    if entries == [] then ""
    else
      var first := KeyText(entries[0].0, quoteKeys) + ":" + entries[0].1;
      if |entries| == 1 then first else first + "," + EntriesText(entries[1..], quoteKeys)
  }

  /** `stringifySorted` as written: keys are put between quotes unescaped. */
  function StringifySorted(item: Json): string {
    Stringify(item, false)
  }

  /** `stringifySorted` with keys quoted like every other string. */
  function StringifyQuoted(item: Json): string {
    Stringify(item, true)
  }

  /** `'ml:' + stringifySorted( args.filter ) + ( args.collapseThreads ?
      '+' : '-' )`, with `undefined` written for a missing filter. */
  function QueryId(args: Json, quoteKeys: bool): string {
    var filter := match Prop(args, "filter")
                  case None => "undefined"
                  case Some(f) => Stringify(f, quoteKeys);
    "ml:" + filter + (if Truthy(Prop(args, "collapseThreads")) then "+" else "-")
  }

  /** `getId( args )` as written. */
  function GetIdAsWritten(args: Json): string {
    QueryId(args, false)
  }

  /** `getId( args )` with the filter's keys quoted. */
  function GetId(args: Json): string {
    QueryId(args, true)
  }

  /** An object with no key twice is written the same whatever order its
      members were added in: `getId` gives one id to one filter. */
  lemma OrderFree(a: seq<(string, Json)>, b: seq<(string, Json)>, quoteKeys: bool)
    requires Distinct(KeysOf(a)) && Distinct(KeysOf(b))
    requires forall m :: m in a <==> m in b
    ensures Stringify(JObj(a), quoteKeys) == Stringify(JObj(b), quoteKeys)
  {
    var ta, tb := MemberTexts(a, quoteKeys), MemberTexts(b, quoteKeys);
    assert KeysOf(ta) == KeysOf(a) && KeysOf(tb) == KeysOf(b);
    forall x
      ensures x in ta <==> x in tb
    {
      if x in ta {
        var i :| 0 <= i < |ta| && ta[i] == x;
        assert a[i] in b;
        var j :| 0 <= j < |b| && b[j] == a[i];
        assert tb[j] == x;
      }
      if x in tb {
        var j :| 0 <= j < |tb| && tb[j] == x;
        assert b[j] in a;
        var i :| 0 <= i < |a| && a[i] == b[j];
        assert ta[i] == x;
      }
    }
    SortByKeyOrderFree(ta, tb);
  }

  /** The object with the one key `a":1,"b` is written `{"a":1,"b":2}`. */
  lemma OddKeyWritten()
    ensures StringifySorted(JObj([("a\":1,\"b", JNum(2))])) == "{\"a\":1,\"b\":2}"
  {
    assert MemberTexts([("a\":1,\"b", JNum(2))], false) == [("a\":1,\"b", "2")];
    assert SortByKey([("a\":1,\"b", "2")]) == [("a\":1,\"b", "2")];
  }

  /** The members of `{ a: 1, b: 2 }` written out, and already in order. */
  lemma TwoKeysTexts()
    ensures SortByKey(MemberTexts([("a", JNum(1)), ("b", JNum(2))], false)) == [("a", "1"), ("b", "2")]
  {
    assert MemberTexts([("a", JNum(1)), ("b", JNum(2))], false) == [("a", "1"), ("b", "2")];
    assert Below("a", "b");
    assert SortByKey([("b", "2")]) == [("b", "2")];
  }

  /** The object `{ a: 1, b: 2 }` is written `{"a":1,"b":2}`. */
  lemma TwoKeysWritten()
    ensures StringifySorted(JObj([("a", JNum(1)), ("b", JNum(2))])) == "{\"a\":1,\"b\":2}"
  {
    TwoKeysTexts();
    assert [("a", "1"), ("b", "2")][1..] == [("b", "2")];
    assert EntriesText([("b", "2")], false) == "\"b\":2";
  }

  /** Keys are not escaped, so a key holding `":` and `,"` writes the same
      text as two members: the filters `{ 'a":1,"b': 2 }` and `{ a: 1, b: 2 }`
      get the same query id. */
  lemma KeysUnescapedCollide()
    ensures var one := JObj([("a\":1,\"b", JNum(2))]);
            var two := JObj([("a", JNum(1)), ("b", JNum(2))]);
            one != two && StringifySorted(one) == StringifySorted(two) == "{\"a\":1,\"b\":2}"
  {
    OddKeyWritten();
    TwoKeysWritten();
  }
}
