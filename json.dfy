/** The tagged JSON value of the hand-written reader/writer, its
    constructors and accessors, and the text `Serialize` writes for it. */
module JsonData {
  import opened Wrappers

  /** A JSON value. Objects keep their members in insertion order, the order
      in which a `Dictionary` without removals enumerates them. */
  datatype Json =
    | Undefined                             // tag -1; also what `null` reads as
    | JInt(n: int)                          // tag 0
    | JString(str: string)                  // tag 1
    | JBool(b: bool)                        // tag 2
    | JList(items: seq<Json>)               // tag 3
    | JObject(fields: seq<(string, Json)>)  // tag 4

  /** The `jsonType` field. */
  function TypeTag(j: Json): (t: int)
    ensures -1 <= t <= 4
    ensures t == -1 <==> j.Undefined?
    ensures t == 0 <==> j.JInt?
    ensures t == 1 <==> j.JString?
    ensures t == 2 <==> j.JBool?
    ensures t == 3 <==> j.JList?
    ensures t == 4 <==> j.JObject?
  {
    match j
    case Undefined => -1
    case JInt(_) => 0
    case JString(_) => 1
    case JBool(_) => 2
    case JList(_) => 3
    case JObject(_) => 4
  }

  /** `Json(int type)`: an empty list for 3, an empty object for 4, and an
      undefined value for every other tag. */
  function OfType(t: int): (j: Json)
    ensures TypeTag(j) == (if t == 3 || t == 4 then t else -1)
    ensures j.JList? ==> j.items == []
    ensures j.JObject? ==> j.fields == []
  {
    if t == 3 then JList([])
    else if t == 4 then JObject([])
    else Undefined
  }

  /** `Json(int type, int value)`: an int whatever tag is passed. */
  function OfInt(t: int, value: int): (j: Json)
    ensures TypeTag(j) == 0 && GetInt(j) == value
  {
    JInt(value)
  }

  /** `Json(int type, string value)`: a string whatever tag is passed. */
  function OfString(t: int, value: string): (j: Json)
    ensures TypeTag(j) == 1 && GetString(j) == value
  {
    JString(value)
  }

  /** `Json(bool value)`. */
  function OfBool(value: bool): (j: Json)
    ensures TypeTag(j) == 2 && GetBool(j) == value
  {
    JBool(value)
  }

  /** The accessors give the value when the tag matches and a default
      (0, "", false, null) otherwise. */
  function GetInt(j: Json): (r: int)
    ensures TypeTag(j) == 0 ==> j == JInt(r)
    ensures TypeTag(j) != 0 ==> r == 0
  {
    if j.JInt? then j.n else 0
  }

  function GetString(j: Json): (r: string)
    ensures TypeTag(j) == 1 ==> j == JString(r)
    ensures TypeTag(j) != 1 ==> r == ""
  {
    if j.JString? then j.str else ""
  }

  function GetBool(j: Json): (r: bool)
    ensures TypeTag(j) == 2 ==> j == JBool(r)
    ensures TypeTag(j) != 2 ==> !r
  {
    if j.JBool? then j.b else false
  }

  function GetList(j: Json): (r: Option<seq<Json>>)
    ensures TypeTag(j) == 3 <==> r.Some?
    ensures r.Some? ==> j == JList(r.value)
  {
    if j.JList? then Some(j.items) else None
  }

  function GetObject(j: Json): (r: Option<seq<(string, Json)>>)
    ensures TypeTag(j) == 4 <==> r.Some?
    ensures r.Some? ==> j == JObject(r.value)
  {
    if j.JObject? then Some(j.fields) else None
  }

  predicate IsDigit(c: char) { '0' <= c <= '9' }

  function DigitChar(d: int): (c: char)
    requires 0 <= d < 10
    ensures IsDigit(c) && c as int - '0' as int == d
  {
    ('0' as int + d) as char
  }

  /** The decimal digits of a natural number, most significant first, with
      no leading zeros. */
  function NatDigits(m: nat): (s: string)
    ensures |s| > 0 && IsDigit(s[0])
    ensures m < 10 <==> |s| == 1
  {
    if m < 10 then [DigitChar(m)] else NatDigits(m / 10) + [DigitChar(m % 10)]
  }

  /** `int.ToString()`: a minus sign for negative numbers, then the digits. */
  function Decimal(n: int): (s: string)
    ensures |s| > 0
    ensures (s[0] == '-') == (n < 0)
  {
    if n < 0 then "-" + NatDigits(-n) else NatDigits(n)
  }

  /** `Serialize`: the text written for a value. A list (object) is written
      as `[` (`{`), every element (member) followed by a comma, and then the
      last character is replaced by `]` (`}`): for a non-empty list that
      last character is the trailing comma, for an empty one the bracket
      itself. Strings are not escaped, and booleans are written the way
      `bool.ToString()` writes them. */
  function Print(j: Json): (s: string)
    ensures |s| > 0
  {
    match j
    case Undefined => "Undefined JSON Data"
    case JInt(n) => Decimal(n)
    case JString(t) => "\"" + t + "\""
    case JBool(b) => if b then "True" else "False"
    case JList(items) => var body := "[" + ItemsText(items); body[..|body| - 1] + "]"
    case JObject(fields) => var body := "{" + FieldsText(fields); body[..|body| - 1] + "}"
  }

  /** Every element followed by a comma, as the list loop appends them. */
  function ItemsText(items: seq<Json>): string
  {
    if |items| == 0 then ""
    else ItemsText(items[..|items| - 1]) + Print(items[|items| - 1]) + ","
  }

  /** Every member as `"key":value` followed by a comma. */
  function FieldsText(fields: seq<(string, Json)>): string
  {
    if |fields| == 0 then ""
    else
      var last := fields[|fields| - 1];
      assert last in fields && last.1 < last;
      FieldsText(fields[..|fields| - 1]) + MemberText(last.0, Print(last.1)) + ","
  }

  function MemberText(key: string, value: string): string
  {
    "\"" + key + "\"" + ":" + value
  }

  /** The elements' texts separated by commas. */
  function Join(items: seq<Json>): string
  {
    if |items| == 0 then ""
    else if |items| == 1 then Print(items[0])
    else Print(items[0]) + "," + Join(items[1..])
  }

  lemma {:induction false} JoinSnoc(items: seq<Json>)
    requires |items| >= 2
    ensures Join(items) == Join(items[..|items| - 1]) + "," + Print(items[|items| - 1])
  {
    if |items| == 2 {
      PairParts(items);
    } else {
      var rest := items[1..];
      var init := items[..|items| - 1];
      JoinSnoc(rest);
      InitTail(items);
      CommaRegroup(Join(items), Print(items[0]), Join(rest), Join(rest[..|rest| - 1]), Print(rest[|rest| - 1]),
                   Join(init), Join(init[1..]));
    }
  }

  lemma TakeNone<T>(x: seq<T>)
    ensures x[..0] == []
  {
  }

  lemma PairParts<T>(x: seq<T>)
    requires |x| == 2
    ensures x[..1] == [x[0]] && x[1..] == [x[1]]
  {
  }

  /** Dropping the first and the last element commute. */
  lemma InitTail<T>(x: seq<T>)
    requires |x| >= 2
    ensures x[1..][..|x| - 2] == x[..|x| - 1][1..]
    ensures x[..|x| - 1][0] == x[0] && x[1..][|x| - 2] == x[|x| - 1]
  {
  }

  /** `h,t` where `t` is `t',l` is `i,l` when `i` is `h,t'`. */
  lemma CommaRegroup(whole: string, head: string, tail: string, tailInit: string, last: string,
                     init: string, initTail: string)
    requires whole == head + "," + tail
    requires tail == tailInit + "," + last
    requires init == head + "," + initTail && initTail == tailInit
    ensures whole == init + "," + last
  {
  }

  /** Appending a text and a comma to text that ends with a comma. */
  lemma CommaAfter(whole: string, front: string, joined: string, joinedFront: string, last: string)
    requires whole == front + last + ","
    requires front == joinedFront + ","
    requires joined == joinedFront + "," + last
    ensures whole == joined + ","
  {
  }

  lemma {:induction false} ItemsTextIsJoin(items: seq<Json>)
    requires items != []
    ensures ItemsText(items) == Join(items) + ","
  {
    if |items| == 1 {
      TakeNone(items);
    } else {
      var init := items[..|items| - 1];
      ItemsTextIsJoin(init);
      JoinSnoc(items);
      CommaAfter(ItemsText(items), ItemsText(init), Join(items), Join(init), Print(items[|items| - 1]));
    }
  }

  /** A non-empty list is written as `[`, the elements joined by commas, and
      `]`; an empty list is written as `]` alone. */
  lemma ListText(items: seq<Json>)
    ensures items != [] ==> Print(JList(items)) == "[" + Join(items) + "]"
    ensures items == [] ==> Print(JList(items)) == "]"
  {
    if items != [] {
      ItemsTextIsJoin(items);
      var body := "[" + ItemsText(items);
      assert body == "[" + Join(items) + ",";
      assert body[..|body| - 1] == "[" + Join(items);
    }
  }

  /** The members' texts separated by commas. */
  function JoinFields(fields: seq<(string, Json)>): string
  {
    if |fields| == 0 then ""
    else if |fields| == 1 then MemberText(fields[0].0, Print(fields[0].1))
    else MemberText(fields[0].0, Print(fields[0].1)) + "," + JoinFields(fields[1..])
  }

  lemma {:induction false} JoinFieldsSnoc(fields: seq<(string, Json)>)
    requires |fields| >= 2
    ensures JoinFields(fields) ==
              JoinFields(fields[..|fields| - 1]) + "," + MemberText(fields[|fields| - 1].0, Print(fields[|fields| - 1].1))
  {
    if |fields| == 2 {
      PairParts(fields);
    } else {
      var rest := fields[1..];
      var init := fields[..|fields| - 1];
      JoinFieldsSnoc(rest);
      InitTail(fields);
      CommaRegroup(JoinFields(fields), MemberText(fields[0].0, Print(fields[0].1)), JoinFields(rest),
                   JoinFields(rest[..|rest| - 1]), MemberText(rest[|rest| - 1].0, Print(rest[|rest| - 1].1)),
                   JoinFields(init), JoinFields(init[1..]));
    }
  }

  lemma {:induction false} FieldsTextIsJoin(fields: seq<(string, Json)>)
    requires fields != []
    ensures FieldsText(fields) == JoinFields(fields) + ","
  {
    if |fields| == 1 {
      TakeNone(fields);
    } else {
      var init := fields[..|fields| - 1];
      FieldsTextIsJoin(init);
      JoinFieldsSnoc(fields);
      CommaAfter(FieldsText(fields), FieldsText(init), JoinFields(fields), JoinFields(init),
                 MemberText(fields[|fields| - 1].0, Print(fields[|fields| - 1].1)));
    }
  }

  /** A non-empty object is written as `{`, the `"key":value` members joined
      by commas in insertion order, and `}`; an empty object is written as
      `}` alone. */
  lemma ObjectText(fields: seq<(string, Json)>)
    ensures fields != [] ==> Print(JObject(fields)) == "{" + JoinFields(fields) + "}"
    ensures fields == [] ==> Print(JObject(fields)) == "}"
  {
    if fields != [] {
      FieldsTextIsJoin(fields);
      var body := "{" + FieldsText(fields);
      assert body == "{" + JoinFields(fields) + ",";
      assert body[..|body| - 1] == "{" + JoinFields(fields);
    }
  }
}
