/** What the recursive-descent reader computes, stated as functions of the
    input text and a start index: each parser yields a value and the index
    just past what it consumed, or the failure the reader would hit. */
module JsonParse {
  import opened Wrappers
  import opened JsonData

  datatype ParseError =
    | OutOfRange(at: int)        // the reader indexes past the end of the text and throws
    | NoProgress(at: int)        // a list element that consumes nothing: the list loop never ends
    | DuplicateKey(key: string)  // a repeated object key: `Dictionary.Add` throws

  /** A parsed value and the index after it, or a failure. */
  datatype Res<T> = Ok(value: T, next: int) | Err(error: ParseError)

  predicate IsSpace(c: char) { c == ' ' || c == '\r' || c == '\n' || c == '\t' }

  /** The first index at or after `i` that does not hold white space. */
  function SkipSpaces(s: string, i: nat): (k: nat)
    requires i <= |s|
    ensures i <= k <= |s|
    ensures forall m :: i <= m < k ==> IsSpace(s[m])
    ensures k < |s| ==> !IsSpace(s[k])
    decreases |s| - i
  {
    if i < |s| && IsSpace(s[i]) then SkipSpaces(s, i + 1) else i
  }

  /** The tag a value starting with `c` gets. */
  function TypeOfChar(c: char): int
  {
    match c
    case '"' => 1
    case 't' => 2
    case 'f' => 2
    case '[' => 3
    case '{' => 4
    case '-' => 0
    case _ => if IsDigit(c) then 0 else -1
  }

  /** `readType`: skips white space, then classifies the first other character. */
  function TypeAt(s: string, i: nat): (r: Res<int>)
    requires i <= |s|
    ensures r.Err? <==> forall m :: i <= m < |s| ==> IsSpace(s[m])
    ensures r.Err? ==> r.error == OutOfRange(|s|)
    ensures r.Ok? ==> i <= r.next < |s| && !IsSpace(s[r.next]) && forall m :: i <= m < r.next ==> IsSpace(s[m])
    ensures r.Ok? ==> (r.value == 1 <==> s[r.next] == '"')
    ensures r.Ok? ==> (r.value == 2 <==> s[r.next] == 't' || s[r.next] == 'f')
    ensures r.Ok? ==> (r.value == 3 <==> s[r.next] == '[')
    ensures r.Ok? ==> (r.value == 4 <==> s[r.next] == '{')
    ensures r.Ok? ==> (r.value == 0 <==> s[r.next] == '-' || IsDigit(s[r.next]))
    ensures r.Ok? ==> -1 <= r.value <= 4
  {
    var k := SkipSpaces(s, i);
    if k == |s| then Err(OutOfRange(k)) else Ok(TypeOfChar(s[k]), k)
  }

  /** The end of the run of digits that starts at `j`. */
  function DigitsEnd(s: string, j: nat): (e: nat)
    requires j <= |s|
    ensures j <= e <= |s|
    ensures forall m :: j <= m < e ==> IsDigit(s[m])
    ensures e < |s| ==> !IsDigit(s[e])
    decreases |s| - j
  {
    if j < |s| && IsDigit(s[j]) then DigitsEnd(s, j + 1) else j
  }

  predicate AllDigits(ds: string)
  {
    forall k :: 0 <= k < |ds| ==> IsDigit(ds[k])
  }

  /** The number a string of decimal digits denotes (0 for none). */
  function DecimalValue(ds: string): (v: nat)
    requires AllDigits(ds)
  {
    if |ds| == 0 then 0
    else DecimalValue(ds[..|ds| - 1]) * 10 + (ds[|ds| - 1] as int - '0' as int)
  }

  /** `IntParser`: an optional minus sign and the longest run of digits after
      it; the index stops at the first character that is not a digit, and
      reading past the end of the text fails. */
  function IntAt(s: string, i: nat): (r: Res<int>)
    ensures r.Ok? ==> i <= r.next < |s| && !IsDigit(s[r.next])
    ensures r.Ok? && r.next == i ==> !IsDigit(s[i]) && s[i] != '-' && r.value == 0
    ensures r.Err? ==> r.error.OutOfRange?
  {
    if i >= |s| then Err(OutOfRange(i))
    else
      var neg := s[i] == '-';
      var start := if neg then i + 1 else i;
      var e := DigitsEnd(s, start);
      if e == |s| then Err(OutOfRange(e))
      else
        var v: int := DecimalValue(s[start..e]);
        Ok(if neg then 0 - v else v, e)
  }

  /** The number read is the value of the digits after the optional minus
      sign, negated when the sign is there. */
  lemma IntAtValue(s: string, i: nat)
    ensures var r := IntAt(s, i);
            r.Ok? ==>
              var neg := s[i] == '-';
              var start := if neg then i + 1 else i;
              && start <= r.next
              && AllDigits(s[start..r.next])
              && r.value == (if neg then 0 - DecimalValue(s[start..r.next]) else DecimalValue(s[start..r.next]))
  {
  }

  /** The body of a string from index `j` on, with `acc` read so far: every
      character, and after a backslash the character that follows it
      whatever it is, is copied until an unescaped quote. */
  function StringBody(s: string, j: nat, acc: string): (r: Res<string>)
    ensures r.Ok? ==> j < r.next <= |s| && s[r.next - 1] == '"'
    ensures r.Ok? ==> r.value == acc + s[j..r.next - 1]
    ensures r.Err? ==> r.error.OutOfRange?
    decreases |s| - j
  {
    if j >= |s| then Err(OutOfRange(j))
    else if s[j] == '"' then Ok(acc, j + 1)
    else if s[j] == '\\' then
      if j + 1 >= |s| then Err(OutOfRange(j + 1))
      else StringBody(s, j + 2, acc + [s[j], s[j + 1]])
    else StringBody(s, j + 1, acc + [s[j]])
  }

  /** `StringParser` and `StringReader`: the character at `i` is the opening
      quote; the value is the text up to the closing quote, copied
      verbatim, and the index ends just past the closing quote. */
  function StringAt(s: string, i: nat): (r: Res<string>)
    ensures r.Ok? ==> i + 2 <= r.next <= |s| && s[r.next - 1] == '"' && r.value == s[i + 1..r.next - 1]
    ensures r.Err? ==> r.error.OutOfRange?
  {
    StringBody(s, i + 1, "")
  }

  /** `BoolParser`: true exactly when the character is `t`; the index moves
      over four characters for true and five for false, without looking at
      them. */
  function BoolAt(s: string, i: nat): (r: Res<bool>)
    ensures r.Ok? <==> i < |s|
    ensures r.Ok? ==> r.value == (s[i] == 't') && r.next == i + (if r.value then 4 else 5)
    ensures r.Err? ==> r.error == OutOfRange(i)
  {
    if i >= |s| then Err(OutOfRange(i))
    else
      var t := s[i] == 't';
      Ok(t, if t then i + 4 else i + 5)
  }

  /** `NullParser`: the four characters of `null` are skipped unread. */
  function NullAt(s: string, i: nat): Res<Json>
  {
    Ok(Undefined, i + 4)
  }

  /** The keys of an object's members. */
  function Keys(fields: seq<(string, Json)>): set<string>
  {
    if |fields| == 0 then {} else Keys(fields[..|fields| - 1]) + {fields[|fields| - 1].0}
  }

  /** Every member's key is among the keys. */
  lemma {:induction false} KeyIn(fields: seq<(string, Json)>, a: nat)
    requires a < |fields|
    ensures fields[a].0 in Keys(fields)
    decreases |fields|
  {
    if a < |fields| - 1 {
      KeyIn(fields[..|fields| - 1], a);
    }
  }

  predicate DistinctKeys(fields: seq<(string, Json)>)
  {
    forall a, b :: 0 <= a < b < |fields| ==> fields[a].0 != fields[b].0
  }

  lemma AppendKeepsDistinct(acc: seq<(string, Json)>, key: string, v: Json)
    requires key !in Keys(acc)
    ensures DistinctKeys(acc) ==> DistinctKeys(acc + [(key, v)])
  {
    var acc' := acc + [(key, v)];
    if DistinctKeys(acc) {
      forall a, b | 0 <= a < b < |acc'| ensures acc'[a].0 != acc'[b].0 {
        if b == |acc| {
          KeyIn(acc, a);
        }
      }
    }
  }

  /** The value whose first character is at `j`, dispatched on that
      character as the list and object loops do. */
  function ValueAt(s: string, j: nat): (r: Res<Json>)
    requires j < |s|
    ensures r.Ok? ==> j <= r.next
    ensures r.Ok? && r.next == j ==> !IsDigit(s[j]) && s[j] != '-' && r.value == JInt(0)
    ensures r.Ok? && r.next == j ==> s[j] !in {'[', '{', 't', 'f', '"', 'n'}
    decreases |s| - j, 1, 0
  {
    match s[j]
    case '[' => (match ListAt(s, j) case Ok(items, k) => Ok(JList(items), k) case Err(e) => Err(e))
    case '{' => (match ObjectAt(s, j) case Ok(fields, k) => Ok(JObject(fields), k) case Err(e) => Err(e))
    case 't' => (match BoolAt(s, j) case Ok(b, k) => Ok(JBool(b), k) case Err(e) => Err(e))
    case 'f' => (match BoolAt(s, j) case Ok(b, k) => Ok(JBool(b), k) case Err(e) => Err(e))
    case '"' => (match StringAt(s, j) case Ok(t, k) => Ok(JString(t), k) case Err(e) => Err(e))
    case 'n' => NullAt(s, j)
    case _ => (match IntAt(s, j) case Ok(n, k) => Ok(JInt(n), k) case Err(e) => Err(e))
  }

  /** `ListParser`: the character at `i` is the opening bracket. */
  function ListAt(s: string, i: nat): (r: Res<seq<Json>>)
    requires i < |s|
    ensures r.Ok? ==> i < r.next - 1 < |s| && s[r.next - 1] == ']'
    decreases |s| - i, 0, 0
  {
    ListItems(s, i + 1, [])
  }

  /** The list loop from index `j` with the elements `acc` read so far:
      white space and commas are skipped, every other character starts an
      element appended at the end, and `]` ends the list. */
  function ListItems(s: string, j: nat, acc: seq<Json>): (r: Res<seq<Json>>)
    ensures r.Ok? ==> j < r.next <= |s| && s[r.next - 1] == ']'
    decreases |s| - j, 2, 0
  {
    if j >= |s| then Err(OutOfRange(j))
    else if s[j] == ']' then Ok(acc, j + 1)
    else if IsSpace(s[j]) || s[j] == ',' then ListItems(s, j + 1, acc)
    else
      match ValueAt(s, j)
      case Err(e) => Err(e)
      case Ok(v, k) =>
        if k == j then Err(NoProgress(j))
        else
          ListItems(s, k, acc + [v])
  }

  /** `ObjectParser`: the character at `i` is the opening brace. */
  function ObjectAt(s: string, i: nat): (r: Res<seq<(string, Json)>>)
    requires i < |s|
    ensures r.Ok? ==> i < r.next - 1 < |s| && s[r.next - 1] == '}'
    decreases |s| - i, 0, 0
  {
    ObjectItems(s, i + 1, None, [])
  }

  /** The object loop from index `j`, with the members `acc` read so far and
      `key` the key read and still waiting for its value (the source's
      `flag` is 1 exactly when there is one). Waiting for a key, a quote
      starts the key and anything else is skipped; waiting for a value, white
      space, commas and colons are skipped and anything else starts the
      value. A `}` ends the object in either case. */
  function ObjectItems(s: string, j: nat, key: Option<string>, acc: seq<(string, Json)>): (r: Res<seq<(string, Json)>>)
    ensures r.Ok? ==> j < r.next <= |s| && s[r.next - 1] == '}'
    decreases |s| - j, 2, if key.Some? then 1 else 0
  {
    if j >= |s| then Err(OutOfRange(j))
    else if s[j] == '}' then Ok(acc, j + 1)
    else if key.Some? then
      if IsSpace(s[j]) || s[j] == ',' || s[j] == ':' then ObjectItems(s, j + 1, key, acc)
      else
        match ValueAt(s, j)
        case Err(e) => Err(e)
        case Ok(v, k) =>
          if key.value in Keys(acc) then Err(DuplicateKey(key.value))
          else
            ObjectItems(s, k, None, acc + [(key.value, v)])
    else if s[j] == '"' then
      match StringAt(s, j)
      case Err(e) => Err(e)
      case Ok(name, k) => ObjectItems(s, k, Some(name), acc)
    else ObjectItems(s, j + 1, None, acc)
  }

  /** The object loop never produces two members with the same key. */
  lemma {:induction false} ObjectItemsDistinct(s: string, j: nat, key: Option<string>, acc: seq<(string, Json)>)
    requires DistinctKeys(acc)
    ensures ObjectItems(s, j, key, acc).Ok? ==> DistinctKeys(ObjectItems(s, j, key, acc).value)
    decreases |s| - j, if key.Some? then 1 else 0
  {
    if j < |s| && s[j] != '}' {
      if key.Some? {
        if IsSpace(s[j]) || s[j] == ',' || s[j] == ':' {
          ObjectItemsDistinct(s, j + 1, key, acc);
        } else {
          match ValueAt(s, j)
          case Err(_) =>
          case Ok(v, k) =>
            if key.value !in Keys(acc) {
              AppendKeepsDistinct(acc, key.value, v);
              ObjectItemsDistinct(s, k, None, acc + [(key.value, v)]);
            }
        }
      } else if s[j] == '"' {
        match StringAt(s, j)
        case Err(_) =>
        case Ok(name, k) => ObjectItemsDistinct(s, k, Some(name), acc);
      } else {
        ObjectItemsDistinct(s, j + 1, None, acc);
      }
    }
  }

  /** Every object read has distinct keys. */
  lemma ObjectAtDistinct(s: string, i: nat)
    requires i < |s|
    ensures ObjectAt(s, i).Ok? ==> DistinctKeys(ObjectAt(s, i).value)
  {
    ObjectItemsDistinct(s, i + 1, None, []);
  }

  /** `Json(string input)`: the tag `readType` finds decides which parser
      reads the value; a tag of -1 gives an undefined value. */
  function Parse(s: string): (r: Res<Json>)
    ensures r.Ok? ==> TypeTag(r.value) == (match TypeAt(s, 0) case Ok(t, _) => t case Err(_) => -1)
  {
    match TypeAt(s, 0)
    case Err(e) => Err(e)
    case Ok(t, k) =>
      if t == 0 then (match IntAt(s, k) case Ok(n, e) => Ok(JInt(n), e) case Err(e) => Err(e))
      else if t == 1 then (match StringAt(s, k) case Ok(v, e) => Ok(JString(v), e) case Err(e) => Err(e))
      else if t == 2 then (match BoolAt(s, k) case Ok(b, e) => Ok(JBool(b), e) case Err(e) => Err(e))
      else if t == 3 then (match ListAt(s, k) case Ok(v, e) => Ok(JList(v), e) case Err(e) => Err(e))
      else if t == 4 then (match ObjectAt(s, k) case Ok(v, e) => Ok(JObject(v), e) case Err(e) => Err(e))
      else Ok(Undefined, k)
  }
}
