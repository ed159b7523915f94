/** The reader and writer as the `Json` class runs them: every parser
    advances an index through the text in a loop, the list and object
    parsers fill their collection in place, and `Serialize` appends to a
    string. Each method is proved to compute the function of the same name
    in `JsonParse` or `JsonData`; the index passed by reference is the
    `next` field of the result, and a read past the end of the text (an
    `IndexOutOfRangeException`) or a repeated key (`Dictionary.Add`
    throwing) is an `Err`. */
module JsonHelper {
  import opened Wrappers
  import opened JsonData
  import opened JsonParse

  /** `readType`: skips white space, then classifies the character found. */
  method ReadType(s: string, i: nat) returns (r: Res<int>)
    requires i <= |s|
    ensures r == TypeAt(s, i)
  {
    var index := i;
    while index < |s| && IsSpace(s[index])
      invariant i <= index <= |s|
      invariant SkipSpaces(s, index) == SkipSpaces(s, i)
      decreases |s| - index
    {
      index := index + 1;
    }
    if index == |s| {
      return Err(OutOfRange(index));
    }
    return Ok(TypeOfChar(s[index]), index);
  }

  /** `IntParser`: an optional minus sign, then digits accumulated as
      `ret * 10 + digit` until a character that is not a digit. */
  method IntParser(s: string, i: nat) returns (r: Res<int>)
    ensures r == IntAt(s, i)
  {
    if i >= |s| {
      return Err(OutOfRange(i));
    }
    var neg := s[i] == '-';
    var start := if neg then i + 1 else i;
    var index := start;
    var ret: int := 0;
    while index < |s| && IsDigit(s[index])
      invariant start <= index <= |s|
      invariant DigitsEnd(s, index) == DigitsEnd(s, start)
      invariant AllDigits(s[start..index]) && ret == DecimalValue(s[start..index])
      decreases |s| - index
    {
      DigitStep(s, start, index);
      ret := ret * 10 + (s[index] as int - '0' as int);
      index := index + 1;
    }
    if index == |s| {
      return Err(OutOfRange(index));
    }
    if neg {
      ret := 0 - ret;
    }
    return Ok(ret, index);
  }

  lemma DigitStep(s: string, start: nat, index: nat)
    requires start <= index < |s| && IsDigit(s[index])
    requires AllDigits(s[start..index])
    ensures AllDigits(s[start..index + 1])
    ensures DecimalValue(s[start..index + 1]) == DecimalValue(s[start..index]) * 10 + (s[index] as int - '0' as int)
  {
    assert s[start..index + 1][..index - start] == s[start..index];
  }

  /** `StringParser`: past the opening quote, every character is copied,
      a backslash together with the character after it, until a quote. */
  method StringParser(s: string, i: nat) returns (r: Res<string>)
    ensures r == StringAt(s, i)
  {
    var ret := "";
    var index := i + 1;
    while index < |s| && s[index] != '"'
      invariant i + 1 <= index
      invariant StringBody(s, index, ret) == StringBody(s, i + 1, "")
      decreases |s| - index
    {
      if s[index] == '\\' {
        if index + 1 >= |s| {
          return Err(OutOfRange(index + 1));
        }
        ret := ret + [s[index], s[index + 1]];
        index := index + 2;
      } else {
        ret := ret + [s[index]];
        index := index + 1;
      }
    }
    if index >= |s| {
      return Err(OutOfRange(index));
    }
    return Ok(ret, index + 1);
  }

  /** `StringReader`, the key reader of the object loop, is the same loop as
      `StringParser`. */
  method StringReader(s: string, i: nat) returns (r: Res<string>)
    ensures r == StringAt(s, i)
  {
    r := StringParser(s, i);
  }

  /** `BoolParser`: `t` means true; four or five characters are skipped. */
  method BoolParser(s: string, i: nat) returns (r: Res<bool>)
    ensures r == BoolAt(s, i)
  {
    if i >= |s| {
      return Err(OutOfRange(i));
    }
    var ret := s[i] == 't';
    var index := if ret then i + 4 else i + 5;
    return Ok(ret, index);
  }

  /** `NullParser`: skips four characters and yields no value. */
  method NullParser(s: string, i: nat) returns (r: Res<Json>)
    ensures r == NullAt(s, i)
  {
    return Ok(Undefined, i + 4);
  }

  /** The `switch` of the list and object loops: the character at `j`
      selects the parser, an int being the default. */
  method ElementParser(s: string, j: nat) returns (r: Res<Json>)
    requires j < |s|
    ensures r == ValueAt(s, j)
    decreases |s| - j, 1
  {
    match s[j]
    case '[' =>
      var l := ListParser(s, j);
      r := if l.Ok? then Ok(JList(l.value), l.next) else Err(l.error);
    case '{' =>
      var o := ObjectParser(s, j);
      r := if o.Ok? then Ok(JObject(o.value), o.next) else Err(o.error);
    case 't' =>
      var b := BoolParser(s, j);
      r := Ok(JBool(b.value), b.next);
    case 'f' =>
      var b := BoolParser(s, j);
      r := Ok(JBool(b.value), b.next);
    case '"' =>
      var t := StringParser(s, j);
      r := if t.Ok? then Ok(JString(t.value), t.next) else Err(t.error);
    case 'n' =>
      r := NullParser(s, j);
    case _ =>
      var n := IntParser(s, j);
      r := if n.Ok? then Ok(JInt(n.value), n.next) else Err(n.error);
  }

  /** `ListParser`: past the opening bracket, white space and commas are
      skipped and every other character starts an element, appended to the
      list, until `]`. An element that consumes nothing would keep the loop
      at the same index for ever; that is reported as `NoProgress`. */
  method ListParser(s: string, i: nat) returns (r: Res<seq<Json>>)
    requires i < |s|
    ensures r == ListAt(s, i)
    decreases |s| - i, 0
  {
    var list: seq<Json> := [];
    var index := i + 1;
    while index < |s| && s[index] != ']'
      invariant i + 1 <= index
      invariant ListItems(s, index, list) == ListItems(s, i + 1, [])
      decreases |s| - index
    {
      if IsSpace(s[index]) || s[index] == ',' {
        index := index + 1;
      } else {
        var e := ElementParser(s, index);
        if e.Err? {
          return Err(e.error);
        }
        if e.next == index {
          return Err(NoProgress(index));
        }
        list := list + [e.value];
        index := e.next;
      }
    }
    if index >= |s| {
      return Err(OutOfRange(index));
    }
    return Ok(list, index + 1);
  }

  /** `ObjectParser`: past the opening brace, with `flag` 0 a quote starts
      a key (`column`) and sets `flag` to 1, anything else is skipped; with
      `flag` 1 white space, commas and colons are skipped and anything else
      starts the value, added under `column` before `flag` returns to 0.
      `}` ends the object in either state. */
  method ObjectParser(s: string, i: nat) returns (r: Res<seq<(string, Json)>>)
    requires i < |s|
    ensures r == ObjectAt(s, i)
    decreases |s| - i, 0
  {
    var dic: seq<(string, Json)> := [];
    var index := i + 1;
    var flag := 0;
    var column := "";
    while index < |s| && s[index] != '}'
      invariant i + 1 <= index
      invariant flag == 0 || flag == 1
      invariant ObjectItems(s, index, if flag == 1 then Some(column) else None, dic) == ObjectItems(s, i + 1, None, [])
      decreases |s| - index, flag
    {
      if flag == 1 {
        if IsSpace(s[index]) || s[index] == ',' || s[index] == ':' {
          index := index + 1;
        } else {
          var e := ElementParser(s, index);
          if e.Err? {
            return Err(e.error);
          }
          if column in Keys(dic) {
            return Err(DuplicateKey(column));
          }
          dic := dic + [(column, e.value)];
          flag, column := 0, "";
          index := e.next;
        }
      } else {
        if s[index] == '"' {
          var name := StringReader(s, index);
          if name.Err? {
            return Err(name.error);
          }
          column := name.value;
          flag := 1;
          index := name.next;
        } else {
          index := index + 1;
        }
      }
    }
    if index >= |s| {
      return Err(OutOfRange(index));
    }
    return Ok(dic, index + 1);
  }

  /** `Json(string input)`: `readType` from index 0, then the parser the tag
      selects; an unrecognised tag leaves the value undefined. */
  method FromString(input: string) returns (r: Res<Json>)
    ensures r == Parse(input)
  {
    var t := ReadType(input, 0);
    if t.Err? {
      return Err(t.error);
    }
    var index := t.next;
    if t.value == 0 {
      var n := IntParser(input, index);
      r := if n.Ok? then Ok(JInt(n.value), n.next) else Err(n.error);
    } else if t.value == 1 {
      var v := StringParser(input, index);
      r := if v.Ok? then Ok(JString(v.value), v.next) else Err(v.error);
    } else if t.value == 2 {
      var b := BoolParser(input, index);
      r := Ok(JBool(b.value), b.next);
    } else if t.value == 3 {
      var l := ListParser(input, index);
      r := if l.Ok? then Ok(JList(l.value), l.next) else Err(l.error);
    } else if t.value == 4 {
      var o := ObjectParser(input, index);
      r := if o.Ok? then Ok(JObject(o.value), o.next) else Err(o.error);
    } else {
      r := Ok(Undefined, index);
    }
  }

  /** `Serialize`: the text is built by appending; see `SerializeItems`
      and `SerializeFields` for the two loops. */
  method Serialize(j: Json) returns (ret: string)
    ensures ret == Print(j)
    decreases j, 1
  {
    match j
    case Undefined =>
      ret := "Undefined JSON Data";
    case JInt(n) =>
      ret := Decimal(n);
    case JString(t) =>
      ret := "\"" + t + "\"";
    case JBool(b) =>
      ret := if b then "True" else "False";
    case JList(items) =>
      ret := SerializeItems(items);
    case JObject(fields) =>
      ret := SerializeFields(fields);
  }

  /** The list case: `[`, every element followed by a comma, and then the
      last character replaced by `]`. */
  method SerializeItems(items: seq<Json>) returns (ret: string)
    ensures ret == Print(JList(items))
    decreases JList(items), 0
  {
    ret := "[";
    for k := 0 to |items|
      invariant ret == "[" + ItemsText(items[..k])
    {
      var e := Serialize(items[k]);
      ItemsTextSnoc(items, k, ret, e);
      ret := ret + e + ",";
    }
    ListCloses(items, ret);
    ret := ret[..|ret| - 1] + "]";
  }

  /** The object case: `{`, every member as `"key":value` followed by a
      comma, and then the last character replaced by `}`. */
  method SerializeFields(fields: seq<(string, Json)>) returns (ret: string)
    ensures ret == Print(JObject(fields))
    decreases JObject(fields), 0
  {
    ret := "{";
    for k := 0 to |fields|
      invariant ret == "{" + FieldsText(fields[..k])
    {
      assert fields[k] in fields && fields[k].1 < fields[k];
      var v := Serialize(fields[k].1);
      FieldsTextSnoc(fields, k, ret, v);
      ret := ret + MemberText(fields[k].0, v) + ",";
    }
    ObjectCloses(fields, ret);
    ret := ret[..|ret| - 1] + "}";
  }

  lemma ListCloses(items: seq<Json>, body: string)
    requires body == "[" + ItemsText(items[..|items|])
    ensures body[..|body| - 1] + "]" == Print(JList(items))
  {
    assert items[..|items|] == items;
  }

  lemma ObjectCloses(fields: seq<(string, Json)>, body: string)
    requires body == "{" + FieldsText(fields[..|fields|])
    ensures body[..|body| - 1] + "}" == Print(JObject(fields))
  {
    assert fields[..|fields|] == fields;
  }

  lemma ItemsTextSnoc(items: seq<Json>, k: nat, front: string, e: string)
    requires k < |items|
    requires front == "[" + ItemsText(items[..k]) && e == Print(items[k])
    ensures front + e + "," == "[" + ItemsText(items[..k + 1])
  {
    assert items[..k + 1][..k] == items[..k];
  }

  lemma FieldsTextSnoc(fields: seq<(string, Json)>, k: nat, front: string, v: string)
    requires k < |fields|
    requires front == "{" + FieldsText(fields[..k]) && v == Print(fields[k].1)
    ensures front + MemberText(fields[k].0, v) + "," == "{" + FieldsText(fields[..k + 1])
  {
    assert fields[..k + 1][..k] == fields[..k];
  }

  /** `Json(Json that)`: a deep copy, element by element and member by
      member. */
  method Copy(that: Json) returns (c: Json)
    ensures c == that
    decreases that
  {
    match that
    case JList(items) =>
      var list: seq<Json> := [];
      for k := 0 to |items|
        invariant list == items[..k]
      {
        var e := Copy(items[k]);
        list := list + [e];
      }
      assert items[..|items|] == items;
      c := JList(list);
    case JObject(fields) =>
      var dic: seq<(string, Json)> := [];
      for k := 0 to |fields|
        invariant dic == fields[..k]
      {
        assert fields[k] in fields && fields[k].1 < fields[k];
        var v := Copy(fields[k].1);
        dic := dic + [(fields[k].0, v)];
      }
      assert fields[..|fields|] == fields;
      c := JObject(dic);
    case _ =>
      c := that;
  }
}
