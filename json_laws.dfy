/** What the writer and the reader promise about each other: which values
    read back as written, and where the round trip breaks. */
module JsonLaws {
  import opened Wrappers
  import opened JsonData
  import opened JsonParse
  import opened JsonReading

  /** `w` occurs in `s` at index `p`. */
  predicate At(s: string, p: nat, w: string)
  {
    p + |w| <= |s| && AtFrom(s, p, w, 0)
  }

  /** The characters of `w` from index `i` on occur in `s` from `p + i` on. */
  predicate AtFrom(s: string, p: nat, w: string, i: nat)
    decreases |w| - i
  {
    i >= |w| || (p + i < |s| && s[p + i] == w[i] && AtFrom(s, p, w, i + 1))
  }

  lemma {:induction false} AtFromChar(s: string, p: nat, w: string, i: nat, k: nat)
    requires AtFrom(s, p, w, i) && i <= k < |w|
    ensures p + k < |s| && s[p + k] == w[k]
    decreases k - i
  {
    if i < k {
      AtFromChar(s, p, w, i + 1, k);
    }
  }

  lemma {:induction false} AtFromOf(s: string, p: nat, w: string, i: nat)
    requires p + |w| <= |s| && forall k :: i <= k < |w| ==> s[p + k] == w[k]
    ensures AtFrom(s, p, w, i)
    decreases |w| - i
  {
    if i < |w| {
      AtFromOf(s, p, w, i + 1);
    }
  }

  lemma AtChar(s: string, p: nat, w: string, k: nat)
    requires At(s, p, w) && k < |w|
    ensures s[p + k] == w[k]
  {
    AtFromChar(s, p, w, 0, k);
  }

  lemma AtSplit(s: string, p: nat, a: string, b: string)
    requires At(s, p, a + b)
    ensures At(s, p, a) && At(s, p + |a|, b)
  {
    forall k | 0 <= k < |a| ensures s[p + k] == a[k] {
      AtFromChar(s, p, a + b, 0, k);
    }
    AtFromOf(s, p, a, 0);
    forall k | 0 <= k < |b| ensures s[p + |a| + k] == b[k] {
      AtFromChar(s, p, a + b, 0, |a| + k);
    }
    AtFromOf(s, p + |a|, b, 0);
  }

  lemma AtSlice(s: string, p: nat, w: string)
    requires At(s, p, w)
    ensures s[p..p + |w|] == w
  {
    forall k | 0 <= k < |w| ensures s[p..p + |w|][k] == w[k] {
      AtFromChar(s, p, w, 0, k);
    }
  }

  lemma AtWhole(s: string)
    ensures At(s, 0, s)
  {
    AtFromOf(s, 0, s, 0);
  }

  lemma AtSep(s: string, p: nat, a: string, c: char, b: string)
    requires At(s, p, a + [c] + b)
    ensures At(s, p, a) && p + |a| < |s| && s[p + |a|] == c && At(s, p + |a| + 1, b)
  {
    assert a + [c] + b == a + ([c] + b);
    AtSplit(s, p, a, [c] + b);
    AtSplit(s, p + |a|, [c], b);
    AtChar(s, p + |a|, [c], 0);
  }

  lemma AtEnd(s: string, p: nat, a: string, c: char)
    requires At(s, p, a + [c])
    ensures At(s, p, a) && p + |a| < |s| && s[p + |a|] == c
  {
    AtSplit(s, p, a, [c]);
    AtChar(s, p + |a|, [c], 0);
  }

  /** Where the key and the value of a written member lie. */
  lemma AtMember(s: string, p: nat, key: string, value: string, tail: string)
    requires At(s, p, MemberText(key, value) + tail)
    ensures At(s, p, "\"" + key + "\"")
    ensures p + |key| + 2 < |s| && s[p + |key| + 2] == ':'
    ensures At(s, p + |key| + 3, value)
    ensures At(s, p + |key| + 3 + |value|, tail)
  {
    var q := "\"" + key + "\"";
    assert MemberText(key, value) + tail == q + [':'] + (value + tail);
    AtSep(s, p, q, ':', value + tail);
    AtSplit(s, p + |q| + 1, value, tail);
  }

  // ---------------------------------------------------------------- integers

  lemma {:induction false} NatDigitsValue(m: nat)
    ensures AllDigits(NatDigits(m)) && DecimalValue(NatDigits(m)) == m
  {
    if m >= 10 {
      NatDigitsValue(m / 10);
      var x := NatDigits(m / 10);
      assert (x + [DigitChar(m % 10)])[..|x|] == x;
    }
  }

  /** A run of digits followed by the end of the text or a non-digit ends
      exactly where the run does. */
  lemma {:induction false} DigitsEndOver(s: string, j: nat, ds: string)
    requires AllDigits(ds) && At(s, j, ds)
    requires j + |ds| < |s| ==> !IsDigit(s[j + |ds|])
    ensures DigitsEnd(s, j) == j + |ds|
    decreases |ds|
  {
    if ds != [] {
      assert ds == [ds[0]] + ds[1..];
      AtSplit(s, j, [ds[0]], ds[1..]);
      AtChar(s, j, ds, 0);
      DigitsEndOver(s, j + 1, ds[1..]);
    }
  }

  /** An optional minus sign and a run of digits followed by a non-digit
      read as the signed value of the digits. */
  lemma IntAtOver(s: string, i: nat, start: nat, ds: string)
    requires i < |s| && start == (if s[i] == '-' then i + 1 else i)
    requires AllDigits(ds) && At(s, start, ds)
    requires start + |ds| < |s| && !IsDigit(s[start + |ds|])
    ensures IntAt(s, i) == Ok(if s[i] == '-' then 0 - DecimalValue(ds) else DecimalValue(ds), start + |ds|)
  {
    DigitsEndOver(s, start, ds);
    AtSlice(s, start, ds);
  }

  /** The text `int.ToString()` writes reads back as the same number when a
      non-digit follows it. */
  lemma IntRoundTrip(s: string, i: nat, n: int)
    requires At(s, i, Decimal(n)) && i + |Decimal(n)| < |s| && !IsDigit(s[i + |Decimal(n)|])
    ensures IntAt(s, i) == Ok(n, i + |Decimal(n)|)
  {
    AtChar(s, i, Decimal(n), 0);
    if n < 0 {
      var ds := NatDigits(0 - n);
      AtSplit(s, i, "-", ds);
      NatDigitsValue(0 - n);
      IntAtOver(s, i, i + 1, ds);
    } else {
      var ds := NatDigits(n);
      NatDigitsValue(n);
      IntAtOver(s, i, i, ds);
    }
  }

  /** A number at the very end of the text cannot be read: the digit loop
      runs off the end. So a whole text holding a serialised int fails. */
  lemma BareIntFails(n: int)
    ensures Parse(Decimal(n)) == Err(OutOfRange(|Decimal(n)|))
  {
    var s := Decimal(n);
    AtWhole(s);
    assert !IsSpace(s[0]);
    if n < 0 {
      var ds := NatDigits(-n);
      AtSplit(s, 0, "-", ds);
      NatDigitsValue(-n);
      DigitsEndOver(s, 1, ds);
    } else {
      NatDigitsValue(n);
      DigitsEndOver(s, 0, s);
    }
  }

  /** With a non-digit after it, a serialised int reads back. */
  lemma TopLevelInt(n: int, rest: string)
    requires rest != [] && !IsDigit(rest[0])
    ensures Parse(Decimal(n) + rest) == Ok(JInt(n), |Decimal(n)|)
  {
    var s := Decimal(n) + rest;
    AtWhole(s);
    AtSplit(s, 0, Decimal(n), rest);
    AtChar(s, |Decimal(n)|, rest, 0);
    AtChar(s, 0, Decimal(n), 0);
    IntRoundTrip(s, 0, n);
    ValueAtInt(s, 0, n, |Decimal(n)|);
    ParseValue(s);
  }

  // ----------------------------------------------------------------- strings

  /** A string body the reader takes back whole: no bare quote, and every
      backslash followed by some character. */
  predicate Escaped(t: string)
    decreases |t|
  {
    if |t| == 0 then true
    else if t[0] == '"' then false
    else if t[0] == '\\' then |t| >= 2 && Escaped(t[2..])
    else Escaped(t[1..])
  }

  /** The string loop reads an escaped body up to its closing quote. */
  lemma {:induction false} StringBodyOver(s: string, j: nat, acc: string, t: string)
    requires Escaped(t) && At(s, j, t + "\"")
    ensures StringBody(s, j, acc) == Ok(acc + t, j + |t| + 1)
    decreases |t|, 1
  {
    if t == [] {
      AtChar(s, j, t + "\"", 0);
      assert acc + t == acc;
    } else if t[0] == '\\' {
      EscapeOver(s, j, acc, t);
    } else {
      PlainOver(s, j, acc, t);
    }
  }

  lemma {:induction false} EscapeOver(s: string, j: nat, acc: string, t: string)
    requires t != [] && t[0] == '\\' && Escaped(t) && At(s, j, t + "\"")
    ensures StringBody(s, j, acc) == Ok(acc + t, j + |t| + 1)
    decreases |t|, 0
  {
    AtChar(s, j, t + "\"", 0);
    AtChar(s, j, t + "\"", 1);
    assert t + "\"" == t[..2] + (t[2..] + "\"");
    AtSplit(s, j, t[..2], t[2..] + "\"");
    StringBodyOver(s, j + 2, acc + [s[j], s[j + 1]], t[2..]);
    assert acc + [s[j], s[j + 1]] + t[2..] == acc + t;
  }

  lemma {:induction false} PlainOver(s: string, j: nat, acc: string, t: string)
    requires t != [] && t[0] != '\\' && Escaped(t) && At(s, j, t + "\"")
    ensures StringBody(s, j, acc) == Ok(acc + t, j + |t| + 1)
    decreases |t|, 0
  {
    AtChar(s, j, t + "\"", 0);
    assert t + "\"" == [t[0]] + (t[1..] + "\"");
    AtSplit(s, j, [t[0]], t[1..] + "\"");
    StringBodyOver(s, j + 1, acc + [s[j]], t[1..]);
    assert acc + [s[j]] + t[1..] == acc + t;
  }

  /** A quoted escaped body reads back as itself. */
  lemma StringRoundTrip(s: string, i: nat, t: string)
    requires Escaped(t) && At(s, i, "\"" + t + "\"")
    ensures StringAt(s, i) == Ok(t, i + |t| + 2)
  {
    assert "\"" + t + "\"" == "\"" + (t + "\"");
    AtSplit(s, i, "\"", t + "\"");
    StringBodyOver(s, i + 1, "", t);
    assert "" + t == t;
  }

  lemma {:induction false} StringBodyEscaped(s: string, j: nat, acc: string)
    ensures StringBody(s, j, acc).Ok? ==> Escaped(s[j..StringBody(s, j, acc).next - 1])
    decreases |s| - j
  {
    var r := StringBody(s, j, acc);
    if r.Ok? && j < |s| && s[j] != '"' {
      if s[j] == '\\' {
        StringBodyEscaped(s, j + 2, acc + [s[j], s[j + 1]]);
        assert s[j..r.next - 1][2..] == s[j + 2..r.next - 1];
      } else {
        StringBodyEscaped(s, j + 1, acc + [s[j]]);
        assert s[j..r.next - 1][1..] == s[j + 1..r.next - 1];
      }
    }
  }

  /** Whatever the string reader returns is an escaped body. */
  lemma StringAtEscaped(s: string, i: nat)
    ensures StringAt(s, i).Ok? ==> Escaped(StringAt(s, i).value)
  {
    StringBodyEscaped(s, i + 1, "");
  }

  /** A string is written unescaped, so it reads back exactly when its text
      is an escaped body. */
  lemma StringTextRoundTrip(t: string)
    ensures StringAt(Print(JString(t)), 0) == Ok(t, |t| + 2) <==> Escaped(t)
  {
    var s := Print(JString(t));
    AtWhole(s);
    if Escaped(t) {
      StringRoundTrip(s, 0, t);
    } else {
      StringAtEscaped(s, 0);
    }
  }

  // ------------------------------------------------------ values in general

  /** The values the writer and the reader agree on: ints, escaped strings,
      and non-empty lists and objects of such values whose keys are escaped
      and distinct (`ReparseableList` and `ReparseableObject` say it with
      quantifiers). Booleans are written `True`/`False`, which the reader
      does not recognise, and an empty list or object is written as a lone
      closing bracket. */
  predicate Reparseable(v: Json)
    decreases v, 1
  {
    match v
    case JInt(_) => true
    case JString(t) => Escaped(t)
    case JList(items) => items != [] && Elements(items)
    case JObject(fields) => fields != [] && Members([], fields)
    case _ => false
  }

  /** The elements still to be read, one at a time: each is reparseable. */
  predicate Elements(rest: seq<Json>)
    decreases rest, 0
  {
    |rest| == 0 || (Reparseable(rest[0]) && Elements(rest[1..]))
  }

  /** The members still to be read, one at a time: each has an escaped key
      not among the keys `acc` before it and a reparseable value. */
  predicate Members(acc: seq<(string, Json)>, rest: seq<(string, Json)>)
    decreases rest, 0
  {
    |rest| == 0 ||
      (Escaped(rest[0].0) && (assert rest[0] in rest && rest[0].1 < rest[0]; Reparseable(rest[0].1)) && rest[0].0 !in Keys(acc)
       && Members(acc + [rest[0]], rest[1..]))
  }

  predicate StartsValue(c: char)
  {
    c == '-' || IsDigit(c) || c == '"' || c == '[' || c == '{'
  }

  lemma PrintHead(v: Json)
    requires Reparseable(v)
    ensures StartsValue(Print(v)[0])
  {
    match v
    case JInt(n) =>
    case JString(_) =>
    case JList(items) => ListText(items);
    case JObject(fields) => ObjectText(fields);
  }

  lemma KeysSnoc(acc: seq<(string, Json)>, f: (string, Json))
    ensures Keys(acc + [f]) == Keys(acc) + {f.0}
  {
    assert (acc + [f])[..|acc|] == acc;
  }

  // One step of each reader loop, as the round trips below use them.

  lemma ValueAtInt(s: string, j: nat, n: int, k: nat)
    requires j < |s| && (s[j] == '-' || IsDigit(s[j])) && IntAt(s, j) == Ok(n, k)
    ensures ValueAt(s, j) == Ok(JInt(n), k)
  {
    assert s[j] != '[' && s[j] != '{' && s[j] != 't' && s[j] != 'f' && s[j] != '"' && s[j] != 'n';
  }

  lemma ValueAtString(s: string, j: nat, t: string, k: nat)
    requires j < |s| && s[j] == '"' && StringAt(s, j) == Ok(t, k)
    ensures ValueAt(s, j) == Ok(JString(t), k)
  {
  }

  lemma ValueAtList(s: string, j: nat, items: seq<Json>, k: nat)
    requires j < |s| && s[j] == '[' && ListItems(s, j + 1, []) == Ok(items, k)
    ensures ValueAt(s, j) == Ok(JList(items), k)
  {
  }

  lemma ValueAtObject(s: string, j: nat, fields: seq<(string, Json)>, k: nat)
    requires j < |s| && s[j] == '{' && ObjectItems(s, j + 1, None, []) == Ok(fields, k)
    ensures ValueAt(s, j) == Ok(JObject(fields), k)
  {
  }

  lemma ListItemsClose(s: string, j: nat, acc: seq<Json>)
    requires j < |s| && s[j] == ']'
    ensures ListItems(s, j, acc) == Ok(acc, j + 1)
  {
  }

  lemma ListItemsComma(s: string, j: nat, acc: seq<Json>)
    requires j < |s| && s[j] == ','
    ensures ListItems(s, j, acc) == ListItems(s, j + 1, acc)
  {
  }

  lemma ListItemsElement(s: string, j: nat, acc: seq<Json>, v: Json, k: nat)
    requires j < |s| && StartsValue(s[j]) && ValueAt(s, j) == Ok(v, k) && j < k
    ensures ListItems(s, j, acc) == ListItems(s, k, acc + [v])
  {
  }

  lemma ObjectItemsClose(s: string, j: nat, key: Option<string>, acc: seq<(string, Json)>)
    requires j < |s| && s[j] == '}'
    ensures ObjectItems(s, j, key, acc) == Ok(acc, j + 1)
  {
  }

  lemma ObjectItemsComma(s: string, j: nat, acc: seq<(string, Json)>)
    requires j < |s| && s[j] == ','
    ensures ObjectItems(s, j, None, acc) == ObjectItems(s, j + 1, None, acc)
  {
  }

  lemma ObjectItemsKey(s: string, j: nat, acc: seq<(string, Json)>, name: string, k: nat)
    requires j < |s| && s[j] == '"' && StringAt(s, j) == Ok(name, k)
    ensures ObjectItems(s, j, None, acc) == ObjectItems(s, k, Some(name), acc)
  {
  }

  lemma ObjectItemsColon(s: string, j: nat, name: string, acc: seq<(string, Json)>)
    requires j < |s| && s[j] == ':'
    ensures ObjectItems(s, j, Some(name), acc) == ObjectItems(s, j + 1, Some(name), acc)
  {
  }

  lemma ObjectItemsValue(s: string, j: nat, name: string, acc: seq<(string, Json)>, v: Json, k: nat)
    requires j < |s| && StartsValue(s[j]) && ValueAt(s, j) == Ok(v, k) && name !in Keys(acc)
    ensures ObjectItems(s, j, Some(name), acc) == ObjectItems(s, k, None, acc + [(name, v)])
  {
  }

  /** A reparseable value written at `j` reads back as itself, ending just
      after its text (an int needs a non-digit after it). */
  lemma {:induction false} ValueRoundTrip(s: string, j: nat, v: Json)
    requires Reparseable(v) && At(s, j, Print(v))
    requires v.JInt? ==> j + |Print(v)| < |s| && !IsDigit(s[j + |Print(v)|])
    ensures j < |s| && ValueAt(s, j) == Ok(v, j + |Print(v)|)
    decreases v, 2
  {
    AtChar(s, j, Print(v), 0);
    match v
    case JInt(n) =>
      IntRoundTrip(s, j, n);
      ValueAtInt(s, j, n, j + |Print(v)|);
    case JString(t) =>
      StringRoundTrip(s, j, t);
      ValueAtString(s, j, t, j + |Print(v)|);
    case JList(items) =>
      ListValueRoundTrip(s, j, items);
    case JObject(fields) =>
      ObjectValueRoundTrip(s, j, fields);
  }

  lemma {:induction false} ListValueRoundTrip(s: string, j: nat, items: seq<Json>)
    requires items != [] && Elements(items) && At(s, j, Print(JList(items)))
    ensures j < |s| && ValueAt(s, j) == Ok(JList(items), j + |Print(JList(items))|)
    decreases JList(items), 1
  {
    ListTextAt(s, j, items);
    ListItemsRoundTrip(s, j + 1, [], items);
    EmptyPrefix(items);
    OkRewrite(ListItems(s, j + 1, []), [] + items, items, j + 1 + |Join(items)| + 1, j + |Print(JList(items))|);
    ValueAtList(s, j, items, j + |Print(JList(items))|);
  }

  lemma {:induction false} ObjectValueRoundTrip(s: string, j: nat, fields: seq<(string, Json)>)
    requires fields != [] && Members([], fields) && At(s, j, Print(JObject(fields)))
    ensures j < |s| && ValueAt(s, j) == Ok(JObject(fields), j + |Print(JObject(fields))|)
    decreases JObject(fields), 1
  {
    ObjectTextAt(s, j, fields);
    ObjectItemsRoundTrip(s, j + 1, [], fields);
    EmptyPrefix(fields);
    OkRewrite(ObjectItems(s, j + 1, None, []), [] + fields, fields,
              j + 1 + |JoinFields(fields)| + 1, j + |Print(JObject(fields))|);
    ValueAtObject(s, j, fields, j + |Print(JObject(fields))|);
  }

  /** Where the elements of a written non-empty list lie. */
  lemma ListTextAt(s: string, j: nat, items: seq<Json>)
    requires items != [] && At(s, j, Print(JList(items)))
    ensures j < |s| && s[j] == '[' && At(s, j + 1, Join(items) + "]")
    ensures |Print(JList(items))| == |Join(items)| + 2
  {
    ListText(items);
    assert Print(JList(items)) == "[" + (Join(items) + "]");
    AtSplit(s, j, "[", Join(items) + "]");
    AtChar(s, j, "[", 0);
  }

  /** Where the members of a written non-empty object lie. */
  lemma ObjectTextAt(s: string, j: nat, fields: seq<(string, Json)>)
    requires fields != [] && At(s, j, Print(JObject(fields)))
    ensures j < |s| && s[j] == '{' && At(s, j + 1, JoinFields(fields) + "}")
    ensures |Print(JObject(fields))| == |JoinFields(fields)| + 2
  {
    ObjectText(fields);
    assert Print(JObject(fields)) == "{" + (JoinFields(fields) + "}");
    AtSplit(s, j, "{", JoinFields(fields) + "}");
    AtChar(s, j, "{", 0);
  }

  lemma EmptyPrefix<T>(x: seq<T>)
    ensures [] + x == x
  {
  }

  lemma JoinOne(rest: seq<Json>)
    requires |rest| == 1
    ensures Join(rest) == Print(rest[0])
  {
  }

  lemma JoinCons(rest: seq<Json>)
    requires |rest| > 1
    ensures Join(rest) == Print(rest[0]) + "," + Join(rest[1..])
  {
  }

  lemma HeadThenClose(s: string, pos: nat, p: string)
    requires At(s, pos, p + "]")
    ensures At(s, pos, p) && pos + |p| < |s| && s[pos + |p|] == ']' && !IsDigit(s[pos + |p|])
  {
    AtEnd(s, pos, p, ']');
  }

  /** An element followed by a comma and more of the list body. */
  lemma ElementThenComma(s: string, pos: nat, whole: string, p: string, more: string)
    requires whole == p + "," + more && At(s, pos, whole + "]")
    ensures At(s, pos, p) && pos + |p| < |s| && s[pos + |p|] == ',' && !IsDigit(s[pos + |p|])
    ensures At(s, pos + |p| + 1, more + "]")
  {
    CloseRegroup(whole, p, ",", more, "]");
    AtRewrite(s, pos, whole + "]", p + ("," + (more + "]")));
    AtSplit(s, pos, p, "," + (more + "]"));
    AtHead(s, pos + |p|, ',', more + "]");
  }

  /** Where the text after an element and its comma begins. */
  lemma ElementCommaRest(s: string, pos: nat, whole: string, p: string, more: string)
    requires whole == p + "," + more && At(s, pos, whole + "]")
    ensures At(s, pos + |p| + 1, more + "]")
    ensures |whole| == |p| + 1 + |more|
  {
    ElementThenComma(s, pos, whole, p, more);
  }

  lemma ElementsRestAt(s: string, pos: nat, rest: seq<Json>)
    requires |rest| > 1 && At(s, pos, Join(rest) + "]")
    ensures At(s, pos + |Print(rest[0])| + 1, Join(rest[1..]) + "]")
    ensures |Join(rest)| == |Print(rest[0])| + 1 + |Join(rest[1..])|
  {
    JoinCons(rest);
    ElementCommaRest(s, pos, Join(rest), Print(rest[0]), Join(rest[1..]));
  }

  /** One list element read back: the loop moves past its text and appends
      it. */
  lemma {:induction false} ElementRead(s: string, pos: nat, acc: seq<Json>, v: Json)
    requires Reparseable(v) && At(s, pos, Print(v))
    requires pos + |Print(v)| < |s| && !IsDigit(s[pos + |Print(v)|])
    ensures ListItems(s, pos, acc) == ListItems(s, pos + |Print(v)|, acc + [v])
    decreases v, 3
  {
    PrintHead(v);
    AtChar(s, pos, Print(v), 0);
    ValueRoundTrip(s, pos, v);
    ListItemsElement(s, pos, acc, v, pos + |Print(v)|);
  }

  lemma SingleAfter<T>(acc: seq<T>, rest: seq<T>)
    requires |rest| == 1
    ensures acc + [rest[0]] == acc + rest
  {
    assert rest == [rest[0]];
  }

  lemma OkRewrite<T>(r: Res<T>, x: T, y: T, n: int, m: int)
    requires r == Ok(x, n) && x == y && n == m
    ensures r == Ok(y, m)
  {
  }

  lemma {:induction false} ElementsOf(rest: seq<Json>)
    requires forall k :: 0 <= k < |rest| ==> Reparseable(rest[k])
    ensures Elements(rest)
    decreases |rest|
  {
    if rest != [] {
      assert forall k :: 0 <= k < |rest[1..]| ==> rest[1..][k] == rest[k + 1];
      ElementsOf(rest[1..]);
    }
  }

  /** A non-empty list of reparseable elements is reparseable. */
  lemma ReparseableList(items: seq<Json>)
    requires items != [] && forall k :: 0 <= k < |items| ==> Reparseable(items[k])
    ensures Reparseable(JList(items))
  {
    ElementsOf(items);
  }

  /** The last element read back, up to the closing bracket. */
  lemma {:induction false} LastElementRead(s: string, pos: nat, acc: seq<Json>, rest: seq<Json>)
    requires |rest| == 1 && Reparseable(rest[0])
    requires At(s, pos, Join(rest) + "]")
    ensures ListItems(s, pos, acc) == Ok(acc + [rest[0]], pos + |Join(rest)| + 1)
    decreases rest, 0
  {
    JoinOne(rest);
    LastElement(s, pos, acc, rest[0]);
  }

  lemma {:induction false} LastElement(s: string, pos: nat, acc: seq<Json>, v: Json)
    requires Reparseable(v) && At(s, pos, Print(v) + "]")
    ensures ListItems(s, pos, acc) == Ok(acc + [v], pos + |Print(v)| + 1)
    decreases v, 4
  {
    HeadThenClose(s, pos, Print(v));
    ElementRead(s, pos, acc, v);
    ListItemsClose(s, pos + |Print(v)|, acc + [v]);
  }

  /** An element followed by a comma read back: the loop moves past both,
      to where the next element's text begins. */
  lemma {:induction false} ElementThenMore(s: string, pos: nat, whole: string, acc: seq<Json>, v: Json, more: string)
    requires Reparseable(v)
    requires whole == Print(v) + "," + more && At(s, pos, whole + "]")
    ensures ListItems(s, pos, acc) == ListItems(s, pos + |Print(v)| + 1, acc + [v])
    decreases v, 4
  {
    ElementThenComma(s, pos, whole, Print(v), more);
    ElementRead(s, pos, acc, v);
    ListItemsComma(s, pos + |Print(v)|, acc + [v]);
  }

  lemma {:induction false} ElementStep(s: string, pos: nat, acc: seq<Json>, rest: seq<Json>)
    requires |rest| > 1 && Reparseable(rest[0]) && At(s, pos, Join(rest) + "]")
    ensures ListItems(s, pos, acc) == ListItems(s, pos + |Print(rest[0])| + 1, acc + [rest[0]])
    decreases rest, 0
  {
    JoinCons(rest);
    ElementThenMore(s, pos, Join(rest), acc, rest[0], Join(rest[1..]));
  }

  /** The list loop, started at `pos` with the elements `acc` read, ends
      with the elements `items` just before `next`. */
  predicate ListReads(s: string, pos: nat, acc: seq<Json>, items: seq<Json>, next: int)
  {
    ListItems(s, pos, acc) == Ok(items, next)
  }

  /** The list loop reads back the comma-separated elements up to `]`. */
  lemma {:induction false} ListItemsRoundTrip(s: string, pos: nat, acc: seq<Json>, rest: seq<Json>)
    requires rest != [] && Elements(rest)
    requires At(s, pos, Join(rest) + "]")
    ensures ListReads(s, pos, acc, acc + rest, pos + |Join(rest)| + 1)
    decreases rest, 3
  {
    if |rest| == 1 {
      LastElementRead(s, pos, acc, rest);
      SingleAfter(acc, rest);
      OkRewrite(ListItems(s, pos, acc), acc + [rest[0]], acc + rest,
                pos + |Join(rest)| + 1, pos + |Join(rest)| + 1);
    } else {
      MoreElementsRoundTrip(s, pos, acc, rest);
    }
  }

  lemma {:induction false} MoreElementsRoundTrip(s: string, pos: nat, acc: seq<Json>, rest: seq<Json>)
    requires |rest| > 1 && Elements(rest)
    requires At(s, pos, Join(rest) + "]")
    ensures ListReads(s, pos, acc, acc + rest, pos + |Join(rest)| + 1)
    decreases rest, 2
  {
    ElementsRestAt(s, pos, rest);
    ListItemsRoundTrip(s, pos + |Print(rest[0])| + 1, acc + [rest[0]], rest[1..]);
    ElementStepOk(s, pos, acc, rest, pos + |Print(rest[0])| + 1 + |Join(rest[1..])| + 1);
  }

  lemma {:induction false} ElementStepOk(s: string, pos: nat, acc: seq<Json>, rest: seq<Json>, n: int)
    requires |rest| > 1 && Elements(rest) && At(s, pos, Join(rest) + "]")
    requires ListReads(s, pos + |Print(rest[0])| + 1, acc + [rest[0]], acc + [rest[0]] + rest[1..], n)
    ensures ListReads(s, pos, acc, acc + rest, n)
    decreases rest, 1
  {
    ElementStep(s, pos, acc, rest);
    OkChain(ListItems(s, pos, acc), ListItems(s, pos + |Print(rest[0])| + 1, acc + [rest[0]]), acc, rest, n, n);
  }

  lemma OkChain<T>(r: Res<seq<T>>, r': Res<seq<T>>, acc: seq<T>, rest: seq<T>, n: int, m: int)
    requires rest != [] && r == r' && r' == Ok(acc + [rest[0]] + rest[1..], n) && n == m
    ensures r == Ok(acc + rest, m)
  {
    assert acc + [rest[0]] + rest[1..] == acc + rest;
  }

  lemma JoinFieldsOne(rest: seq<(string, Json)>)
    requires |rest| == 1
    ensures JoinFields(rest) == MemberText(rest[0].0, Print(rest[0].1))
  {
  }

  lemma JoinFieldsCons(rest: seq<(string, Json)>)
    requires |rest| > 1
    ensures JoinFields(rest) == MemberText(rest[0].0, Print(rest[0].1)) + "," + JoinFields(rest[1..])
  {
  }

  lemma MemberThenClose(s: string, pos: nat, key: string, p: string)
    requires At(s, pos, MemberText(key, p) + "}")
    ensures |MemberText(key, p)| == |key| + 3 + |p|
    ensures At(s, pos, "\"" + key + "\"")
    ensures pos + |key| + 2 < |s| && s[pos + |key| + 2] == ':'
    ensures At(s, pos + |key| + 3, p)
    ensures pos + |key| + 3 + |p| < |s| && s[pos + |key| + 3 + |p|] == '}' && !IsDigit(s[pos + |key| + 3 + |p|])
  {
    AtMember(s, pos, key, p, "}");
    AtChar(s, pos + |key| + 3 + |p|, "}", 0);
  }

  lemma MemberThenComma(s: string, pos: nat, whole: string, key: string, p: string, more: string)
    requires whole == MemberText(key, p) + "," + more && At(s, pos, whole + "}")
    ensures |MemberText(key, p)| == |key| + 3 + |p|
    ensures At(s, pos, "\"" + key + "\"")
    ensures pos + |key| + 2 < |s| && s[pos + |key| + 2] == ':'
    ensures At(s, pos + |key| + 3, p)
    ensures pos + |key| + 3 + |p| < |s| && s[pos + |key| + 3 + |p|] == ','
    ensures At(s, pos + |key| + 3 + |p| + 1, more + "}")
  {
    CloseRegroup(whole, MemberText(key, p), ",", more, "}");
    AtRewrite(s, pos, whole + "}", MemberText(key, p) + ("," + (more + "}")));
    AtMember(s, pos, key, p, "," + (more + "}"));
    AtHead(s, pos + |key| + 3 + |p|, ',', more + "}");
  }

  lemma CloseRegroup(whole: string, a: string, b: string, c: string, close: string)
    requires whole == a + b + c
    ensures whole + close == a + (b + (c + close))
  {
  }

  lemma AtRewrite(s: string, p: nat, w: string, w': string)
    requires At(s, p, w) && w == w'
    ensures At(s, p, w')
  {
  }

  lemma AtHead(s: string, p: nat, c: char, b: string)
    requires At(s, p, [c] + b)
    ensures p < |s| && s[p] == c && At(s, p + 1, b)
  {
    AtSplit(s, p, [c], b);
    AtChar(s, p, [c], 0);
  }

  /** A written key and the colon after it: the loop reads the key and
      skips the colon. */
  lemma KeyRead(s: string, pos: nat, acc: seq<(string, Json)>, key: string)
    requires Escaped(key) && At(s, pos, "\"" + key + "\"")
    requires pos + |key| + 2 < |s| && s[pos + |key| + 2] == ':'
    ensures ObjectItems(s, pos, None, acc) == ObjectItems(s, pos + |key| + 3, Some(key), acc)
  {
    AtChar(s, pos, "\"" + key + "\"", 0);
    StringRoundTrip(s, pos, key);
    ObjectItemsKey(s, pos, acc, key, pos + |key| + 2);
    ObjectItemsColon(s, pos + |key| + 2, key, acc);
  }

  /** A written member value: the loop reads it and appends the member. */
  lemma {:induction false} FieldValueRead(s: string, j: nat, key: string, acc: seq<(string, Json)>, v: Json)
    requires Reparseable(v) && key !in Keys(acc) && At(s, j, Print(v))
    requires j + |Print(v)| < |s| && !IsDigit(s[j + |Print(v)|])
    ensures ObjectItems(s, j, Some(key), acc) == ObjectItems(s, j + |Print(v)|, None, acc + [(key, v)])
    decreases v, 3
  {
    PrintHead(v);
    AtChar(s, j, Print(v), 0);
    ValueRoundTrip(s, j, v);
    ObjectItemsValue(s, j, key, acc, v, j + |Print(v)|);
  }

  /** One member read back: the loop reads the key, skips the colon, reads
      the value and appends the member. */
  lemma {:induction false} MemberRead(s: string, pos: nat, acc: seq<(string, Json)>, key: string, v: Json)
    requires Escaped(key) && Reparseable(v) && key !in Keys(acc)
    requires At(s, pos, "\"" + key + "\"") && pos + |key| + 2 < |s| && s[pos + |key| + 2] == ':'
    requires At(s, pos + |key| + 3, Print(v))
    requires pos + |key| + 3 + |Print(v)| < |s| && !IsDigit(s[pos + |key| + 3 + |Print(v)|])
    ensures ObjectItems(s, pos, None, acc) == ObjectItems(s, pos + |key| + 3 + |Print(v)|, None, acc + [(key, v)])
    decreases v, 4
  {
    KeyRead(s, pos, acc, key);
    FieldValueRead(s, pos + |key| + 3, key, acc, v);
  }

  lemma {:induction false} MembersOf(acc: seq<(string, Json)>, rest: seq<(string, Json)>)
    requires DistinctKeys(rest)
    requires forall k :: 0 <= k < |rest| ==> Escaped(rest[k].0) && Reparseable(rest[k].1) && rest[k].0 !in Keys(acc)
    ensures Members(acc, rest)
    decreases |rest|
  {
    if rest != [] {
      var f := rest[0];
      KeysSnoc(acc, f);
      forall k | 0 <= k < |rest[1..]|
        ensures Escaped(rest[1..][k].0) && Reparseable(rest[1..][k].1) && rest[1..][k].0 !in Keys(acc + [f])
      {
        assert rest[1..][k] == rest[k + 1];
      }
      assert DistinctKeys(rest[1..]) by {
        assert forall a :: 0 <= a < |rest[1..]| ==> rest[1..][a] == rest[a + 1];
      }
      MembersOf(acc + [f], rest[1..]);
    }
  }

  lemma MemberValueSmaller(rest: seq<(string, Json)>)
    requires rest != []
    ensures rest[0].1 < rest[0]
  {
  }

  /** A non-empty object with distinct escaped keys and reparseable values
      is reparseable. */
  lemma ReparseableObject(fields: seq<(string, Json)>)
    requires fields != [] && DistinctKeys(fields)
    requires forall k :: 0 <= k < |fields| ==> Escaped(fields[k].0) && Reparseable(fields[k].1)
    ensures Reparseable(JObject(fields))
  {
    MembersOf([], fields);
  }

  /** The last member read back, up to the closing brace. */
  lemma {:induction false} LastMemberRead(s: string, pos: nat, acc: seq<(string, Json)>, rest: seq<(string, Json)>)
    requires |rest| == 1 && Escaped(rest[0].0) && Reparseable(rest[0].1) && rest[0].0 !in Keys(acc)
    requires At(s, pos, JoinFields(rest) + "}")
    ensures ObjectItems(s, pos, None, acc) == Ok(acc + [rest[0]], pos + |JoinFields(rest)| + 1)
    decreases rest, 0
  {
    MemberValueSmaller(rest);
    JoinFieldsOne(rest);
    LastMember(s, pos, acc, rest[0].0, rest[0].1);
    PairEta(rest[0]);
  }

  lemma {:induction false} LastMember(s: string, pos: nat, acc: seq<(string, Json)>, key: string, v: Json)
    requires Escaped(key) && Reparseable(v) && key !in Keys(acc)
    requires At(s, pos, MemberText(key, Print(v)) + "}")
    ensures ObjectItems(s, pos, None, acc) == Ok(acc + [(key, v)], pos + |MemberText(key, Print(v))| + 1)
    decreases v, 5
  {
    MemberThenClose(s, pos, key, Print(v));
    MemberRead(s, pos, acc, key, v);
    ObjectItemsClose(s, pos + |key| + 3 + |Print(v)|, None, acc + [(key, v)]);
  }

  lemma PairEta(f: (string, Json))
    ensures (f.0, f.1) == f
  {
  }

  /** A member followed by a comma read back: the loop moves past both, to
      where the next member's text begins. */
  lemma {:induction false} MemberThenMore(s: string, pos: nat, whole: string, acc: seq<(string, Json)>, key: string, v: Json, more: string)
    requires Escaped(key) && Reparseable(v) && key !in Keys(acc)
    requires whole == MemberText(key, Print(v)) + "," + more && At(s, pos, whole + "}")
    ensures ObjectItems(s, pos, None, acc) ==
              ObjectItems(s, pos + |key| + 3 + |Print(v)| + 1, None, acc + [(key, v)])
    decreases v, 5
  {
    MemberThenComma(s, pos, whole, key, Print(v), more);
    MemberRead(s, pos, acc, key, v);
    ObjectItemsComma(s, pos + |key| + 3 + |Print(v)|, acc + [(key, v)]);
  }

  /** The object loop, started at `pos` with the members `acc` read and no
      key pending, ends with the members `fields` just before `next`. */
  predicate ObjectReads(s: string, pos: nat, acc: seq<(string, Json)>, fields: seq<(string, Json)>, next: int)
  {
    ObjectItems(s, pos, None, acc) == Ok(fields, next)
  }

  /** The object loop reads back the comma-separated `"key":value` members
      up to `}`, when none of their keys is already among those read. */
  lemma {:induction false} ObjectItemsRoundTrip(s: string, pos: nat, acc: seq<(string, Json)>, rest: seq<(string, Json)>)
    requires rest != [] && Members(acc, rest)
    requires At(s, pos, JoinFields(rest) + "}")
    ensures ObjectReads(s, pos, acc, acc + rest, pos + |JoinFields(rest)| + 1)
    decreases rest, 3
  {
    if |rest| == 1 {
      LastMemberRead(s, pos, acc, rest);
      SingleAfter(acc, rest);
      OkRewrite(ObjectItems(s, pos, None, acc), acc + [rest[0]], acc + rest,
                pos + |JoinFields(rest)| + 1, pos + |JoinFields(rest)| + 1);
    } else {
      MoreMembersRoundTrip(s, pos, acc, rest);
    }
  }

  /** Where the text after a member and its comma begins. */
  lemma CommaThenRest(s: string, pos: nat, whole: string, key: string, p: string, more: string)
    requires whole == MemberText(key, p) + "," + more && At(s, pos, whole + "}")
    ensures At(s, pos + |key| + 3 + |p| + 1, more + "}")
    ensures |whole| == |key| + 3 + |p| + 1 + |more|
  {
    MemberThenComma(s, pos, whole, key, p, more);
  }

  lemma MembersRestAt(s: string, pos: nat, rest: seq<(string, Json)>)
    requires |rest| > 1 && At(s, pos, JoinFields(rest) + "}")
    ensures At(s, pos + |rest[0].0| + 3 + |Print(rest[0].1)| + 1, JoinFields(rest[1..]) + "}")
    ensures |JoinFields(rest)| == |rest[0].0| + 3 + |Print(rest[0].1)| + 1 + |JoinFields(rest[1..])|
  {
    JoinFieldsCons(rest);
    CommaThenRest(s, pos, JoinFields(rest), rest[0].0, Print(rest[0].1), JoinFields(rest[1..]));
  }

  /** The first of several members read back: the loop moves past it and
      its comma. */
  lemma {:induction false} MemberStep(s: string, pos: nat, acc: seq<(string, Json)>, rest: seq<(string, Json)>)
    requires |rest| > 1 && Escaped(rest[0].0) && Reparseable(rest[0].1) && rest[0].0 !in Keys(acc)
    requires At(s, pos, JoinFields(rest) + "}")
    ensures ObjectItems(s, pos, None, acc) ==
              ObjectItems(s, pos + |rest[0].0| + 3 + |Print(rest[0].1)| + 1, None, acc + [rest[0]])
    decreases rest, 0
  {
    JoinFieldsCons(rest);
    MemberValueSmaller(rest);
    MemberThenMore(s, pos, JoinFields(rest), acc, rest[0].0, rest[0].1, JoinFields(rest[1..]));
    PairEta(rest[0]);
  }

  /** The first of several members read back, given the result of reading
      the others. */
  lemma {:induction false} MemberStepOk(s: string, pos: nat, acc: seq<(string, Json)>, rest: seq<(string, Json)>, n: int)
    requires |rest| > 1 && Members(acc, rest) && At(s, pos, JoinFields(rest) + "}")
    requires ObjectReads(s, pos + |rest[0].0| + 3 + |Print(rest[0].1)| + 1, acc + [rest[0]], acc + [rest[0]] + rest[1..], n)
    ensures ObjectReads(s, pos, acc, acc + rest, n)
    decreases rest, 1
  {
    MemberStep(s, pos, acc, rest);
    OkChain(ObjectItems(s, pos, None, acc), ObjectItems(s, pos + |rest[0].0| + 3 + |Print(rest[0].1)| + 1, None, acc + [rest[0]]),
            acc, rest, n, n);
  }

  /** The first of several members read back, then the others. */
  lemma {:induction false} MoreMembersRoundTrip(s: string, pos: nat, acc: seq<(string, Json)>, rest: seq<(string, Json)>)
    requires |rest| > 1 && Members(acc, rest)
    requires At(s, pos, JoinFields(rest) + "}")
    ensures ObjectReads(s, pos, acc, acc + rest, pos + |JoinFields(rest)| + 1)
    decreases rest, 2
  {
    MembersRestAt(s, pos, rest);
    ObjectItemsRoundTrip(s, pos + |rest[0].0| + 3 + |Print(rest[0].1)| + 1, acc + [rest[0]], rest[1..]);
    MemberStepOk(s, pos, acc, rest, pos + |rest[0].0| + 3 + |Print(rest[0].1)| + 1 + |JoinFields(rest[1..])| + 1);
  }

  /** A text starting with a value reads as that value: the tag the first
      character gives selects the same reader the list loop would. */
  lemma ParseValue(s: string)
    requires s != [] && StartsValue(s[0])
    ensures Parse(s) == ValueAt(s, 0)
  {
    assert SkipSpaces(s, 0) == 0;
  }

  /** Serialising a reparseable value that is not an int and reading the text
      back gives the value again, having consumed the whole text. */
  lemma ParseRoundTrip(v: Json)
    requires Reparseable(v) && !v.JInt?
    ensures Parse(Print(v)) == Ok(v, |Print(v)|)
  {
    var s := Print(v);
    AtWhole(s);
    PrintHead(v);
    ValueRoundTrip(s, 0, v);
    ParseValue(s);
  }

  /** A serialised boolean does not read back: `True` and `False` start with
      capitals, so the reader gives an undefined value without consuming
      anything. */
  lemma BoolDoesNotRoundTrip(b: bool)
    ensures Parse(Print(JBool(b))) == Ok(Undefined, 0)
  {
  }

  /** An undefined value is written as `Undefined JSON Data`, whose capital
      `U` the reader does not recognise: it reads back as an undefined value
      again, but consumes nothing. */
  lemma UndefinedReadsBackEmpty()
    ensures Parse(Print(Undefined)) == Ok(Undefined, 0)
  {
  }

  /** An empty list or object serialises to a lone closing bracket, which
      reads back as an undefined value. */
  lemma EmptyContainersDoNotRoundTrip()
    ensures Parse(Print(JList([]))) == Ok(Undefined, 0)
    ensures Parse(Print(JObject([]))) == Ok(Undefined, 0)
  {
    ListText([]);
    ObjectText([]);
  }

  lemma DuplicateKeyStrings(s: string)
    requires s == "{\"a\":1,\"a\":2}"
    ensures StringAt(s, 1) == Ok("a", 4) && StringAt(s, 7) == Ok("a", 10)
  {
    assert s[2] == 'a' && "" + [s[2]] == "a";
    assert StringBody(s, 3, "a") == Ok("a", 4);
    assert s[8] == 'a' && "" + [s[8]] == "a";
    assert StringBody(s, 9, "a") == Ok("a", 10);
  }

  lemma DuplicateKeyInts(s: string)
    requires s == "{\"a\":1,\"a\":2}"
    ensures IntAt(s, 5) == Ok(1, 6) && IntAt(s, 11) == Ok(2, 12)
  {
    assert DigitsEnd(s, 6) == 6 && DigitsEnd(s, 5) == 6;
    assert s[5..6] == "1" && DecimalValue("1") == 1;
    assert DigitsEnd(s, 12) == 12 && DigitsEnd(s, 11) == 12;
    assert s[11..12] == "2" && DecimalValue("2") == 2;
  }

  lemma KeyOfSingle(f: (string, Json))
    ensures f.0 in Keys([f])
  {
    assert f in [f];
  }

  lemma DuplicateKeyFirst(s: string)
    requires s == "{\"a\":1,\"a\":2}"
    ensures ObjectItems(s, 1, None, []) == ObjectItems(s, 7, None, [("a", JInt(1))])
  {
    DuplicateKeyStrings(s);
    DuplicateKeyInts(s);
    ValueAtInt(s, 5, 1, 6);
    ObjectItemsKey(s, 1, [], "a", 4);
    ObjectItemsColon(s, 4, "a", []);
    ObjectItemsValue(s, 5, "a", [], JInt(1), 6);
    ObjectItemsComma(s, 6, [] + [("a", JInt(1))]);
    EmptyPrefix([("a", JInt(1))]);
  }

  lemma DuplicateKeySecond(s: string)
    requires s == "{\"a\":1,\"a\":2}"
    ensures ObjectItems(s, 7, None, [("a", JInt(1))]) == Err(DuplicateKey("a"))
  {
    var one := [("a", JInt(1))];
    DuplicateKeyStrings(s);
    DuplicateKeyInts(s);
    ValueAtInt(s, 11, 2, 12);
    ObjectItemsKey(s, 7, one, "a", 10);
    ObjectItemsColon(s, 10, "a", one);
    KeyOfSingle(one[0]);
    RepeatedKey(s, 11, "a", one, JInt(2), 12);
  }

  /** A repeated key makes the object reader fail. */
  lemma DuplicateKeyFails()
    ensures Parse("{\"a\":1,\"a\":2}") == Err(DuplicateKey("a"))
  {
    var s := "{\"a\":1,\"a\":2}";
    DuplicateKeyFirst(s);
    DuplicateKeySecond(s);
    assert SkipSpaces(s, 0) == 0;
  }

  /** A list element starting with a character no parser consumes never
      lets the list loop finish. */
  lemma StuckListElement()
    ensures Parse("[}]") == Err(NoProgress(1))
  {
  }
}
