/** What the list and object loops do on any text, not only on text the
    writer produced: separators are skipped whatever their number, elements
    and members come out in the order of the text, and a key read twice
    makes the object fail. */
module JsonReading {
  import opened Wrappers
  import opened JsonData
  import opened JsonParse

  // -------------------------------------------------------------- lists

  /** Any run of white space and commas between list elements is skipped. */
  lemma {:induction false} ListItemsSeparators(s: string, j: nat, n: nat, acc: seq<Json>)
    requires j + n <= |s|
    requires forall m :: j <= m < j + n ==> IsSpace(s[m]) || s[m] == ','
    ensures ListItems(s, j, acc) == ListItems(s, j + n, acc)
    decreases n
  {
    if n > 0 {
      ListItemsSeparators(s, j + 1, n - 1, acc);
    }
  }

  /** `r` is what a read that gave `r0` from nothing read gives after
      `acc`: `acc` followed by the same elements, and the same error. */
  predicate ReadAfter(r: Res<seq<Json>>, acc: seq<Json>, r0: Res<seq<Json>>)
  {
    match r0
    case Ok(w, n) => r == Ok(acc + w, n)
    case Err(_) => r == r0
  }

  /** The elements already read stay in front: the list loop from `j` with
      `acc` read so far gives `acc` followed by what it reads from `j` on,
      in the order of the text, and fails exactly as it would with nothing
      read. */
  lemma {:induction false} ListItemsAppend(s: string, j: nat, acc: seq<Json>)
    ensures ReadAfter(ListItems(s, j, acc), acc, ListItems(s, j, []))
    decreases |s| - j
  {
    if j >= |s| {
    } else if s[j] == ']' {
      assert acc + [] == acc;
    } else if IsSpace(s[j]) || s[j] == ',' {
      ListItemsAppend(s, j + 1, acc);
    } else {
      match ValueAt(s, j)
      case Err(_) =>
      case Ok(v, k) =>
        if k != j {
          ListItemsAppend(s, k, acc + [v]);
          ListItemsAppend(s, k, [] + [v]);
          ListItemsValue(s, j, acc, v, k);
          ListItemsValue(s, j, [], v, k);
          ReadAfterCons(ListItems(s, k, acc + [v]), ListItems(s, k, [] + [v]), ListItems(s, k, []), acc, v);
        }
    }
  }

  lemma ListItemsValue(s: string, j: nat, acc: seq<Json>, v: Json, k: nat)
    requires j < |s| && !IsSpace(s[j]) && s[j] != ',' && s[j] != ']'
    requires ValueAt(s, j) == Ok(v, k) && k != j
    ensures ListItems(s, j, acc) == ListItems(s, k, acc + [v])
  {
  }

  lemma ReadAfterCons(r1: Res<seq<Json>>, r2: Res<seq<Json>>, r0: Res<seq<Json>>, acc: seq<Json>, v: Json)
    requires ReadAfter(r1, acc + [v], r0)
    requires ReadAfter(r2, [] + [v], r0)
    ensures ReadAfter(r1, acc, r2)
  {
    if r0.Ok? {
      assert acc + [v] + r0.value == acc + ([] + [v] + r0.value);
    }
  }

  /** `null` inside a list adds an undefined element and moves over four
      characters. */
  lemma NullElementRead(s: string, j: nat, acc: seq<Json>)
    requires j < |s| && s[j] == 'n'
    ensures ListItems(s, j, acc) == ListItems(s, j + 4, acc + [Undefined])
  {
    assert !IsSpace(s[j]) && s[j] != ',' && s[j] != ']';
    assert ValueAt(s, j) == Ok(Undefined, j + 4);
  }

  /** A character that starts no value (not a digit, a sign, a quote, a
      bracket, a brace, `t`, `f` or `n`, and not a separator) inside a list
      is read as an int of no digits, which does not move the index: the
      loop that would spin for ever is reported as `NoProgress`. */
  lemma StuckElement(s: string, j: nat, acc: seq<Json>)
    requires j < |s| && !IsSpace(s[j]) && !IsDigit(s[j])
    requires s[j] !in {']', ',', '[', '{', 't', 'f', '"', 'n', '-'}
    ensures ListItems(s, j, acc) == Err(NoProgress(j))
  {
    assert DigitsEnd(s, j) == j;
    assert IntAt(s, j) == Ok(0, j);
  }

  /** Elements separated by a comma and a space read as written. */
  lemma SpacedList()
    ensures Parse("[1, 2]") == Ok(JList([JInt(1), JInt(2)]), 6)
  {
    var s := "[1, 2]";
    assert SkipSpaces(s, 0) == 0;
    SpacedFirst(s);
    SpacedSecond(s);
  }

  lemma SpacedFirst(s: string)
    requires s == "[1, 2]"
    ensures ListItems(s, 1, []) == ListItems(s, 4, [JInt(1)])
  {
    assert DigitsEnd(s, 1) == 2 && s[1..2] == "1" && DecimalValue("1") == 1;
    assert IntAt(s, 1) == Ok(1, 2);
    assert ValueAt(s, 1) == Ok(JInt(1), 2);
    ListItemsValue(s, 1, [], JInt(1), 2);
    assert [] + [JInt(1)] == [JInt(1)];
    ListItemsSeparators(s, 2, 2, [JInt(1)]);
  }

  lemma SpacedSecond(s: string)
    requires s == "[1, 2]"
    ensures ListItems(s, 4, [JInt(1)]) == Ok([JInt(1), JInt(2)], 6)
  {
    assert DigitsEnd(s, 4) == 5 && s[4..5] == "2" && DecimalValue("2") == 2;
    assert IntAt(s, 4) == Ok(2, 5);
    assert ValueAt(s, 4) == Ok(JInt(2), 5);
    ListItemsValue(s, 4, [JInt(1)], JInt(2), 5);
    assert [JInt(1)] + [JInt(2)] == [JInt(1), JInt(2)];
    assert ListItems(s, 5, [JInt(1), JInt(2)]) == Ok([JInt(1), JInt(2)], 6);
  }

  // ------------------------------------------------------------ objects

  /** Waiting for a value, any run of white space, commas and colons is
      skipped. */
  lemma {:induction false} ValueSeparators(s: string, j: nat, n: nat, name: string, acc: seq<(string, Json)>)
    requires j + n <= |s|
    requires forall m :: j <= m < j + n ==> IsSpace(s[m]) || s[m] == ',' || s[m] == ':'
    ensures ObjectItems(s, j, Some(name), acc) == ObjectItems(s, j + n, Some(name), acc)
    decreases n
  {
    if n > 0 {
      ValueSeparators(s, j + 1, n - 1, name, acc);
    }
  }

  /** Waiting for a key, every character up to the next quote or closing
      brace is skipped. */
  lemma {:induction false} KeySeparators(s: string, j: nat, n: nat, acc: seq<(string, Json)>)
    requires j + n <= |s|
    requires forall m :: j <= m < j + n ==> s[m] != '"' && s[m] != '}'
    ensures ObjectItems(s, j, None, acc) == ObjectItems(s, j + n, None, acc)
    decreases n
  {
    if n > 0 {
      KeySeparators(s, j + 1, n - 1, acc);
    }
  }

  /** Members are only ever added at the end: the members read so far are
      a prefix of the object read. */
  lemma {:induction false} ObjectItemsPrefix(s: string, j: nat, key: Option<string>, acc: seq<(string, Json)>)
    ensures ObjectItems(s, j, key, acc).Ok? ==> acc <= ObjectItems(s, j, key, acc).value
    decreases |s| - j, if key.Some? then 1 else 0
  {
    if j < |s| && s[j] != '}' {
      if key.Some? {
        if IsSpace(s[j]) || s[j] == ',' || s[j] == ':' {
          ObjectItemsPrefix(s, j + 1, key, acc);
        } else {
          match ValueAt(s, j)
          case Err(_) =>
          case Ok(v, k) =>
            if key.value !in Keys(acc) {
              ObjectItemsPrefix(s, k, None, acc + [(key.value, v)]);
            }
        }
      } else if s[j] == '"' {
        match StringAt(s, j)
        case Err(_) =>
        case Ok(name, k) => ObjectItemsPrefix(s, k, Some(name), acc);
      } else {
        ObjectItemsPrefix(s, j + 1, None, acc);
      }
    }
  }

  /** A key already among the members, followed by a value that reads
      completely, makes the object fail: `Dictionary.Add` throws once the
      value has been read. */
  lemma RepeatedKey(s: string, j: nat, name: string, acc: seq<(string, Json)>, v: Json, k: nat)
    requires j < |s| && !IsSpace(s[j]) && s[j] != ',' && s[j] != ':' && s[j] != '}'
    requires ValueAt(s, j) == Ok(v, k) && name in Keys(acc)
    ensures ObjectItems(s, j, Some(name), acc) == Err(DuplicateKey(name))
  {
  }
}
