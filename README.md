# Elevator simulator: dispatcher, cars and JSON reader/writer

This project models the core of a four-car, forty-floor elevator simulator and
its hand-written JSON library, and proves properties of the model in Dafny.

* `cart.dfy` (module `Cart`) covers one car:
  * the six-state enum and the car's three ordered level sets;
  * the two `AddLevel` overloads;
  * the response-time estimate `GetResponseTime`, which the dispatchers use to score cars;
  * one tick of the car's state machine, the second `switch` of the car coroutine.

  `Tick` states the tick as a function on a `CartData` value. The class `Cart` has one method per starting state, each proved to move the fields to `Tick` of their old value.
* `elevator.dfy` (module `Elevator`) covers the shared system state, as a class over a sequence of cars:
  * the up and down hall-call queues;
  * the maps from a call to the car assigned to it;
  * one step of each dispatcher loop;
  * the hall buttons and the in-car buttons;
  * one tick of a car together with the map updates that tick makes.
* `json.dfy` (module `JsonData`) holds the tagged JSON value:
  * its constructors and `Get*` accessors;
  * the text that `Serialize` writes for it (`Print`).
* `json_parse.dfy` (module `JsonParse`) holds the readers as functions over the text and an index:
  * `readType`, and the int, string, bool and null readers;
  * the list and object loops;
  * the `Json(string)` constructor.

  The `ref int index` of the source is the `next` field of the result. Each exception becomes an `Err` result: a read past the end of the text is `OutOfRange`, and `Dictionary.Add` on a repeated key is `DuplicateKey`.
* `json_helper.dfy` (module `JsonHelper`) holds the parsers and `Serialize` as the source runs them:
  * the index advances in `while` loops;
  * the list and object loops append to their collection;
  * the object loop keeps the `flag`/`column` state;
  * `Serialize` appends to a string in `for` loops.

  Each method is proved to return exactly the value of its specification function in `JsonParse` or `JsonData`.
* `json_laws.dfy` (module `JsonLaws`) proves round trips between the writer and the reader, and the cases where they fail.
* `json_reading.dfy` (module `JsonReading`) states what the list and object loops do on any text: how separators are skipped, the order in which elements and members come out, and repeated keys.
* `wrappers.dfy` (module `Wrappers`) holds the `Option` type that the car and JSON modules share.

Three behaviours of the code are kept as written:
* The down dispatcher scores cars as if the call went up (`Main.cs:198`).
* Three places in `GetResponseTime` take `upLevels.Min` where the comparison is with `downLevels` (`Main.cs:59`, `82`, `89`).
* The falling car's "lowest" level is computed with `Mathf.Max` (`Main.cs:359`).

`DownControlStep`'s contract states the first behaviour: cars are scored with `Score(i, h, true)`. The lemmas `RisingLowestSlip` and `FallingUpCallIgnoresDownFloors` show what the second does, and `FallingLowestSlip` shows what the third does.

`SortedSet<int>.Min` and `.Max` of an empty set give 0 (`default(int)`), as in the library.

## Model

| member | source | states |
|---|---|---|
| Cart.Code | Assets/Main.cs:9-17 | each car state has its enum value, between 0 and 5 |
| Cart.OfCode | Assets/Main.cs:9-17 | an integer names a car state exactly when it lies between 0 and 5 |
| Cart.CodeRoundTrip | Assets/Main.cs:9-17 | converting a state to its value and back gives the state, and a valid value maps back to itself |
| Cart.SortedMin | Assets/Main.cs:240 | `SortedSet.Min` is the least element, or 0 for an empty set |
| Cart.SortedMax | Assets/Main.cs:257 | `SortedSet.Max` is the greatest element, or 0 for an empty set |
| Cart.ResponseTime | Assets/Main.cs:39-96 | the estimate is never negative; it is the distance for an idle or idle-open car; it is the distance for a car already heading for the level in the caller's direction |
| Cart.RisingDownCallCost | Assets/Main.cs:63-68 | a rising car asked about a down call costs `|pos - h| + |h - level|` for the `h` that bounds every pending level, is one of them or (when some set is empty) `pos`, and is at least `pos` when some set is empty |
| Cart.ReversalCost | Assets/Main.cs:63-68 | pos 3, stops {8}, down call at 2: the estimate is 11 |
| Cart.SweepAbsorption | Assets/Main.cs:46-55 | a car at 3 rising towards 8 has an up call at 6 on its way: the estimate is 3, the distance |
| Cart.RisingLowestSlip | Assets/Main.cs:55-61 | with no up calls, the lowest level of a rising car reads 0, not the down call's floor |
| Cart.FallingUpCallIgnoresDownFloors | Assets/Main.cs:86-92 | a falling car's estimate for an up call depends only on whether `downLevels` is empty |
| Cart.Tick | Assets/Main.cs:234-467 | `pos` moves +1 only when up and -1 only when down; each set can only shrink, and only by the car's new floor; idle_open always goes to idle; idle with least up call at `pos` opens up_open and drops that call; moving up into an up-call floor drops it from the up calls and the stops; on entering idle_open all sets are empty |
| Cart.IdleServesOwnFloor | Assets/Main.cs:238-249 | idle at 5 with an up call at 5: the doors open at once and the call is served |
| Cart.RisingPastLastRide | Assets/Main.cs:290-334 | after its last ride, at a floor with no up call, a rising car stays rising (the ride dropped, doors shut, nothing else changed) exactly when both hall-call sets hold calls and all of them lie below the new floor |
| Cart.UpOpenStuck | Assets/Main.cs:396-428 | doors open going up, the car is left exactly unchanged precisely when it has no ride and both hall-call sets hold calls, all of them below it |
| Cart.FallingLowestSlip | Assets/Main.cs:353-380 | after its last ride, at a floor with no down call, a falling car opens going down exactly when both hall-call sets hold a call below the new floor; with any call pending otherwise it opens going up, the new floor dropped from the up calls, even when a down call lies below (the `Max` used for "lowest") |
| Cart.Cart.constructor | Assets/Main.cs:19-25 | a new car is idle at floor 1 with empty sets |
| Cart.Cart.AddStopLevel | Assets/Main.cs:27-32 | the level joins `stopLevels` exactly when the car is heading for it; nothing else changes |
| Cart.Cart.AddLevel | Assets/Main.cs:34-37 | the level joins exactly one of the up and down call sets; re-adding changes nothing; nothing else changes |
| Cart.Cart.StepIdle | Assets/Main.cs:236-277 | the fields become `Tick` of their old value |
| Cart.Cart.StepUp | Assets/Main.cs:278-336 | the fields become `Tick` of their old value |
| Cart.Cart.StepDown | Assets/Main.cs:337-395 | the fields become `Tick` of their old value |
| Cart.Cart.StepUpOpen | Assets/Main.cs:396-428 | the fields become `Tick` of their old value |
| Cart.Cart.StepDownOpen | Assets/Main.cs:429-461 | the fields become `Tick` of their old value |
| Cart.Cart.StepIdleOpen | Assets/Main.cs:462-466 | the fields become `Tick` of their old value: the doors close and the car is idle |
| Elevator.FirstLeast | Assets/Main.cs:166-175 | the chosen index has the least score, and no earlier index has that score |
| Elevator.Elevator.ScoreCars | Assets/Main.cs:166-170 | the loop gives one score per car in roster order, entry `i` being car `i`'s response time for the call; it changes no state |
| Elevator.Elevator.constructor | Assets/Main.cs:110-116 | four distinct new idle cars at floor 1, empty queues and maps |
| Elevator.Elevator.EnqueueUp | Assets/Main.cs:497-501 | a pending call is ignored; otherwise the map gains `level -> -1` and the queue gains `level` once at its end; nothing else changes |
| Elevator.Elevator.EnqueueDown | Assets/Main.cs:506-510 | the mirror of the up button on the down queue and map |
| Elevator.Elevator.UpControlStep | Assets/Main.cs:164-178 | the head call goes to the first car with the least up score; the map records that car; the queue loses its head; the call joins that car's up calls; other cars and the down side are unchanged |
| Elevator.Elevator.DownControlStep | Assets/Main.cs:193-207 | as for the up step, on the down queue, map and set, with cars scored as for an up call |
| Elevator.Elevator.RequestStop | Assets/Main.cs:537 | the in-car button adds the ride exactly when the car is heading for it |
| Elevator.Elevator.CartHandleStep | Assets/Main.cs:234-467 | the car moves to `Tick` of its old state; leaving up_open (down_open) removes the car's floor from the up (down) map whatever the next state; the queues and the other cars are unchanged |
| JsonData.TypeTag | Assets/JsonHelper.cs:10-26 | the tag is -1 to 4, one per kind of value |
| JsonData.OfType | Assets/JsonHelper.cs:10-26 | tag 3 gives an empty list, 4 an empty object, any other tag an undefined value |
| JsonData.OfInt | Assets/JsonHelper.cs:28-32 | an int whose accessor reads back the value |
| JsonData.OfString | Assets/JsonHelper.cs:34-38 | a string whose accessor reads back the value |
| JsonData.OfBool | Assets/JsonHelper.cs:40-44 | a bool whose accessor reads back the value |
| JsonData.GetInt | Assets/JsonHelper.cs:187-196 | the int when the tag is 0, else 0 |
| JsonData.GetString | Assets/JsonHelper.cs:198-207 | the string when the tag is 1, else "" |
| JsonData.GetBool | Assets/JsonHelper.cs:209-218 | the bool when the tag is 2, else false |
| JsonData.GetList | Assets/JsonHelper.cs:220-229 | the elements exactly when the tag is 3, else none (null) |
| JsonData.GetObject | Assets/JsonHelper.cs:231-240 | the members exactly when the tag is 4, else none (null) |
| JsonData.Decimal | Assets/JsonHelper.cs:152 | `int.ToString()` is non-empty and starts with `-` exactly for negative numbers |
| JsonData.ListText | Assets/JsonHelper.cs:160-169 | a non-empty list is written as `[`, the elements joined by commas, and `]`; an empty one as `]` alone |
| JsonData.ObjectText | Assets/JsonHelper.cs:170-181 | a non-empty object is written as `{`, the `"key":value` members joined by commas, and `}`; an empty one as `}` alone |
| JsonParse.SkipSpaces | Assets/JsonHelper.cs:118-119 | the first index at or after `i` that is not space, `\r`, `\n` or `\t` |
| JsonParse.TypeAt | Assets/JsonHelper.cs:116-141 | after white space: 1 for `"`, 2 for `t`/`f`, 3 for `[`, 4 for `{`, 0 for `-` or a digit, -1 otherwise; a text of white space only fails |
| JsonParse.IntAtValue | Assets/JsonHelper.cs:249-269 | the number read is the value of the digits after the optional `-`, negated when the sign is present |
| JsonParse.IntAt | Assets/JsonHelper.cs:249-269 | the index stops at the first non-digit; reading past the end fails |
| JsonParse.StringAt | Assets/JsonHelper.cs:271-293 | the value is the text between the opening quote and the closing quote, copied verbatim; the index ends just past the closing quote |
| JsonParse.BoolAt | Assets/JsonHelper.cs:295-302 | true exactly when the character is `t`; the index moves by 4 for true and 5 for false |
| JsonParse.ListAt | Assets/JsonHelper.cs:304-359 | a list read ends just past a `]` |
| JsonReading.ListItemsSeparators | Assets/JsonHelper.cs:314-328 | any run of white space and commas in a list is skipped, whatever its length |
| JsonReading.ListItemsAppend | Assets/JsonHelper.cs:304-359 | for any text, the list loop with elements already read gives those elements followed by what it reads from there on, in order, and fails as it would with nothing read |
| JsonReading.NullElementRead | Assets/JsonHelper.cs:344-346 | `null` in a list appends an undefined element and moves over four characters |
| JsonReading.StuckElement | Assets/JsonHelper.cs:350-352 | any character that starts no value and is no separator stops a list with `NoProgress` at that index |
| JsonReading.SpacedList | Assets/JsonHelper.cs:304-359 | `[1, 2]`, written with a space after the comma, reads as the list of 1 and 2 |
| JsonParse.ObjectAt | Assets/JsonHelper.cs:361-444 | an object read ends just past a `}` |
| JsonReading.ValueSeparators | Assets/JsonHelper.cs:375-392 | waiting for a value, any run of white space, commas and colons is skipped |
| JsonReading.KeySeparators | Assets/JsonHelper.cs:427-437 | waiting for a key, every character before the next quote or `}` is skipped |
| JsonReading.ObjectItemsPrefix | Assets/JsonHelper.cs:361-444 | for any text, the members already read are a prefix of the object read: members are only added at the end, in the order of the text |
| JsonReading.RepeatedKey | Assets/JsonHelper.cs:393-424 | for any text, a key already among the members followed by a value that reads completely makes the object fail with `DuplicateKey` |
| JsonParse.ObjectAtDistinct | Assets/JsonHelper.cs:361-444 | every object read has distinct keys |
| JsonParse.Parse | Assets/JsonHelper.cs:52-79 | the value read has the tag `readType` found |
| JsonHelper.ReadType | Assets/JsonHelper.cs:116-141 | the white-space loop returns `TypeAt` |
| JsonHelper.IntParser | Assets/JsonHelper.cs:249-269 | the digit loop accumulating `ret * 10 + digit` returns `IntAt` |
| JsonHelper.StringParser | Assets/JsonHelper.cs:271-293 | the copy loop returns `StringAt` |
| JsonHelper.StringReader | Assets/JsonHelper.cs:446-468 | the key reader returns the same as `StringParser` |
| JsonHelper.BoolParser | Assets/JsonHelper.cs:295-302 | returns `BoolAt` |
| JsonHelper.NullParser | Assets/JsonHelper.cs:242-247 | returns `NullAt`: an undefined value, the index moved over four characters |
| JsonHelper.ElementParser | Assets/JsonHelper.cs:329-352 | the per-character dispatch of the list and object loops returns `ValueAt` |
| JsonHelper.ListParser | Assets/JsonHelper.cs:304-359 | the list loop, appending in place, returns `ListAt` |
| JsonHelper.ObjectParser | Assets/JsonHelper.cs:361-444 | the object loop, with its `flag`/`column` state and adding in place, returns `ObjectAt` |
| JsonHelper.FromString | Assets/JsonHelper.cs:52-79 | the `Json(string)` constructor returns `Parse` |
| JsonHelper.Serialize | Assets/JsonHelper.cs:143-185 | the text built returns `Print` |
| JsonHelper.SerializeItems | Assets/JsonHelper.cs:160-169 | the list loop builds `Print` of the list |
| JsonHelper.SerializeFields | Assets/JsonHelper.cs:170-181 | the object loop builds `Print` of the object |
| JsonHelper.Copy | Assets/JsonHelper.cs:81-114 | the copy constructor's result equals its argument |
| JsonLaws.IntRoundTrip | Assets/JsonHelper.cs:249-269 | the text `int.ToString()` writes, followed by a non-digit, reads back as the same int |
| JsonLaws.TopLevelInt | Assets/JsonHelper.cs:52-79 | a whole text holding a serialised int followed by a non-digit parses to that int |
| JsonLaws.BareIntFails | Assets/JsonHelper.cs:258-263 | a text that is only a serialised int fails, because the digit loop reads past the end |
| JsonLaws.StringTextRoundTrip | Assets/JsonHelper.cs:271-293 | a serialised string reads back exactly when it has no bare quote and every backslash is followed by a character |
| JsonLaws.ValueRoundTrip | Assets/JsonHelper.cs:304-359 | a reparseable value written at any index, followed by a non-digit when it is an int, reads back as itself, ending just after its text |
| JsonLaws.ReparseableList | Assets/JsonHelper.cs:304-359 | a non-empty list whose elements all read back is reparseable |
| JsonLaws.ReparseableObject | Assets/JsonHelper.cs:361-444 | a non-empty object with distinct, escaped keys and values that read back is reparseable |
| JsonLaws.ParseRoundTrip | Assets/JsonHelper.cs:52-79 | parsing the serialised text of a reparseable non-int value gives the value back, using the whole text |
| JsonLaws.BoolDoesNotRoundTrip | Assets/JsonHelper.cs:157-159 | a serialised bool reads back as an undefined value |
| JsonLaws.UndefinedReadsBackEmpty | Assets/JsonHelper.cs:149-150 | an undefined value is written as `Undefined JSON Data`, which reads back as undefined but consumes nothing |
| JsonLaws.EmptyContainersDoNotRoundTrip | Assets/JsonHelper.cs:167 | a serialised empty list or object reads back as an undefined value |
| JsonLaws.DuplicateKeyFails | Assets/JsonHelper.cs:421-424 | for example, `{"a":1,"a":2}` fails with `DuplicateKey` (the general law is `RepeatedKey`) |
| JsonLaws.StuckListElement | Assets/JsonHelper.cs:310-353 | for example, `[}]` fails with `NoProgress` at index 1 (the general law is `StuckElement`) |

## Left out

- The Unity coroutines, the `WaitForSeconds` intervals and the `Mutex` are not modelled. Each dispatcher pass and each car tick is one atomic method; timing and interleaving are not modelled.
- The UI (`Awake`, `PlayInit` widgets, `UpdateUI`), replay (`ReplayInit`, `ReplayUpdate`, file reading) and the `Record` class are outside the model. They are presentation and I/O.
- `Debug.LogError` calls are not modelled; only the default values they come with are.
- GetResponseTime's `int.MaxValue` return for a state outside the enum is not modelled, because the datatype has no such state.
- Elevator.FirstLeast: `List.Sort` is not a stable sort. The model picks the first car among those with the least score, which is the car a stable sort would place first. Any car with the least score is one the source could choose.
- JsonHelper.IntParser: the 32-bit wrap-around of `ret * 10 + digit` for numbers beyond `int` is not modelled. Integers are unbounded.
- JsonHelper.ListParser: on a character that no reader consumes (for example `}` inside a list), the source loops for ever. The model reports `Err(NoProgress)` instead.
- The object members are a sequence in insertion order, which is the order in which a `Dictionary` without removals enumerates them.
- `Json(int type, object value)`, which stores any object untyped, is modelled only through the typed values that the parsers and the other constructors build.
- JsonLaws.ParseRoundTrip: ints are excluded (see `BareIntFails` and `TopLevelInt`). So are booleans, which are written as unreadable `True`/`False`; empty lists and objects, whose opening bracket the writer cuts off; and the undefined value, written as `Undefined JSON Data`, of which the reader consumes nothing. The lemmas named in the table state what happens in those cases instead.
- JsonData.NatDigits only promises a non-empty run of characters whose first is a digit. That the digits denote the number is proved separately, in `JsonLaws.NatDigitsValue`.
