# iCal component model

A Dafny model of `ical.class.php` ("iCal parser classes", version 1.01, which in fact only builds and prints calendars). The file
defines `iCalComponent`, a calendar node, and the subclasses `iCal` (VCALENDAR),
`iCalEvent`, `iCalTodo` and `iCalJournal`. Each node keeps its state in one ordered PHP
array `$props`. That array holds:

- the lower-case bookkeeping entries `type` and `sequence`;
- the iCalendar properties, under upper-case keys;
- the lower-case `children` list.

`toString` renders a node and its subtree as nested `BEGIN:`/`END:` blocks, the component
blocks of RFC 5545 section 3.6.

The project has five modules:

- `Text` (`text.dfy`) models `strtoupper` on ASCII letters. It also holds the upper-case
  test `toString` applies to keys, and decimal digit strings as `date()` prints them.
- `PhpArray` (`php_array.dfy`) models a PHP array with string keys. It is a key sequence
  in insertion order plus a map from key to value. The module covers:
  - assignment, where an existing key keeps its position and a new key goes last;
  - `unset`;
  - `array_merge`;
  - `array_change_key_case`.

  The operations are plain functions. A lemma after each one states what PHP promises of it.
- `CivilTime` (`civil_time.dfy`) covers:
  - broken-down local times;
  - the `Ymd\THis` stamp `date()` prints, and its inverse;
  - `splitTime`;
  - the all-day test of `setTime`.
- `Serializer` (`serializer.dfy`) gives the text `toString` produces as a function
  `Render` of a component tree. It also has a second, line-by-line definition `Lines`,
  proved equal to it.
- `ICal` (`component.dfy`) holds the class `Component`. The class has the fields `props`
  (the array without `children`) and `children`, and the source's methods as imperative
  methods. The five PHP classes are one Dafny class; the constant `kind` records which
  constructor built the object. The module also has functions such as `TypeChange`,
  `AllDayProps`, `TimedProps`, `StatusProps`, `VariantProps` and `CalendarProps`. Each
  gives the array a mutator or constructor leaves, and lemmas state the source's promises
  about them.

The file does not implement, and so the model does not have:

- escaping and line folding;
- UID, TZID, CALSCALE and alarms;
- `removeProperty`;
- pattern matching in `setType`;
- DTSTAMP one second before the start;
- VERSION rendered first.

Instead:

- DTSTAMP equals DTSTART.
- `"/X-(.)+/i"` and `"iana-token"` are literal list entries.
- The property order is the array's insertion order.
- A calendar made without arguments renders `PRODID` before `VERSION`.

## Model

| member | source | states |
|---|---|---|
| Text.Upper | ical.class.php:46 | `strtoupper` keeps the length and changes exactly the letters `a`..`z`, each to its capital |
| Text.IsUpper | ical.class.php:198 | the key test of `toString`: a key equals its own `strtoupper`; characterised by `IsUpperIffNoLower` |
| Text.Pad | ical.class.php:98-109 | the digits `date()` prints for `Y`, `m`, `d`, `H`, `i`, `s`: exactly `width` digits; read back by `PadRoundTrip` |
| Text.Decimal | ical.class.php:220-223 | the digits `date()` prints for `j`, `n`, `G`: at least one digit; read back by `DecimalRoundTrip` |
| Text.IsUpperIffNoLower | ical.class.php:198 | a key passes `strtoupper($key) == $key` exactly when it holds no letter `a`..`z` |
| Text.UpperIsUpper | ical.class.php:46 | every key written through `strtoupper` passes the upper-case test of `toString` |
| Text.UpperIsNotBookkeeping | ical.class.php:46 | no key written through `strtoupper` can be `type`, `sequence` or `children` |
| Text.PadRoundTrip | ical.class.php:98-109 | the zero-padded digits `date()` prints for `Y`, `m`, `d`, `H`, `i`, `s` read back as the number |
| Text.DecimalRoundTrip | ical.class.php:220-223 | the unpadded digits `date()` prints for `j`, `n`, `G` read back as the number |
| PhpArray.Put | ical.class.php:46 | `$p[$k] = $v` on the array; its properties are `PutSpec` |
| PhpArray.Remove | ical.class.php:79-80 | `unset ($p[$k])`; its properties are `RemoveSpec` |
| PhpArray.PutAll | ical.class.php:52-56 | assigning slots one after the other; its properties are `PutAllSpec`, `PutAllKeys` and `PutAllConcat` |
| PhpArray.Merge | ical.class.php:243 | `array_merge` on string keys; its properties are `MergeSpec` and `MergePair` |
| PhpArray.ChangeKeyCaseUpper | ical.class.php:244 | `array_change_key_case (..., CASE_UPPER)`; its properties are `ChangeKeyCaseSpec` |
| PhpArray.PutSpec | ical.class.php:46 | assignment keeps the array well formed, gives the key its new value, keeps an existing key's position, appends a new key last, and changes no other key |
| PhpArray.RemoveIsDrop | ical.class.php:79-80 | `unset` leaves the other keys in their order: the new key sequence is the old one with `k` filtered out by the independent `Drop` |
| PhpArray.RemoveSpec | ical.class.php:79-80 | `unset` drops the key's slot, closes up the others in order, changes no other key, and does nothing when the key is absent |
| PhpArray.PutAllSpec | ical.class.php:52-56 | assigning a list of slots in order leaves each key with the last value the list gives it, or its old value, and keeps existing keys in place |
| PhpArray.PutAllConcat | ical.class.php:52-56 | assigning `a` then `b` is assigning `a + b`, so a loop of assignments composes |
| PhpArray.MergeSpec | ical.class.php:243-251 | `array_merge` keeps the first array's keys in place and then appends the keys only the second has, in the second array's order; the second array's value wins on a shared key |
| PhpArray.MergePair | ical.class.php:243-251 | merging in a two-key array is two assignments in order |
| PhpArray.PutAllKeys | ical.class.php:52-56 | assigning a list of slots keeps the existing keys in place and appends each key the array lacks once, in the order of its first occurrence in the list |
| PhpArray.ChangeKeyCaseSpec | ical.class.php:244 | `array_change_key_case(..., CASE_UPPER)` upper-cases every key; a key's value is that of the last slot that upper-cases to it, and its position is where it first occurs |
| CivilTime.IsAllDay | ical.class.php:117-128 | both times at 00:00:00 and the end's day, month or year number larger, each compared on its own; related to the `splitTime` test by `AllDayPartsIsAllDay` |
| CivilTime.AllDayParts | ical.class.php:117-128 | the condition of `setTime` on the two `splitTime` arrays, with numeric strings compared as numbers |
| CivilTime.Stamp | ical.class.php:98-109 | `date("Ymd\THis")` prints eight digits, a `T`, then six digits |
| CivilTime.StampRoundTrip | ical.class.php:98-109 | the stamp reads back as the time it was printed from |
| CivilTime.StampInjective | ical.class.php:98-109 | two different times never print the same stamp |
| CivilTime.SplitTime | ical.class.php:217-227 | every part is a digit string that reads back as the field it came from |
| CivilTime.AllDayPartsIsAllDay | ical.class.php:115-128 | the test on the two `splitTime` arrays is exactly `IsAllDay` on the two times |
| CivilTime.LaterMidnightIsAllDay | ical.class.php:117-128 | midnight to midnight of a later date is always all-day |
| CivilTime.AllDayAcceptsEarlierEnd | ical.class.php:123-128 | the three separate comparisons also accept an end on an earlier date whose month number is larger |
| CivilTime.OneHourIsNotAllDay | ical.class.php:117-122 | midnight to one o'clock on the same day is not all-day |
| Serializer.TypeOf | ical.class.php:193 | the type name `BEGIN:` and `END:` print, "" when `type` is missing; used by `Render` and `Lines` |
| Serializer.KeyText | ical.class.php:197-200 | what one turn of the property loop appends: a CRLF and `key:value` for an upper-case key, nothing otherwise; its properties are `PropLinesAreUpper` and `LowercaseKeyIsSilent` |
| Serializer.PropLines | ical.class.php:196-202 | the text of the property loop over the keys in order; proved equal to the line list by `PropLinesAsLines` |
| Serializer.ChildBlocks | ical.class.php:205-210 | the text of the child loop, a CRLF and each child's text in order; proved equal to the line list by `ChildBlocksAsLines` |
| Serializer.Render | ical.class.php:189-215 | the text of `toString` as a recursive function of the tree; proved equal to the line-by-line definition by `RenderAsLines` |
| Serializer.RenderAsLines | ical.class.php:189-215 | the text of a component is exactly its lines joined by CRLF: the `BEGIN:` line, one line per upper-case key in array order, the lines of each child in order, the `END:` line, and no trailing CRLF |
| Serializer.ChildBlocksAsLines | ical.class.php:205-210 | the children's texts, each after a CRLF, are their lines in insertion order |
| Serializer.PropLinesAsLines | ical.class.php:196-202 | the property loop emits a CRLF and one line for each upper-case key, in array order |
| Serializer.PropLinesAreUpper | ical.class.php:197-201 | every property line is `key:value` for a key of the array that passes the upper-case test |
| Serializer.NoBookkeepingLine | ical.class.php:196-202 | no property line starts with `type:`, `sequence:` or `children:` |
| Serializer.KeyIsRendered | ical.class.php:197-201 | each upper-case key has its own line |
| Serializer.PropertyIsRendered | ical.class.php:197-201 | every upper-case property appears as the line `key:value` with its current value |
| Serializer.LowercaseKeyIsSilent | ical.class.php:198 | writing a key that is not upper case never changes the property text |
| Serializer.RenderIgnoresBookkeeping | ical.class.php:193-213 | writing `sequence` (or any other lower-case key except `type`) leaves the whole text unchanged |
| Serializer.RenderAppendChild | ical.class.php:205-213 | appending a child inserts exactly its text, after a CRLF, just before the `END:` line |
| ICal.TypeMatchIsLiteral | ical.class.php:33-36 | the pattern and the token are literal list entries; `X-CUSTOM`, `vevent` and `VALARM` are not accepted |
| ICal.BookkeepingKeysAreNotUpper | ical.class.php:198 | `type` and `sequence` fail the upper-case test, so they are never rendered as properties |
| ICal.UpperKeysNeverBookkeeping | ical.class.php:244 | no upper-cased caller key can set `type` or `sequence` |
| ICal.NamedKeyIsUpper | ical.class.php:85 | the keys the setters write by name are their own upper case |
| ICal.AllDayKeysAreUpper | ical.class.php:74-77 | `setAllDay(true)` passes both flags through `addProperties` unchanged |
| ICal.StampKeysAreUpper | ical.class.php:97-110 | `setTime` passes its three stamps through `addProperties` unchanged |
| ICal.BaseProps | ical.class.php:22-29 | the array the base constructor leaves; its properties are `BaseSpec` |
| ICal.TypeChange | ical.class.php:31-41 | the array `setType` leaves, or none where PHP dies; its properties are `TypeChangeSpec` |
| ICal.VariantProps | ical.class.php:282-285 | the array of the `iCalEvent`, `iCalTodo` and `iCalJournal` constructors; its properties are `VariantSpec` |
| ICal.CalendarProps | ical.class.php:243-251 | the array of the `iCal` constructor; its properties are `CalendarSpec` |
| ICal.AllDayProps | ical.class.php:72-82 | the array `setAllDay` leaves; its properties are `AllDaySpec` |
| ICal.StampedProps | ical.class.php:97-110 | the array the `addProperties` call of `setTime` leaves; its properties are `StampedSpec` |
| ICal.EndOrStart | ical.class.php:93-95 | a null end becomes the start; used by `Component.SetTime`, whose contract states it |
| ICal.StampEntries | ical.class.php:97-110 | the three slots `setTime` passes to `addProperties`, in that order; its properties are `StampedSpec` and `StampedKeys` |
| ICal.TimedProps | ical.class.php:88-133 | the array `setTime` leaves; its properties are `TimedStamps`, `TimedFlags`, `TimedFrame` and `TimedKeys` |
| ICal.StatusProps | ical.class.php:143-157 | the array `setStatus` leaves; its properties are `StatusSpec` |
| ICal.NewEventProps | ical.class.php:257-260 | the array of the event `addEvent` builds, written out key by key; tied to the setters by `AddEventSetters` |
| ICal.BaseSpec | ical.class.php:22-29 | a new component holds exactly `type` (the given type) and then `sequence` = "0" |
| ICal.TypeChangeSpec | ical.class.php:31-41 | `setType` succeeds exactly on the eight listed strings; then only `type` changes, and an existing `type` keeps its position |
| ICal.VariantSpec | ical.class.php:282-285 | the upper-cased caller keys come first with their values; then `type` is the subclass's type and `sequence` is "0", whatever the caller passed |
| ICal.CalendarSpec | ical.class.php:243-251 | a calendar has PRODID = the fixed product id, VERSION = "2.0" and type VCALENDAR, whatever the caller passed; the caller's keys come first and keep their values; when the caller gave no PRODID or VERSION, the keys are the caller's, then `type`, `sequence`, PRODID, VERSION, in that order |
| ICal.NoCallerCalendarOrder | ical.class.php:233-252 | `new iCal()` holds exactly `type`, `sequence`, PRODID and VERSION, in that order, so it renders PRODID before VERSION |
| ICal.NoCallerIsBase | ical.class.php:272-285 | with no caller array a subclass constructor leaves exactly what the base constructor wrote |
| ICal.AllDaySpec | ical.class.php:72-82 | `setAllDay(true)` sets both flags to "TRUE", keeps every key in place and appends the flags the array lacks, in that order; `false` removes both, leaves the other keys in their order (the two flags filtered out by `Drop`), and does nothing if they are absent; no other key changes |
| ICal.StampedSpec | ical.class.php:97-110 | DTSTART and DTSTAMP get the start's stamp and DTEND the end's; every existing key keeps its position; the three are appended in that order when new; no other key changes |
| ICal.StampedKeys | ical.class.php:97-110 | on any array, the stamps keep the keys in place and append those of DTSTART, DTSTAMP, DTEND the array lacks, in that order |
| ICal.TimedStamps | ical.class.php:93-110 | after `setTime`, DTSTART and DTSTAMP hold the start's stamp and DTEND the end's |
| ICal.TimedFlags | ical.class.php:112-132 | after `setTime`, both all-day flags are "TRUE" when the all-day test holds, and absent otherwise |
| ICal.TimedFrame | ical.class.php:88-133 | `setTime` changes no key other than the five it writes |
| ICal.TimedOrder | ical.class.php:97-132 | the key order after `setTime` on any array: the missing stamp keys appended, then the flags appended when new (all-day) or filtered out (not all-day) |
| ICal.TimeAgainKeepsOrder | ical.class.php:97-132 | on an array that holds the three stamps, and the flags exactly when the new times are all-day, `setTime` moves no key |
| ICal.SetTimeTwice | ical.class.php:88-133 | calling `setTime` a second time with the same all-day outcome leaves every key where the first call put it |
| ICal.TimedKeys | ical.class.php:97-132 | on an array without those keys, `setTime` appends DTSTART, DTSTAMP and DTEND, then the two flags when they are set |
| ICal.StatusSpec | ical.class.php:143-157 | a listed string becomes STATUS and any other string changes nothing; an integer picks the status at that index, or "" outside the list; no other key changes |
| ICal.EventHeader | ical.class.php:257-259 | the array of a new event after `setTitle` and `setDescription`; its properties are `HeaderShape`, and `AddEventSetters` uses it |
| ICal.HeaderShape | ical.class.php:257-259 | a new event after `setTitle` and `setDescription` holds `type`, `sequence`, SUMMARY and DESCRIPTION, in that order |
| ICal.AddEventSetters | ical.class.php:257-260 | `setTitle`, `setDescription` and `setTime` on a new event give exactly the array `NewEventProps` writes out |
| ICal.Component.constructor | ical.class.php:22-29 | `new iCalComponent(t)` holds the base array of `t`, with no children |
| ICal.Component.Calendar | ical.class.php:233-252 | `new iCal(caller)` holds `CalendarProps(caller)`, with no children |
| ICal.Component.Event | ical.class.php:272-286 | `new iCalEvent(caller)` holds `VariantProps("VEVENT", caller)` |
| ICal.Component.Todo | ical.class.php:292-306 | `new iCalTodo(caller)` holds `VariantProps("VTODO", caller)` |
| ICal.Component.Journal | ical.class.php:312-326 | `new iCalJournal(caller)` holds `VariantProps("VJOURNAL", caller)` |
| ICal.Component.SetType | ical.class.php:31-41 | the result is false exactly where PHP dies, and then nothing changed; otherwise the array is `TypeChange` of the old one |
| ICal.Component.AddProperty | ical.class.php:43-47 | the value is assigned verbatim under `strtoupper(name)`; the tree stays valid |
| ICal.Component.AddProperties | ical.class.php:49-57 | the array is the old one with each slot assigned in input order under its upper-cased key; an empty input changes nothing |
| ICal.Component.SetAllDay | ical.class.php:72-82 | the array becomes `AllDayProps` of the old one |
| ICal.Component.SetDescription | ical.class.php:84-86 | assigns DESCRIPTION and nothing else |
| ICal.Component.SetTime | ical.class.php:88-133 | a missing end is the start; the array becomes `TimedProps` of the old one |
| ICal.Component.SetTitle | ical.class.php:135-137 | assigns SUMMARY and nothing else |
| ICal.Component.SetOwner | ical.class.php:139-141 | assigns ORGANIZER and nothing else |
| ICal.Component.SetStatus | ical.class.php:143-157 | the array becomes `StatusProps` of the old one |
| ICal.Component.AddChild | ical.class.php:166-177 | the child goes last; earlier children and every property are unchanged |
| ICal.Component.AddChildren | ical.class.php:179-187 | the children are appended in list order; properties are unchanged |
| ICal.Component.ToString | ical.class.php:189-215 | the text the loops build is `Render` of the component tree |
| ICal.Component.AppendProperties | ical.class.php:196-202 | the property loop appends a CRLF and `key:value` for each upper-case key, in array order |
| ICal.Component.AppendChildren | ical.class.php:205-210 | the child loop appends a CRLF and each child's text, in insertion order |
| ICal.Component.NewEvent | ical.class.php:257-260 | the event `addEvent` builds holds exactly `NewEventProps`: type, sequence, SUMMARY, DESCRIPTION, the three stamps, then the flags when all-day |
| ICal.Component.AddEvent | ical.class.php:254-266 | a calendar gets exactly one new VEVENT child, last, with that array; its properties and earlier children are unchanged |

## Left out

- `date()` turns a Unix timestamp into local civil time through the process time zone. That conversion is not modelled: times are broken-down `DateTime` values, and only the digits `date()` prints for them are.
- Years outside 0..9999 are outside the model: `Y` zero-pads a year to at least four digits, so a year above 9999 prints five or more digits and a year before 0 prints a leading minus, and neither has the fixed shape the stamp lemmas describe.
- `die()` ends the process. In the constructor it becomes the precondition `t in ComponentTypes`; in `SetType` it becomes a `false` result.
- The reflection checks `get_class` / `is_subclass_of` in `addChild` and `class_exists` in `addEvent` are always true for Dafny-typed arguments, so the `die()` calls behind them cannot happen.
- `addEvent` exists only on `iCal`; in the single Dafny class this becomes the precondition `kind == CalendarClass` of `AddEvent`.
- Text.Upper: `strtoupper` and `array_change_key_case` change only the ASCII letters `a`..`z`. Before PHP 8.2 they follow the character-type locale, and before PHP 8.0 that locale can come from the environment, so under some locales other bytes change too; that is not modelled.
- `hasProperty` reads an undefined variable and searches values rather than keys, so it has no contract worth stating.
- PHP integer keys and numeric-string keys are not modelled: every key is a string, and every value a string.
- The subclass constructors replace any `$props` that is not an array (null, a number, a string, an object) with `array()`, so every such argument is the empty sequence of slots here. Values of types other than string are not modelled: every value is a string.
- ICal.StatusProps: an integer outside 0..7 reads an undefined slot of the list. PHP warns and stores null, which prints as ""; the model stores "".
- The HTTP headers in the file comment are not modelled.
- ICal.Component.AddChild: requires that the child does not contain the parent, so a component is never its own descendant. PHP would allow the cycle and then recurse without end in `toString`.
- PHP objects are handles, so a child changed after `addChild` shows the change in its parent's text. The model keeps children as references, and `Tree()` reads them at the time of the call. So whenever the parent is `Valid()`, its text is built from its children's current properties. The setters' contracts speak only of the component they are called on, so no contract states that the parent stays `Valid()` after one of its children changes. Sharing one child between two parents is not excluded.
- ICal.Component.AddChild: adding children to a component after it has itself been attached is not modelled. The new grandchild is not in the parent's `Repr`, so the parent is no longer `Valid()` and its `ToString` cannot be called, while PHP would render the grandchild.
- The `children` entry of `$props` is kept as a separate field. Its position among the keys does not affect the text, because `children` is never rendered.
- When a node has no children, PHP reads `$this->props['children']` as null. PHP 7 counts it as 0, so no child text is emitted, which is what the model does. PHP 8 throws a `TypeError` on `sizeof(null)`, which is not modelled.
- The loops of `toString` are split into two helper methods, `AppendProperties` and `AppendChildren`.
