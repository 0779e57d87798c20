/**
 `iCalComponent` and its subclasses `iCal` (VCALENDAR), `iCalEvent`,
 `iCalTodo` and `iCalJournal`. A component keeps its state in one PHP
 array: the lower-case `type` and `sequence` entries, the properties under
 upper-case keys, and its children. Here the children are a field of their
 own; everything else stays in `props`, in the array's order.

 Each mutator is specified by a function on the array (`TypeChange`,
 `AllDayProps`, `TimedProps`, `StatusProps`, ...), and what the source
 promises is stated about those functions.
 */
module ICal {
  import opened Text
  import opened PhpArray
  import opened CivilTime
  import opened Serializer

  /** The list `setType` checks, compared as plain strings (no pattern matching). */
  const ComponentTypes: seq<string> :=
    ["VCALENDAR", "VEVENT", "VTODO", "VJOURNAL", "VFREEBUSY", "VTIMEZONE", "/X-(.)+/i", "iana-token"]

  /** The values `setStatus` accepts, in the order its integer form indexes them. */
  const Statuses: seq<string> :=
    ["TENTATIVE", "CONFIRMED", "CANCELLED", "NEEDS-ACTION", "COMPLETED", "IN-PROCESS", "DRAFT", "FINAL"]

  const ProdId: string := "-//Autonomous Company//Brians iCal Generator MIMEDIR//EN"

  const FunambolAllDay: string := "X-FUNAMBOL-ALLDAY"
  const MicrosoftAllDay: string := "X-MICROSOFT-CDO-ALLDAYEVENT"

  /** The PHP class a component was created as. */
  datatype Kind = ComponentClass | CalendarClass | EventClass | TodoClass | JournalClass

  /** The argument of `setStatus`: a PHP integer (an index into `Statuses`) or a string. */
  datatype StatusArg = Index(i: int) | Name(s: string)

  /** The pattern and the token are list entries like any other. */
  lemma TypeMatchIsLiteral()
    ensures "/X-(.)+/i" in ComponentTypes && "iana-token" in ComponentTypes
    ensures "X-CUSTOM" !in ComponentTypes && "vevent" !in ComponentTypes && "VALARM" !in ComponentTypes
  {
  }

  lemma {:induction false} BookkeepingKeysAreNotUpper()
    ensures !IsUpper("type") && !IsUpper("sequence")
  {
    assert Upper("type")[0] == 'T';
    assert Upper("sequence")[0] == 'S';
  }

  /** No key a caller writes through `strtoupper` is a bookkeeping key. */
  lemma {:induction false} UpperKeysNeverBookkeeping(es: seq<Entry>, k: string)
    requires !IsUpper(k)
    ensures LastAssigned(UpperKeys(es), k) == None
  {
    var u := UpperKeys(es);
    if es != [] {
      assert u[..|u| - 1] == UpperKeys(es[..|es| - 1]);
      UpperIsUpper(es[|es| - 1].key);
      UpperKeysNeverBookkeeping(es[..|es| - 1], k);
    }
  }

  /** The keys the setters write by name are their own upper case. */
  lemma NamedKeyIsUpper(k: string)
    requires || k == "SUMMARY" || k == "DESCRIPTION" || k == "ORGANIZER" || k == "STATUS"
             || k == "DTSTART" || k == "DTSTAMP" || k == "DTEND" || k == FunambolAllDay || k == MicrosoftAllDay
    ensures Upper(k) == k
  {
    if k == "SUMMARY" {
      UpperOfUpperCase("SUMMARY");
    } else if k == "DESCRIPTION" {
      UpperOfUpperCase("DESCRIPTION");
    } else if k == "ORGANIZER" {
      UpperOfUpperCase("ORGANIZER");
    } else if k == "STATUS" {
      UpperOfUpperCase("STATUS");
    } else if k == "DTSTART" {
      UpperOfUpperCase("DTSTART");
    } else if k == "DTSTAMP" {
      UpperOfUpperCase("DTSTAMP");
    } else if k == "DTEND" {
      UpperOfUpperCase("DTEND");
    } else if k == FunambolAllDay {
      UpperOfUpperCase(FunambolAllDay);
    } else {
      UpperOfUpperCase(MicrosoftAllDay);
    }
  }

  /** Two slots whose keys are upper case already keep their keys. */
  lemma UpperKeysPair(a: string, u: string, b: string, v: string)
    requires Upper(a) == a && Upper(b) == b
    ensures UpperKeys([Entry(a, u), Entry(b, v)]) == [Entry(a, u), Entry(b, v)]
  {
  }

  /** Three slots whose keys are upper case already keep their keys. */
  lemma UpperKeysTriple(a: string, u: string, b: string, v: string, c: string, w: string)
    requires Upper(a) == a && Upper(b) == b && Upper(c) == c
    ensures UpperKeys([Entry(a, u), Entry(b, v), Entry(c, w)]) == [Entry(a, u), Entry(b, v), Entry(c, w)]
  {
  }

  /** `setAllDay (true)` passes its two flags through `addProperties` unchanged. */
  lemma AllDayKeysAreUpper()
    ensures UpperKeys(AllDayEntries) == AllDayEntries
  {
    NamedKeyIsUpper(FunambolAllDay);
    NamedKeyIsUpper(MicrosoftAllDay);
    UpperKeysPair(FunambolAllDay, "TRUE", MicrosoftAllDay, "TRUE");
  }

  /** `setTime` passes its three stamps through `addProperties` unchanged. */
  lemma StampKeysAreUpper(start: DateTime, end: DateTime)
    requires IsValid(start) && IsValid(end)
    ensures UpperKeys(StampEntries(start, end)) == StampEntries(start, end)
  {
    NamedKeyIsUpper("DTSTART");
    NamedKeyIsUpper("DTSTAMP");
    NamedKeyIsUpper("DTEND");
    UpperKeysTriple("DTSTART", Stamp(start), "DTSTAMP", Stamp(start), "DTEND", Stamp(end));
  }

  // ---------------------------------------------------------------------------
  // The array after each operation

  /** `iCalComponent::__construct ($t)`: `setType` writes `type`, then `sequence` becomes "0". */
  function BaseProps(t: string): Props {
    Put(Put(Empty, "type", t), "sequence", "0")
  }

  /** A new component holds exactly `type` and `sequence`, in that order. */
  lemma BaseSpec(t: string)
    ensures WellFormed(BaseProps(t)) && BaseProps(t).keys == ["type", "sequence"]
    ensures Get(BaseProps(t), "type") == Some(t) && Get(BaseProps(t), "sequence") == Some("0")
  {
    PutSpec(Empty, "type", t);
    PutSpec(Put(Empty, "type", t), "sequence", "0");
  }

  /**
   `setType ($t)`: the new array when `t` is one of the eight listed
   strings; `None` where PHP stops with `die`.
   */
  function TypeChange(p: Props, t: string): Option<Props> {
    if t in ComponentTypes then Some(Put(p, "type", t)) else None
  }

  /**
   `setType` succeeds exactly on the listed strings, and then `type` is the
   new type, every other key keeps its value and an existing `type` keeps
   its position.
   */
  lemma TypeChangeSpec(p: Props, t: string)
    requires WellFormed(p)
    ensures TypeChange(p, t).Some? <==> t in ComponentTypes
    ensures TypeChange(p, t).Some? ==> WellFormed(TypeChange(p, t).value) && Get(TypeChange(p, t).value, "type") == Some(t)
    ensures TypeChange(p, t).Some? ==> forall k :: k != "type" ==> Get(TypeChange(p, t).value, k) == Get(p, k)
    ensures TypeChange(p, t).Some? && "type" in p.keys ==> TypeChange(p, t).value.keys == p.keys
  {
    if t in ComponentTypes {
      PutSpec(p, "type", t);
    }
  }

  /**
   The constructors of `iCalEvent`, `iCalTodo` and `iCalJournal`:
   `array_merge (array_change_key_case ($caller, CASE_UPPER), $this->props)`
   where `$this->props` is what the base constructor left.
   */
  function VariantProps(t: string, caller: seq<Entry>): Props {
    Merge(ChangeKeyCaseUpper(caller), BaseProps(t))
  }

  /**
   The caller's keys, upper-cased, come first and keep their values; `type`
   and `sequence` follow with the subclass's type and "0", whatever the
   caller passed.
   */
  lemma VariantSpec(t: string, caller: seq<Entry>)
    ensures WellFormed(VariantProps(t, caller))
    ensures VariantProps(t, caller).keys == ChangeKeyCaseUpper(caller).keys + ["type", "sequence"]
    ensures Get(VariantProps(t, caller), "type") == Some(t) && Get(VariantProps(t, caller), "sequence") == Some("0")
    ensures forall k :: k != "type" && k != "sequence" ==> Get(VariantProps(t, caller), k) == LastAssigned(UpperKeys(caller), k)
  {
    var c := ChangeKeyCaseUpper(caller);
    ChangeKeyCaseSpec(caller);
    BookkeepingKeysAreNotUpper();
    UpperKeysNeverBookkeeping(caller, "type");
    UpperKeysNeverBookkeeping(caller, "sequence");
    assert Get(c, "type") == None && Get(c, "sequence") == None;
    MergePair(c, "type", t, "sequence", "0");
    PutSpec(c, "type", t);
    PutSpec(Put(c, "type", t), "sequence", "0");
    PutTwoNew(c, "type", t, "sequence", "0");
  }

  /** `iCal::__construct`: as for the other subclasses, then PRODID and VERSION merged last. */
  function CalendarProps(caller: seq<Entry>): Props {
    Merge(VariantProps("VCALENDAR", caller), Put(Put(Empty, "PRODID", ProdId), "VERSION", "2.0"))
  }

  /**
   A calendar holds the fixed PRODID and VERSION "2.0" whatever the caller
   gave; the caller's keys, then `type` and `sequence`, come first, and a
   caller's PRODID or VERSION keeps its position.
   */
  lemma CalendarSpec(caller: seq<Entry>)
    ensures WellFormed(CalendarProps(caller))
    ensures ChangeKeyCaseUpper(caller).keys + ["type", "sequence"] <= CalendarProps(caller).keys
    ensures Get(CalendarProps(caller), "PRODID") == Some(ProdId) && Get(CalendarProps(caller), "VERSION") == Some("2.0")
    ensures Get(CalendarProps(caller), "type") == Some("VCALENDAR") && Get(CalendarProps(caller), "sequence") == Some("0")
    ensures forall k :: k != "type" && k != "sequence" && k != "PRODID" && k != "VERSION"
                        ==> Get(CalendarProps(caller), k) == LastAssigned(UpperKeys(caller), k)
    ensures "PRODID" !in ChangeKeyCaseUpper(caller).keys && "VERSION" !in ChangeKeyCaseUpper(caller).keys ==>
              CalendarProps(caller).keys == ChangeKeyCaseUpper(caller).keys + ["type", "sequence"] + ["PRODID", "VERSION"]
  {
    var v := VariantProps("VCALENDAR", caller);
    VariantSpec("VCALENDAR", caller);
    MergePair(v, "PRODID", ProdId, "VERSION", "2.0");
    PutSpec(v, "PRODID", ProdId);
    PutSpec(Put(v, "PRODID", ProdId), "VERSION", "2.0");
    if "PRODID" !in ChangeKeyCaseUpper(caller).keys && "VERSION" !in ChangeKeyCaseUpper(caller).keys {
      PutTwoNew(v, "PRODID", ProdId, "VERSION", "2.0");
    }
  }

  /**
   With no caller array, `new iCal ()` holds `type`, `sequence`, PRODID and
   VERSION, in this order. The empty caller array is a parameter rather than
   the literal `[]`, so that the solver works from `CalendarSpec` instead of
   unfolding `CalendarProps` on a constant.
   */
  lemma NoCallerCalendarOrder(caller: seq<Entry>)
    requires caller == []
    ensures CalendarProps(caller).keys == ["type", "sequence", "PRODID", "VERSION"]
  {
    CalendarSpec(caller);
    assert UpperKeys(caller) == [];
    assert ChangeKeyCaseUpper(caller).keys == [];
    JoinTwoPairs(ChangeKeyCaseUpper(caller).keys, "type", "sequence", "PRODID", "VERSION");
  }

  /**
   `[] + [a, b] + [c, d] == [a, b, c, d]`, stated over arbitrary strings:
   asserted on the four key literals instead, the equation makes the solver
   compare the literals character by character.
   */
  lemma JoinTwoPairs(ks: seq<string>, a: string, b: string, c: string, d: string)
    requires ks == []
    ensures ks + [a, b] + [c, d] == [a, b, c, d]
  {
  }

  const AllDayEntries: seq<Entry> := [Entry(FunambolAllDay, "TRUE"), Entry(MicrosoftAllDay, "TRUE")]

  /** `setAllDay ($flag)`. */
  function AllDayProps(p: Props, flag: bool): Props {
    if flag then PutAll(p, AllDayEntries)
    else Remove(Remove(p, FunambolAllDay), MicrosoftAllDay)
  }

  /**
   True sets both vendor flags to "TRUE" (appended in that order when new);
   false unsets both, a no-op for an absent one; no other key is touched.
   */
  lemma AllDaySpec(p: Props, flag: bool)
    requires WellFormed(p)
    ensures WellFormed(AllDayProps(p, flag))
    ensures flag ==> Get(AllDayProps(p, flag), FunambolAllDay) == Some("TRUE") && Get(AllDayProps(p, flag), MicrosoftAllDay) == Some("TRUE")
    ensures flag ==> p.keys <= AllDayProps(p, flag).keys
    ensures flag && FunambolAllDay !in p.keys && MicrosoftAllDay !in p.keys ==>
              AllDayProps(p, flag).keys == p.keys + [FunambolAllDay, MicrosoftAllDay]
    ensures !flag ==> FunambolAllDay !in AllDayProps(p, flag).keys && MicrosoftAllDay !in AllDayProps(p, flag).keys
    ensures !flag && FunambolAllDay !in p.keys && MicrosoftAllDay !in p.keys ==> AllDayProps(p, flag) == p
    ensures forall k :: k != FunambolAllDay && k != MicrosoftAllDay ==> Get(AllDayProps(p, flag), k) == Get(p, k)
    ensures flag ==> AllDayProps(p, flag).keys == p.keys + NewKeys(p.keys, [FunambolAllDay, MicrosoftAllDay])
    ensures !flag ==> AllDayProps(p, flag).keys == Drop(Drop(p.keys, FunambolAllDay), MicrosoftAllDay)
  {
    if flag {
      PutAllKeys(p, AllDayEntries);
      assert KeysOf(AllDayEntries) == [FunambolAllDay, MicrosoftAllDay];
      PutAllPair(p, AllDayEntries[0], AllDayEntries[1]);
      PutSpec(p, FunambolAllDay, "TRUE");
      PutSpec(Put(p, FunambolAllDay, "TRUE"), MicrosoftAllDay, "TRUE");
      if FunambolAllDay !in p.keys && MicrosoftAllDay !in p.keys {
        PutTwoNew(p, FunambolAllDay, "TRUE", MicrosoftAllDay, "TRUE");
      }
    } else {
      RemoveSpec(p, FunambolAllDay);
      RemoveSpec(Remove(p, FunambolAllDay), MicrosoftAllDay);
      RemoveIsDrop(p, FunambolAllDay);
      RemoveIsDrop(Remove(p, FunambolAllDay), MicrosoftAllDay);
    }
  }

  /** `setTime ($start, $end)`: a null end is the start. */
  function EndOrStart(start: DateTime, end: Option<DateTime>): DateTime {
    match end
    case None => start
    case Some(e) => e
  }

  predicate IsTimeArg(start: DateTime, end: Option<DateTime>) {
    IsValid(start) && (end.Some? ==> IsValid(end.value))
  }

  /** The three properties `setTime` writes, in the order it writes them. */
  function StampEntries(start: DateTime, end: DateTime): seq<Entry>
    requires IsValid(start) && IsValid(end)
  {
    [Entry("DTSTART", Stamp(start)), Entry("DTSTAMP", Stamp(start)), Entry("DTEND", Stamp(end))]
  }

  /** The `addProperties` call of `setTime`. */
  function StampedProps(p: Props, start: DateTime, end: DateTime): Props
    requires IsValid(start) && IsValid(end)
  {
    PutAll(p, StampEntries(start, end))
  }

  /**
   DTSTART and DTSTAMP become the start's stamp, DTEND the end's, and
   every other key keeps its value; the three keys, when new, are appended
   in that order.
   */
  lemma StampedSpec(p: Props, start: DateTime, end: DateTime)
    requires WellFormed(p) && IsValid(start) && IsValid(end)
    ensures WellFormed(StampedProps(p, start, end))
    ensures Get(StampedProps(p, start, end), "DTSTART") == Some(Stamp(start))
    ensures Get(StampedProps(p, start, end), "DTSTAMP") == Some(Stamp(start))
    ensures Get(StampedProps(p, start, end), "DTEND") == Some(Stamp(end))
    ensures forall k :: k != "DTSTART" && k != "DTSTAMP" && k != "DTEND" ==> Get(StampedProps(p, start, end), k) == Get(p, k)
    ensures "DTSTART" !in p.keys && "DTSTAMP" !in p.keys && "DTEND" !in p.keys ==>
              StampedProps(p, start, end).keys == p.keys + ["DTSTART", "DTSTAMP", "DTEND"]
    ensures p.keys <= StampedProps(p, start, end).keys
  {
    var stamps := StampEntries(start, end);
    PutAllSpec(p, stamps);
    PutAllTriple(p, stamps[0], stamps[1], stamps[2]);
    var p1 := Put(p, "DTSTART", Stamp(start));
    var p2 := Put(p1, "DTSTAMP", Stamp(start));
    PutSpec(p, "DTSTART", Stamp(start));
    PutSpec(p1, "DTSTAMP", Stamp(start));
    PutSpec(p2, "DTEND", Stamp(end));
    if "DTSTART" !in p.keys && "DTSTAMP" !in p.keys && "DTEND" !in p.keys {
      PutThreeNew(p, "DTSTART", Stamp(start), "DTSTAMP", Stamp(start), "DTEND", Stamp(end));
    }
  }

  /**
   Whatever the array holds already, the stamps keep its keys in place and
   append those of DTSTART, DTSTAMP and DTEND it lacks, in that order.
   */
  lemma StampedKeys(p: Props, start: DateTime, end: DateTime)
    requires IsValid(start) && IsValid(end)
    ensures StampedProps(p, start, end).keys == p.keys + NewKeys(p.keys, ["DTSTART", "DTSTAMP", "DTEND"])
  {
    var stamps := StampEntries(start, end);
    PutAllKeys(p, stamps);
    assert KeysOf(stamps) == ["DTSTART", "DTSTAMP", "DTEND"];
  }

  /**
   `setTime ($start, $end)` once a null end has become the start: the
   stamps, then `setAllDay` with the all-day test.
   */
  function TimedProps(p: Props, start: DateTime, end: DateTime): Props
    requires IsValid(start) && IsValid(end)
  {
    AllDayProps(StampedProps(p, start, end), IsAllDay(start, end))
  }

  /** After `setTime`, DTSTART and DTSTAMP hold the start's stamp and DTEND the end's. */
  lemma TimedStamps(p: Props, start: DateTime, end: DateTime)
    requires WellFormed(p) && IsValid(start) && IsValid(end)
    ensures WellFormed(TimedProps(p, start, end))
    ensures Get(TimedProps(p, start, end), "DTSTART") == Some(Stamp(start))
    ensures Get(TimedProps(p, start, end), "DTSTAMP") == Some(Stamp(start))
    ensures Get(TimedProps(p, start, end), "DTEND") == Some(Stamp(end))
  {
    StampedSpec(p, start, end);
    AllDaySpec(StampedProps(p, start, end), IsAllDay(start, end));
  }

  /** After `setTime`, the two all-day flags are "TRUE" when `IsAllDay` holds and absent otherwise. */
  lemma TimedFlags(p: Props, start: DateTime, end: DateTime)
    requires WellFormed(p) && IsValid(start) && IsValid(end)
    ensures IsAllDay(start, end) ==> Get(TimedProps(p, start, end), FunambolAllDay) == Some("TRUE")
                                     && Get(TimedProps(p, start, end), MicrosoftAllDay) == Some("TRUE")
    ensures !IsAllDay(start, end) ==> FunambolAllDay !in TimedProps(p, start, end).keys
                                      && MicrosoftAllDay !in TimedProps(p, start, end).keys
  {
    StampedSpec(p, start, end);
    AllDaySpec(StampedProps(p, start, end), IsAllDay(start, end));
  }

  /** `setTime` changes no key other than the five it writes. */
  lemma TimedFrame(p: Props, start: DateTime, end: DateTime, k: string)
    requires WellFormed(p) && IsValid(start) && IsValid(end)
    requires k != "DTSTART" && k != "DTSTAMP" && k != "DTEND" && k != FunambolAllDay && k != MicrosoftAllDay
    ensures Get(TimedProps(p, start, end), k) == Get(p, k)
  {
    StampedSpec(p, start, end);
    AllDaySpec(StampedProps(p, start, end), IsAllDay(start, end));
  }

  /** None of the five keys `setTime` may write is present yet. */
  ghost predicate NoTimeKeys(p: Props) {
    && "DTSTART" !in p.keys && "DTSTAMP" !in p.keys && "DTEND" !in p.keys
    && FunambolAllDay !in p.keys && MicrosoftAllDay !in p.keys
  }

  /**
   On an array without those five keys, `setTime` appends DTSTART, DTSTAMP
   and DTEND in that order, then the two flags when they are set.
   */
  lemma TimedKeys(p: Props, start: DateTime, end: DateTime)
    requires WellFormed(p) && IsValid(start) && IsValid(end) && NoTimeKeys(p)
    ensures TimedProps(p, start, end).keys == p.keys + ["DTSTART", "DTSTAMP", "DTEND"]
                                              + (if IsAllDay(start, end) then [FunambolAllDay, MicrosoftAllDay] else [])
  {
    var q := StampedProps(p, start, end);
    StampedSpec(p, start, end);
    assert FunambolAllDay !in q.keys && MicrosoftAllDay !in q.keys by {
      assert FunambolAllDay !in ["DTSTART", "DTSTAMP", "DTEND"] && MicrosoftAllDay !in ["DTSTART", "DTSTAMP", "DTEND"];
    }
    AllDaySpec(q, IsAllDay(start, end));
  }

  /**
   The key order after `setTime` on any array: the stamp keys the array
   lacks are appended, then the two flags are appended when new and the
   test holds, or filtered out of the order when it fails.
   */
  lemma TimedOrder(p: Props, start: DateTime, end: DateTime)
    requires WellFormed(p) && IsValid(start) && IsValid(end)
    ensures var q := p.keys + NewKeys(p.keys, ["DTSTART", "DTSTAMP", "DTEND"]);
            TimedProps(p, start, end).keys ==
              if IsAllDay(start, end) then q + NewKeys(q, [FunambolAllDay, MicrosoftAllDay])
              else Drop(Drop(q, FunambolAllDay), MicrosoftAllDay)
  {
    StampedSpec(p, start, end);
    StampedKeys(p, start, end);
    AllDaySpec(StampedProps(p, start, end), IsAllDay(start, end));
  }

  /**
   On an array that already holds the three stamps, and holds the two
   flags exactly when the new times are all-day, `setTime` moves no key.
   */
  lemma TimeAgainKeepsOrder(p: Props, start: DateTime, end: DateTime)
    requires WellFormed(p) && IsValid(start) && IsValid(end)
    requires "DTSTART" in p.keys && "DTSTAMP" in p.keys && "DTEND" in p.keys
    requires IsAllDay(start, end) ==> FunambolAllDay in p.keys && MicrosoftAllDay in p.keys
    requires !IsAllDay(start, end) ==> FunambolAllDay !in p.keys && MicrosoftAllDay !in p.keys
    ensures TimedProps(p, start, end).keys == p.keys
  {
    TimedOrder(p, start, end);
    NewKeysPresent(p.keys, ["DTSTART", "DTSTAMP", "DTEND"]);
    assert p.keys + [] == p.keys;
    if IsAllDay(start, end) {
      NewKeysPresent(p.keys, [FunambolAllDay, MicrosoftAllDay]);
    } else {
      DropAbsent(p.keys, FunambolAllDay);
      DropAbsent(p.keys, MicrosoftAllDay);
    }
  }

  /**
   Setting the time of a component twice, with the same all-day outcome,
   leaves its keys where the first call put them.
   */
  lemma SetTimeTwice(p: Props, s1: DateTime, e1: DateTime, s2: DateTime, e2: DateTime)
    requires WellFormed(p) && IsValid(s1) && IsValid(e1) && IsValid(s2) && IsValid(e2)
    requires IsAllDay(s1, e1) == IsAllDay(s2, e2)
    ensures TimedProps(TimedProps(p, s1, e1), s2, e2).keys == TimedProps(p, s1, e1).keys
  {
    var q := TimedProps(p, s1, e1);
    TimedStamps(p, s1, e1);
    TimedFlags(p, s1, e1);
    TimeAgainKeepsOrder(q, s2, e2);
  }

  /**
   `setStatus ($what)`. An integer outside 0..7 reads an undefined slot of
   the list, null, which prints as "".
   */
  function StatusProps(p: Props, what: StatusArg): Props {
    match what
    case Index(i) => Put(p, "STATUS", if 0 <= i < |Statuses| then Statuses[i] else "")
    case Name(s) => if s in Statuses then Put(p, "STATUS", s) else p
  }

  /**
   A listed string becomes STATUS and any other string changes nothing; an
   integer picks the status at that index, or "" outside the list; no key
   other than STATUS changes.
   */
  lemma StatusSpec(p: Props, what: StatusArg)
    requires WellFormed(p)
    ensures WellFormed(StatusProps(p, what))
    ensures what.Name? && what.s in Statuses ==> Get(StatusProps(p, what), "STATUS") == Some(what.s)
    ensures what.Name? && what.s !in Statuses ==> StatusProps(p, what) == p
    ensures what.Index? && 0 <= what.i < |Statuses| ==> Get(StatusProps(p, what), "STATUS") == Some(Statuses[what.i])
    ensures what.Index? && !(0 <= what.i < |Statuses|) ==> Get(StatusProps(p, what), "STATUS") == Some("")
    ensures forall k :: k != "STATUS" ==> Get(StatusProps(p, what), k) == Get(p, k)
  {
    match what
    case Index(i) =>
      PutSpec(p, "STATUS", if 0 <= i < |Statuses| then Statuses[i] else "");
    case Name(s) =>
      if s in Statuses {
        PutSpec(p, "STATUS", s);
      }
  }

  /** A fresh `iCalEvent` after `setTitle` and `setDescription`. */
  function EventHeader(title: string, description: string): Props {
    Put(Put(BaseProps("VEVENT"), "SUMMARY", title), "DESCRIPTION", description)
  }

  /** With no caller array, a subclass constructor leaves what the base constructor wrote. */
  lemma NoCallerIsBase(t: string)
    ensures VariantProps(t, []) == BaseProps(t)
  {
    assert UpperKeys([]) == [];
    assert ChangeKeyCaseUpper([]) == Empty;
    MergePair(Empty, "type", t, "sequence", "0");
  }

  /**
   The array of the VEVENT that `iCal::addEvent` appends, written out:
   the bookkeeping keys, the title and description, the three stamps, and
   the two all-day flags last when `setTime` sets them.
   */
  function NewEventProps(title: string, description: string, start: DateTime, end: DateTime): Props
    requires IsValid(start) && IsValid(end)
  {
    var keys := ["type", "sequence"] + ["SUMMARY", "DESCRIPTION"] + ["DTSTART", "DTSTAMP", "DTEND"]
                + (if IsAllDay(start, end) then [FunambolAllDay, MicrosoftAllDay] else []);
    var values := map["type" := "VEVENT", "sequence" := "0", "SUMMARY" := title, "DESCRIPTION" := description,
                      "DTSTART" := Stamp(start), "DTSTAMP" := Stamp(start), "DTEND" := Stamp(end)];
    Props(keys, if IsAllDay(start, end) then values[FunambolAllDay := "TRUE"][MicrosoftAllDay := "TRUE"] else values)
  }

  /**
   What `addEvent` does to its new `iCalEvent` (`setTitle`, `setDescription`,
   then `setTime`) produces exactly that array.
   */
  lemma AddEventSetters(title: string, description: string, start: DateTime, end: DateTime)
    requires IsValid(start) && IsValid(end)
    ensures TimedProps(EventHeader(title, description), start, end) == NewEventProps(title, description, start, end)
  {
    var h := EventHeader(title, description);
    HeaderShape(title, description);
    HeaderHasNoTimeKeys(h);
    TimedKeys(h, start, end);
    StampedValues(h, start, end);
    StampsKeepFlagsAbsent(h, start, end);
    AllDayValues(StampedProps(h, start, end), IsAllDay(start, end));
  }

  /** None of the keys `setTime` writes is among those a new event starts with. */
  lemma HeaderHasNoTimeKeys(p: Props)
    requires p.keys == ["type", "sequence"] + ["SUMMARY", "DESCRIPTION"]
    ensures NoTimeKeys(p)
  {
  }

  /** The header of a new event is well formed and holds four keys. */
  lemma HeaderShape(title: string, description: string)
    ensures WellFormed(EventHeader(title, description))
    ensures EventHeader(title, description).keys == ["type", "sequence"] + ["SUMMARY", "DESCRIPTION"]
  {
    var base := BaseProps("VEVENT");
    BaseSpec("VEVENT");
    PutSpec(base, "SUMMARY", title);
    PutSpec(Put(base, "SUMMARY", title), "DESCRIPTION", description);
    PutTwoNew(base, "SUMMARY", title, "DESCRIPTION", description);
  }

  /** The values `setTime`'s `addProperties` call leaves: three assignments. */
  lemma StampedValues(p: Props, start: DateTime, end: DateTime)
    requires IsValid(start) && IsValid(end)
    ensures StampedProps(p, start, end).values == p.values["DTSTART" := Stamp(start)]["DTSTAMP" := Stamp(start)]["DTEND" := Stamp(end)]
  {
    var stamps := StampEntries(start, end);
    PutAllTriple(p, stamps[0], stamps[1], stamps[2]);
  }

  /** Writing the stamps adds no all-day flag. */
  lemma StampsKeepFlagsAbsent(p: Props, start: DateTime, end: DateTime)
    requires WellFormed(p) && IsValid(start) && IsValid(end)
    requires FunambolAllDay !in p.keys && MicrosoftAllDay !in p.keys
    ensures FunambolAllDay !in StampedProps(p, start, end).keys && MicrosoftAllDay !in StampedProps(p, start, end).keys
  {
    StampedSpec(p, start, end);
    var q := StampedProps(p, start, end);
    assert Get(q, FunambolAllDay) == Get(p, FunambolAllDay);
    assert Get(q, MicrosoftAllDay) == Get(p, MicrosoftAllDay);
  }

  /** The values `setAllDay` leaves, when a false flag has nothing to unset. */
  lemma AllDayValues(p: Props, flag: bool)
    requires !flag ==> FunambolAllDay !in p.keys && MicrosoftAllDay !in p.keys
    ensures AllDayProps(p, flag).values == if flag then p.values[FunambolAllDay := "TRUE"][MicrosoftAllDay := "TRUE"] else p.values
  {
    if flag {
      PutAllPair(p, AllDayEntries[0], AllDayEntries[1]);
    }
  }

  // ---------------------------------------------------------------------------
  // The component objects

  class Component {
    /** Which PHP class constructed this component. */
    const kind: Kind
    /** `$this->props` without its `children` entry. */
    var props: Props
    /** `$this->props['children']`, in the order they were added. */
    var children: seq<Component>
    /** This component and every component below it. */
    ghost var Repr: set<object>

    /** A component tree: no component is its own descendant. */
    ghost predicate Valid()
      reads this, Repr
      decreases Repr
    {
      && this in Repr
      && WellFormed(props)
      && TypeOf(props) in ComponentTypes
      && forall c :: c in children ==> c in Repr && c.Repr <= Repr && this !in c.Repr && c.Valid()
    }

    /** The state of the subtree rooted here, as a value. */
    ghost function Tree(): Node
      reads this, Repr
      requires Valid()
      decreases Repr, 1
    {
      Node(props, Trees(children))
    }

    ghost function Trees(cs: seq<Component>): (ts: seq<Node>)
      reads this, Repr
      requires Valid() && forall c :: c in cs ==> c in children
      ensures |ts| == |cs| && forall i :: 0 <= i < |cs| ==> ts[i] == cs[i].Tree()
      decreases Repr, 0, |cs|
    {
      if cs == [] then [] else [cs[0].Tree()] + Trees(cs[1..])
    }

    /** `new iCalComponent ($t)`; PHP dies on a type outside the list. */
    constructor (t: string := "VCALENDAR")
      requires t in ComponentTypes
      ensures Valid() && Repr == {this}
      ensures kind == ComponentClass && props == BaseProps(t) && children == []
    {
      BaseSpec(t);
      kind := ComponentClass;
      props := BaseProps(t);
      children := [];
      Repr := {this};
    }

    /** `new iCal ($caller)`; a null argument is the empty array. */
    constructor Calendar(caller: seq<Entry> := [])
      ensures Valid() && Repr == {this}
      ensures kind == CalendarClass && props == CalendarProps(caller) && children == []
    {
      CalendarSpec(caller);
      kind := CalendarClass;
      props := CalendarProps(caller);
      children := [];
      Repr := {this};
    }

    /** `new iCalEvent ($caller)`. */
    constructor Event(caller: seq<Entry> := [])
      ensures Valid() && Repr == {this}
      ensures kind == EventClass && props == VariantProps("VEVENT", caller) && children == []
    {
      VariantSpec("VEVENT", caller);
      kind := EventClass;
      props := VariantProps("VEVENT", caller);
      children := [];
      Repr := {this};
    }

    /** `new iCalTodo ($caller)`. */
    constructor Todo(caller: seq<Entry> := [])
      ensures Valid() && Repr == {this}
      ensures kind == TodoClass && props == VariantProps("VTODO", caller) && children == []
    {
      VariantSpec("VTODO", caller);
      kind := TodoClass;
      props := VariantProps("VTODO", caller);
      children := [];
      Repr := {this};
    }

    /** `new iCalJournal ($caller)`. */
    constructor Journal(caller: seq<Entry> := [])
      ensures Valid() && Repr == {this}
      ensures kind == JournalClass && props == VariantProps("VJOURNAL", caller) && children == []
    {
      VariantSpec("VJOURNAL", caller);
      kind := JournalClass;
      props := VariantProps("VJOURNAL", caller);
      children := [];
      Repr := {this};
    }

    /** `setType`: `ok` is false where PHP dies, and then nothing has changed. */
    method SetType(t: string) returns (ok: bool)
      requires Valid()
      modifies this
      ensures Valid() && Repr == old(Repr) && children == old(children)
      ensures ok <==> t in ComponentTypes
      ensures TypeChange(old(props), t) == (if ok then Some(props) else None)
      ensures !ok ==> props == old(props)
    {
      if t in ComponentTypes {
        PutSpec(props, "type", t);
        props := Put(props, "type", t);
        ok := true;
      } else {
        ok := false;
      }
    }

    method AddProperty(name: string, value: string)
      requires Valid()
      modifies this
      ensures Valid() && Repr == old(Repr) && children == old(children)
      ensures props == Put(old(props), Upper(name), value)
    {
      UpperIsNotBookkeeping(name);
      PutSpec(props, Upper(name), value);
      props := Put(props, Upper(name), value);
    }

    method AddProperties(ps: seq<Entry>)
      requires Valid()
      modifies this
      ensures Valid() && Repr == old(Repr) && children == old(children)
      ensures props == PutAll(old(props), UpperKeys(ps))
    {
      if |ps| > 0 {
        for i := 0 to |ps|
          invariant Valid() && Repr == old(Repr) && children == old(children)
          invariant props == PutAll(old(props), UpperKeys(ps[..i]))
        {
          AddProperty(ps[i].key, ps[i].value);
          ghost var u := UpperKeys(ps[..i + 1]);
          assert u[..i] == UpperKeys(ps[..i]);
        }
        assert ps[..|ps|] == ps;
      }
    }

    method SetAllDay(isAllDay: bool)
      requires Valid()
      modifies this
      ensures Valid() && Repr == old(Repr) && children == old(children)
      ensures props == AllDayProps(old(props), isAllDay)
    {
      if isAllDay {
        AllDayKeysAreUpper();
        AddProperties(AllDayEntries);
      } else {
        AllDaySpec(props, false);
        props := Remove(Remove(props, FunambolAllDay), MicrosoftAllDay);
      }
    }

    method SetDescription(what: string)
      requires Valid()
      modifies this
      ensures Valid() && Repr == old(Repr) && children == old(children)
      ensures props == Put(old(props), "DESCRIPTION", what)
    {
      NamedKeyIsUpper("DESCRIPTION");
      AddProperty("DESCRIPTION", what);
    }

    method SetTime(start: DateTime, end: Option<DateTime>)
      requires Valid() && IsTimeArg(start, end)
      modifies this
      ensures Valid() && Repr == old(Repr) && children == old(children)
      ensures props == TimedProps(old(props), start, EndOrStart(start, end))
    {
      var e := EndOrStart(start, end);
      StampKeysAreUpper(start, e);
      AddProperties(StampEntries(start, e));
      var ss := SplitTime(start);
      var se := SplitTime(e);
      AllDayPartsIsAllDay(start, e);
      SetAllDay(AllDayParts(ss, se));
    }

    method SetTitle(what: string)
      requires Valid()
      modifies this
      ensures Valid() && Repr == old(Repr) && children == old(children)
      ensures props == Put(old(props), "SUMMARY", what)
    {
      NamedKeyIsUpper("SUMMARY");
      AddProperty("SUMMARY", what);
    }

    method SetOwner(whom: string)
      requires Valid()
      modifies this
      ensures Valid() && Repr == old(Repr) && children == old(children)
      ensures props == Put(old(props), "ORGANIZER", whom)
    {
      NamedKeyIsUpper("ORGANIZER");
      AddProperty("ORGANIZER", whom);
    }

    method SetStatus(what: StatusArg)
      requires Valid()
      modifies this
      ensures Valid() && Repr == old(Repr) && children == old(children)
      ensures props == StatusProps(old(props), what)
    {
      NamedKeyIsUpper("STATUS");
      match what {
        case Index(i) =>
          AddProperty("STATUS", if 0 <= i < |Statuses| then Statuses[i] else "");
        case Name(s) =>
          if s in Statuses {
            AddProperty("STATUS", s);
          }
      }
    }

    /** `addChild`: the child goes last; the child must not contain this component. */
    method AddChild(c: Component)
      requires Valid() && c.Valid() && this !in c.Repr
      modifies this
      ensures Valid() && Repr == old(Repr) + c.Repr
      ensures props == old(props) && children == old(children) + [c]
      ensures Tree() == Node(props, old(Tree()).children + [c.Tree()])
    {
      children := children + [c];
      Repr := Repr + c.Repr;
      assert forall i :: 0 <= i < |children| - 1 ==> children[i] in old(children);
    }

    method AddChildren(cs: seq<Component>)
      requires Valid() && forall c :: c in cs ==> c.Valid() && this !in c.Repr
      modifies this
      ensures Valid() && old(Repr) <= Repr
      ensures props == old(props) && children == old(children) + cs
    {
      if |cs| > 0 {
        for i := 0 to |cs|
          invariant Valid() && old(Repr) <= Repr
          invariant props == old(props) && children == old(children) + cs[..i]
        {
          AddChild(cs[i]);
          assert cs[..i + 1] == cs[..i] + [cs[i]];
        }
        assert cs[..|cs|] == cs;
      }
    }

    /** `toString`. */
    method ToString() returns (s: string)
      requires Valid()
      ensures s == Render(Tree())
      decreases Repr, 1
    {
      var t := TypeOf(props);
      s := AppendProperties("BEGIN:" + t);
      s := AppendChildren(s);
      s := s + "\r\nEND:" + t;
    }

    /** The property loop of `toString`: a line for each upper-case key, in array order. */
    method AppendProperties(s0: string) returns (s: string)
      requires WellFormed(props)
      ensures s == s0 + PropLines(props, props.keys)
    {
      s := s0;
      for i := 0 to |props.keys|
        invariant s == s0 + PropLines(props, props.keys[..i])
      {
        var k := props.keys[i];
        PropLinesStep(s0, props, props.keys, i);
        if IsUpper(k) {
          var line := k + ":" + props.values[k];
          s := s + ("\r\n" + line);
        }
      }
      assert props.keys[..|props.keys|] == props.keys;
    }

    /** The child loop of `toString`: each child's text after a CRLF, in order. */
    method AppendChildren(s0: string) returns (s: string)
      requires Valid()
      ensures s == s0 + ChildBlocks(Trees(children))
      decreases Repr, 0
    {
      s := s0;
      ghost var trees := Trees(children);
      for j := 0 to |children|
        invariant s == s0 + ChildBlocks(trees[..j])
      {
        var b := children[j].ToString();
        ChildBlocksStep(s0, trees, j);
        s := s + "\r\n" + b;
      }
      assert trees[..|children|] == trees;
    }

    /** The VEVENT `iCal::addEvent` builds: a new `iCalEvent`, then its title, description and times. */
    static method NewEvent(title: string, description: string, start: DateTime, end: Option<DateTime>) returns (b: Component)
      requires IsTimeArg(start, end)
      ensures fresh(b) && b.Valid() && b.Repr == {b}
      ensures b.kind == EventClass && b.children == []
      ensures b.props == NewEventProps(title, description, start, EndOrStart(start, end))
    {
      b := new Component.Event();
      NoCallerIsBase("VEVENT");
      b.SetTitle(title);
      b.SetDescription(description);
      b.SetTime(start, end);
      AddEventSetters(title, description, start, EndOrStart(start, end));
    }

    /** `iCal::addEvent`: appends one new VEVENT child. */
    method AddEvent(title: string, description: string, start: DateTime, end: Option<DateTime>)
      requires Valid() && kind == CalendarClass && IsTimeArg(start, end)
      modifies this
      ensures Valid() && props == old(props)
      ensures |children| == |old(children)| + 1 && children[..|old(children)|] == old(children)
      ensures var b := children[|children| - 1];
              fresh(b) && b.kind == EventClass && b.children == []
              && b.props == NewEventProps(title, description, start, EndOrStart(start, end))
    {
      var b := NewEvent(title, description, start, end);
      ghost var bp := b.props;
      AddChild(b);
      assert b.props == bp && children[|children| - 1] == b;
    }
  }
}
