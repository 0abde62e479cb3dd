/**
 * The flight booker of old_public/blog/2022/09/05/section2.js: a store of the
 * flight type and two `Date` objects behind the re-render-on-change Proxy; the
 * render that enables and disables the return input and the book button; and
 * the booking message.
 *
 * A `Date` is an object holding a time, so the store compares dates by
 * identity and `>` by time. `toISOString` is the parameter `iso` of the booker.
 */
module FlightWidget {
  import opened Strings

  /** `Type` (section2.js:8-11). */
  const OneWay: int := 0
  const Return: int := 1

  /** A JavaScript `Date`: an object whose value is a time. */
  class Date {
    const time: int

    constructor (time: int)
      ensures this.time == time
    {
      this.time := time;
    }
  }

  /** `dateToInputString` (section2.js:30-32): the ISO text up to its `T`. */
  function DateToInputString(iso: string): string
  {
    Before(iso, 'T')
  }

  /** Of an ISO timestamp `day` + `T` + `clock`, the input shows the day. */
  lemma InputStringIsDay(day: string, clock: string)
    requires 'T' !in day
    ensures DateToInputString(day + "T" + clock) == day
  {
    BeforeConcat(day, 'T', clock);
  }

  /** Whatever the text, the input string is a prefix of it without a `T`. */
  lemma InputStringIsPrefix(iso: string)
    ensures DateToInputString(iso) <= iso && 'T' !in DateToInputString(iso)
  {
    BeforeSpec(iso, 'T');
  }

  /** `inputReturn.disabled` (section2.js:38). */
  predicate ReturnDisabled(kind: int)
  {
    kind == OneWay
  }

  /** `buttonBook.disabled` (section2.js:39). */
  predicate BookDisabled(kind: int, start: int, ret: int)
  {
    kind == Return && start > ret
  }

  /**
   * A one-way flight can always be booked, and so can a return flight that
   * comes back on the day it leaves or later; only a return flight coming
   * back before it leaves cannot.
   */
  lemma Bookable(kind: int, start: int, ret: int)
    ensures kind == OneWay ==> !BookDisabled(kind, start, ret)
    ensures start == ret ==> !BookDisabled(kind, start, ret)
    ensures kind == Return ==> (BookDisabled(kind, start, ret) <==> ret < start)
    ensures ReturnDisabled(kind) ==> !BookDisabled(kind, start, ret)
  {
  }

  /** The alert of the book button (section2.js:53-57), given the input strings of the two dates. */
  function BookingMessage(kind: int, start: string, ret: string): string
  {
    var typeString := if kind == OneWay then "one-way" else "round trip";
    var onString := if kind == OneWay then start else start + ", returning " + ret;
    "You have booked a " + typeString + " flight on " + onString
  }

  /** A one-way message ends with the start date after a fixed text: the return date plays no part. */
  lemma OneWayMessage(start: string, ret: string, other: string)
    ensures BookingMessage(OneWay, start, ret) == BookingMessage(OneWay, start, other)
    ensures var m := BookingMessage(OneWay, start, ret);
      |m| == 36 + |start| && m[36..] == start && m[..36] == "You have booked a one-way flight on "
  {
  }

  /** A round-trip message names the start date, then `, returning ` and the return date at its end. */
  lemma RoundTripMessage(kind: int, start: string, ret: string)
    requires kind != OneWay
    ensures var m := BookingMessage(kind, start, ret);
      |m| == 51 + |start| + |ret| && m[..39] == "You have booked a round trip flight on " &&
      m[39..39 + |start|] == start && m[39 + |start|..51 + |start|] == ", returning " &&
      m[51 + |start|..] == ret
  {
  }

  /** The message tells the two kinds of flight apart, whatever the dates. */
  lemma MessageNamesKind(start: string, ret: string, start': string, ret': string)
    ensures BookingMessage(OneWay, start, ret) != BookingMessage(Return, start', ret')
  {
    assert BookingMessage(OneWay, start, ret)[18] == 'o';
    assert BookingMessage(Return, start', ret')[18] == 'r';
  }

  class Booker {
    var kind: int
    var start: Date
    var ret: Date
    /** `Date.prototype.toISOString`. */
    const iso: int -> string
    /** `selectType.value`, the two date inputs, and the two `disabled` flags. */
    ghost var shownType: int
    ghost var shownStart: string
    ghost var shownReturn: string
    ghost var returnDisabled: bool
    ghost var bookDisabled: bool
    ghost var renders: nat

    /** The page shows the store, with the controls enabled as `render` decides. */
    ghost predicate Valid()
      reads this
    {
      shownType == kind &&
      shownStart == DateToInputString(iso(start.time)) && shownReturn == DateToInputString(iso(ret.time)) &&
      returnDisabled == ReturnDisabled(kind) && bookDisabled == BookDisabled(kind, start.time, ret.time)
    }

    /**
     * The initial store, a one-way flight with both dates at the time read
     * (`new Date()` twice), and the first render (section2.js:13-17, 60): the
     * return input is disabled and the book button enabled.
     */
    constructor (startNow: int, returnNow: int, iso: int -> string)
      ensures Valid() && kind == OneWay && start.time == startNow && ret.time == returnNow
      ensures returnDisabled && !bookDisabled && renders == 1
      ensures this.iso == iso
    {
      kind := OneWay;
      start := new Date(startNow);
      ret := new Date(returnNow);
      this.iso := iso;
      shownType, shownStart, shownReturn := 0, "", "";
      returnDisabled, bookDisabled := false, false;
      renders := 0;
      new;
      Render();
    }

    /** `render` (section2.js:34-40). */
    method Render()
      modifies this
      ensures Valid() && renders == old(renders) + 1
      ensures kind == old(kind) && start == old(start) && ret == old(ret)
    {
      shownType := kind;
      shownStart := DateToInputString(iso(start.time));
      shownReturn := DateToInputString(iso(ret.time));
      returnDisabled := kind == OneWay;
      bookDisabled := kind == Return && start.time > ret.time;
      renders := renders + 1;
    }

    /** The `set` trap for `type` (section2.js:19-26): an equal number changes nothing and renders nothing. */
    method SetType(value: int)
      requires Valid()
      modifies this
      ensures Valid() && kind == value && start == old(start) && ret == old(ret)
      ensures renders == old(renders) + (if old(kind) == value then 0 else 1)
    {
      if kind != value {
        kind := value;
        Render();
      }
    }

    /**
     * The `set` trap for `start`. It compares objects, so a new `Date` always
     * counts as a change, even for the same time.
     */
    method SetStart(value: Date)
      requires Valid()
      modifies this
      ensures Valid() && start == value && kind == old(kind) && ret == old(ret)
      ensures renders == old(renders) + (if old(start) == value then 0 else 1)
    {
      if start != value {
        start := value;
        Render();
      }
    }

    /** The `set` trap for `return`. */
    method SetReturn(value: Date)
      requires Valid()
      modifies this
      ensures Valid() && ret == value && kind == old(kind) && start == old(start)
      ensures renders == old(renders) + (if old(ret) == value then 0 else 1)
    {
      if ret != value {
        ret := value;
        Render();
      }
    }

    /** Choosing a flight type (section2.js:42-44). */
    method ChangeType(value: int)
      requires Valid()
      modifies this
      ensures Valid() && kind == value && start == old(start) && ret == old(ret)
      ensures returnDisabled <==> value == OneWay
      ensures renders == old(renders) + (if old(kind) == value then 0 else 1)
    {
      SetType(value);
    }

    /** Entering a start date (section2.js:46-48): always a fresh `Date`, so always a render. */
    method ChangeStart(time: int)
      requires Valid()
      modifies this
      ensures Valid() && start.time == time && kind == old(kind) && ret == old(ret)
      ensures renders == old(renders) + 1
    {
      var d := new Date(time);
      SetStart(d);
    }

    /** Entering a return date (section2.js:50-52). */
    method ChangeReturn(time: int)
      requires Valid()
      modifies this
      ensures Valid() && ret.time == time && kind == old(kind) && start == old(start)
      ensures renders == old(renders) + 1
    {
      var d := new Date(time);
      SetReturn(d);
    }

    /** Clicking the book button (section2.js:53-57): the message for the current store. */
    method Book() returns (message: string)
      ensures message ==
        BookingMessage(kind, DateToInputString(iso(start.time)), DateToInputString(iso(ret.time)))
    {
      message := BookingMessage(kind, DateToInputString(iso(start.time)), DateToInputString(iso(ret.time)));
    }
  }
}
