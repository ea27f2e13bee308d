/** The slot booking grid (components/booking/SlotGrid.tsx): it lists the
    slots of one space on one date, lets the user book an AVAILABLE slot,
    derives the request's start and end time from the slot's time string,
    and reacts to the outcome by invalidating the cached slot lists or by
    reporting the failure. */
module SlotGrid {
  import opened Js
  import opened QueryCache

  datatype SlotStatus = Available | Booked | Locked

  /** One slot as the backend lists it, e.g. `{time: "14:00:00", status: AVAILABLE}`. */
  datatype Slot = Slot(time: string, status: SlotStatus)

  // The grid is hard-wired to one space and one date.
  const SpaceId: int := 1
  const Date: string := "2026-02-02"
  const BookingPath: string := "/api/bookings"
  const SlotsKey: QueryKey := [Str("slots"), Num(SpaceId), Str(Date)]
  const SlotsFilter: QueryKey := [Str("slots")]

  const SuccessAlert: string := "성공! 자리를 찜했습니다. (5분간 유지)"
  const FailurePrefix: string := "실패: "
  const DefaultFailure: string := "이미 누군가 챘습니다!"

  /** Body of `POST /api/bookings`, together with the path it is posted to. */
  datatype BookingRequest = BookingRequest(path: string, spaceId: int, date: string, startTime: string, endTime: string)

  /** The start time sent, and the label shown: the first five characters
      of the slot's time, `"14:00:00"` becoming `"14:00"`. */
  function StartTime(time: string): (r: string)
    ensures r <= time
    ensures |r| == if |time| < 5 then |time| else 5
  {
    SubstringTo(time, 5)
  }

  /** The hour field of the start time: what precedes its first `:`. */
  function StartHour(time: string): (r: string)
    ensures r <= StartTime(time) && ':' !in r
  {
    SplitHead(StartTime(time), ':')
  }

  /** The times the grid can book: `parseInt` of the hour field yields a
      number (the model does not cover `NaN`). */
  predicate WellFormedTime(time: string) {
    StartHour(time) != [] && IsDigits(StartHour(time))
  }

  /** The end time sent: the parsed start hour plus one, followed by `:00`. */
  function EndTime(time: string): (r: string)
    requires WellFormedTime(time)
    ensures |r| >= 4 && r[|r| - 3..] == ":00"
    ensures IsDigits(r[..|r| - 3]) && r[0] != '0'
  {
    NumberToString(ParseDecimal(StartHour(time)) + 1) + ":00"
  }

  /** The end time's hour field parses to the start hour plus one (no wrap
      at midnight), carries no leading zero, and its minutes are always
      `00` whatever the start minutes were. */
  lemma EndTimeIsNextHour(time: string)
    requires WellFormedTime(time)
    ensures var h := SplitHead(EndTime(time), ':');
      && EndTime(time) == h + ":00"
      && h != [] && IsDigits(h) && h[0] != '0'
      && ParseDecimal(h) == ParseDecimal(StartHour(time)) + 1
  {
    var h := NumberToString(ParseDecimal(StartHour(time)) + 1);
    assert EndTime(time) == h + [':'] + "00";
    SplitHeadOfJoin(h, ':', "00");
    ParseNumberToString(ParseDecimal(StartHour(time)) + 1);
  }

  /** The request the grid sends for a slot time. */
  function BookingRequestFor(time: string): (r: BookingRequest)
    requires WellFormedTime(time)
    ensures r.path == BookingPath && r.spaceId == 1 && r.date == "2026-02-02"
    ensures r.startTime == StartTime(time) && r.endTime == EndTime(time)
    ensures r.startTime <= time && |r.startTime| == if |time| < 5 then |time| else 5
    ensures SplitHead(r.startTime, ':') == StartHour(time)
    ensures var sh, eh := SplitHead(r.startTime, ':'), SplitHead(r.endTime, ':');
      && sh != [] && IsDigits(sh) && eh != [] && IsDigits(eh) && eh[0] != '0'
      && r.endTime == eh + ":00"
      && ParseDecimal(eh) == ParseDecimal(sh) + 1
  {
    EndTimeIsNextHour(time);
    BookingRequest(BookingPath, SpaceId, Date, StartTime(time), EndTime(time))
  }

  /** The hour field of a start time written `h:rest`. */
  lemma StartHourOf(time: string, h: string, rest: string)
    requires StartTime(time) == h + [':'] + rest && ':' !in h
    ensures StartHour(time) == h
  {
    SplitHeadOfJoin(h, ':', rest);
  }

  /** Seconds are dropped from the start time and the end hour follows. */
  lemma FourteenHundred()
    ensures StartTime("14:00:00") == "14:00"
    ensures WellFormedTime("14:00:00") && EndTime("14:00:00") == "15:00"
  {
    assert StartTime("14:00:00") == "14" + [':'] + "00";
    StartHourOf("14:00:00", "14", "00");
    assert ParseDecimal("14") == 14;
    assert NumberToString(15) == "15";
  }

  /** The end hour is not zero-padded: `"08:00"` ends at `"9:00"`. */
  lemma EndHourNotPadded()
    ensures WellFormedTime("08:00") && EndTime("08:00") == "9:00"
  {
    assert StartTime("08:00") == "08" + [':'] + "00";
    StartHourOf("08:00", "08", "00");
    assert ParseDecimal("08") == 8;
    assert NumberToString(9) == "9";
  }

  /** The end hour does not wrap at midnight: `"23:00"` ends at `"24:00"`. */
  lemma EndHourNotWrapped()
    ensures WellFormedTime("23:00") && EndTime("23:00") == "24:00"
  {
    assert StartTime("23:00") == "23" + [':'] + "00";
    StartHourOf("23:00", "23", "00");
    assert ParseDecimal("23") == 23;
    assert NumberToString(24) == "24";
  }

  /** The end minutes are `00` whatever the start minutes: `"09:30:00"`
      ends at `"10:00"`. */
  lemma EndMinutesAlwaysZero()
    ensures WellFormedTime("09:30:00") && EndTime("09:30:00") == "10:00"
  {
    assert StartTime("09:30:00") == "09" + [':'] + "30";
    StartHourOf("09:30:00", "09", "30");
    assert ParseDecimal("09") == 9;
    assert NumberToString(10) == "10";
  }

  /** The booking of slot `"14:00:00"` posts space 1, date
      `"2026-02-02"`, `"14:00"` to `"15:00"`. */
  lemma BookingExample()
    ensures WellFormedTime("14:00:00")
    ensures BookingRequestFor("14:00:00") == BookingRequest("/api/bookings", 1, "2026-02-02", "14:00", "15:00")
  {
    FourteenHundred();
  }

  /** A slot's control is enabled: BOOKED and LOCKED slots never are, and
      an AVAILABLE slot is exactly while no booking request is pending. */
  predicate Selectable(slot: Slot, pending: bool): (r: bool)
    ensures slot.status == Booked || slot.status == Locked ==> !r
    ensures pending ==> !r
    ensures slot.status == Available && !pending ==> r
  {
    slot.status == Available && !pending
  }

  /** The alert shown when the booking request fails: the backend's
      `message` when it is non-empty, else the fixed "already taken" text. */
  function FailureAlert(backendMessage: Option<string>): (r: string)
    ensures TruthyString(backendMessage) ==> r == FailurePrefix + backendMessage.value
    ensures !TruthyString(backendMessage) ==> r == FailurePrefix + DefaultFailure
    ensures r != SuccessAlert
  {
    var r := FailurePrefix + if TruthyString(backendMessage) then backendMessage.value else DefaultFailure;
    assert r[0] != SuccessAlert[0];
    r
  }

  /** A rendered slot button. */
  datatype SlotButton = SlotButton(text: string, enabled: bool)

  datatype GridView = Loading | Grid(buttons: seq<SlotButton>)

  /** The grid as rendered: a loading placeholder while the slot list
      loads, else one button per slot (none when there is no data). */
  function Render(isLoading: bool, slots: Option<seq<Slot>>, pending: bool): (v: GridView)
    ensures v.Loading? <==> isLoading
    ensures v.Grid? && slots.None? ==> v.buttons == []
    ensures v.Grid? && slots.Some? ==> |v.buttons| == |slots.value|
    ensures v.Grid? && slots.Some? ==> forall i :: 0 <= i < |v.buttons| ==>
      && v.buttons[i].text == StartTime(slots.value[i].time)
      && (v.buttons[i].enabled <==> slots.value[i].status == Available && !pending)
  {
    if isLoading then Loading
    else match slots
      case None => Grid([])
      case Some(s) => Grid(seq(|s|, i requires 0 <= i < |s| => SlotButton(StartTime(s[i].time), Selectable(s[i], pending))))
  }

  /** A successful booking marks every cached slot list stale, whatever its
      space and date, and no other query. */
  lemma SuccessInvalidatesEverySlotList(stale: map<QueryKey, bool>, k: QueryKey)
    requires k in stale
    ensures |k| >= 1 && k[0] == Str("slots") ==> Invalidated(stale, SlotsFilter)[k]
    ensures (|k| == 0 || k[0] != Str("slots")) ==> Invalidated(stale, SlotsFilter)[k] == stale[k]
  {
  }

  /** The grid's own list and the lists of other spaces and dates alike. */
  lemma SuccessInvalidatesOtherDates(stale: map<QueryKey, bool>)
    requires SlotsKey in stale
    requires [Str("slots"), Num(2), Str("2026-02-03")] in stale
    ensures Invalidated(stale, SlotsFilter)[SlotsKey]
    ensures Invalidated(stale, SlotsFilter)[[Str("slots"), Num(2), Str("2026-02-03")]]
  {
  }

  /** The mounted grid: the fetched slot list, the booking mutation's
      pending flag, and the shared query client, which holds the grid's own
      entry under `SlotsKey` while the grid is rendered. */
  class SlotGridView {
    var slots: seq<Slot>
    var pending: bool
    const client: QueryClient

    /** Every listed slot has a time the grid can book, and the grid's own
        query is cached. */
    ghost predicate Valid()
      reads this, client
    {
      && (forall i :: 0 <= i < |slots| ==> WellFormedTime(slots[i].time))
      && SlotsKey in client.stale
    }

    constructor (client: QueryClient, slots: seq<Slot>)
      requires forall i :: 0 <= i < |slots| ==> WellFormedTime(slots[i].time)
      requires SlotsKey in client.stale
      ensures Valid()
      ensures this.client == client && this.slots == slots && !pending
    {
      this.client := client;
      this.slots := slots;
      pending := false;
    }

    /** The slot query delivered a (re)fetched list: the grid shows it and
        the grid's own entry is fresh again. */
    method Loaded(fetched: seq<Slot>)
      requires Valid()
      requires forall i :: 0 <= i < |fetched| ==> WellFormedTime(fetched[i].time)
      modifies this, client
      ensures Valid()
      ensures slots == fetched && pending == old(pending)
      ensures client.stale == old(client.stale)[SlotsKey := false]
      ensures !client.stale[SlotsKey]
    {
      slots := fetched;
      client.stale := client.stale[SlotsKey := false];
    }

    /** A click on the button of slot `i`: a disabled button does nothing;
        an enabled one starts the booking mutation, which posts the request
        and is pending until it settles. */
    method Click(i: nat) returns (request: Option<BookingRequest>)
      requires Valid() && i < |slots|
      modifies this
      ensures Valid() && slots == old(slots)
      ensures request.Some? <==> Selectable(slots[i], old(pending))
      ensures request.Some? ==> request.value == BookingRequestFor(slots[i].time)
      ensures pending == (old(pending) || request.Some?)
    {
      if Selectable(slots[i], pending) {
        request := Some(BookingRequestFor(slots[i].time));
        pending := true;
      } else {
        request := None;
      }
    }

    /** The booking request succeeded: the success alert, and every cached
        `"slots"` query becomes stale. */
    method OnSuccess() returns (alert: string)
      requires Valid()
      modifies this, client
      ensures Valid() && slots == old(slots) && !pending
      ensures alert == SuccessAlert
      ensures client.stale == Invalidated(old(client.stale), SlotsFilter)
      ensures client.stale[SlotsKey]
    {
      alert := SuccessAlert;
      client.Invalidate(SlotsFilter);
      assert Matches(SlotsFilter, SlotsKey);
      pending := false;
    }

    /** The booking request failed: an alert carrying the reason, and no
        cached query is touched. */
    method OnError(backendMessage: Option<string>) returns (alert: string)
      requires Valid()
      modifies this
      ensures Valid() && slots == old(slots) && !pending
      ensures alert == FailureAlert(backendMessage)
      ensures unchanged(client)
    {
      alert := FailureAlert(backendMessage);
      pending := false;
    }
  }
}
