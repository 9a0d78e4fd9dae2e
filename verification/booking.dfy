/**
 * The booking dialog of the "Book a Pandit" page: the fixed choice lists,
 * the required-field check, the row inserted into `bookings`, the cost
 * estimate, and the page state that the handlers update.
 */
module Booking {
  import opened Wrappers
  import opened Session
  import opened Directory
  import opened Dates

  /** The choices offered by the puja-type select. */
  const PujaTypes: seq<string> := [
    "Ganesh Puja", "Lakshmi Puja", "Saraswati Puja", "Durga Puja", "Hanuman Puja",
    "Shiv Puja", "Griha Pravesh", "Havan", "Satyanarayan Puja", "Wedding Ceremony",
    "Mundan Ceremony", "Thread Ceremony", "Other"
  ]

  /** The choices offered by the time select, hourly from 06:00 AM to 08:00 PM. */
  const TimeSlots: seq<string> := [
    "06:00 AM", "07:00 AM", "08:00 AM", "09:00 AM", "10:00 AM", "11:00 AM",
    "12:00 PM", "01:00 PM", "02:00 PM", "03:00 PM", "04:00 PM", "05:00 PM",
    "06:00 PM", "07:00 PM", "08:00 PM"
  ]

  /** Every offered choice is a non-empty string, so picking one satisfies the required-field check. */
  lemma ChoicesAreNonEmpty()
    ensures |PujaTypes| == 13 && |TimeSlots| == 15
    ensures forall t :: t in PujaTypes ==> t != ""
    ensures forall t :: t in TimeSlots ==> t != ""
  {
  }

  /** The dialog's form; an empty string is an unfilled field. */
  datatype BookingForm = BookingForm(
    panditId: string,
    pujaType: string,
    preferredDate: Option<Date>,
    preferredTime: string,
    address: string,
    specialRequirements: string)

  const EmptyForm := BookingForm("", "", None, "", "", "")

  /** The row sent to `bookings`. */
  datatype BookingRow = BookingRow(
    userId: UserId,
    panditId: string,
    pujaType: string,
    preferredDate: string,
    preferredTime: string,
    address: string,
    specialRequirements: Option<string>,
    status: string,
    totalAmount: Option<int>)

  const PendingStatus := "pending"

  /**
   * `rate ? rate * 2 : null`: two hours at the hourly rate when the rate is
   * truthy; a missing rate and a rate of 0 both give no amount.
   */
  function TotalAmount(rate: Option<int>): (r: Option<int>)
    ensures r.Some? <==> rate.Some? && rate.value != 0
    ensures r.Some? ==> r.value % 2 == 0 && r.value / 2 == rate.value
  {
    if rate.Some? && rate.value != 0 then Some(rate.value * 2) else None
  }

  /** The seeded demo pandit charges 1500 an hour, so a booking with them is 3000. */
  lemma SeedRateTotal()
    ensures TotalAmount(Some(1500)) == Some(3000)
  {
  }

  /** Each of puja type, date, time and address is filled; special requirements are optional. */
  predicate HasRequiredFields(form: BookingForm)
  {
    form.pujaType != "" && form.preferredDate.Some? && form.preferredTime != "" && form.address != ""
  }

  /** What `submitBooking` decides before it talks to the database. */
  datatype Prepared = Skip | Missing | Ready(row: BookingRow)

  /**
   * The guards of `submitBooking` and the row it builds: nothing without a
   * user or a selected pandit, a "missing information" notice without the
   * required fields, and otherwise a pending booking for that user and pandit.
   */
  function Prepare(user: Option<UserId>, selected: Option<Pandit>, form: BookingForm): (p: Prepared)
    ensures p.Skip? <==> user.None? || selected.None?
    ensures p.Missing? <==> user.Some? && selected.Some? && !HasRequiredFields(form)
    ensures p.Ready? ==>
      p.row.status == PendingStatus && p.row.userId == user.value && p.row.panditId == selected.value.id
  {
    if user.None? || selected.None? then
      Skip
    else if !HasRequiredFields(form) then
      Missing
    else
      Ready(BookingRow(
        user.value,
        selected.value.id,
        form.pujaType,
        FormatIso(form.preferredDate.value),
        form.preferredTime,
        form.address,
        if form.specialRequirements == "" then None else Some(form.specialRequirements),
        PendingStatus,
        TotalAmount(selected.value.ratePerHour)))
  }

  /**
   * The inserted row records the form: the date reads back from its
   * `yyyy-MM-dd` text, the fields are copied, empty special requirements
   * become null, and the amount is the pandit's two-hour total.
   */
  lemma ReadyRowRecordsForm(user: Option<UserId>, selected: Option<Pandit>, form: BookingForm)
    requires form.preferredDate.Some? ==> ValidDate(form.preferredDate.value)
    requires Prepare(user, selected, form).Ready?
    ensures var row := Prepare(user, selected, form).row;
      && ParseIso(row.preferredDate) == form.preferredDate
      && row.pujaType == form.pujaType && row.preferredTime == form.preferredTime
      && row.address == form.address
      && (row.specialRequirements.None? <==> form.specialRequirements == "")
      && row.specialRequirements.GetOr("") == form.specialRequirements
      && row.totalAmount == TotalAmount(selected.value.ratePerHour)
  {
    FormatIsoRoundTrip(form.preferredDate.value);
  }

  /**
   * Only presence is checked at submission: a puja type and a time outside the
   * offered lists, and a date the calendar would now refuse, all go through.
   */
  lemma SubmitChecksPresenceOnly(user: UserId, selected: Pandit, form: BookingForm, now: Instant)
    requires HasRequiredFields(form)
    requires form.pujaType !in PujaTypes && form.preferredTime !in TimeSlots
    requires CalendarDisabled(form.preferredDate.value, now)
    ensures Prepare(Some(user), Some(selected), form).Ready?
  {
  }

  /** The cost panel of the dialog. */
  datatype EstimateView = NoEstimate | StrayZero | ShownEstimate(amount: int)

  /**
   * `{selectedPandit?.rate_per_hour && (<panel>rate * 2</panel>)}` as written:
   * with a rate of 0 the `&&` yields the number 0, which React renders as the
   * text "0".
   */
  function EstimateAsWritten(selected: Option<Pandit>): EstimateView
  {
    if selected.None? || selected.value.ratePerHour.None? then NoEstimate
    else if selected.value.ratePerHour.value == 0 then StrayZero
    else ShownEstimate(selected.value.ratePerHour.value * 2)
  }

  /** With a zero rate the panel as written shows a stray "0" although no amount is booked. */
  lemma ZeroRateShowsStrayZero(p: Pandit)
    requires p.ratePerHour == Some(0)
    ensures EstimateAsWritten(Some(p)) == StrayZero
    ensures TotalAmount(p.ratePerHour) == None
  {
  }

  /** The cost panel as intended: shown exactly when a total will be booked, with that total. */
  function Estimate(selected: Option<Pandit>): (v: EstimateView)
    ensures v != StrayZero
    ensures v.ShownEstimate? <==> selected.Some? && TotalAmount(selected.value.ratePerHour).Some?
    ensures v.ShownEstimate? ==> TotalAmount(selected.value.ratePerHour) == Some(v.amount)
  {
    if selected.None? || selected.value.ratePerHour.None? || selected.value.ratePerHour.value == 0 then
      NoEstimate
    else
      ShownEstimate(selected.value.ratePerHour.value * 2)
  }

  /** The intended panel agrees with the one as written wherever the rate is not 0. */
  lemma EstimateDiffersOnlyAtZeroRate(selected: Option<Pandit>)
    ensures Estimate(selected) != EstimateAsWritten(selected) <==>
      selected.Some? && selected.value.ratePerHour == Some(0)
  {
  }

  /**
   * The intended panel announces exactly the amount that a submission with
   * the same pandit books: shown iff the row carries a total, and that total.
   */
  lemma PanelShowsBookedTotal(user: Option<UserId>, selected: Option<Pandit>, form: BookingForm)
    requires Prepare(user, selected, form).Ready?
    ensures var row := Prepare(user, selected, form).row;
      && (Estimate(selected).ShownEstimate? <==> row.totalAmount.Some?)
      && (Estimate(selected).ShownEstimate? ==> row.totalAmount == Some(Estimate(selected).amount))
  {
  }

  /** The result of loading the pandit list. */
  datatype FetchReply = Rows(rows: seq<Pandit>) | NullRows | FetchFailed

  /** What a press of "Submit Booking" came to. */
  datatype SubmitOutcome = Skipped | MissingInformation | Submitted(row: BookingRow) | Failed(row: BookingRow)

  /** The state of the page component. */
  class BookingPage {
    var pandits: seq<Pandit>
    var loading: bool
    var searchQuery: string
    var selectedPandit: Option<Pandit>
    var form: BookingForm
    var dialogOpen: bool
    var bookingLoading: bool
    /** The rows this page has committed to `bookings`, oldest first. */
    var inserted: seq<BookingRow>

    /**
     * Between handlers no insert is in flight, and an open dialog belongs to
     * the selected pandit.
     */
    ghost predicate Valid()
      reads this
    {
      !bookingLoading && (dialogOpen ==> selectedPandit.Some? && form.panditId == selectedPandit.value.id)
    }

    constructor ()
      ensures Valid()
      ensures pandits == [] && loading && searchQuery == "" && selectedPandit == None
      ensures form == EmptyForm && !dialogOpen && !bookingLoading && inserted == []
    {
      pandits, loading, searchQuery := [], true, "";
      selectedPandit, form := None, EmptyForm;
      dialogOpen, bookingLoading := false, false;
      inserted := [];
    }

    /** The end of the initial fetch: `setPandits(data || [])` on success, a notice on error, loading off either way. */
    method FinishLoading(reply: FetchReply)
      modifies this`pandits, this`loading
      ensures !loading
      ensures pandits == match reply
        case Rows(rows) => rows
        case NullRows => []
        case FetchFailed => old(pandits)
    {
      match reply {
        case Rows(rows) => pandits := rows;
        case NullRows => pandits := [];
        case FetchFailed =>
      }
      loading := false;
    }

    method EditSearchQuery(q: string)
      modifies this`searchQuery
      ensures searchQuery == q
    {
      searchQuery := q;
    }

    /** The cards on display. */
    function Shown(): seq<Pandit>
      reads this
    {
      Filter(pandits, searchQuery)
    }

    /**
     * The cost panel of the dialog, in its intended form: never a stray "0",
     * and shown exactly when the selected pandit's rate gives a total.
     */
    function CostPanel(): (v: EstimateView)
      reads this
      ensures v != StrayZero
      ensures v.ShownEstimate? <==> selectedPandit.Some? && TotalAmount(selectedPandit.value.ratePerHour).Some?
      ensures v.ShownEstimate? ==> TotalAmount(selectedPandit.value.ratePerHour) == Some(v.amount)
    {
      Estimate(selectedPandit)
    }

    /**
     * "Book Now": without a user only a login notice; otherwise select the
     * pandit, record its id in the form (keeping the other fields) and open
     * the dialog.
     */
    method HandleBookPandit(user: Option<UserId>, pandit: Pandit) returns (shown: bool)
      requires Valid()
      modifies this`selectedPandit, this`form, this`dialogOpen
      ensures Valid()
      ensures shown <==> user.Some?
      ensures !shown ==> selectedPandit == old(selectedPandit) && form == old(form) && dialogOpen == old(dialogOpen)
      ensures shown ==>
        selectedPandit == Some(pandit) && form == old(form).(panditId := pandit.id) && dialogOpen
    {
      if user.None? {
        return false;
      }
      selectedPandit := Some(pandit);
      form := form.(panditId := pandit.id);
      dialogOpen := true;
      shown := true;
    }

    method SelectPujaType(value: string)
      requires Valid()
      modifies this`form
      ensures Valid() && form == old(form).(pujaType := value)
    {
      form := form.(pujaType := value);
    }

    /** The calendar's `onSelect`; the calendar never reports a disabled day. */
    method PickDate(picked: Option<Date>, now: Instant)
      requires Valid()
      modifies this`form
      ensures Valid()
      ensures form == if picked.Some? && CalendarDisabled(picked.value, now) then old(form)
                      else old(form).(preferredDate := picked)
    {
      if !(picked.Some? && CalendarDisabled(picked.value, now)) {
        form := form.(preferredDate := picked);
      }
    }

    method SelectTime(value: string)
      requires Valid()
      modifies this`form
      ensures Valid() && form == old(form).(preferredTime := value)
    {
      form := form.(preferredTime := value);
    }

    method EditAddress(value: string)
      requires Valid()
      modifies this`form
      ensures Valid() && form == old(form).(address := value)
    {
      form := form.(address := value);
    }

    method EditSpecialRequirements(value: string)
      requires Valid()
      modifies this`form
      ensures Valid() && form == old(form).(specialRequirements := value)
    {
      form := form.(specialRequirements := value);
    }

    /** "Cancel", or the dialog asking to close: the form is kept. */
    method CloseDialog()
      requires Valid()
      modifies this`dialogOpen
      ensures Valid() && !dialogOpen
    {
      dialogOpen := false;
    }

    /**
     * "Submit Booking". `insertSucceeds` is the database's answer to the
     * insert. A skipped or incomplete submission changes nothing; an insert
     * that succeeds records the row, closes the dialog and clears the form;
     * one that fails keeps the dialog and the form. The insert is in flight
     * only inside this step, so `bookingLoading` is false after every path.
     */
    method SubmitBooking(user: Option<UserId>, insertSucceeds: bool) returns (outcome: SubmitOutcome)
      requires Valid()
      modifies this`form, this`dialogOpen, this`bookingLoading, this`inserted
      ensures Valid()
      ensures match Prepare(user, old(selectedPandit), old(form))
        case Skip =>
          outcome == Skipped && form == old(form) && dialogOpen == old(dialogOpen) && inserted == old(inserted)
        case Missing =>
          outcome == MissingInformation && form == old(form) && dialogOpen == old(dialogOpen)
          && inserted == old(inserted)
        case Ready(row) =>
          if insertSucceeds then
            outcome == Submitted(row) && inserted == old(inserted) + [row] && !dialogOpen && form == EmptyForm
          else
            outcome == Failed(row) && inserted == old(inserted) && dialogOpen == old(dialogOpen)
            && form == old(form)
    {
      var prepared := Prepare(user, selectedPandit, form);
      if prepared.Skip? {
        return Skipped;
      }
      if prepared.Missing? {
        return MissingInformation;
      }
      bookingLoading := true;
      if insertSucceeds {
        inserted := inserted + [prepared.row];
        dialogOpen := false;
        form := EmptyForm;
        outcome := Submitted(prepared.row);
      } else {
        outcome := Failed(prepared.row);
      }
      bookingLoading := false;
    }
  }

  /** The seeded demo pandit (populate-data.js). */
  const DemoPandit := Pandit("demo", "Pandit Demo User", "demo@example.com", None,
                             Some("Varanasi, Uttar Pradesh"), Some("Vedic Rituals, Puja Ceremonies"),
                             Some(10), Some(1500), 0)

  /** "Book Now" needs a user; with one the dialog opens and an empty form is refused. */
  method BookNowWalkthrough()
  {
    var page := new BookingPage();
    page.FinishLoading(Rows([DemoPandit]));
    var shown := page.HandleBookPandit(None, DemoPandit);
    assert !shown && !page.dialogOpen;
    shown := page.HandleBookPandit(Some("u1"), DemoPandit);
    assert shown && page.form.panditId == "demo";
    assert page.CostPanel() == ShownEstimate(3000);
    var outcome := page.SubmitBooking(Some("u1"), true);
    assert outcome == MissingInformation && page.inserted == [];
  }

  /** A filled-in form: a refused day is ignored, a failed insert keeps the form, a successful one books. */
  method SubmitWalkthrough()
  {
    var page := new BookingPage();
    var shown := page.HandleBookPandit(Some("u1"), DemoPandit);
    page.SelectPujaType("Havan");
    page.PickDate(Some(Date(2025, 1, 1)), Instant(Date(2025, 1, 1), 1000));
    assert page.form.preferredDate == None;
    page.PickDate(Some(Date(2025, 1, 2)), Instant(Date(2025, 1, 1), 1000));
    page.SelectTime("10:00 AM");
    page.EditAddress("Assi Ghat, Varanasi");
    var before := page.form;
    var outcome := page.SubmitBooking(Some("u1"), false);
    assert outcome.Failed? && page.form == before && page.dialogOpen && page.inserted == [];
    outcome := page.SubmitBooking(Some("u1"), true);
    assert outcome.Submitted? && outcome.row.totalAmount == Some(3000);
    assert outcome.row.specialRequirements == None && outcome.row.status == "pending";
    assert page.form == EmptyForm && !page.dialogOpen && page.inserted == [outcome.row];
  }
}
