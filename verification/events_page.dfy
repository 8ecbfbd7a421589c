/**
 * The events page: the create form with its tag list, participant cap and
 * date conversion, and an event card with its organizer-only applicant panel.
 * `new Date(dateStr).getTime()` is a parameter (`dateMs`, `None` when the
 * date does not parse).
 */
module EventsPage {
  import opened Common
  import opened Identity
  import opened Text
  import opened Backend
  import opened TimeFormat
  import Queries

  // ---------------------------------------------------------------- tags

  /** A tag as the form stores it: non-empty, trimmed, and free of commas. */
  predicate CleanTag(t: string) {
    t != [] && IsTrimmed(t) && ',' !in t
  }

  /** `.map((t) => t.trim()).filter(Boolean)` over the comma-separated pieces. */
  function CleanPieces(parts: seq<string>): (tags: seq<string>)
    requires forall i :: 0 <= i < |parts| ==> ',' !in parts[i]
    ensures |tags| <= |parts|
    ensures forall i :: 0 <= i < |tags| ==> CleanTag(tags[i])
  {
    if parts == [] then []
    else
      TrimKeepsOut(parts[0], ',');
      var t := Trim(parts[0]);
      (if t == [] then [] else [t]) + CleanPieces(parts[1..])
  }

  /** `tagsStr.split(",").map((t) => t.trim()).filter(Boolean)`. */
  function Tags(tagsStr: string): (tags: seq<string>)
    ensures forall i :: 0 <= i < |tags| ==> CleanTag(tags[i])
  {
    CleanPieces(Split(tagsStr, ','))
  }

  /** Clean pieces pass through unchanged and in order. */
  lemma {:induction false} CleanPiecesOfClean(tags: seq<string>)
    requires forall i :: 0 <= i < |tags| ==> tags[i] != [] && IsTrimmed(tags[i]) && ',' !in tags[i]
    ensures CleanPieces(tags) == tags
  {
    if tags != [] {
      TrimOfTrimmed(tags[0]);
      CleanPiecesOfClean(tags[1..]);
    }
  }

  /** Typing a list of clean tags separated by commas gives back exactly those tags, in order. */
  lemma TagsRoundTrip(tags: seq<string>)
    requires forall i :: 0 <= i < |tags| ==> tags[i] != [] && IsTrimmed(tags[i]) && ',' !in tags[i]
    ensures Tags(Join(tags, ',')) == tags
  {
    if tags != [] {
      SplitJoin(tags, ',');
      CleanPiecesOfClean(tags);
    }
  }

  /** A blank piece, such as the one between the commas of "a,,b", yields no tag. */
  lemma BlankPieceDropped(p: string, parts: seq<string>)
    requires ',' !in p && Blank(p)
    requires forall i :: 0 <= i < |parts| ==> ',' !in parts[i]
    ensures CleanPieces([p] + parts) == CleanPieces(parts)
  {
    assert ([p] + parts)[1..] == parts;
  }

  /** Pieces with white space around them give their trims, in order. */
  lemma {:induction false} CleanPiecesOfPadded(parts: seq<string>, tags: seq<string>)
    requires |parts| == |tags|
    requires forall i :: 0 <= i < |parts| ==> ',' !in parts[i] && Trim(parts[i]) == tags[i] && tags[i] != []
    ensures CleanPieces(parts) == tags
  {
    if parts != [] {
      CleanPiecesOfPadded(parts[1..], tags[1..]);
    }
  }

  /**
   * Tags typed with white space around them, as in "Hackathon, AI, Web3",
   * come back trimmed and in order.
   */
  lemma PaddedTagsRoundTrip(parts: seq<string>, tags: seq<string>)
    requires |parts| == |tags|
    requires forall i :: 0 <= i < |parts| ==> ',' !in parts[i] && Trim(parts[i]) == tags[i] && tags[i] != []
    ensures Tags(Join(parts, ',')) == tags
  {
    if parts != [] {
      SplitJoin(parts, ',');
      CleanPiecesOfPadded(parts, tags);
    }
  }

  // ---------------------------------------------------------------- participant cap

  /** The default text of the cap input. */
  const DefaultCap: string := "50"

  /** `Math.max(1, parseInt(s) || 50)`: NaN and 0 fall back to 50, anything else is raised to at least 1. */
  function MaxParticipants(s: string): (n: nat)
    ensures n >= 1
    ensures ParseInt(s).None? || ParseInt(s) == Some(0) ==> n == 50
    ensures ParseInt(s).Some? && ParseInt(s).value != 0 ==> n == Max(1, ParseInt(s).value)
  {
    match ParseInt(s)
    case None => 50
    case Some(v) => if v == 0 then 50 else if v < 1 then 1 else v
  }

  /** A positive cap typed as its decimal digits is sent as typed; the default text gives 50. */
  lemma MaxParticipantsOfToString(n: nat)
    requires n >= 1
    ensures MaxParticipants(NatToDecimal(n)) == n
    ensures MaxParticipants(DefaultCap) == 50
  {
    ParseIntOfToString(n);
    ParseIntOfToString(50);
    assert NatToDecimal(50) == DefaultCap by {
      assert NatToDecimal(5) == "5";
    }
  }

  // ---------------------------------------------------------------- the create form

  /** The create dialog's inputs. */
  class CreateForm {
    var createOpen: bool
    var title: string
    var desc: string
    var dateStr: string
    var tagsStr: string
    var maxParticipants: string

    constructor ()
      ensures !createOpen && title == [] && desc == [] && dateStr == [] && tagsStr == []
      ensures maxParticipants == DefaultCap
    {
      createOpen := false;
      title, desc, dateStr, tagsStr := [], [], [], [];
      maxParticipants := DefaultCap;
    }

    method SetInputs(t: string, d: string, date: string, tags: string, cap: string)
      modifies this
      ensures title == t && desc == d && dateStr == date && tagsStr == tags && maxParticipants == cap
      ensures createOpen == old(createOpen)
    {
      title, desc, dateStr, tagsStr, maxParticipants := t, d, date, tags, cap;
    }

    /**
     * `handleCreate`: nothing without a non-blank title and a date text, nor
     * when the date does not parse (`BigInt(NaN)` throws); otherwise the
     * trimmed title and description, the date in nanoseconds, the tags and the cap.
     */
    method HandleCreate(dateMs: Option<int>) returns (m: Option<Queries.Mutation>)
      ensures m.None? <==> Blank(title) || dateStr == [] || dateMs.None?
      ensures m.Some? ==> m.value == Queries.CreateEvent(Trim(title), Trim(desc), dateMs.value * NsPerMs,
        Tags(tagsStr), MaxParticipants(maxParticipants))
      ensures m.Some? ==> NsToMs(m.value.date) == dateMs.value && m.value.maxParticipants >= 1
    {
      var t := Trim(title);
      if t == [] || dateStr == [] {
        return None;
      }
      if dateMs.None? {
        return None;
      }
      var date := dateMs.value * NsPerMs;
      MsRoundTrip(dateMs.value);
      m := Some(Queries.CreateEvent(t, Trim(desc), date, Tags(tagsStr), MaxParticipants(maxParticipants)));
    }

    /** The create's `onSuccess`: every input emptied, the cap back to "50", the dialog closed. */
    method CreateSucceeded()
      modifies this
      ensures title == [] && desc == [] && dateStr == [] && tagsStr == [] && maxParticipants == DefaultCap
      ensures !createOpen
    {
      title := [];
      desc := [];
      dateStr := [];
      tagsStr := [];
      maxParticipants := DefaultCap;
      createOpen := false;
    }
  }

  // ---------------------------------------------------------------- an event card

  /** `isOrganizer`: false without a caller, else whether the organizer has the caller's text. */
  function IsOrganizer(event: Event, caller: Option<Principal>): (b: bool)
    ensures b <==> SameText(Some(event.organizer), caller)
  {
    caller.Some? && event.organizer.text == caller.value.text
  }

  /** The "Apply" button is offered exactly to callers who do not organize the event. */
  predicate OffersApply(event: Event, caller: Option<Principal>) {
    !IsOrganizer(event, caller)
  }

  /** The "Applicants" toggle is offered exactly to the organizer. */
  predicate OffersApplicants(event: Event, caller: Option<Principal>) {
    IsOrganizer(event, caller)
  }

  /** Every card shows exactly one of the two actions; a signed-out visitor sees "Apply". */
  lemma ExactlyOneAction(event: Event, caller: Option<Principal>)
    ensures OffersApply(event, caller) != OffersApplicants(event, caller)
    ensures caller.None? ==> OffersApply(event, caller)
  {
  }

  /** An event card: whether its applicant panel is open. */
  class Card {
    const event: Event
    var open: bool

    constructor (e: Event)
      ensures event == e && !open
    {
      event := e;
      open := false;
    }

    /** The applicant read: the event's id only while the panel is open for the organizer, else null. */
    function ApplicantsRead(caller: Option<Principal>): (r: Queries.Read)
      reads this
      ensures r.EventApplicationsRead?
      ensures r.eventId.Some? <==> open && IsOrganizer(event, caller)
      ensures r.eventId.Some? ==> r.eventId.value == event.id
      ensures Queries.Enabled(r, true, false) <==> open && IsOrganizer(event, caller) && event.id != []
    {
      Queries.EventApplicationsRead(if open && IsOrganizer(event, caller) then Some(event.id) else None)
    }

    /** The applicant panel is shown exactly to the organizer with the panel open. */
    predicate ShowsApplicants(caller: Option<Principal>)
      reads this
      ensures ShowsApplicants(caller) <==> ApplicantsRead(caller).eventId.Some?
      ensures ShowsApplicants(caller) ==> ApplicantsRead(caller) == Queries.EventApplicationsRead(Some(event.id))
    {
      IsOrganizer(event, caller) && open
    }

    /** The "Applicants" toggle. */
    method Toggle()
      modifies this
      ensures open == !old(open)
    {
      open := !open;
    }

    /** `handleApply`: the application for this event. */
    function Apply(): (m: Queries.Mutation)
      reads this
      ensures m.ApplyToEvent? && m.id == event.id
    {
      Queries.ApplyToEvent(event.id)
    }
  }

  /** A non-organizer never reads the applicant list, whatever the panel state. */
  lemma OnlyOrganizerReadsApplicants(card: Card, caller: Option<Principal>, actorPresent: bool, isFetching: bool)
    requires !IsOrganizer(card.event, caller)
    ensures !Queries.Enabled(card.ApplicantsRead(caller), actorPresent, isFetching)
  {
  }

  /** Approving or rejecting an applicant refreshes that event's applicant list and no other. */
  lemma DecisionRefreshesOwnList(eventId: string, applicant: Principal, approve: bool, other: Option<string>)
    ensures var m := if approve then Queries.ApproveApplication(eventId, applicant)
                     else Queries.RejectApplication(eventId, applicant);
      Queries.Affected(m, Queries.KeyOf(Queries.EventApplicationsRead(other))) <==> other == Some(eventId)
  {
    var m := if approve then Queries.ApproveApplication(eventId, applicant)
             else Queries.RejectApplication(eventId, applicant);
    Queries.InvalidationExact(m, Queries.EventApplicationsRead(other));
  }
}
