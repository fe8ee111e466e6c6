/**
 * The session record and slot-filling tools of the doorman voice agent.
 *
 * A conversation owns one `VisitorData` record with four optional text
 * slots and a `confirmed` flag. The language model calls the four setter
 * tools to fill the slots and `ConfirmVisit` to finish; a successful
 * confirmation mails the rendered summary to the building administrator.
 * Mail delivery is an `Outbox` whose log records every summary sent.
 */
module Agent {
  import opened Wrappers

  // ---------------------------------------------------------------------
  // Slots and the record as a value
  // ---------------------------------------------------------------------

  /** The four text slots of a visitor record. */
  datatype Slot = ApartmentNumber | ResidentName | VisitorName | VisitReason

  /** The record's state: four optional slots and the confirmation flag. */
  datatype Record = Record(
    apartmentNumber: Option<string>,
    residentName: Option<string>,
    visitorName: Option<string>,
    visitReason: Option<string>,
    confirmed: bool)

  /** A record as the dataclass defaults create it. */
  const Fresh: Record := Record(None, None, None, None, false)

  /** The placeholder the summary writes for a slot with no usable value. */
  const Unknown: string := "unknown"

  function SlotOf(d: Record, s: Slot): Option<string>
  {
    match s
    case ApartmentNumber => d.apartmentNumber
    case ResidentName => d.residentName
    case VisitorName => d.visitorName
    case VisitReason => d.visitReason
  }

  /** Overwrites one slot with a value, as each setter tool does. */
  function Assign(d: Record, s: Slot, v: string): (r: Record)
    ensures SlotOf(r, s) == Some(v)
    ensures forall t: Slot :: t != s ==> SlotOf(r, t) == SlotOf(d, t)
    ensures r.confirmed == d.confirmed
  {
    match s
    case ApartmentNumber => d.(apartmentNumber := Some(v))
    case ResidentName => d.(residentName := Some(v))
    case VisitorName => d.(visitorName := Some(v))
    case VisitReason => d.(visitReason := Some(v))
  }

  /** Python truthiness of an `Optional[str]`: neither `None` nor `""`. */
  predicate Truthy(slot: Option<string>)
  {
    slot.Some? && slot.value != ""
  }

  /** The record holds a usable value in every slot (Python's `all([...])`). */
  predicate IsComplete(d: Record)
  {
    Truthy(d.apartmentNumber) && Truthy(d.residentName)
    && Truthy(d.visitorName) && Truthy(d.visitReason)
  }

  // ---------------------------------------------------------------------
  // The summary
  // ---------------------------------------------------------------------

  /** A summary is the key/value mapping in the order it is emitted. */
  type Summary = seq<(string, string)>

  /** The key under which the summary reports a slot. */
  function KeyOf(s: Slot): string
  {
    match s
    case ApartmentNumber => "apartment_number"
    case ResidentName => "resident_name"
    case VisitorName => "visitor_name"
    case VisitReason => "visit_reason"
  }

  /** Python's `slot or "unknown"`. */
  function OrUnknown(slot: Option<string>): string
  {
    if Truthy(slot) then slot.value else Unknown
  }

  /** Lexicographic order on strings by code point, as Python compares `str`. */
  predicate LexLess(a: string, b: string)
  {
    if |a| == 0 then |b| > 0
    else if |b| == 0 then false
    else if a[0] != b[0] then a[0] < b[0]
    else LexLess(a[1..], b[1..])
  }

  /**
   * The mapping `summarize` builds, emitted with its keys sorted, which is
   * what `yaml.dump` does by default. It has one entry per slot, each
   * giving the slot's value or the placeholder, and strictly ascending keys.
   */
  function Summarize(d: Record): (r: Summary)
    ensures |r| == 4
    ensures forall s: Slot :: Entry(d, s) in r
    ensures forall i :: 0 < i < |r| ==> LexLess(r[i - 1].0, r[i].0)
  {
    var r := [Entry(d, ApartmentNumber), Entry(d, ResidentName), Entry(d, VisitReason), Entry(d, VisitorName)];
    EntriesCover(d, r);
    EntriesAscending(d, r);
    r
  }

  /** The summary entry for one slot: its key, and its value or the placeholder. */
  function Entry(d: Record, s: Slot): (string, string)
  {
    (KeyOf(s), OrUnknown(SlotOf(d, s)))
  }

  /** The entries `Summarize` lists include one for every slot. */
  lemma EntriesCover(d: Record, r: Summary)
    requires r == [Entry(d, ApartmentNumber), Entry(d, ResidentName), Entry(d, VisitReason), Entry(d, VisitorName)]
    ensures forall s: Slot :: Entry(d, s) in r
  {
  }

  /** The entries `Summarize` lists have each key sorting before the next. */
  lemma EntriesAscending(d: Record, r: Summary)
    requires r == [Entry(d, ApartmentNumber), Entry(d, ResidentName), Entry(d, VisitReason), Entry(d, VisitorName)]
    ensures forall i :: 0 < i < |r| ==> LexLess(r[i - 1].0, r[i].0)
  {
    KeysAscending();
    assert r[0].0 == KeyOf(ApartmentNumber) && r[1].0 == KeyOf(ResidentName);
    assert r[2].0 == KeyOf(VisitReason) && r[3].0 == KeyOf(VisitorName);
  }

  /** Each key sorts before the next one in the summary's order. */
  lemma KeysAscending()
    ensures LexLess(KeyOf(ApartmentNumber), KeyOf(ResidentName))
    ensures LexLess(KeyOf(ResidentName), KeyOf(VisitReason))
    ensures LexLess(KeyOf(VisitReason), KeyOf(VisitorName))
  {
  }

  /** The text of a summary: one `key: value` line per entry. */
  function Render(s: Summary): string
  {
    if s == [] then "" else s[0].0 + ": " + s[0].1 + "\n" + Render(s[1..])
  }

  // ---------------------------------------------------------------------
  // Replies
  // ---------------------------------------------------------------------

  /** The reply of the setter tool for a slot. */
  function Acknowledgement(s: Slot, v: string): string
  {
    match s
    case ApartmentNumber => "Apartment number recorded as " + v + "."
    case ResidentName => "Resident name recorded as " + v + "."
    case VisitorName => "Visitor name recorded as " + v + "."
    case VisitReason => "Reason for visit recorded as: " + v + "."
  }

  const MissingReply: string :=
    "Some information is still missing. Please provide all required details."

  const SentPrefix: string :=
    "Thank you. The following information has been sent to admin:\n"

  // ---------------------------------------------------------------------
  // The tools as a state machine on values
  // ---------------------------------------------------------------------

  /** One tool call made by the language model. */
  datatype Tool = Update(slot: Slot, value: string) | Confirm

  /** The record together with the summaries mailed so far. */
  datatype Session = Session(data: Record, sent: seq<Summary>)

  datatype Outcome = Outcome(session: Session, reply: string)

  /**
   * The effect and reply of one tool call. A call mails at most one
   * summary, that of the record it was made on, and the record becomes
   * confirmed only if it already was or was complete.
   */
  function Step(st: Session, t: Tool): (o: Outcome)
    ensures o.session.sent == st.sent || o.session.sent == st.sent + [Summarize(st.data)]
    ensures o.session.data.confirmed ==> st.data.confirmed || IsComplete(st.data)
    ensures o.session.data.confirmed != st.data.confirmed ==> o.session.sent != st.sent
  {
    match t
    case Update(s, v) => Outcome(Session(Assign(st.data, s, v), st.sent), Acknowledgement(s, v))
    case Confirm =>
      if !IsComplete(st.data) then
        Outcome(st, MissingReply)
      else
        var summary := Summarize(st.data);
        Outcome(Session(st.data.(confirmed := true), st.sent + [summary]), SentPrefix + Render(summary))
  }

  // ---------------------------------------------------------------------
  // The mutable record and the tools as methods
  // ---------------------------------------------------------------------

  /** The per-session record the tools update in place. */
  class VisitorData {
    var apartmentNumber: Option<string>
    var residentName: Option<string>
    var visitorName: Option<string>
    var visitReason: Option<string>
    var confirmed: bool

    constructor ()
      ensures Snapshot() == Fresh
    {
      apartmentNumber, residentName, visitorName, visitReason := None, None, None, None;
      confirmed := false;
    }

    /** The record's current state as a value. */
    function Snapshot(): Record
      reads this
    {
      Record(apartmentNumber, residentName, visitorName, visitReason, confirmed)
    }
  }

  /** The mail server: every summary handed to it, in order. */
  class Outbox {
    var sent: seq<Summary>

    constructor ()
      ensures sent == []
    {
      sent := [];
    }
  }

  /** Mails one summary to the administrator. */
  method SendEmail(outbox: Outbox, summary: Summary)
    modifies outbox
    ensures outbox.sent == old(outbox.sent) + [summary]
  {
    outbox.sent := outbox.sent + [summary];
  }

  method UpdateApartment(apartment: string, userdata: VisitorData) returns (reply: string)
    modifies userdata
    ensures userdata.Snapshot() == Assign(old(userdata.Snapshot()), ApartmentNumber, apartment)
    ensures reply == Acknowledgement(ApartmentNumber, apartment)
  {
    userdata.apartmentNumber := Some(apartment);
    reply := "Apartment number recorded as " + apartment + ".";
  }

  method UpdateResident(name: string, userdata: VisitorData) returns (reply: string)
    modifies userdata
    ensures userdata.Snapshot() == Assign(old(userdata.Snapshot()), ResidentName, name)
    ensures reply == Acknowledgement(ResidentName, name)
  {
    userdata.residentName := Some(name);
    reply := "Resident name recorded as " + name + ".";
  }

  method UpdateVisitor(name: string, userdata: VisitorData) returns (reply: string)
    modifies userdata
    ensures userdata.Snapshot() == Assign(old(userdata.Snapshot()), VisitorName, name)
    ensures reply == Acknowledgement(VisitorName, name)
  {
    userdata.visitorName := Some(name);
    reply := "Visitor name recorded as " + name + ".";
  }

  method UpdateReason(reason: string, userdata: VisitorData) returns (reply: string)
    modifies userdata
    ensures userdata.Snapshot() == Assign(old(userdata.Snapshot()), VisitReason, reason)
    ensures reply == Acknowledgement(VisitReason, reason)
  {
    userdata.visitReason := Some(reason);
    reply := "Reason for visit recorded as: " + reason + ".";
  }

  /**
   * Finishes the visit: on a complete record mails its summary once and
   * marks it confirmed; otherwise changes nothing and says so.
   */
  method ConfirmVisit(userdata: VisitorData, outbox: Outbox) returns (reply: string)
    modifies userdata, outbox
    ensures Outcome(Session(userdata.Snapshot(), outbox.sent), reply)
         == Step(Session(old(userdata.Snapshot()), old(outbox.sent)), Confirm)
  {
    if !(Truthy(userdata.apartmentNumber) && Truthy(userdata.residentName)
         && Truthy(userdata.visitorName) && Truthy(userdata.visitReason)) {
      return MissingReply;
    }
    var summary := Summarize(userdata.Snapshot());
    SendEmail(outbox, summary);
    userdata.confirmed := true;
    reply := SentPrefix + Render(summary);
  }
}
