/**
 * Properties of the doorman tools over whole conversations: a conversation
 * is the sequence of tool calls the language model makes on one session.
 */
module AgentProperties {
  import opened Wrappers
  import opened Agent

  /** The session a conversation starts from: a fresh record, nothing mailed. */
  const Start: Session := Session(Fresh, [])

  /** The session after a sequence of tool calls. */
  function Run(st: Session, ts: seq<Tool>): Session
  {
    if ts == [] then st else Step(Run(st, ts[..|ts| - 1]), ts[|ts| - 1]).session
  }

  /** The value of the last setter call for a slot, if there is one. */
  function LastWrite(ts: seq<Tool>, s: Slot): Option<string>
  {
    if ts == [] then None
    else if ts[|ts| - 1].Update? && ts[|ts| - 1].slot == s then Some(ts[|ts| - 1].value)
    else LastWrite(ts[..|ts| - 1], s)
  }

  /** The number of confirm calls in a conversation. */
  function Confirms(ts: seq<Tool>): nat
  {
    if ts == [] then 0 else Confirms(ts[..|ts| - 1]) + (if ts[|ts| - 1].Confirm? then 1 else 0)
  }

  // ---------------------------------------------------------------------
  // The summary
  // ---------------------------------------------------------------------

  /** A slot with a usable value is reported as itself, any other as the placeholder. */
  lemma SummaryValue(d: Record, s: Slot)
    ensures Truthy(SlotOf(d, s)) ==> (KeyOf(s), SlotOf(d, s).value) in Summarize(d)
    ensures !Truthy(SlotOf(d, s)) ==> (KeyOf(s), Unknown) in Summarize(d)
  {
  }

  /** The summary reports exactly the four keys, in the sorted order. */
  lemma {:induction false} SummaryKeys(d: Record)
    ensures [Summarize(d)[0].0, Summarize(d)[1].0, Summarize(d)[2].0, Summarize(d)[3].0]
         == ["apartment_number", "resident_name", "visit_reason", "visitor_name"]
  {
  }

  // The next three lemmas are stand-alone facts about Python's string order:
  // `LexLess` is a strict order, so any sequence whose keys each sort before
  // the next, as `Summarize` promises, has strictly ascending, distinct keys.

  /** Python's string order is transitive. */
  lemma {:induction false} LexLessTransitive(a: string, b: string, c: string)
    requires LexLess(a, b) && LexLess(b, c)
    ensures LexLess(a, c)
  {
    if |a| > 0 && a[0] == b[0] && b[0] == c[0] {
      LexLessTransitive(a[1..], b[1..], c[1..]);
    }
  }

  /** No string sorts before itself. */
  lemma {:induction false} LexLessIrreflexive(a: string)
    ensures !LexLess(a, a)
  {
    if |a| > 0 {
      LexLessIrreflexive(a[1..]);
    }
  }

  /** A sequence of keys each sorting before the next is strictly ascending throughout. */
  lemma {:induction false} ChainAscending(keys: seq<string>)
    requires forall i :: 0 < i < |keys| ==> LexLess(keys[i - 1], keys[i])
    ensures forall i, j :: 0 <= i < j < |keys| ==> LexLess(keys[i], keys[j])
  {
    if |keys| > 1 {
      var init := keys[..|keys| - 1];
      assert forall i :: 0 < i < |init| ==> LexLess(init[i - 1], init[i]) by {
        forall i | 0 < i < |init| ensures LexLess(init[i - 1], init[i]) {
          assert init[i - 1] == keys[i - 1] && init[i] == keys[i];
        }
      }
      ChainAscending(init);
      forall i, j | 0 <= i < j < |keys| ensures LexLess(keys[i], keys[j]) {
        if j < |keys| - 1 {
          assert keys[i] == init[i] && keys[j] == init[j];
        } else if i < j - 1 {
          assert keys[i] == init[i] && keys[j - 1] == init[j - 1];
          LexLessTransitive(keys[i], keys[j - 1], keys[j]);
        }
      }
    }
  }

  /** Every two keys of a summary are in strictly ascending order, so no key repeats. */
  lemma SummarySorted(d: Record)
    ensures forall i, j :: 0 <= i < j < |Summarize(d)| ==>
      LexLess(Summarize(d)[i].0, Summarize(d)[j].0) && Summarize(d)[i].0 != Summarize(d)[j].0
  {
  }

  /** The summary depends on the four slots only, not on the confirmation flag. */
  lemma SummaryIgnoresConfirmed(d: Record, c: bool)
    ensures Summarize(d.(confirmed := c)) == Summarize(d)
  {
  }

  // ---------------------------------------------------------------------
  // Single calls
  // ---------------------------------------------------------------------

  /**
   * A setter writes its own slot, leaves the other slots, the flag and the
   * mail log alone, and acknowledges the value.
   */
  lemma SetterEffect(st: Session, s: Slot, v: string)
    ensures var o := Step(st, Update(s, v));
      && SlotOf(o.session.data, s) == Some(v)
      && (forall t: Slot :: t != s ==> SlotOf(o.session.data, t) == SlotOf(st.data, t))
      && o.session.data.confirmed == st.data.confirmed
      && o.session.sent == st.sent
      && o.reply == Acknowledgement(s, v)
  {
  }

  /** Setting a slot twice keeps only the second value, and the summary shows it. */
  lemma LastWriteWins(st: Session, s: Slot, a: string, b: string)
    ensures Run(st, [Update(s, a), Update(s, b)]) == Step(st, Update(s, b)).session
    ensures b != "" ==> (KeyOf(s), b) in Summarize(Run(st, [Update(s, a), Update(s, b)]).data)
  {
    var ts := [Update(s, a), Update(s, b)];
    assert ts[..1] == [Update(s, a)];
    assert ts[..1][..0] == [];
    var first := Step(st, Update(s, a)).session;
    assert Run(st, ts[..1]) == first;
    var second := Step(first, Update(s, b)).session;
    assert Run(st, ts) == second;
    assert second.data == Assign(st.data, s, b) by {
      forall t: Slot ensures SlotOf(second.data, t) == SlotOf(Assign(st.data, s, b), t) { }
      SlotsDetermineRecord(second.data, Assign(st.data, s, b));
    }
    SummaryValue(second.data, s);
  }

  /** Two records that agree on every slot and on the flag are equal. */
  lemma SlotsDetermineRecord(d: Record, e: Record)
    requires forall t: Slot :: SlotOf(d, t) == SlotOf(e, t)
    requires d.confirmed == e.confirmed
    ensures d == e
  {
    assert SlotOf(d, ApartmentNumber) == SlotOf(e, ApartmentNumber);
    assert SlotOf(d, ResidentName) == SlotOf(e, ResidentName);
    assert SlotOf(d, VisitorName) == SlotOf(e, VisitorName);
    assert SlotOf(d, VisitReason) == SlotOf(e, VisitReason);
  }

  /** Confirming an incomplete record changes nothing and reports what is missing. */
  lemma ConfirmIncomplete(st: Session)
    requires !IsComplete(st.data)
    ensures Step(st, Confirm) == Outcome(st, MissingReply)
  {
  }

  /**
   * Confirming a complete record mails its summary once, sets the flag,
   * keeps the slots, and replies with text that ends in the summary.
   */
  lemma ConfirmComplete(st: Session)
    requires IsComplete(st.data)
    ensures var o := Step(st, Confirm);
      && o.session.sent == st.sent + [Summarize(st.data)]
      && o.session.data == st.data.(confirmed := true)
      && |Render(Summarize(st.data))| <= |o.reply|
      && o.reply[|o.reply| - |Render(Summarize(st.data))|..] == Render(Summarize(st.data))
  {
  }

  /** Confirmation does not seal the record: a setter still writes afterwards. */
  lemma SettersWriteAfterConfirm(st: Session, s: Slot, v: string)
    requires IsComplete(st.data)
    ensures var c := Step(st, Confirm).session;
      c.data.confirmed && SlotOf(Step(c, Update(s, v)).session.data, s) == Some(v)
  {
  }

  /** Confirmation is not idempotent: confirming twice mails the summary twice. */
  lemma {:induction false} ConfirmTwiceSendsTwice(st: Session)
    requires IsComplete(st.data)
    ensures Run(st, [Confirm, Confirm]).sent == st.sent + [Summarize(st.data), Summarize(st.data)]
  {
    assert [Confirm, Confirm][..1] == [Confirm];
    assert [Confirm][..0] == [];
    var c := Step(st, Confirm).session;
    assert Run(st, [Confirm]) == c;
    assert IsComplete(c.data);
    SummaryIgnoresConfirmed(st.data, true);
  }

  // ---------------------------------------------------------------------
  // Whole conversations
  // ---------------------------------------------------------------------

  /** Every slot ends up with the value of its last setter call (or keeps its old value). */
  lemma {:induction false} RunSlot(st: Session, ts: seq<Tool>, s: Slot)
    ensures SlotOf(Run(st, ts).data, s)
         == if LastWrite(ts, s).Some? then LastWrite(ts, s) else SlotOf(st.data, s)
  {
    if ts != [] {
      RunSlot(st, ts[..|ts| - 1], s);
    }
  }

  /**
   * The mail log only grows, and each confirm call adds at most one
   * summary; setter calls mail nothing.
   */
  lemma {:induction false} RunLog(st: Session, ts: seq<Tool>)
    ensures st.sent <= Run(st, ts).sent
    ensures |Run(st, ts).sent| <= |st.sent| + Confirms(ts)
  {
    if ts != [] {
      RunLog(st, ts[..|ts| - 1]);
    }
  }

  /**
   * From a fresh record, the record is confirmed exactly when at least
   * one summary has been mailed.
   */
  lemma {:induction false} ConfirmedIffMailed(ts: seq<Tool>)
    ensures Run(Start, ts).data.confirmed <==> |Run(Start, ts).sent| > 0
  {
    if ts != [] {
      ConfirmedIffMailed(ts[..|ts| - 1]);
    }
  }

  /**
   * After any conversation from a fresh record, a confirm call mails a
   * summary exactly when the last value given for every slot is non-empty.
   */
  lemma ConfirmSucceedsIff(ts: seq<Tool>)
    ensures |Step(Run(Start, ts), Confirm).session.sent| == |Run(Start, ts).sent| + 1
       <==> forall s: Slot :: Truthy(LastWrite(ts, s))
  {
    forall s: Slot
      ensures SlotOf(Run(Start, ts).data, s) == LastWrite(ts, s)
    {
      RunSlot(Start, ts, s);
    }
    var d := Run(Start, ts).data;
    assert IsComplete(d) <==> forall s: Slot :: Truthy(SlotOf(d, s)) by {
      assert SlotOf(d, ApartmentNumber) == d.apartmentNumber;
      assert SlotOf(d, ResidentName) == d.residentName;
      assert SlotOf(d, VisitorName) == d.visitorName;
      assert SlotOf(d, VisitReason) == d.visitReason;
    }
    if IsComplete(d) {
      ConfirmComplete(Run(Start, ts));
    } else {
      ConfirmIncomplete(Run(Start, ts));
      var s: Slot :| !Truthy(SlotOf(d, s));
      assert !Truthy(LastWrite(ts, s));
    }
  }

  // ---------------------------------------------------------------------
  // A conversation through the tool methods
  // ---------------------------------------------------------------------

  /**
   * A visitor gives all four details, then a changed reason, and confirms:
   * exactly one summary is mailed, holding the last reason given.
   */
  method ExampleVisit() returns (reply: string, mailed: seq<Summary>)
    ensures mailed == [[("apartment_number", "12B"), ("resident_name", "Alice"),
                        ("visit_reason", "delivery"), ("visitor_name", "Bob")]]
    ensures reply == SentPrefix + Render(mailed[0])
  {
    var userdata := new VisitorData();
    var outbox := new Outbox();
    var r := UpdateApartment("12B", userdata);
    r := UpdateResident("Alice", userdata);
    r := UpdateVisitor("Bob", userdata);
    r := UpdateReason("parcel", userdata);
    r := UpdateReason("delivery", userdata);
    assert userdata.Snapshot() == Record(Some("12B"), Some("Alice"), Some("Bob"), Some("delivery"), false);
    reply := ConfirmVisit(userdata, outbox);
    mailed := outbox.sent;
  }
}
