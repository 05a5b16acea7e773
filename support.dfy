/** The support page (app/dashboard/support/page.js): ticket counts by status,
    the status filter, and the local copy of a ticket after an update. */
module Support {
  import opened Records
  import opened Seqs
  import opened Counting
  import DataRoute

  const StatusOrder: seq<string> := ["open", "in_progress", "resolved", "closed"]

  function StatusKeys(ts: seq<Ticket>): (ks: seq<string>)
    ensures |ks| == |ts|
    ensures forall i :: 0 <= i < |ts| ==> ks[i] == ts[i].status
  {
    seq(|ts|, i requires 0 <= i < |ts| => ts[i].status)
  }

  /** The status `forEach` over a seeded dictionary: the four statuses lead, each status
      counts exactly its tickets, any other status follows in first-seen order, and the
      counts add up to the number of tickets. */
  method CountStatuses(ts: seq<Ticket>) returns (c: seq<Entry>)
    ensures c == Tally(Zeros(StatusOrder), StatusKeys(ts))
    ensures |c| >= 4 && KeysOf(c)[..4] == StatusOrder
    ensures Distinct(KeysOf(c))
    ensures Total(c) == |ts|
    ensures forall s :: Get(c, s) == Occurrences(StatusKeys(ts), s)
    ensures forall s :: s in KeysOf(c) <==> s in StatusOrder || s in StatusKeys(ts)
    ensures forall i, j :: 4 <= i < j < |c| ==> FirstIndex(StatusKeys(ts), c[i].key) < FirstIndex(StatusKeys(ts), c[j].key)
  {
    assert Distinct(StatusOrder);
    c := CountKeys(Zeros(StatusOrder), StatusKeys(ts));
    SeededTally(StatusOrder, StatusKeys(ts));
  }

  /** The tickets shown: all of them for 'all', otherwise those with that status, in
      their original order and with their multiplicity. */
  function ByStatus(filter: string, ts: seq<Ticket>): (r: seq<Ticket>)
    ensures filter == "all" ==> r == ts
    ensures SubsequenceOf(r, ts)
    ensures filter != "all" ==> forall t :: t in r ==> t.status == filter
    ensures filter != "all" ==> forall t: Ticket :: t.status == filter ==> multiset(r)[t] == multiset(ts)[t]
  {
    if filter == "all" then
      SubsequenceOfSelf(ts);
      ts
    else
      var keep := (t: Ticket) => t.status == filter;
      FilterFacts(ts, keep);
      Filter(ts, keep)
  }

  /** A status filter shows as many tickets as the counter for that status says. */
  lemma {:induction false} ByStatusMatchesCount(filter: string, ts: seq<Ticket>)
    requires filter != "all"
    ensures |ByStatus(filter, ts)| == Occurrences(StatusKeys(ts), filter)
    decreases |ts|
  {
    var keep := (t: Ticket) => t.status == filter;
    if ts != [] {
      var init := ts[..|ts| - 1];
      assert ts == init + [ts[|ts| - 1]];
      FilterConcat(init, [ts[|ts| - 1]], keep);
      ByStatusMatchesCount(filter, init);
      assert StatusKeys(ts)[..|ts| - 1] == StatusKeys(init);
    }
  }

  // ---------------------------------------------------------------------------
  // updateTicket(ticketId, status, notes)

  /** The notes argument as the request body carries it. The status buttons pass no
      notes, and `JSON.stringify` leaves the undefined member out; Save Notes passes the
      textarea's text, which may be empty. */
  function SentNotes(notes: Option<string>): DataRoute.NotesField
  {
    if notes.Some? then DataRoute.Sent(notes) else DataRoute.Omitted
  }

  /** The page's local copy of an updated ticket, as written:
      `{ ...t, status, admin_notes: notes || t.admin_notes }`. */
  function LocalTicketAsWritten(t: Ticket, status: string, notes: Option<string>): (r: Ticket)
    ensures r.status == status
    ensures r.adminNotes == if Truthy(notes) then notes else t.adminNotes
    ensures r.(status := t.status, adminNotes := t.adminNotes) == t
  {
    t.(status := status, adminNotes := if Truthy(notes) then notes else t.adminNotes)
  }

  /** Clearing the notes: the store writes the empty text, while the page goes on
      showing the old notes. */
  lemma ClearedNotesDiverge()
    ensures var t := Ticket("t1", "u1", "Login", "Cannot sign in", "open", "high", Some("called back"), 0);
      && LocalTicketAsWritten(t, "open", Some("")).adminNotes == Some("called back")
      && DataRoute.StoredTicket(t, "open", SentNotes(Some(""))).adminNotes == Some("")
  {
  }

  /** The local copy of an updated ticket, corrected: notes that were sent replace the
      old ones as they are, and notes that were not sent leave them alone. */
  function LocalTicket(t: Ticket, status: string, notes: Option<string>): (r: Ticket)
    ensures r.status == status
    ensures r.adminNotes == if notes.Some? then notes else t.adminNotes
    ensures r.(status := t.status, adminNotes := t.adminNotes) == t
  {
    t.(status := status, adminNotes := if notes.Some? then notes else t.adminNotes)
  }

  /** The corrected copy is exactly the row the store now holds. */
  lemma LocalTicketMatchesStore(t: Ticket, status: string, notes: Option<string>)
    ensures LocalTicket(t, status, notes) == DataRoute.StoredTicket(t, status, SentNotes(notes))
  {
  }

  /** The copy as written differs from the corrected one exactly when the notes are
      cleared over notes that were not already empty. */
  lemma AsWrittenDiffersOnlyWhenClearing(t: Ticket, status: string, notes: Option<string>)
    ensures LocalTicketAsWritten(t, status, notes) != LocalTicket(t, status, notes)
        <==> notes == Some("") && t.adminNotes != Some("")
  {
    if notes == Some("") && t.adminNotes != Some("") {
      assert LocalTicketAsWritten(t, status, notes).adminNotes != LocalTicket(t, status, notes).adminNotes;
    }
  }

  /** The page's ticket list after an update, as written: each ticket with the id gets
      `LocalTicketAsWritten`, the rest are untouched. */
  function LocalListAsWritten(ts: seq<Ticket>, ticketId: string, status: string, notes: Option<string>): (r: seq<Ticket>)
    ensures |r| == |ts|
    ensures forall i :: 0 <= i < |ts| ==> r[i].id == ts[i].id
  {
    seq(|ts|, i requires 0 <= i < |ts| =>
      if ts[i].id == ticketId then LocalTicketAsWritten(ts[i], status, notes) else ts[i])
  }

  /** Notes being cleared over a listed ticket whose notes are not already empty. */
  predicate ClearsListedNotes(ts: seq<Ticket>, ticketId: string, notes: Option<string>)
  {
    notes == Some("") && exists i :: 0 <= i < |ts| && ts[i].id == ticketId && ts[i].adminNotes != Some("")
  }

  /** The `map` as written, one ticket at a time. */
  method ApplyLocalUpdateAsWritten(ts: seq<Ticket>, ticketId: string, status: string, notes: Option<string>) returns (r: seq<Ticket>)
    ensures |r| == |ts|
    ensures forall i :: 0 <= i < |ts| ==> r[i] == if ts[i].id == ticketId then LocalTicketAsWritten(ts[i], status, notes) else ts[i]
    ensures r == LocalListAsWritten(ts, ticketId, status, notes)
  {
    r := [];
    var i := 0;
    while i < |ts|
      invariant 0 <= i <= |ts|
      invariant |r| == i
      invariant forall k :: 0 <= k < i ==> r[k] == if ts[k].id == ticketId then LocalTicketAsWritten(ts[k], status, notes) else ts[k]
    {
      var t := if ts[i].id == ticketId then LocalTicketAsWritten(ts[i], status, notes) else ts[i];
      r := r + [t];
      i := i + 1;
    }
  }

  /** The list as written ends up as the store's ticket table exactly when the update
      does not clear notes that a listed ticket with the id still has. */
  lemma LocalListAsWrittenMatchesStoreIff(ts: seq<Ticket>, ticketId: string, status: string, notes: Option<string>)
    ensures LocalListAsWritten(ts, ticketId, status, notes) == DataRoute.TicketUpdated(ts, ticketId, status, SentNotes(notes))
        <==> !ClearsListedNotes(ts, ticketId, notes)
  {
    var local, stored := LocalListAsWritten(ts, ticketId, status, notes), DataRoute.TicketUpdated(ts, ticketId, status, SentNotes(notes));
    forall i | 0 <= i < |ts| && ts[i].id == ticketId
      ensures local[i] == stored[i] <==> !(notes == Some("") && ts[i].adminNotes != Some(""))
    {
      LocalTicketMatchesStore(ts[i], status, notes);
      AsWrittenDiffersOnlyWhenClearing(ts[i], status, notes);
    }
    if ClearsListedNotes(ts, ticketId, notes) {
      var i :| 0 <= i < |ts| && ts[i].id == ticketId && ts[i].adminNotes != Some("");
      assert local[i] != stored[i];
    } else {
      assert forall i :: 0 <= i < |ts| ==> local[i] == stored[i];
    }
  }

  /** The open panel after an update, as written: `{ ...selected, status, admin_notes:
      notes || selected.admin_notes }` when it shows the ticket. */
  function SelectedAfterUpdateAsWritten(selected: Option<Ticket>, ticketId: string, status: string, notes: Option<string>): (r: Option<Ticket>)
    ensures r.Some? <==> selected.Some?
    ensures !(selected.Some? && selected.value.id == ticketId) ==> r == selected
  {
    if selected.Some? && selected.value.id == ticketId then Some(LocalTicketAsWritten(selected.value, status, notes)) else selected
  }

  /** As written, a panel showing a listed ticket agrees with the list, and it shows the
      stored row exactly when the notes are not being cleared over non-empty notes. */
  lemma SelectedAsWrittenFacts(ts: seq<Ticket>, i: int, ticketId: string, status: string, notes: Option<string>)
    requires 0 <= i < |ts|
    ensures SelectedAfterUpdateAsWritten(Some(ts[i]), ticketId, status, notes)
         == Some(LocalListAsWritten(ts, ticketId, status, notes)[i])
    ensures ts[i].id == ticketId ==>
      (SelectedAfterUpdateAsWritten(Some(ts[i]), ticketId, status, notes)
         == Some(DataRoute.TicketUpdated(ts, ticketId, status, SentNotes(notes))[i])
       <==> !(notes == Some("") && ts[i].adminNotes != Some("")))
  {
    LocalTicketMatchesStore(ts[i], status, notes);
    AsWrittenDiffersOnlyWhenClearing(ts[i], status, notes);
  }

  /** `setTickets(tickets.map(t => t.id === ticketId ? ... : t))`: each ticket with the
      id is updated, the rest are untouched, and the list ends up as the store's table. */
  method ApplyLocalUpdate(ts: seq<Ticket>, ticketId: string, status: string, notes: Option<string>) returns (r: seq<Ticket>)
    ensures |r| == |ts|
    ensures forall i :: 0 <= i < |ts| ==> r[i] == if ts[i].id == ticketId then LocalTicket(ts[i], status, notes) else ts[i]
    ensures r == DataRoute.TicketUpdated(ts, ticketId, status, SentNotes(notes))
  {
    r := [];
    var i := 0;
    while i < |ts|
      invariant 0 <= i <= |ts|
      invariant |r| == i
      invariant forall k :: 0 <= k < i ==> r[k] == if ts[k].id == ticketId then LocalTicket(ts[k], status, notes) else ts[k]
    {
      var t := if ts[i].id == ticketId then LocalTicket(ts[i], status, notes) else ts[i];
      r := r + [t];
      i := i + 1;
    }
    forall k | 0 <= k < |ts| ensures r[k] == DataRoute.TicketUpdated(ts, ticketId, status, SentNotes(notes))[k] {
      LocalTicketMatchesStore(ts[k], status, notes);
    }
  }

  /** `if (selected?.id === ticketId) setSelected(...)`: the open ticket panel. */
  function SelectedAfterUpdate(selected: Option<Ticket>, ticketId: string, status: string, notes: Option<string>): (r: Option<Ticket>)
    ensures selected.Some? && selected.value.id == ticketId ==> r == Some(LocalTicket(selected.value, status, notes))
    ensures !(selected.Some? && selected.value.id == ticketId) ==> r == selected
  {
    if selected.Some? && selected.value.id == ticketId then Some(LocalTicket(selected.value, status, notes)) else selected
  }

  /** A panel showing a listed ticket keeps showing that ticket's updated row. */
  lemma SelectedFollowsList(ts: seq<Ticket>, i: int, ticketId: string, status: string, notes: Option<string>)
    requires 0 <= i < |ts|
    ensures SelectedAfterUpdate(Some(ts[i]), ticketId, status, notes)
         == Some(DataRoute.TicketUpdated(ts, ticketId, status, SentNotes(notes))[i])
  {
    LocalTicketMatchesStore(ts[i], status, notes);
  }
}
