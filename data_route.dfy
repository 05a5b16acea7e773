/** The data route (app/api/data/route.js). GET picks a read by its `type`
    parameter and wraps the rows its queries returned; POST applies one of six
    write actions to the store.

    The query results are parameters: the model does not run queries, so the
    ordering, filtering and limits the queries ask for are properties of the
    rows handed in. A query whose `data` is null is `None`. */
module DataRoute {
  import opened Records
  import opened Seqs
  import opened Counting

  // ===========================================================================
  // GET

  datatype ReadType =
    | OverviewRead | UsersRead | UserDetailRead | SubscriptionsRead | TicketsRead
    | FeedbackRead | AiAnalyticsRead | TipsRead | DrillsRead

  function TypeName(t: ReadType): string
  {
    match t
    case OverviewRead => "overview"
    case UsersRead => "users"
    case UserDetailRead => "user_detail"
    case SubscriptionsRead => "subscriptions"
    case TicketsRead => "tickets"
    case FeedbackRead => "feedback"
    case AiAnalyticsRead => "ai_analytics"
    case TipsRead => "tips"
    case DrillsRead => "drills"
  }

  /** The `switch (type)`: None for a missing or unknown type. */
  function ParseType(s: Option<string>): (r: Option<ReadType>)
    ensures r.Some? ==> s == Some(TypeName(r.value))
  {
    if s.None? then None
    else if s.value == "overview" then Some(OverviewRead)
    else if s.value == "users" then Some(UsersRead)
    else if s.value == "user_detail" then Some(UserDetailRead)
    else if s.value == "subscriptions" then Some(SubscriptionsRead)
    else if s.value == "tickets" then Some(TicketsRead)
    else if s.value == "feedback" then Some(FeedbackRead)
    else if s.value == "ai_analytics" then Some(AiAnalyticsRead)
    else if s.value == "tips" then Some(TipsRead)
    else if s.value == "drills" then Some(DrillsRead)
    else None
  }

  /** Every read type is reached by its own name, and only a string that names one is. */
  lemma ParseTypeInverse(s: Option<string>)
    ensures forall t :: ParseType(Some(TypeName(t))) == Some(t)
    ensures ParseType(s).None? <==> forall t :: s != Some(TypeName(t))
  {
    forall t ensures ParseType(Some(TypeName(t))) == Some(t) {
      match t
      case OverviewRead =>
      case UsersRead =>
      case UserDetailRead =>
      case SubscriptionsRead =>
      case TicketsRead =>
      case FeedbackRead =>
      case AiAnalyticsRead =>
      case TipsRead =>
      case DrillsRead =>
    }
  }

  datatype Row<F> = Row(id: nat, fields: F)

  /** What the queries of a read returned; each read looks only at its own queries.
      roundOwners and swingOwners are the `user_id` columns the users read selects. */
  datatype Fetched = Fetched(
    profiles: Option<seq<Profile>>,
    rounds: Option<seq<Round>>,
    swings: Option<seq<Swing>>,
    conversations: Option<seq<Conversation>>,
    tickets: Option<seq<Ticket>>,
    feedback: Option<seq<Feedback>>,
    tips: Option<seq<Row<TipFields>>>,
    drills: Option<seq<Row<DrillFields>>>,
    profile: Option<Profile>,
    roundOwners: Option<seq<string>>,
    swingOwners: Option<seq<string>>)

  /** `data || []` */
  function OrEmpty<T>(d: Option<seq<T>>): seq<T>
  {
    if d.Some? then d.value else []
  }

  datatype UserRow = UserRow(profile: Profile, roundsCount: nat, swingsCount: nat)

  datatype Body =
    | OverviewBody(profiles: seq<Profile>, rounds: seq<Round>, swings: seq<Swing>,
                   conversations: seq<Conversation>, tickets: seq<Ticket>, feedback: seq<Feedback>)
    | UsersBody(users: seq<UserRow>)
    | UserDetailBody(profile: Option<Profile>, rounds: seq<Round>, swings: seq<Swing>,
                     conversations: seq<Conversation>, tickets: seq<Ticket>)
    | SubscriptionsBody(subscriptions: seq<Profile>)
    | TicketsBody(tickets: seq<Ticket>)
    | FeedbackBody(feedback: seq<Feedback>)
    | ConversationsBody(conversations: seq<Conversation>)
    | TipsBody(tips: seq<Row<TipFields>>)
    | DrillsBody(drills: seq<Row<DrillFields>>)

  datatype Response = Ok(body: Body) | Failure(status: nat, error: string)

  lemma OwnerCounts(owners: seq<string>)
    ensures forall u :: Get(Tally([], owners), u) == Occurrences(owners, u)
  {
    forall u ensures Get(Tally([], owners), u) == Occurrences(owners, u) {
      TallyGet([], owners, u);
    }
  }

  /** The users read: every profile, in the order fetched and otherwise unchanged,
      with the number of rounds and of swing analyses whose user_id is its id. */
  function UsersListing(ps: seq<Profile>, roundOwners: seq<string>, swingOwners: seq<string>): (r: seq<UserRow>)
    ensures |r| == |ps|
    ensures forall i :: 0 <= i < |ps| ==>
      && r[i].profile == ps[i]
      && r[i].roundsCount == Occurrences(roundOwners, ps[i].id)
      && r[i].swingsCount == Occurrences(swingOwners, ps[i].id)
  {
    var rc, sc := Tally([], roundOwners), Tally([], swingOwners);
    OwnerCounts(roundOwners);
    OwnerCounts(swingOwners);
    seq(|ps|, i requires 0 <= i < |ps| => UserRow(ps[i], Get(rc, ps[i].id), Get(sc, ps[i].id)))
  }

  /** The two counting `forEach` loops of the users read, then the `map` over profiles. */
  method ListUsers(ps: seq<Profile>, roundOwners: seq<string>, swingOwners: seq<string>) returns (users: seq<UserRow>)
    ensures users == UsersListing(ps, roundOwners, swingOwners)
  {
    var rc := CountKeys([], roundOwners);
    var sc := CountKeys([], swingOwners);
    users := seq(|ps|, i requires 0 <= i < |ps| => UserRow(ps[i], Get(rc, ps[i].id), Get(sc, ps[i].id)));
  }

  /** The body of a known read; every list is the rows fetched, or empty when null. */
  function BodyFor(t: ReadType, f: Fetched): Body
  {
    match t
    case OverviewRead =>
      OverviewBody(OrEmpty(f.profiles), OrEmpty(f.rounds), OrEmpty(f.swings),
                   OrEmpty(f.conversations), OrEmpty(f.tickets), OrEmpty(f.feedback))
    case UsersRead =>
      UsersBody(UsersListing(OrEmpty(f.profiles), OrEmpty(f.roundOwners), OrEmpty(f.swingOwners)))
    case UserDetailRead =>
      UserDetailBody(f.profile, OrEmpty(f.rounds), OrEmpty(f.swings), OrEmpty(f.conversations), OrEmpty(f.tickets))
    case SubscriptionsRead => SubscriptionsBody(OrEmpty(f.profiles))
    case TicketsRead => TicketsBody(OrEmpty(f.tickets))
    case FeedbackRead => FeedbackBody(OrEmpty(f.feedback))
    case AiAnalyticsRead => ConversationsBody(OrEmpty(f.conversations))
    case TipsRead => TipsBody(OrEmpty(f.tips))
    case DrillsRead => DrillsBody(OrEmpty(f.drills))
  }

  /** GET: an unknown or missing type is refused with 400 'Invalid type'; any known
      type is answered with its body. */
  function Respond(requested: Option<string>, f: Fetched): (r: Response)
    ensures r.Failure? <==> forall t :: requested != Some(TypeName(t))
    ensures r.Failure? ==> r == Failure(400, "Invalid type")
    ensures forall t :: requested == Some(TypeName(t)) ==> r == Ok(BodyFor(t, f))
  {
    ParseTypeInverse(requested);
    match ParseType(requested)
    case None => Failure(400, "Invalid type")
    case Some(t) => Ok(BodyFor(t, f))
  }

  /** A list query that returned null reaches the page as an empty list, never as null,
      in every read that carries that list; a user with no rounds or swings counts 0 of
      them when the owner query returned null. The single profile of user_detail has no
      default and is passed on as it came. */
  lemma NullListsBecomeEmpty(f: Fetched)
    ensures f.profiles.None? ==>
      && Respond(Some("overview"), f).body.profiles == []
      && Respond(Some("users"), f).body.users == []
      && Respond(Some("subscriptions"), f).body.subscriptions == []
    ensures f.rounds.None? ==>
      && Respond(Some("overview"), f).body.rounds == []
      && Respond(Some("user_detail"), f).body.rounds == []
    ensures f.swings.None? ==>
      && Respond(Some("overview"), f).body.swings == []
      && Respond(Some("user_detail"), f).body.swings == []
    ensures f.conversations.None? ==>
      && Respond(Some("overview"), f).body.conversations == []
      && Respond(Some("user_detail"), f).body.conversations == []
      && Respond(Some("ai_analytics"), f).body.conversations == []
    ensures f.tickets.None? ==>
      && Respond(Some("overview"), f).body.tickets == []
      && Respond(Some("user_detail"), f).body.tickets == []
      && Respond(Some("tickets"), f).body.tickets == []
    ensures f.feedback.None? ==>
      && Respond(Some("overview"), f).body.feedback == []
      && Respond(Some("feedback"), f).body.feedback == []
    ensures f.tips.None? ==> Respond(Some("tips"), f).body.tips == []
    ensures f.drills.None? ==> Respond(Some("drills"), f).body.drills == []
    ensures f.roundOwners.None? ==> forall u :: u in Respond(Some("users"), f).body.users ==> u.roundsCount == 0
    ensures f.swingOwners.None? ==> forall u :: u in Respond(Some("users"), f).body.users ==> u.swingsCount == 0
    ensures Respond(Some("user_detail"), f).body.profile == f.profile
  {
    assert "overview" == TypeName(OverviewRead);
    assert "users" == TypeName(UsersRead);
    assert "user_detail" == TypeName(UserDetailRead);
    assert "subscriptions" == TypeName(SubscriptionsRead);
    assert "tickets" == TypeName(TicketsRead);
    assert "feedback" == TypeName(FeedbackRead);
    assert "ai_analytics" == TypeName(AiAnalyticsRead);
    assert "tips" == TypeName(TipsRead);
    assert "drills" == TypeName(DrillsRead);
  }

  // ===========================================================================
  // POST: row updates

  /** `{ subscription_tier: tier, subscription_status: status }` applied to one row. */
  function WithSubscription(p: Profile, tier: string, status: string): Profile
  {
    p.(tier := tier, status := status)
  }

  /** `update(...).eq('id', userId)` on profiles: every row with that id gets the new
      tier and status, and no other row and no other column changes. */
  function SubscriptionUpdated(ps: seq<Profile>, userId: string, tier: string, status: string): (r: seq<Profile>)
    ensures |r| == |ps|
    ensures forall i :: 0 <= i < |ps| ==>
      if ps[i].id == userId then r[i] == ps[i].(tier := tier, status := status) else r[i] == ps[i]
  {
    seq(|ps|, i requires 0 <= i < |ps| => if ps[i].id == userId then WithSubscription(ps[i], tier, status) else ps[i])
  }

  /** Setting the same subscription twice is the same as setting it once. */
  lemma SubscriptionUpdateIdempotent(ps: seq<Profile>, userId: string, tier: string, status: string)
    ensures SubscriptionUpdated(SubscriptionUpdated(ps, userId, tier, status), userId, tier, status)
         == SubscriptionUpdated(ps, userId, tier, status)
  {
  }

  /** The `admin_notes` member of an update_ticket body: absent, or present with a
      string or null. */
  datatype NotesField = Omitted | Sent(notes: Option<string>)

  /** `updates = { status }`, plus admin_notes when it was sent, applied to one row. */
  function StoredTicket(t: Ticket, status: string, notes: NotesField): (r: Ticket)
    ensures r.status == status
    ensures r.adminNotes == if notes.Sent? then notes.notes else t.adminNotes
    ensures r.(status := t.status, adminNotes := t.adminNotes) == t
  {
    if notes.Sent? then t.(status := status, adminNotes := notes.notes) else t.(status := status)
  }

  /** `update(updates).eq('id', ticketId)` on support_tickets. */
  function TicketUpdated(ts: seq<Ticket>, ticketId: string, status: string, notes: NotesField): (r: seq<Ticket>)
    ensures |r| == |ts|
    ensures forall i :: 0 <= i < |ts| ==> r[i] == if ts[i].id == ticketId then StoredTicket(ts[i], status, notes) else ts[i]
  {
    seq(|ts|, i requires 0 <= i < |ts| => if ts[i].id == ticketId then StoredTicket(ts[i], status, notes) else ts[i])
  }

  /** A status-only update never touches the notes; a second identical update changes nothing. */
  lemma TicketUpdateFacts(ts: seq<Ticket>, ticketId: string, status: string, notes: NotesField)
    ensures forall i :: 0 <= i < |ts| ==> TicketUpdated(ts, ticketId, status, Omitted)[i].adminNotes == ts[i].adminNotes
    ensures TicketUpdated(TicketUpdated(ts, ticketId, status, notes), ticketId, status, notes)
         == TicketUpdated(ts, ticketId, status, notes)
  {
    var once := TicketUpdated(ts, ticketId, status, notes);
    assert forall i :: 0 <= i < |ts| ==> once[i].id == ts[i].id;
  }

  // ===========================================================================
  // POST: content tables

  /** A tip or drill as the editor sends it; new ones have no id. */
  datatype Draft<F> = Draft(id: Option<nat>, fields: F)

  /** `if (tip.id)`: 0 is falsy, like a missing id. */
  predicate HasRowId<F>(d: Draft<F>)
  {
    d.id.Some? && d.id.value != 0
  }

  /** A table whose ids are distinct and were all handed out before next (ids start at 1). */
  ghost predicate Table<F>(rows: seq<Row<F>>, next: nat)
  {
    && 1 <= next
    && (forall i :: 0 <= i < |rows| ==> 1 <= rows[i].id < next)
    && (forall i, j :: 0 <= i < j < |rows| ==> rows[i].id != rows[j].id)
  }

  /** The fields of the row with this id, if there is one. */
  function Find<F>(rows: seq<Row<F>>, id: nat): (r: Option<F>)
    ensures r.None? <==> forall i :: 0 <= i < |rows| ==> rows[i].id != id
  {
    if rows == [] then None
    else if rows[0].id == id then Some(rows[0].fields)
    else Find(rows[1..], id)
  }

  /** `update(rest).eq('id', id)` on a content table. */
  function Replaced<F>(rows: seq<Row<F>>, id: nat, fields: F): (r: seq<Row<F>>)
    ensures |r| == |rows|
    ensures forall i :: 0 <= i < |rows| ==> r[i].id == rows[i].id
  {
    seq(|rows|, i requires 0 <= i < |rows| => if rows[i].id == id then Row(id, fields) else rows[i])
  }

  function NotId<F>(id: nat): Row<F> -> bool
  {
    (r: Row<F>) => r.id != id
  }

  /** `delete().eq('id', id)` on a content table. */
  function Deleted<F>(rows: seq<Row<F>>, id: nat): (r: seq<Row<F>>)
    ensures SubsequenceOf(r, rows)
    ensures forall x :: x in r ==> x.id != id
    ensures forall x :: x in rows && x.id != id ==> multiset(r)[x] == multiset(rows)[x]
  {
    FilterFacts(rows, NotId(id));
    Filter(rows, NotId(id))
  }

  /** save_tip / save_drill: update the row with the draft's id, or insert a new row
      under the next id. */
  function Saved<F>(rows: seq<Row<F>>, d: Draft<F>, next: nat): seq<Row<F>>
  {
    if HasRowId(d) then Replaced(rows, d.id.value, d.fields) else rows + [Row(next, d.fields)]
  }

  function NextAfterSave<F>(d: Draft<F>, next: nat): nat
  {
    if HasRowId(d) then next else next + 1
  }

  lemma {:induction false} FindReplaced<F>(rows: seq<Row<F>>, id: nat, fields: F, k: nat)
    ensures Find(Replaced(rows, id, fields), k)
         == if k == id && Find(rows, id).Some? then Some(fields) else Find(rows, k)
  {
    if rows != [] {
      assert Replaced(rows, id, fields)[1..] == Replaced(rows[1..], id, fields);
      FindReplaced(rows[1..], id, fields, k);
    }
  }

  lemma {:induction false} FindAppended<F>(rows: seq<Row<F>>, x: Row<F>, k: nat)
    ensures Find(rows + [x], k) == if Find(rows, k).Some? then Find(rows, k) else if x.id == k then Some(x.fields) else None
  {
    if rows != [] {
      assert (rows + [x])[1..] == rows[1..] + [x];
      FindAppended(rows[1..], x, k);
    }
  }

  lemma {:induction false} FindDeleted<F>(rows: seq<Row<F>>, id: nat, k: nat)
    ensures Find(Deleted(rows, id), k) == if k == id then None else Find(rows, k)
  {
    if rows != [] {
      FindDeleted(rows[1..], id, k);
      if rows[0].id != id {
        assert Deleted(rows, id) == [rows[0]] + Deleted(rows[1..], id);
      } else {
        assert Deleted(rows, id) == Deleted(rows[1..], id);
      }
    }
  }

  /** Saving then reading back: the saved id now holds the draft's fields (an update
      of an id that is not there changes nothing), every other id reads as before, and
      the table stays well formed. */
  lemma SaveThenFind<F>(rows: seq<Row<F>>, d: Draft<F>, next: nat, k: nat)
    requires Table(rows, next)
    ensures Table(Saved(rows, d, next), NextAfterSave(d, next))
    ensures var saved := Saved(rows, d, next);
      var id := if HasRowId(d) then d.id.value else next;
      && (Find(saved, id) == if HasRowId(d) && Find(rows, id).None? then None else Some(d.fields))
      && (k != id ==> Find(saved, k) == Find(rows, k))
  {
    if HasRowId(d) {
      FindReplaced(rows, d.id.value, d.fields, k);
      FindReplaced(rows, d.id.value, d.fields, d.id.value);
    } else {
      var saved := rows + [Row(next, d.fields)];
      FindAppended(rows, Row(next, d.fields), k);
      FindAppended(rows, Row(next, d.fields), next);
      forall i, j | 0 <= i < j < |saved| ensures saved[i].id != saved[j].id {
        assert saved[i] == rows[i];
      }
    }
  }

  /** Deleting then reading back: the id is gone and every other id reads as before. */
  lemma DeleteThenFind<F>(rows: seq<Row<F>>, id: nat, next: nat, k: nat)
    requires Table(rows, next)
    ensures Table(Deleted(rows, id), next)
    ensures Find(Deleted(rows, id), id) == None
    ensures k != id ==> Find(Deleted(rows, id), k) == Find(rows, k)
  {
    FindDeleted(rows, id, k);
    FindDeleted(rows, id, id);
    var d := Deleted(rows, id);
    var idx := FilterEmbeds(rows, NotId(id));
    forall i | 0 <= i < |d| ensures 1 <= d[i].id < next {
      assert d[i] == rows[idx[i]];
    }
    forall i, j | 0 <= i < j < |d| ensures d[i].id != d[j].id {
      assert d[i] == rows[idx[i]] && d[j] == rows[idx[j]];
    }
  }

  // ===========================================================================
  // POST: the store and the action dispatch

  /** The request body, already decoded; Other stands for a body whose action names
      none of the six cases. */
  datatype Action =
    | UpdateSubscription(userId: string, tier: string, status: string)
    | UpdateTicket(ticketId: string, ticketStatus: string, adminNotes: NotesField)
    | SaveTip(tip: Draft<TipFields>)
    | DeleteTip(tipId: nat)
    | SaveDrill(drill: Draft<DrillFields>)
    | DeleteDrill(drillId: nat)
    | Other(action: Option<string>)

  datatype PostResult = Success | Rejected(status: nat, error: string)

  /** The tables the write actions touch. */
  datatype Tables = Tables(
    profiles: seq<Profile>,
    tickets: seq<Ticket>,
    tips: seq<Row<TipFields>>,
    drills: seq<Row<DrillFields>>,
    nextTipId: nat,
    nextDrillId: nat)

  ghost predicate Consistent(t: Tables)
  {
    Table(t.tips, t.nextTipId) && Table(t.drills, t.nextDrillId)
  }

  /** What one action does to the tables. */
  function Apply(t: Tables, a: Action): Tables
  {
    match a
    case UpdateSubscription(u, tier, status) => t.(profiles := SubscriptionUpdated(t.profiles, u, tier, status))
    case UpdateTicket(id, status, notes) => t.(tickets := TicketUpdated(t.tickets, id, status, notes))
    case SaveTip(d) => t.(tips := Saved(t.tips, d, t.nextTipId), nextTipId := NextAfterSave(d, t.nextTipId))
    case DeleteTip(id) => t.(tips := Deleted(t.tips, id))
    case SaveDrill(d) => t.(drills := Saved(t.drills, d, t.nextDrillId), nextDrillId := NextAfterSave(d, t.nextDrillId))
    case DeleteDrill(id) => t.(drills := Deleted(t.drills, id))
    case Other(_) => t
  }

  function Outcome(a: Action): PostResult
  {
    if a.Other? then Rejected(400, "Invalid action") else Success
  }

  /** Every action keeps the tables well formed; an unknown action is refused with
      400 'Invalid action' and changes nothing; each known action succeeds. */
  lemma ApplyFacts(t: Tables, a: Action)
    requires Consistent(t)
    ensures Consistent(Apply(t, a))
    ensures Outcome(a).Rejected? <==> a.Other?
    ensures a.Other? ==> Apply(t, a) == t && Outcome(a) == Rejected(400, "Invalid action")
  {
    match a
    case SaveTip(d) => SaveThenFind(t.tips, d, t.nextTipId, 0);
    case DeleteTip(id) => DeleteThenFind(t.tips, id, t.nextTipId, 0);
    case SaveDrill(d) => SaveThenFind(t.drills, d, t.nextDrillId, 0);
    case DeleteDrill(id) => DeleteThenFind(t.drills, id, t.nextDrillId, 0);
    case _ =>
  }

  /** The database tables the POST handler writes to. */
  class Store {
    var profiles: seq<Profile>
    var tickets: seq<Ticket>
    var tips: seq<Row<TipFields>>
    var drills: seq<Row<DrillFields>>
    var nextTipId: nat
    var nextDrillId: nat

    ghost function Snapshot(): Tables
      reads this
    {
      Tables(profiles, tickets, tips, drills, nextTipId, nextDrillId)
    }

    ghost predicate Valid()
      reads this
    {
      Consistent(Snapshot())
    }

    constructor(ps: seq<Profile>, ts: seq<Ticket>)
      ensures Valid()
      ensures profiles == ps && tickets == ts && tips == [] && drills == []
    {
      profiles, tickets, tips, drills := ps, ts, [], [];
      nextTipId, nextDrillId := 1, 1;
    }

    method UpdateSubscription(userId: string, tier: string, status: string)
      requires Valid()
      modifies this
      ensures Valid()
      ensures profiles == SubscriptionUpdated(old(profiles), userId, tier, status)
      ensures tickets == old(tickets) && tips == old(tips) && drills == old(drills)
      ensures nextTipId == old(nextTipId) && nextDrillId == old(nextDrillId)
    {
      profiles := SubscriptionUpdated(profiles, userId, tier, status);
    }

    method UpdateTicket(ticketId: string, status: string, notes: NotesField)
      requires Valid()
      modifies this
      ensures Valid()
      ensures tickets == TicketUpdated(old(tickets), ticketId, status, notes)
      ensures profiles == old(profiles) && tips == old(tips) && drills == old(drills)
      ensures nextTipId == old(nextTipId) && nextDrillId == old(nextDrillId)
    {
      tickets := TicketUpdated(tickets, ticketId, status, notes);
    }

    method SaveTip(d: Draft<TipFields>)
      requires Valid()
      modifies this
      ensures Valid()
      ensures tips == Saved(old(tips), d, old(nextTipId)) && nextTipId == NextAfterSave(d, old(nextTipId))
      ensures profiles == old(profiles) && tickets == old(tickets) && drills == old(drills)
      ensures nextDrillId == old(nextDrillId)
    {
      SaveThenFind(tips, d, nextTipId, 0);
      tips, nextTipId := Saved(tips, d, nextTipId), NextAfterSave(d, nextTipId);
    }

    method DeleteTip(id: nat)
      requires Valid()
      modifies this
      ensures Valid()
      ensures tips == Deleted(old(tips), id)
      ensures profiles == old(profiles) && tickets == old(tickets) && drills == old(drills)
      ensures nextTipId == old(nextTipId) && nextDrillId == old(nextDrillId)
    {
      DeleteThenFind(tips, id, nextTipId, 0);
      tips := Deleted(tips, id);
    }

    method SaveDrill(d: Draft<DrillFields>)
      requires Valid()
      modifies this
      ensures Valid()
      ensures drills == Saved(old(drills), d, old(nextDrillId)) && nextDrillId == NextAfterSave(d, old(nextDrillId))
      ensures profiles == old(profiles) && tickets == old(tickets) && tips == old(tips)
      ensures nextTipId == old(nextTipId)
    {
      SaveThenFind(drills, d, nextDrillId, 0);
      drills, nextDrillId := Saved(drills, d, nextDrillId), NextAfterSave(d, nextDrillId);
    }

    method DeleteDrill(id: nat)
      requires Valid()
      modifies this
      ensures Valid()
      ensures drills == Deleted(old(drills), id)
      ensures profiles == old(profiles) && tickets == old(tickets) && tips == old(tips)
      ensures nextTipId == old(nextTipId) && nextDrillId == old(nextDrillId)
    {
      DeleteThenFind(drills, id, nextDrillId, 0);
      drills := Deleted(drills, id);
    }

    /** POST: the `switch (action)`. */
    method Post(a: Action) returns (r: PostResult)
      requires Valid()
      modifies this
      ensures Valid()
      ensures r == Outcome(a)
      ensures Snapshot() == Apply(old(Snapshot()), a)
    {
      match a {
        case UpdateSubscription(u, tier, status) => UpdateSubscription(u, tier, status);
        case UpdateTicket(id, status, notes) => UpdateTicket(id, status, notes);
        case SaveTip(d) => SaveTip(d);
        case DeleteTip(id) => DeleteTip(id);
        case SaveDrill(d) => SaveDrill(d);
        case DeleteDrill(id) => DeleteDrill(id);
        case Other(_) =>
      }
      r := Outcome(a);
    }
  }
}
