/** The rows the dashboard reads from its store, and the clock they are stamped with.

    Timestamps are integers on the dashboard's local wall clock, in milliseconds.
    A calendar day is the integer day number of a timestamp, so "the same day" in
    the source (two timestamps formatted as the same 'yyyy-MM-dd') is equality of
    day numbers here. */
module Records {

  datatype Option<T> = None | Some(value: T)

  /** Milliseconds in one calendar day. */
  const DayLength: int := 86_400_000

  /** The calendar day a timestamp falls on. */
  function Day(t: int): int
  {
    t / DayLength
  }

  /** `subDays(now, n)`. */
  function DaysBefore(now: int, n: int): int
  {
    now - n * DayLength
  }

  /** `addDays(now, n)`. */
  function DaysAfter(now: int, n: int): int
  {
    now + n * DayLength
  }

  /** Going back n whole days moves the calendar day back by exactly n. */
  lemma DayShift(now: int, n: int)
    ensures Day(DaysBefore(now, n)) == Day(now) - n
  {
    var q, r := now / DayLength, now % DayLength;
    assert DaysBefore(now, n) == (q - n) * DayLength + r;
  }

  /** JavaScript truthiness of an optional text field: null, undefined and '' are falsy. */
  predicate Truthy(s: Option<string>)
  {
    s.Some? && s.value != ""
  }

  /** `s || fallback` for an optional text field: the text itself when there is some,
      otherwise the fallback, so a non-empty fallback never yields ''. */
  function OrElse(s: Option<string>, fallback: string): (r: string)
    ensures r == fallback || (s.Some? && r == s.value && r != "")
    ensures fallback != "" ==> r != ""
    ensures Truthy(s) ==> r == s.value
  {
    if Truthy(s) then s.value else fallback
  }

  datatype ChatMessage = ChatMessage(role: string, content: string)

  /** The `messages` column of a conversation: missing (null or undefined),
      present but not an array, or an array of messages. */
  datatype MessagesField = Missing | NotAList | List(items: seq<ChatMessage>)

  /** `c.messages ? (Array.isArray(c.messages) ? c.messages.length : 0) : 0` */
  function MessageCount(m: MessagesField): nat
  {
    match m
    case List(items) => |items|
    case _ => 0
  }

  datatype Profile = Profile(
    id: string,
    displayName: Option<string>,
    email: Option<string>,
    tier: string,            // subscription_tier: free, premium, pro, or anything else the store holds
    status: string,          // subscription_status: active, trial, expired, cancelled, ...
    trialEnd: Option<int>,   // trial_end_date; None when null or empty
    createdAt: int,
    updatedAt: int)

  datatype Round = Round(id: string, userId: string, totalScore: int, datePlayed: int, createdAt: int)

  datatype Swing = Swing(id: string, userId: string, createdAt: int)

  datatype Conversation = Conversation(
    id: string,
    userId: string,
    topic: Option<string>,
    messages: MessagesField,
    createdAt: int)

  datatype Ticket = Ticket(
    id: string,
    userId: string,
    subject: string,
    description: string,
    status: string,          // open, in_progress, resolved, closed, ...
    priority: string,
    adminNotes: Option<string>,
    createdAt: int)

  datatype Feedback = Feedback(
    id: string,
    feedbackType: string,    // bug, feature_request, general, complaint, ...
    screenName: string,
    message: string,
    createdAt: int)

  datatype TipFields = TipFields(
    title: string,
    body: string,
    category: string,
    displayOrder: int,
    isPublished: bool)

  datatype DrillFields = DrillFields(
    title: string,
    description: string,
    category: string,
    difficulty: string,
    durationMinutes: int,
    isPublished: bool,
    isPremium: bool,
    displayOrder: int)

  /** A conversation's message count, as every page computes it. */
  function ConvoLength(c: Conversation): nat
  {
    MessageCount(c.messages)
  }

  /** The sum of the message counts of a list of conversations (the `reduce` the pages use). */
  function TotalMessages(cs: seq<Conversation>): (r: nat)
    ensures forall i :: 0 <= i < |cs| ==> ConvoLength(cs[i]) <= r
    ensures (forall i :: 0 <= i < |cs| ==> !cs[i].messages.List?) ==> r == 0
  {
    if cs == [] then 0 else ConvoLength(cs[0]) + TotalMessages(cs[1..])
  }

  lemma {:induction false} TotalMessagesAppend(a: seq<Conversation>, b: seq<Conversation>)
    ensures TotalMessages(a + b) == TotalMessages(a) + TotalMessages(b)
  {
    if a == [] {
      assert a + b == b;
    } else {
      assert (a + b)[1..] == a[1..] + b;
      TotalMessagesAppend(a[1..], b);
    }
  }
}
