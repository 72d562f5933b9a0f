/**
 * Tickets and chat: the two-party find-or-create of the three
 * *TicketCreateOrRedirectView.post handlers, the per-ticket unseen counts
 * of the ticket lists, the unread badge of every page, posting a message,
 * and marking messages seen when a chat is opened.
 */
module Tickets {
  import opened Wrappers
  import opened Calendar
  import opened Models

  // ---- find-or-create ------------------------------------------------------------

  /** The resolver's test: both users take part and the conversation has exactly two members. */
  predicate IsPairFor(c: Conversation, a: UserId, b: UserId)
  {
    a in c.users && b in c.users && |c.users| == 2
  }

  /**
   * The body of a valid ticket-create POST: walk the conversations holding
   * both users, stop at the first with two members, otherwise create one
   * and add both users.  The walk follows primary-key order.
   */
  method FindOrCreate(s: Store, current: UserId, selected: UserId) returns (s': Store, conv: ConversationId, created: bool)
    ensures !created ==>
      && s' == s
      && conv < |s.conversations|
      && IsPairFor(s.conversations[conv], current, selected)
      && (forall j :: 0 <= j < conv ==> !IsPairFor(s.conversations[j], current, selected))
    ensures created ==>
      && (forall j :: 0 <= j < |s.conversations| ==> !IsPairFor(s.conversations[j], current, selected))
      && conv == |s.conversations|
      && s' == s.(conversations := s.conversations + [Conversation({current, selected})])
  {
    var found: Option<ConversationId> := None;
    var i := 0;
    while i < |s.conversations|
      invariant 0 <= i <= |s.conversations|
      invariant found == None
      invariant forall j :: 0 <= j < i ==> !IsPairFor(s.conversations[j], current, selected)
    {
      var c := s.conversations[i];
      if current in c.users && selected in c.users {
        if |c.users| == 2 {
          found := Some(i);
          break;
        }
      }
      i := i + 1;
    }
    if found.Some? {
      s', conv, created := s, found.value, false;
    } else {
      s' := s.(conversations := s.conversations + [Conversation({current, selected})]);
      conv, created := |s.conversations|, true;
    }
  }

  /** For two distinct users, asking twice yields the same two-member conversation and creates at most one. */
  method FindOrCreateTwice(s: Store, current: UserId, selected: UserId)
    returns (s2: Store, first: ConversationId, second: ConversationId, createdSecond: bool)
    requires current != selected
    ensures first == second && !createdSecond
    ensures |s.conversations| <= |s2.conversations| <= |s.conversations| + 1
    ensures first < |s2.conversations| && s2.conversations[first].users == {current, selected}
    ensures s2.messages == s.messages && s2.activities == s.activities && s2.users == s.users
  {
    var s1, c1, created1 := FindOrCreate(s, current, selected);
    assert IsPairFor(s1.conversations[c1], current, selected);
    var c2;
    s2, c2, createdSecond := FindOrCreate(s1, current, selected);
    first, second := c1, c2;
    PairIsExactlyBoth(s1.conversations[c1], current, selected);
  }

  lemma PairIsExactlyBoth(c: Conversation, a: UserId, b: UserId)
    requires a != b && IsPairFor(c, a, b)
    ensures c.users == {a, b}
  {
    var rest := c.users - {a, b};
    assert c.users == {a, b} + rest;
    assert {a, b} * rest == {};
    assert |{a, b}| == 2;
    assert |rest| == 0;
  }

  /**
   * Asking for a ticket with oneself: no conversation holds only the
   * requester, so when the requester has no two-member conversation, every
   * request creates another one-member conversation.
   */
  method SelfTicketTwice(s: Store, me: UserId) returns (s2: Store, first: ConversationId, second: ConversationId)
    requires forall j :: 0 <= j < |s.conversations| ==> !IsPairFor(s.conversations[j], me, me)
    ensures first == |s.conversations| && second == first + 1
    ensures |s2.conversations| == |s.conversations| + 2
    ensures s2.conversations[first].users == {me} && s2.conversations[second].users == {me}
  {
    var s1, created1, created2;
    s1, first, created1 := FindOrCreate(s, me, me);
    s2, second, created2 := FindOrCreate(s1, me, me);
    assert !IsPairFor(s1.conversations[|s1.conversations| - 1], me, me);
  }

  /**
   * Selecting oneself when one already has a two-member conversation: the
   * resolver's test holds for it (both "users" are the requester), so the
   * request opens the first such conversation, shared with someone else,
   * instead of a self-ticket.
   */
  method SelfTicketOpensFirstPair(s: Store, me: UserId) returns (s': Store, conv: ConversationId, created: bool)
    requires exists j :: 0 <= j < |s.conversations| && me in s.conversations[j].users && |s.conversations[j].users| == 2
    ensures !created && s' == s && conv < |s.conversations|
    ensures forall j :: 0 <= j < conv ==> !(me in s.conversations[j].users && |s.conversations[j].users| == 2)
    ensures exists other :: other != me && s.conversations[conv].users == {me, other}
  {
    var j :| 0 <= j < |s.conversations| && me in s.conversations[j].users && |s.conversations[j].users| == 2;
    assert IsPairFor(s.conversations[j], me, me);
    s', conv, created := FindOrCreate(s, me, me);
    var users := s.conversations[conv].users;
    assert |users - {me}| == 1;
    var other :| other in users - {me};
    PairIsExactlyBoth(s.conversations[conv], me, other);
  }

  // ---- unseen counts -------------------------------------------------------------

  /** A message the viewer has not read yet: unseen and written by someone else. */
  predicate UnseenBy(m: Message, viewer: UserId)
  {
    !m.seen && m.user != viewer
  }

  /** The number of messages in the conversations cs that are unseen by the viewer. */
  function CountUnseen(ms: seq<Message>, cs: set<ConversationId>, viewer: UserId): (n: nat)
    ensures n <= |ms|
    decreases |ms|
  {
    if |ms| == 0 then 0
    else (if ms[0].conversation in cs && UnseenBy(ms[0], viewer) then 1 else 0) + CountUnseen(ms[1..], cs, viewer)
  }

  lemma {:induction false} CountUnseenZero(ms: seq<Message>, cs: set<ConversationId>, viewer: UserId)
    ensures CountUnseen(ms, cs, viewer) == 0 <==>
      forall i :: 0 <= i < |ms| && ms[i].conversation in cs ==> !UnseenBy(ms[i], viewer)
    decreases |ms|
  {
    if |ms| > 0 {
      CountUnseenZero(ms[1..], cs, viewer);
      assert forall i :: 1 <= i < |ms| ==> ms[i] == ms[1..][i - 1];
    }
  }

  /** Counting over cs splits into the part inside d and the part outside it. */
  lemma {:induction false} CountUnseenSplit(ms: seq<Message>, cs: set<ConversationId>, d: set<ConversationId>, viewer: UserId)
    ensures CountUnseen(ms, cs, viewer) == CountUnseen(ms, cs - d, viewer) + CountUnseen(ms, cs * d, viewer)
    decreases |ms|
  {
    if |ms| > 0 {
      CountUnseenSplit(ms[1..], cs, d, viewer);
    }
  }

  lemma {:induction false} CountUnseenAppend(ms: seq<Message>, m: Message, cs: set<ConversationId>, viewer: UserId)
    ensures CountUnseen(ms + [m], cs, viewer) ==
      CountUnseen(ms, cs, viewer) + (if m.conversation in cs && UnseenBy(m, viewer) then 1 else 0)
    decreases |ms|
  {
    if |ms| > 0 {
      assert (ms + [m])[1..] == ms[1..] + [m];
      CountUnseenAppend(ms[1..], m, cs, viewer);
    }
  }

  /** The conversations the user takes part in (filter(users=user)). */
  function ConversationsOf(s: Store, u: UserId): set<ConversationId>
  {
    set c | 0 <= c < |s.conversations| && u in s.conversations[c].users
  }

  /** custom_context: the unread badge, over every conversation the viewer takes part in. */
  function Badge(s: Store, viewer: UserId): nat
  {
    CountUnseen(s.messages, ConversationsOf(s, viewer), viewer)
  }

  /** The badge is the sum of one conversation's count and the rest. */
  lemma BadgeSplits(s: Store, viewer: UserId, c: ConversationId)
    requires c in ConversationsOf(s, viewer)
    ensures Badge(s, viewer) ==
      CountUnseen(s.messages, {c}, viewer) + CountUnseen(s.messages, ConversationsOf(s, viewer) - {c}, viewer)
  {
    CountUnseenSplit(s.messages, ConversationsOf(s, viewer), {c}, viewer);
    assert ConversationsOf(s, viewer) * {c} == {c};
  }

  /** get_context_data of the ticket lists: one entry per listed ticket, holding its unseen count. */
  method UnseenCounts(s: Store, tickets: seq<ConversationId>, viewer: UserId) returns (counts: map<ConversationId, nat>)
    ensures forall c :: c in counts <==> c in tickets
    ensures forall c :: c in counts ==> counts[c] == CountUnseen(s.messages, {c}, viewer)
    ensures forall c :: c in counts ==> (counts[c] == 0 <==>
      forall i :: 0 <= i < |s.messages| && s.messages[i].conversation == c ==> !UnseenBy(s.messages[i], viewer))
  {
    counts := map[];
    for i := 0 to |tickets|
      invariant forall c :: c in counts <==> c in tickets[..i]
      invariant forall c :: c in counts ==> counts[c] == CountUnseen(s.messages, {c}, viewer)
    {
      assert tickets[..i + 1] == tickets[..i] + [tickets[i]];
      counts := counts[tickets[i] := CountUnseen(s.messages, {tickets[i]}, viewer)];
    }
    assert tickets[..|tickets|] == tickets;
    forall c | c in counts
      ensures counts[c] == 0 <==>
        forall i :: 0 <= i < |s.messages| && s.messages[i].conversation == c ==> !UnseenBy(s.messages[i], viewer)
    {
      CountUnseenZero(s.messages, {c}, viewer);
    }
  }

  // ---- posting a message -----------------------------------------------------------

  /**
   * add_chat: None when the conversation does not exist (a 404); the store
   * unchanged when nothing valid was posted; otherwise the message appended.
   */
  function AddChat(s: Store, author: UserId, c: ConversationId, body: Option<string>, now: DateTime): (r: Option<Store>)
    ensures r.None? <==> c >= |s.conversations|
    ensures r.Some? && body.None? ==> r.value == s
    ensures r.Some? && body.Some? ==>
      && |r.value.messages| == |s.messages| + 1
      && r.value.messages[..|s.messages|] == s.messages
      && r.value.messages[|s.messages|] == Message(author, c, body.value, now, false)
      && r.value == s.(messages := r.value.messages)
  {
    if c >= |s.conversations| then None
    else if body.None? then Some(s)
    else Some(s.(messages := s.messages + [NewMessage(author, c, body.value, now)]))
  }

  /** A new message adds one to the count of every other reader of its conversation, and none to its author's. */
  lemma AddChatCounts(s: Store, author: UserId, c: ConversationId, body: string, now: DateTime, cs: set<ConversationId>, u: UserId)
    requires c < |s.conversations|
    ensures CountUnseen(AddChat(s, author, c, Some(body), now).value.messages, cs, u) ==
      CountUnseen(s.messages, cs, u) + (if c in cs && u != author then 1 else 0)
  {
    CountUnseenAppend(s.messages, NewMessage(author, c, body, now), cs, u);
  }

  // ---- opening a chat --------------------------------------------------------------

  /** One message after opening conversation c: marked seen if the viewer had not read it. */
  function Mark(m: Message, c: ConversationId, viewer: UserId): Message
  {
    if m.conversation == c && UnseenBy(m, viewer) then m.(seen := true) else m
  }

  function MarkedSeen(ms: seq<Message>, c: ConversationId, viewer: UserId): (r: seq<Message>)
    ensures |r| == |ms|
    ensures forall i :: 0 <= i < |ms| ==> r[i] == Mark(ms[i], c, viewer)
    decreases |ms|
  {
    if |ms| == 0 then [] else [Mark(ms[0], c, viewer)] + MarkedSeen(ms[1..], c, viewer)
  }

  /**
   * chat, corrected: the conversation must exist (a server error
   * otherwise); every message in it that the viewer had not read is marked
   * seen, and saving leaves created_at alone.  The code as written also
   * re-stamps created_at: see OpenChatAsWritten.
   */
  method OpenChat(s: Store, c: ConversationId, viewer: UserId) returns (r: Option<Store>)
    ensures r.None? <==> c >= |s.conversations|
    ensures r.Some? ==> r.value == s.(messages := MarkedSeen(s.messages, c, viewer))
  {
    if c >= |s.conversations| {
      return None;
    }
    var ms := s.messages;
    var i := 0;
    while i < |ms|
      invariant 0 <= i <= |ms| == |s.messages|
      invariant forall k :: 0 <= k < i ==> ms[k] == Mark(s.messages[k], c, viewer)
      invariant forall k :: i <= k < |ms| ==> ms[k] == s.messages[k]
    {
      if ms[i].conversation == c && ms[i].user != viewer && !ms[i].seen {
        ms := ms[i := ms[i].(seen := true)];
      }
      i := i + 1;
    }
    assert ms == MarkedSeen(s.messages, c, viewer);
    r := Some(s.(messages := ms));
  }

  /**
   * In the corrected mark-seen only seen changes, only on others' messages
   * of the opened conversation, and they all end up seen.
   */
  lemma OpeningChatFrame(ms: seq<Message>, c: ConversationId, viewer: UserId, i: nat)
    requires i < |ms|
    ensures MarkedSeen(ms, c, viewer)[i] == ms[i].(seen := MarkedSeen(ms, c, viewer)[i].seen)
    ensures ms[i].user == viewer ==> MarkedSeen(ms, c, viewer)[i] == ms[i]
    ensures ms[i].conversation != c ==> MarkedSeen(ms, c, viewer)[i] == ms[i]
    ensures ms[i].conversation == c && ms[i].user != viewer ==> MarkedSeen(ms, c, viewer)[i].seen
  {
  }

  lemma MarkedSeenIdempotent(ms: seq<Message>, c: ConversationId, viewer: UserId)
    ensures MarkedSeen(MarkedSeen(ms, c, viewer), c, viewer) == MarkedSeen(ms, c, viewer)
  {
  }

  /** After opening c the viewer's counts equal the old counts with c taken out. */
  lemma {:induction false} CountAfterOpening(ms: seq<Message>, c: ConversationId, viewer: UserId, cs: set<ConversationId>)
    ensures CountUnseen(MarkedSeen(ms, c, viewer), cs, viewer) == CountUnseen(ms, cs - {c}, viewer)
    decreases |ms|
  {
    if |ms| > 0 {
      assert MarkedSeen(ms, c, viewer)[1..] == MarkedSeen(ms[1..], c, viewer);
      CountAfterOpening(ms[1..], c, viewer, cs);
    }
  }

  /** Opening c clears its count, keeps every other ticket's, and lowers the badge by exactly c's count. */
  lemma OpeningChatCounts(s: Store, c: ConversationId, viewer: UserId, other: ConversationId)
    requires c in ConversationsOf(s, viewer) && other != c
    ensures CountUnseen(MarkedSeen(s.messages, c, viewer), {c}, viewer) == 0
    ensures CountUnseen(MarkedSeen(s.messages, c, viewer), {other}, viewer) == CountUnseen(s.messages, {other}, viewer)
    ensures Badge(s.(messages := MarkedSeen(s.messages, c, viewer)), viewer) ==
      Badge(s, viewer) - CountUnseen(s.messages, {c}, viewer)
  {
    CountAfterOpening(s.messages, c, viewer, {c});
    assert {c} - {c} == {};
    CountUnseenZero(s.messages, {}, viewer);
    CountAfterOpening(s.messages, c, viewer, {other});
    assert {other} - {c} == {other};
    var s' := s.(messages := MarkedSeen(s.messages, c, viewer));
    assert ConversationsOf(s', viewer) == ConversationsOf(s, viewer);
    CountAfterOpening(s.messages, c, viewer, ConversationsOf(s, viewer));
    BadgeSplits(s, viewer, c);
  }

  // ---- the created_at stamp, as written ------------------------------------------------

  /** One message after opening c as the code runs: save() also stamps created_at (auto_now). */
  function MarkAsWritten(m: Message, c: ConversationId, viewer: UserId, now: DateTime): (r: Message)
    ensures m.conversation == c && UnseenBy(m, viewer) ==> r == Mark(m, c, viewer).(createdAt := now)
    ensures !(m.conversation == c && UnseenBy(m, viewer)) ==> r == m
  {
    if m.conversation == c && UnseenBy(m, viewer) then m.(seen := true, createdAt := now) else m
  }

  /**
   * The order in which the chat view's loop visits the messages it marks:
   * every message of c that the viewer had not read, each once, newest
   * first (the queryset is ordered by -created_at).  The database orders
   * equal timestamps as it likes, so the order is a parameter.
   */
  predicate VisitOrder(ms: seq<Message>, c: ConversationId, viewer: UserId, order: seq<nat>)
  {
    && (forall k :: 0 <= k < |order| ==> order[k] < |ms| && ms[order[k]].conversation == c && UnseenBy(ms[order[k]], viewer))
    && (forall i :: 0 <= i < |ms| && ms[i].conversation == c && UnseenBy(ms[i], viewer) ==> i in order)
    && (forall k, l :: 0 <= k < l < |order| ==> order[k] != order[l])
    && (forall k, l :: 0 <= k < l < |order| ==> NotAfter(ms[order[l]].createdAt, ms[order[k]].createdAt))
  }

  /** The clock readings of successive saves, each strictly later than the one before. */
  predicate Ticking(clock: seq<DateTime>)
  {
    forall k, l :: 0 <= k < l < |clock| ==> !NotAfter(clock[l], clock[k])
  }

  /**
   * The messages after the loop as the code runs: the k-th save marks
   * message order[k] seen and, through auto_now, stamps it with clock[k].
   */
  function MarkedSeenAsWritten(ms: seq<Message>, order: seq<nat>, clock: seq<DateTime>): (r: seq<Message>)
    requires |clock| == |order|
    requires forall k :: 0 <= k < |order| ==> order[k] < |ms|
    ensures |r| == |ms|
    decreases |order|
  {
    if |order| == 0 then ms
    else MarkedSeenAsWritten(ms[order[0] := ms[order[0]].(seen := true, createdAt := clock[0])], order[1..], clock[1..])
  }

  /** Each visited message carries the reading of its own save; every other message is untouched. */
  lemma {:induction false} MarkedSeenAsWrittenAt(ms: seq<Message>, order: seq<nat>, clock: seq<DateTime>, i: nat)
    requires |clock| == |order|
    requires forall k :: 0 <= k < |order| ==> order[k] < |ms|
    requires forall k, l :: 0 <= k < l < |order| ==> order[k] != order[l]
    requires i < |ms|
    ensures i !in order ==> MarkedSeenAsWritten(ms, order, clock)[i] == ms[i]
    ensures forall k :: 0 <= k < |order| && order[k] == i ==>
      MarkedSeenAsWritten(ms, order, clock)[i] == ms[i].(seen := true, createdAt := clock[k])
    decreases |order|
  {
    if |order| > 0 {
      var ms' := ms[order[0] := ms[order[0]].(seen := true, createdAt := clock[0])];
      assert forall k :: 0 <= k < |order| - 1 ==> order[1..][k] == order[k + 1];
      MarkedSeenAsWrittenAt(ms', order[1..], clock[1..], i);
      if i == order[0] {
        assert i !in order[1..];
      } else {
        assert i in order ==> i in order[1..];
        forall k | 0 <= k < |order| && order[k] == i
          ensures MarkedSeenAsWritten(ms, order, clock)[i] == ms[i].(seen := true, createdAt := clock[k])
        {
          assert order[1..][k - 1] == i && clock[1..][k - 1] == clock[k];
        }
      }
    }
  }

  /**
   * chat as written: the same lookup as OpenChat, then one save() per
   * message in the queryset's order, each reading the clock anew.
   */
  method OpenChatAsWritten(s: Store, c: ConversationId, viewer: UserId, order: seq<nat>, clock: seq<DateTime>)
    returns (r: Option<Store>)
    requires VisitOrder(s.messages, c, viewer, order)
    requires |clock| == |order|
    ensures r.None? <==> c >= |s.conversations|
    ensures r.Some? ==> r.value == s.(messages := MarkedSeenAsWritten(s.messages, order, clock))
  {
    if c >= |s.conversations| {
      return None;
    }
    var ms := s.messages;
    for k := 0 to |order|
      invariant |ms| == |s.messages|
      invariant MarkedSeenAsWritten(ms, order[k..], clock[k..]) == MarkedSeenAsWritten(s.messages, order, clock)
    {
      var i := order[k];
      assert order[k..][0] == i && order[k..][1..] == order[k + 1..] && clock[k..][1..] == clock[k + 1..];
      ms := ms[i := ms[i].(seen := true, createdAt := clock[k])];
    }
    r := Some(s.(messages := ms));
  }

  /**
   * The code as written and the corrected mark-seen differ only in
   * created_at, only on the messages marked, and each of those carries the
   * clock reading of its own save.
   */
  lemma AsWrittenDiffersOnlyInTimestamps(
    ms: seq<Message>, c: ConversationId, viewer: UserId, order: seq<nat>, clock: seq<DateTime>, i: nat)
    requires VisitOrder(ms, c, viewer, order)
    requires |clock| == |order|
    requires i < |ms|
    ensures MarkedSeenAsWritten(ms, order, clock)[i] ==
      MarkedSeen(ms, c, viewer)[i].(createdAt := MarkedSeenAsWritten(ms, order, clock)[i].createdAt)
    ensures !(ms[i].conversation == c && UnseenBy(ms[i], viewer)) ==> MarkedSeenAsWritten(ms, order, clock)[i] == ms[i]
    ensures forall k :: 0 <= k < |order| && order[k] == i ==>
      MarkedSeenAsWritten(ms, order, clock)[i] == MarkAsWritten(ms[i], c, viewer, clock[k])
  {
    MarkedSeenAsWrittenAt(ms, order, clock, i);
    if ms[i].conversation == c && UnseenBy(ms[i], viewer) {
      var k :| 0 <= k < |order| && order[k] == i;
    }
  }

  /**
   * With a clock that moves forward, the loop reverses the marked messages:
   * of two marked messages, the one written earlier is saved later and so
   * ends up dated later.
   */
  lemma AsWrittenReversesMarked(
    ms: seq<Message>, c: ConversationId, viewer: UserId, order: seq<nat>, clock: seq<DateTime>, i: nat, j: nat)
    requires VisitOrder(ms, c, viewer, order)
    requires |clock| == |order| && Ticking(clock)
    requires i < |ms| && ms[i].conversation == c && UnseenBy(ms[i], viewer)
    requires j < |ms| && ms[j].conversation == c && UnseenBy(ms[j], viewer)
    requires !NotAfter(ms[j].createdAt, ms[i].createdAt)
    ensures !NotAfter(MarkedSeenAsWritten(ms, order, clock)[i].createdAt, MarkedSeenAsWritten(ms, order, clock)[j].createdAt)
  {
    var k :| 0 <= k < |order| && order[k] == i;
    var l :| 0 <= l < |order| && order[l] == j;
    NotAfterIsTotalOrder(ms[i].createdAt, ms[i].createdAt, ms[i].createdAt);
    assert l < k;
    MarkedSeenAsWrittenAt(ms, order, clock, i);
    MarkedSeenAsWrittenAt(ms, order, clock, j);
  }

  /** Opening a chat keeps every message's timestamp. */
  lemma OpeningChatKeepsTimestamps(ms: seq<Message>, c: ConversationId, viewer: UserId, i: nat)
    requires i < |ms|
    ensures MarkedSeen(ms, c, viewer)[i].createdAt == ms[i].createdAt
  {
  }

  /**
   * As written: A writes at 09:00, B replies at 10:00 and add_chat sends B
   * straight back to the chat, which marks A's message seen and dates it
   * 10:00:01, after B's reply.  The corrected mark-seen keeps 09:00.
   */
  lemma OpeningChatRestampsAsWritten()
    ensures
      var written := DateTime(Date(2024, 1, 1), TimeOfDay(9, 0, 0, 0));
      var replied := DateTime(Date(2024, 1, 1), TimeOfDay(10, 0, 0, 0));
      var reopened := DateTime(Date(2024, 1, 1), TimeOfDay(10, 0, 1, 0));
      var s := Store([], [], [], [Conversation({0, 1})], [Message(0, 0, "hello", written, false)]);
      var s1 := AddChat(s, 1, 0, Some("hi"), replied).value;
      var asWritten := MarkedSeenAsWritten(s1.messages, [0], [reopened]);
      var corrected := MarkedSeen(s1.messages, 0, 1);
      && |s1.messages| == 2
      && VisitOrder(s1.messages, 0, 1, [0])
      && NotAfter(s1.messages[0].createdAt, s1.messages[1].createdAt)
      && !NotAfter(asWritten[0].createdAt, asWritten[1].createdAt)
      && corrected[0].createdAt == written && corrected[0].seen
  {
    var written := DateTime(Date(2024, 1, 1), TimeOfDay(9, 0, 0, 0));
    var replied := DateTime(Date(2024, 1, 1), TimeOfDay(10, 0, 0, 0));
    var reopened := DateTime(Date(2024, 1, 1), TimeOfDay(10, 0, 1, 0));
    var a := Message(0, 0, "hello", written, false);
    var b := Message(1, 0, "hi", replied, false);
    var s := Store([], [], [], [Conversation({0, 1})], [a]);
    var ms := AddChat(s, 1, 0, Some("hi"), replied).value.messages;
    assert ms == [a, b];
    assert MarkedSeenAsWritten(ms, [0], [reopened]) == [a.(seen := true, createdAt := reopened), b];
    RestampScenarioTimes();
    RestampScenarioOrder(ms, a, b);
  }

  lemma RestampScenarioTimes()
    ensures NotAfter(DateTime(Date(2024, 1, 1), TimeOfDay(9, 0, 0, 0)), DateTime(Date(2024, 1, 1), TimeOfDay(10, 0, 0, 0)))
    ensures !NotAfter(DateTime(Date(2024, 1, 1), TimeOfDay(10, 0, 1, 0)), DateTime(Date(2024, 1, 1), TimeOfDay(10, 0, 0, 0)))
  {
  }

  lemma RestampScenarioOrder(ms: seq<Message>, a: Message, b: Message)
    requires ms == [a, b] && a.conversation == 0 && a.user == 0 && !a.seen && b.user == 1
    ensures VisitOrder(ms, 0, 1, [0])
  {
  }
}
