/**
 * The chat page of a two-party conversation: the reconciliation of the live
 * query's events into the message feed, the send guard and the message it
 * writes, and the conversation and relationship filters.
 */
module Chatroom {
  import opened Wrappers
  import opened Query

  /** A document of the `chatroom` collection. `sendTime` is the send date in milliseconds. */
  datatype Message = Message(
    content: string,
    sendTime: int,
    sendTimeTS: int,
    sender: string,
    recipient: string)

  /** One change record of a change batch; `queueType` is "enqueue", "update", "dequeue", ... */
  datatype DocChange = DocChange(queueType: string, doc: Message)

  /**
   * An event of the live query: `snapshotType` is "init" for the first
   * snapshot, whose documents are `docs`; any other event carries `docChanges`.
   */
  datatype Snapshot = Snapshot(snapshotType: string, docs: seq<Message>, docChanges: seq<DocChange>)

  const InitType: string := "init"
  const EnqueueType: string := "enqueue"

  // ---------------------------------------------------------------------------
  // The ordering that `sort((x, y) => x.sendTimeTS - y.sendTimeTS)` produces
  // ---------------------------------------------------------------------------

  predicate SortedByTS(s: seq<Message>)
  {
    forall i, j :: 0 <= i < j < |s| ==> s[i].sendTimeTS <= s[j].sendTimeTS
  }

  /** The messages of `s` with timestamp `t`, in the order they occur in `s`. */
  function WithTS(s: seq<Message>, t: int): seq<Message>
  {
    if s == [] then [] else (if s[0].sendTimeTS == t then [s[0]] else []) + WithTS(s[1..], t)
  }

  /** Inserts `m` before the first message whose timestamp is not smaller than its own. */
  function InsertByTS(m: Message, s: seq<Message>): (r: seq<Message>)
    requires SortedByTS(s)
    ensures SortedByTS(r)
    ensures multiset(r) == multiset(s) + multiset{m}
    ensures |r| == |s| + 1
    ensures r[0] == m || (s != [] && r[0] == s[0])
  {
    if s == [] || m.sendTimeTS <= s[0].sendTimeTS then [m] + s
    else
      var rest := InsertByTS(m, s[1..]);
      InsertAfterHead(m, s, rest);
      [s[0]] + rest
  }

  /** Inserting behind the head: the head stays in front of the insertion into the tail. */
  lemma InsertAfterHead(m: Message, s: seq<Message>, rest: seq<Message>)
    requires SortedByTS(s) && s != [] && s[0].sendTimeTS < m.sendTimeTS
    requires SortedByTS(rest) && multiset(rest) == multiset(s[1..]) + multiset{m} && |rest| == |s|
    requires rest[0] == m || (s[1..] != [] && rest[0] == s[1..][0])
    ensures SortedByTS([s[0]] + rest)
    ensures multiset([s[0]] + rest) == multiset(s) + multiset{m}
  {
    assert s == [s[0]] + s[1..];
    ConsSorted(s[0], rest);
  }

  /** A message no later than the head of a sorted feed can go in front of it. */
  lemma ConsSorted(x: Message, s: seq<Message>)
    requires SortedByTS(s) && (s != [] ==> x.sendTimeTS <= s[0].sendTimeTS)
    ensures SortedByTS([x] + s)
  {
    var r := [x] + s;
    forall i, j | 0 <= i < j < |r|
      ensures r[i].sendTimeTS <= r[j].sendTimeTS
    {
      if i == 0 {
        assert r[j] == s[j - 1];
      } else {
        assert r[i] == s[i - 1] && r[j] == s[j - 1];
      }
    }
  }

  /**
   * The result of the stable `Array.prototype.sort` with the comparator
   * `x.sendTimeTS - y.sendTimeTS`: ascending by timestamp, a permutation of `s`.
   */
  function SortByTS(s: seq<Message>): (r: seq<Message>)
    ensures SortedByTS(r)
    ensures multiset(r) == multiset(s)
    ensures |r| == |s|
  {
    if s == [] then []
    else
      assert s == [s[0]] + s[1..];
      InsertByTS(s[0], SortByTS(s[1..]))
  }

  lemma {:induction false} InsertKeepsTieOrder(m: Message, s: seq<Message>, t: int)
    requires SortedByTS(s)
    ensures WithTS(InsertByTS(m, s), t) == (if m.sendTimeTS == t then [m] else []) + WithTS(s, t)
  {
    if s == [] || m.sendTimeTS <= s[0].sendTimeTS {
      WithTSCons(m, s, t);
    } else {
      var rest := InsertByTS(m, s[1..]);
      InsertKeepsTieOrder(m, s[1..], t);
      InsertTieBehind(m, s[0], s[1..], rest, t);
      assert InsertByTS(m, s) == [s[0]] + rest;
      assert s == [s[0]] + s[1..];
    }
  }

  /** A head earlier than `m` is in a different timestamp run, so it stays in front. */
  lemma InsertTieBehind(m: Message, x: Message, tail: seq<Message>, rest: seq<Message>, t: int)
    requires x.sendTimeTS < m.sendTimeTS
    requires WithTS(rest, t) == (if m.sendTimeTS == t then [m] else []) + WithTS(tail, t)
    ensures WithTS([x] + rest, t) == (if m.sendTimeTS == t then [m] else []) + WithTS([x] + tail, t)
  {
    WithTSCons(x, rest, t);
    WithTSCons(x, tail, t);
  }

  lemma WithTSCons(x: Message, s: seq<Message>, t: int)
    ensures WithTS([x] + s, t) == (if x.sendTimeTS == t then [x] else []) + WithTS(s, t)
  {
    assert ([x] + s)[1..] == s;
  }

  /** The sort is stable: messages with equal timestamps keep their relative order. */
  lemma {:induction false} SortKeepsTieOrder(s: seq<Message>, t: int)
    ensures WithTS(SortByTS(s), t) == WithTS(s, t)
  {
    if s != [] {
      SortKeepsTieOrder(s[1..], t);
      InsertKeepsTieOrder(s[0], SortByTS(s[1..]), t);
    }
  }

  lemma {:induction false} WithTSMember(s: seq<Message>, t: int, x: Message)
    ensures x in WithTS(s, t) <==> x in s && x.sendTimeTS == t
  {
    if s != [] {
      WithTSMember(s[1..], t, x);
      assert s == [s[0]] + s[1..];
    }
  }

  lemma HeadTSBelowMember(b: seq<Message>, x: Message)
    requires SortedByTS(b) && x in b
    ensures b[0].sendTimeTS <= x.sendTimeTS
  {
    var j :| 0 <= j < |b| && b[j] == x;
    if j > 0 {
      assert b[0].sendTimeTS <= b[j].sendTimeTS;
    }
  }

  lemma HeadHasOwnTS(s: seq<Message>)
    ensures s != [] ==> WithTS(s, s[0].sendTimeTS) != []
  {
  }

  /**
   * A sorted arrangement is determined by its per-timestamp order: two sorted
   * sequences that list the messages of every timestamp in the same order are equal.
   */
  lemma {:induction false} SortedByTieOrderUnique(a: seq<Message>, b: seq<Message>)
    requires SortedByTS(a) && SortedByTS(b)
    requires forall t :: WithTS(a, t) == WithTS(b, t)
    ensures a == b
    decreases |a|
  {
    if a == [] || b == [] {
      HeadHasOwnTS(a);
      HeadHasOwnTS(b);
    } else {
      var ta, tb := a[0].sendTimeTS, b[0].sendTimeTS;
      assert a[0] in WithTS(a, ta);
      WithTSMember(b, ta, a[0]);
      HeadTSBelowMember(b, a[0]);
      assert b[0] in WithTS(b, tb);
      WithTSMember(a, tb, b[0]);
      HeadTSBelowMember(a, b[0]);
      assert ta == tb;
      assert WithTS(a, ta)[0] == a[0];
      assert WithTS(b, ta)[0] == b[0];
      assert a[0] == b[0];
      forall t ensures WithTS(a[1..], t) == WithTS(b[1..], t) {
        var pre := if ta == t then [a[0]] else [];
        assert WithTS(a, t) == pre + WithTS(a[1..], t);
        assert WithTS(b, t) == pre + WithTS(b[1..], t);
        assert WithTS(a[1..], t) == WithTS(a, t)[|pre|..];
        assert WithTS(b[1..], t) == WithTS(b, t)[|pre|..];
      }
      SortedByTieOrderUnique(a[1..], b[1..]);
      assert a == [a[0]] + a[1..];
      assert b == [b[0]] + b[1..];
    }
  }

  /**
   * `SortByTS` is the only stable ascending arrangement: `r` is sorted by
   * timestamp and keeps the arrival order of equal timestamps exactly when
   * it is `SortByTS(s)`.
   */
  lemma StableSortCharacterized(s: seq<Message>, r: seq<Message>)
    ensures SortedByTS(r) && (forall t :: WithTS(r, t) == WithTS(s, t)) ==> r == SortByTS(s)
    ensures r == SortByTS(s) ==> SortedByTS(r) && forall t :: WithTS(r, t) == WithTS(s, t)
  {
    forall t ensures WithTS(SortByTS(s), t) == WithTS(s, t) {
      SortKeepsTieOrder(s, t);
    }
    var stable := SortedByTS(r) && forall t :: WithTS(r, t) == WithTS(s, t);
    if stable {
      forall t ensures WithTS(r, t) == WithTS(SortByTS(s), t) {
        assert WithTS(r, t) == WithTS(s, t);
      }
      SortedByTieOrderUnique(r, SortByTS(s));
    }
  }

  /** Sorting a feed that is already sorted leaves it as it is. */
  lemma {:induction false} SortOfSorted(s: seq<Message>)
    requires SortedByTS(s)
    ensures SortByTS(s) == s
  {
    if s != [] {
      SortOfSorted(s[1..]);
      assert s == [s[0]] + s[1..];
    }
  }

  // ---------------------------------------------------------------------------
  // Feed reconciliation (`onChange`)
  // ---------------------------------------------------------------------------

  /** The documents of the "enqueue" records of a change batch, in arrival order. */
  function Enqueued(changes: seq<DocChange>): (r: seq<Message>)
    ensures |r| <= |changes|
  {
    if changes == [] then []
    else
      var c := changes[|changes| - 1];
      Enqueued(changes[..|changes| - 1]) + (if c.queueType == EnqueueType then [c.doc] else [])
  }

  /** The number of "enqueue" records of a change batch. */
  function EnqueueCount(changes: seq<DocChange>): nat
  {
    if changes == [] then 0
    else EnqueueCount(changes[..|changes| - 1]) + (if changes[|changes| - 1].queueType == EnqueueType then 1 else 0)
  }

  /** The number of "enqueue" records of a change batch that carry the document `d`. */
  function Deliveries(changes: seq<DocChange>, d: Message): nat
  {
    if changes == [] then 0
    else
      var c := changes[|changes| - 1];
      Deliveries(changes[..|changes| - 1], d) + (if c.queueType == EnqueueType && c.doc == d then 1 else 0)
  }

  /**
   * The feed after one event: an "init" snapshot appends its sorted documents
   * to the feed as it was; any other event appends the enqueued documents and
   * sorts the whole feed.
   */
  function Reconcile(feed: seq<Message>, snapshot: Snapshot): (r: seq<Message>)
    ensures snapshot.snapshotType == InitType ==>
      |r| == |feed| + |snapshot.docs| && r[..|feed|] == feed &&
      SortedByTS(r[|feed|..]) && multiset(r[|feed|..]) == multiset(snapshot.docs)
    ensures snapshot.snapshotType != InitType ==>
      SortedByTS(r) && multiset(r) == multiset(feed) + multiset(Enqueued(snapshot.docChanges))
  {
    if snapshot.snapshotType == InitType then
      var r := feed + SortByTS(snapshot.docs);
      assert r[|feed|..] == SortByTS(snapshot.docs);
      r
    else
      SortByTS(feed + Enqueued(snapshot.docChanges))
  }

  /**
   * The change-batch branch of `onChange`: copies the feed, pushes the
   * document of every "enqueue" record, then sorts the copy.
   */
  method ApplyChangeBatch(feed: seq<Message>, docChanges: seq<DocChange>) returns (newFeed: seq<Message>)
    ensures newFeed == SortByTS(feed + Enqueued(docChanges))
  {
    var chatMessage := feed;
    var i := 0;
    while i < |docChanges|
      invariant 0 <= i <= |docChanges|
      invariant chatMessage == feed + Enqueued(docChanges[..i])
    {
      assert docChanges[..i + 1][..i] == docChanges[..i];
      if docChanges[i].queueType == EnqueueType {
        chatMessage := chatMessage + [docChanges[i].doc];
      }
      i := i + 1;
    }
    assert docChanges[..i] == docChanges;
    newFeed := SortByTS(chatMessage);
  }

  /** An "init" event keeps the old feed as a prefix and appends the sorted snapshot. */
  lemma InitAppendsSortedSnapshot(feed: seq<Message>, snapshot: Snapshot)
    requires snapshot.snapshotType == InitType
    ensures Reconcile(feed, snapshot) == feed + SortByTS(snapshot.docs)
    ensures Reconcile(feed, snapshot)[..|feed|] == feed
    ensures forall t :: WithTS(Reconcile(feed, snapshot)[|feed|..], t) == WithTS(snapshot.docs, t)
  {
    var r := Reconcile(feed, snapshot);
    assert r[|feed|..] == SortByTS(snapshot.docs);
    forall t ensures WithTS(r[|feed|..], t) == WithTS(snapshot.docs, t) {
      SortKeepsTieOrder(snapshot.docs, t);
    }
  }

  /** An "init" event on an empty feed yields the snapshot as a sorted permutation. */
  lemma InitOnEmptyFeed(snapshot: Snapshot)
    requires snapshot.snapshotType == InitType
    ensures SortedByTS(Reconcile([], snapshot))
    ensures multiset(Reconcile([], snapshot)) == multiset(snapshot.docs)
  {
    assert Reconcile([], snapshot)[0..] == Reconcile([], snapshot);
  }

  /** The old feed is not re-sorted by an "init" event: the result need not be sorted. */
  lemma InitDoesNotResortPrefix()
    ensures var late := Message("b", 200, 200, "u1", "u2");
            var early := Message("a", 100, 100, "u2", "u1");
            !SortedByTS(Reconcile([late], Snapshot(InitType, [early], [])))
  {
    var late := Message("b", 200, 200, "u1", "u2");
    var early := Message("a", 100, 100, "u2", "u1");
    assert SortByTS([early]) == [early];
    var r := Reconcile([late], Snapshot(InitType, [early], []));
    assert r == [late, early];
    assert r[0].sendTimeTS > r[1].sendTimeTS;
  }

  /**
   * A change batch yields the old feed plus the enqueued documents, sorted
   * ascending with arrival order kept among equal timestamps.
   */
  lemma ChangeBatchIsStableSortedUnion(feed: seq<Message>, snapshot: Snapshot)
    requires snapshot.snapshotType != InitType
    ensures SortedByTS(Reconcile(feed, snapshot))
    ensures multiset(Reconcile(feed, snapshot)) == multiset(feed) + multiset(Enqueued(snapshot.docChanges))
    ensures forall t :: WithTS(Reconcile(feed, snapshot), t) == WithTS(feed + Enqueued(snapshot.docChanges), t)
  {
    forall t ensures WithTS(Reconcile(feed, snapshot), t) == WithTS(feed + Enqueued(snapshot.docChanges), t) {
      SortKeepsTieOrder(feed + Enqueued(snapshot.docChanges), t);
    }
  }

  lemma {:induction false} EnqueuedAppend(a: seq<DocChange>, b: seq<DocChange>)
    ensures Enqueued(a + b) == Enqueued(a) + Enqueued(b)
    decreases |b|
  {
    if b == [] {
      assert a + b == a;
    } else {
      var b' := b[..|b| - 1];
      assert (a + b)[..|a + b| - 1] == a + b';
      EnqueuedAppend(a, b');
    }
  }

  lemma {:induction false} NoEnqueueNoDocs(changes: seq<DocChange>)
    requires forall i :: 0 <= i < |changes| ==> changes[i].queueType != EnqueueType
    ensures Enqueued(changes) == []
  {
    if changes != [] {
      NoEnqueueNoDocs(changes[..|changes| - 1]);
    }
  }

  lemma IgnoredRecordNoDoc(before: seq<DocChange>, c: DocChange, after: seq<DocChange>)
    requires c.queueType != EnqueueType
    ensures Enqueued(before + [c] + after) == Enqueued(before + after)
  {
    assert [c][..0] == [];
    assert Enqueued([c]) == [];
    EnqueuedAppend(before, [c]);
    assert Enqueued(before + [c]) == Enqueued(before);
    EnqueuedAppend(before + [c], after);
    EnqueuedAppend(before, after);
  }

  /** A record that is not "enqueue" (update, dequeue, ...) has no effect wherever it sits in a batch. */
  lemma IgnoredRecordHasNoEffect(feed: seq<Message>, kind: string, before: seq<DocChange>, c: DocChange, after: seq<DocChange>)
    requires kind != InitType && c.queueType != EnqueueType
    ensures Reconcile(feed, Snapshot(kind, [], before + [c] + after)) == Reconcile(feed, Snapshot(kind, [], before + after))
  {
    IgnoredRecordNoDoc(before, c, after);
  }

  /** A batch without "enqueue" records leaves a sorted feed exactly as it was. */
  lemma NonEnqueueBatchLeavesFeed(feed: seq<Message>, snapshot: Snapshot)
    requires snapshot.snapshotType != InitType && SortedByTS(feed)
    requires forall i :: 0 <= i < |snapshot.docChanges| ==> snapshot.docChanges[i].queueType != EnqueueType
    ensures Reconcile(feed, snapshot) == feed
  {
    NoEnqueueNoDocs(snapshot.docChanges);
    assert feed + [] == feed;
    SortOfSorted(feed);
  }

  /** A feed left out of order by `init` is re-sorted by the next batch, even one without "enqueue" records. */
  lemma UnsortedFeedResortedByBatch()
    ensures var late := Message("b", 200, 200, "u1", "u2");
            var early := Message("a", 150, 150, "u2", "u1");
            Reconcile([late, early], Snapshot("update", [], [])) == [early, late]
  {
    var late := Message("b", 200, 200, "u1", "u2");
    var early := Message("a", 150, 150, "u2", "u1");
    assert Enqueued([]) == [];
    assert [late, early] + [] == [late, early];
    SortPairExample(early, late);
  }

  lemma {:induction false} EnqueuedCounts(changes: seq<DocChange>, d: Message)
    ensures |Enqueued(changes)| == EnqueueCount(changes)
    ensures multiset(Enqueued(changes))[d] == Deliveries(changes, d)
  {
    if changes != [] {
      EnqueuedCounts(changes[..|changes| - 1], d);
    }
  }

  /**
   * No deduplication: a change batch grows the feed by the number of
   * "enqueue" records, and a document appears once more for each delivery.
   */
  lemma ChangeBatchKeepsDuplicates(feed: seq<Message>, snapshot: Snapshot, d: Message)
    requires snapshot.snapshotType != InitType
    ensures |Reconcile(feed, snapshot)| == |feed| + EnqueueCount(snapshot.docChanges)
    ensures multiset(Reconcile(feed, snapshot))[d] == multiset(feed)[d] + Deliveries(snapshot.docChanges, d)
  {
    EnqueuedCounts(snapshot.docChanges, d);
    assert |Reconcile(feed, snapshot)| == |multiset(Reconcile(feed, snapshot))|;
  }

  /** Replaying the same "init" snapshot duplicates every document. */
  lemma InitReplayDuplicates(snapshot: Snapshot)
    requires snapshot.snapshotType == InitType
    ensures Reconcile(Reconcile([], snapshot), snapshot) == SortByTS(snapshot.docs) + SortByTS(snapshot.docs)
    ensures |Reconcile(Reconcile([], snapshot), snapshot)| == 2 * |snapshot.docs|
  {
    assert [] + SortByTS(snapshot.docs) == SortByTS(snapshot.docs);
  }

  /** An unordered "init" snapshot on an empty feed comes out in timestamp order. */
  lemma InitScenario()
    ensures var m100 := Message("x", 100, 100, "me", "you");
            var m200 := Message("z", 200, 200, "me", "you");
            Reconcile([], Snapshot(InitType, [m200, m100], [])) == [m100, m200]
  {
    var m100 := Message("x", 100, 100, "me", "you");
    var m200 := Message("z", 200, 200, "me", "you");
    assert SortByTS([m100]) == [m100];
    assert [m200, m100][1..] == [m100];
    assert SortByTS([m200, m100]) == InsertByTS(m200, [m100]) == [m100, m200];
  }

  /** The stable sort of one out-of-order pair. */
  lemma SortPairExample(m150: Message, m200: Message)
    requires m150.sendTimeTS == 150 && m200.sendTimeTS == 200
    ensures SortByTS([m200, m150]) == [m150, m200]
  {
    assert [m200, m150][1..] == [m150];
    assert [m150][1..] == [];
    assert SortByTS([m150]) == [m150];
    assert InsertByTS(m200, [m150]) == [m150, m200];
  }

  /** The stable sort of one out-of-order three-message feed. */
  lemma SortThreeExample(m100: Message, m150: Message, m200: Message)
    requires m100.sendTimeTS == 100 && m150.sendTimeTS == 150 && m200.sendTimeTS == 200
    ensures SortByTS([m100, m200, m150]) == [m100, m150, m200]
  {
    SortPairExample(m150, m200);
    assert [m100, m200, m150][1..] == [m200, m150];
    assert SortByTS([m100, m200, m150]) == InsertByTS(m100, [m150, m200]);
  }

  /** An enqueued message lands between the feed's earlier and later messages. */
  lemma EnqueueScenario()
    ensures var m100 := Message("x", 100, 100, "me", "you");
            var m150 := Message("y", 150, 150, "you", "me");
            var m200 := Message("z", 200, 200, "me", "you");
            Reconcile([m100, m200], Snapshot("update", [], [DocChange(EnqueueType, m150)])) == [m100, m150, m200]
  {
    var m100 := Message("x", 100, 100, "me", "you");
    var m150 := Message("y", 150, 150, "you", "me");
    var m200 := Message("z", 200, 200, "me", "you");
    var batch := [DocChange(EnqueueType, m150)];
    assert batch[..0] == [];
    assert Enqueued(batch) == [m150];
    assert [m100, m200] + [m150] == [m100, m200, m150];
    SortThreeExample(m100, m150, m200);
  }

  /** A dequeue record leaves the feed unchanged. */
  lemma DequeueScenario()
    ensures var m100 := Message("x", 100, 100, "me", "you");
            Reconcile([m100], Snapshot("update", [], [DocChange("dequeue", m100)])) == [m100]
  {
    var m100 := Message("x", 100, 100, "me", "you");
    var drop := [DocChange("dequeue", m100)];
    assert drop[..0] == [];
    assert Enqueued(drop) == [];
    assert [m100] + [] == [m100];
    assert SortByTS([m100]) == [m100];
  }

  // ---------------------------------------------------------------------------
  // Sending, the conversation filter and the relationship record
  // ---------------------------------------------------------------------------

  /** A record of the `relationship` collection. */
  datatype Relationship = Relationship(
    lastContent: string,
    lastConversationTime: int,
    user1: string,
    user2: string)

  /** The fields `onSend` writes into the relationship records of the two parties. */
  datatype RelationshipUpdate = RelationshipUpdate(lastContent: string, lastConversationTime: int)

  /** The writes of one `onSend`: the new chat document and the relationship update. */
  datatype SendWrites = SendWrites(doc: Message, update: RelationshipUpdate)

  /** The live query's condition: the message goes from one party to the other. */
  predicate InConversation(m: Message, me: string, other: string)
  {
    (m.sender == me && m.recipient == other) || (m.sender == other && m.recipient == me)
  }

  /** The relationship query's condition: the record links the two parties, in either order. */
  predicate BetweenUsers(r: Relationship, me: string, other: string)
  {
    (r.user1 == me && r.user2 == other) || (r.user1 == other && r.user2 == me)
  }

  /** Both parties' live queries select the same messages. */
  lemma ConversationFilterSymmetric(m: Message, me: string, other: string)
    ensures InConversation(m, me, other) == InConversation(m, other, me)
    ensures InConversation(m, me, other) <==> {m.sender, m.recipient} == {me, other}
  {
    if {m.sender, m.recipient} == {me, other} {
      assert me in {m.sender, m.recipient} && other in {m.sender, m.recipient};
      assert m.sender in {me, other} && m.recipient in {me, other};
    }
  }

  /** The relationship records of the two parties, as the `where(or(...))` query returns them. */
  function RelationshipLookup(relationships: seq<Relationship>, me: string, other: string): (r: seq<Relationship>)
    ensures forall x :: x in r <==> x in relationships && BetweenUsers(x, me, other)
  {
    Where(relationships, (x: Relationship) => BetweenUsers(x, me, other))
  }

  /**
   * `onSend`: an empty input writes nothing; otherwise a document from me to
   * the other party stamped with the current time, and the relationship
   * update carrying its content and timestamp.
   */
  function SendPlan(textInputValue: string, openid: string, otherid: string, now: int, nowTS: int): (r: Option<SendWrites>)
    ensures r.None? <==> textInputValue == ""
  {
    if textInputValue == "" then None
    else
      var doc := Message(textInputValue, now, nowTS, openid, otherid);
      Some(SendWrites(doc, RelationshipUpdate(doc.content, doc.sendTimeTS)))
  }

  /**
   * A sent document reaches both parties' live queries, carries the text
   * typed in, and the relationship update repeats its content and timestamp.
   */
  lemma SentDocInConversation(text: string, me: string, other: string, now: int, nowTS: int)
    requires text != ""
    ensures var w := SendPlan(text, me, other, now, nowTS).value;
            && w.doc.sender == me && w.doc.recipient == other && w.doc.content == text
            && InConversation(w.doc, me, other) && InConversation(w.doc, other, me)
            && w.update.lastContent == w.doc.content && w.update.lastConversationTime == w.doc.sendTimeTS == nowTS
  {
  }

  /** The relationship collection after the update of `onSend`: only the two parties' records change. */
  function ApplyRelationshipUpdate(relationships: seq<Relationship>, me: string, other: string, u: RelationshipUpdate): (r: seq<Relationship>)
    ensures |r| == |relationships|
    ensures forall i :: 0 <= i < |r| ==>
      if BetweenUsers(relationships[i], me, other)
      then r[i] == relationships[i].(lastContent := u.lastContent, lastConversationTime := u.lastConversationTime)
      else r[i] == relationships[i]
  {
    seq(|relationships|, i requires 0 <= i < |relationships| =>
      var x := relationships[i];
      if BetweenUsers(x, me, other) then x.(lastContent := u.lastContent, lastConversationTime := u.lastConversationTime) else x)
  }

  /**
   * The update keeps who each record links: other records stay as they were
   * and the two parties' lookup finds as many records as before.
   */
  lemma RelationshipUpdateKeepsOthers(relationships: seq<Relationship>, me: string, other: string, u: RelationshipUpdate)
    ensures forall x :: !BetweenUsers(x, me, other) ==>
      (x in ApplyRelationshipUpdate(relationships, me, other, u) <==> x in relationships)
    ensures |RelationshipLookup(ApplyRelationshipUpdate(relationships, me, other, u), me, other)| ==
            |RelationshipLookup(relationships, me, other)|
  {
    var r := ApplyRelationshipUpdate(relationships, me, other, u);
    forall x | !BetweenUsers(x, me, other)
      ensures x in r <==> x in relationships
    {
      if x in r {
        var i :| 0 <= i < |r| && r[i] == x;
        assert relationships[i] in relationships;
      }
      if x in relationships {
        var i :| 0 <= i < |relationships| && relationships[i] == x;
        assert r[i] in r;
      }
    }
    UpdatedLookupLength(relationships, me, other, u);
  }

  lemma {:induction false} UpdatedLookupLength(relationships: seq<Relationship>, me: string, other: string, u: RelationshipUpdate)
    ensures |RelationshipLookup(ApplyRelationshipUpdate(relationships, me, other, u), me, other)| ==
            |RelationshipLookup(relationships, me, other)|
    decreases |relationships|
  {
    if relationships != [] {
      var r := ApplyRelationshipUpdate(relationships, me, other, u);
      UpdatedLookupLength(relationships[1..], me, other, u);
      assert r[1..] == ApplyRelationshipUpdate(relationships[1..], me, other, u);
      assert BetweenUsers(r[0], me, other) == BetweenUsers(relationships[0], me, other);
    }
  }

  /** After the update, every relationship record of the two parties shows the last message sent. */
  lemma RelationshipShowsLastMessage(relationships: seq<Relationship>, text: string, me: string, other: string, now: int, nowTS: int)
    requires text != ""
    ensures var u := SendPlan(text, me, other, now, nowTS).value.update;
            forall x :: x in RelationshipLookup(ApplyRelationshipUpdate(relationships, me, other, u), me, other) ==>
              x.lastContent == text && x.lastConversationTime == nowTS
  {
    var u := SendPlan(text, me, other, now, nowTS).value.update;
    var after := ApplyRelationshipUpdate(relationships, me, other, u);
    forall x | x in RelationshipLookup(after, me, other)
      ensures x.lastContent == text && x.lastConversationTime == nowTS
    {
      var i :| 0 <= i < |after| && after[i] == x;
    }
  }

  /** The record `checkRelationship` creates when the lookup finds none. */
  function NewRelationship(me: string, other: string, nowTS: int): (r: Relationship)
    ensures BetweenUsers(r, me, other) && BetweenUsers(r, other, me)
    ensures r.lastContent == "" && r.lastConversationTime == nowTS
  {
    Relationship("", nowTS, me, other)
  }

  /**
   * Create-if-absent: once the created record is stored, a later lookup by
   * either party finds it, so neither creates a second one.
   */
  lemma CreatedRelationshipIsFound(relationships: seq<Relationship>, me: string, other: string, nowTS: int)
    ensures RelationshipLookup(relationships + [NewRelationship(me, other, nowTS)], me, other) != []
    ensures RelationshipLookup(relationships + [NewRelationship(me, other, nowTS)], other, me) != []
  {
    var stored := relationships + [NewRelationship(me, other, nowTS)];
    assert NewRelationship(me, other, nowTS) in stored;
  }

  /** The state of one chat page. `relationship` is `None` while no record is loaded (`''`). */
  class ChatroomPage {
    var textInputValue: string
    var chatMessage: seq<Message>
    var openid: string
    var otherid: string
    var relationship: Option<Relationship>

    /** `onLoad`: my openid comes from the global user state, the other party's from the page options. */
    constructor OnLoad(userOpenid: string, optionsOpenid: string)
      ensures openid == userOpenid && otherid == optionsOpenid
      ensures textInputValue == "" && chatMessage == [] && relationship == None
    {
      textInputValue := "";
      chatMessage := [];
      openid := userOpenid;
      otherid := optionsOpenid;
      relationship := None;
    }

    /** `onChange`: reconciles one event of the live query into the feed. */
    method OnChange(snapshot: Snapshot)
      modifies this`chatMessage
      ensures chatMessage == Reconcile(old(chatMessage), snapshot)
    {
      if snapshot.snapshotType == InitType {
        chatMessage := chatMessage + SortByTS(snapshot.docs);
      } else {
        chatMessage := ApplyChangeBatch(chatMessage, snapshot.docChanges);
      }
    }

    /** `onTextInput` */
    method OnTextInput(detail: string)
      modifies this`textInputValue
      ensures textInputValue == detail
    {
      textInputValue := detail;
    }

    /**
     * `onSend`, with the current time passed in and the database writes
     * returned; the input is cleared once the document is written.
     */
    method OnSend(now: int, nowTS: int) returns (writes: Option<SendWrites>)
      modifies this`textInputValue
      ensures writes == SendPlan(old(textInputValue), openid, otherid, now, nowTS)
      ensures textInputValue == if writes.Some? then "" else old(textInputValue)
    {
      if textInputValue == "" {
        return None;
      }
      writes := SendPlan(textInputValue, openid, otherid, now, nowTS);
      textInputValue := "";
    }

    /**
     * `checkRelationship`, given the `relationship` collection: creates a
     * record when the lookup returns none, otherwise keeps the first found.
     */
    method CheckRelationship(relationships: seq<Relationship>, nowTS: int) returns (created: Option<Relationship>)
      modifies this`relationship
      ensures var found := RelationshipLookup(relationships, openid, otherid);
              && (created.Some? <==> found == [])
              && (created.Some? ==> created.value == NewRelationship(openid, otherid, nowTS) && relationship == old(relationship))
              && (created.None? ==> relationship == Some(found[0]))
    {
      var found := RelationshipLookup(relationships, openid, otherid);
      if |found| == 0 {
        created := Some(NewRelationship(openid, otherid, nowTS));
      } else {
        created := None;
        relationship := Some(found[0]);
      }
    }
  }
}
