/**
 * The conversation log of a project and `mergeMessages`, which reconciles the
 * locally cached log with the one the server returns.
 */
module Messages {
  import opened Wrappers

  /** The `sender` object of a message; only `_id` takes part in deduplication. */
  datatype Sender = Sender(id: string, email: string)

  /** A chat message: body text, sender and, when present, its timestamp in milliseconds. */
  datatype Message = Message(text: string, sender: Sender, timestamp: Option<int>)

  /** `new Date(m.timestamp || 0)`: a missing timestamp counts as the epoch. */
  function Stamp(m: Message): int {
    if m.timestamp.Some? then m.timestamp.value else 0
  }

  function Distance(x: int, y: int): nat {
    if x <= y then y - x else x - y
  }

  /** The duplicate test of `mergeMessages`: same text, same sender id, less than a second apart. */
  predicate Equivalent(a: Message, b: Message) {
    a.text == b.text && a.sender.id == b.sender.id && Distance(Stamp(a), Stamp(b)) < 1000
  }

  /** `cached.some(...)`: some cached message is equivalent to `m`. */
  predicate HasEquivalent(cached: seq<Message>, m: Message) {
    exists c :: c in cached && Equivalent(c, m)
  }

  /**
   * The server messages the merge appends, in server order: those with no
   * equivalent among the cached ones. Server messages are compared with the
   * cache only, never with each other.
   */
  function Unseen(cached: seq<Message>, server: seq<Message>): (r: seq<Message>)
    ensures forall m :: m in r <==> m in server && !HasEquivalent(cached, m)
    ensures |r| <= |server|
  {
    if server == [] then []
    else
      var last := server[|server| - 1];
      assert forall m :: m in server <==> m in server[..|server| - 1] || m == last by {
        assert server == server[..|server| - 1] + [last];
      }
      Unseen(cached, server[..|server| - 1]) + (if HasEquivalent(cached, last) then [] else [last])
  }

  lemma UnseenSnoc(cached: seq<Message>, s: seq<Message>, m: Message)
    ensures Unseen(cached, s + [m]) == Unseen(cached, s) + (if HasEquivalent(cached, m) then [] else [m])
  {
    assert (s + [m])[..|s|] == s;
  }

  /**
   * The server list is scanned message by message: every occurrence is judged
   * on its own against the cache, and the kept ones stay in server order.
   */
  lemma {:induction false} UnseenAppend(cached: seq<Message>, a: seq<Message>, b: seq<Message>)
    ensures Unseen(cached, a + b) == Unseen(cached, a) + Unseen(cached, b)
  {
    if b == [] {
      assert a + b == a;
    } else {
      var b' := b[..|b| - 1];
      var last := b[|b| - 1];
      assert b == b' + [last];
      assert a + b == (a + b') + [last];
      var tail := if HasEquivalent(cached, last) then [] else [last];
      calc {
        Unseen(cached, a + b);
        { UnseenSnoc(cached, a + b', last); }
        Unseen(cached, a + b') + tail;
        { UnseenAppend(cached, a, b'); }
        (Unseen(cached, a) + Unseen(cached, b')) + tail;
        Unseen(cached, a) + (Unseen(cached, b') + tail);
        { UnseenSnoc(cached, b', last); }
        Unseen(cached, a) + Unseen(cached, b);
      }
    }
  }

  /** A single server message is appended exactly when the cache holds nothing equivalent to it. */
  lemma UnseenOne(cached: seq<Message>, m: Message)
    ensures Unseen(cached, [m]) == if HasEquivalent(cached, m) then [] else [m]
  {
    assert [m][..0] == [];
  }

  /** Non-decreasing by timestamp. */
  predicate Sorted(s: seq<Message>) {
    forall i, j :: 0 <= i < j < |s| ==> Stamp(s[i]) <= Stamp(s[j])
  }

  /** The messages of `s` whose timestamp is `t`, in their order in `s`. */
  function WithStamp(s: seq<Message>, t: int): seq<Message> {
    if s == [] then []
    else (if Stamp(s[0]) == t then [s[0]] else []) + WithStamp(s[1..], t)
  }

  /** Places `m` before the first message not older than it. */
  function Insert(m: Message, s: seq<Message>): (r: seq<Message>)
    ensures multiset(r) == multiset(s) + multiset{m}
  {
    if s == [] || Stamp(m) <= Stamp(s[0]) then [m] + s
    else
      assert s == [s[0]] + s[1..];
      [s[0]] + Insert(m, s[1..])
  }

  /** Every message of `s` is at least as recent as `b`. */
  predicate AtLeast(s: seq<Message>, b: int) {
    forall i :: 0 <= i < |s| ==> b <= Stamp(s[i])
  }

  /** A non-empty log is sorted exactly when its tail is sorted and no older than its head. */
  lemma SortedCons(x: Message, t: seq<Message>)
    ensures Sorted([x] + t) <==> AtLeast(t, Stamp(x)) && Sorted(t)
  {
    var s := [x] + t;
    if Sorted(s) {
      forall i | 0 <= i < |t| ensures Stamp(x) <= Stamp(t[i]) {
        assert s[0] == x && s[i + 1] == t[i];
      }
      forall i, j | 0 <= i < j < |t| ensures Stamp(t[i]) <= Stamp(t[j]) {
        assert s[i + 1] == t[i] && s[j + 1] == t[j];
      }
    }
    if AtLeast(t, Stamp(x)) && Sorted(t) {
      forall i, j | 0 <= i < j < |s| ensures Stamp(s[i]) <= Stamp(s[j]) {
        assert s[j] == t[j - 1];
        if i > 0 { assert s[i] == t[i - 1]; }
      }
    }
  }

  lemma {:induction false} InsertAtLeast(m: Message, s: seq<Message>, b: int)
    requires AtLeast(s, b) && b <= Stamp(m)
    ensures AtLeast(Insert(m, s), b)
  {
    if s != [] && Stamp(m) > Stamp(s[0]) {
      assert AtLeast(s[1..], b) by {
        forall i | 0 <= i < |s[1..]| ensures b <= Stamp(s[1..][i]) { assert s[1..][i] == s[i + 1]; }
      }
      InsertAtLeast(m, s[1..], b);
      var r := [s[0]] + Insert(m, s[1..]);
      forall i | 0 <= i < |r| ensures b <= Stamp(r[i]) {
        if i > 0 { assert r[i] == Insert(m, s[1..])[i - 1]; }
      }
    }
  }

  lemma {:induction false} InsertSorted(m: Message, s: seq<Message>)
    requires Sorted(s)
    ensures Sorted(Insert(m, s))
  {
    if s == [] {
      SortedCons(m, s);
    } else {
      var t := s[1..];
      assert s == [s[0]] + t;
      SortedCons(s[0], t);
      if Stamp(m) <= Stamp(s[0]) {
        assert AtLeast(s, Stamp(m)) by {
          forall i | 0 <= i < |s| ensures Stamp(m) <= Stamp(s[i]) {
            if i > 0 { assert s[i] == t[i - 1]; }
          }
        }
        SortedCons(m, s);
      } else {
        InsertSorted(m, t);
        InsertAtLeast(m, t, Stamp(s[0]));
        SortedCons(s[0], Insert(m, t));
      }
    }
  }

  /**
   * The comparator sort of `mergeMessages`: ascending by timestamp, and, since
   * `Array.prototype.sort` is stable, messages with equal timestamps keep their
   * order.
   */
  function SortByStamp(s: seq<Message>): (r: seq<Message>)
    ensures Sorted(r)
    ensures multiset(r) == multiset(s)
  {
    if s == [] then []
    else
      assert s == [s[0]] + s[1..];
      var rest := SortByStamp(s[1..]);
      InsertSorted(s[0], rest);
      Insert(s[0], rest)
  }

  /** The merged log `mergeMessages(cached, server)` returns. */
  function Merge(cached: seq<Message>, server: seq<Message>): (r: seq<Message>)
    ensures Sorted(r)
    ensures multiset(r) == multiset(cached) + multiset(Unseen(cached, server))
  {
    SortByStamp(cached + Unseen(cached, server))
  }

  /** `mergeMessages`: copy the cache, append each unseen server message, sort by timestamp. */
  method MergeMessages(cached: seq<Message>, server: seq<Message>) returns (merged: seq<Message>)
    ensures merged == Merge(cached, server)
    ensures Sorted(merged)
    ensures multiset(merged) == multiset(cached) + multiset(Unseen(cached, server))
    ensures multiset(cached) <= multiset(merged)
  {
    var all := cached;
    var i := 0;
    while i < |server|
      invariant 0 <= i <= |server|
      invariant all == cached + Unseen(cached, server[..i])
    {
      assert server[..i + 1][..i] == server[..i];
      if !HasEquivalent(cached, server[i]) {
        all := all + [server[i]];
      }
      i := i + 1;
    }
    assert server[..i] == server;
    merged := SortByStamp(all);
  }

  lemma {:induction false} InsertWithStamp(m: Message, s: seq<Message>, t: int)
    ensures WithStamp(Insert(m, s), t) == (if Stamp(m) == t then [m] else []) + WithStamp(s, t)
  {
    if s == [] || Stamp(m) <= Stamp(s[0]) {
      assert ([m] + s)[1..] == s;
    } else {
      InsertWithStamp(m, s[1..], t);
      assert ([s[0]] + Insert(m, s[1..]))[1..] == Insert(m, s[1..]);
    }
  }

  /** The sort is stable: for every timestamp, the messages carrying it keep their relative order. */
  lemma {:induction false} SortByStampStable(s: seq<Message>, t: int)
    ensures WithStamp(SortByStamp(s), t) == WithStamp(s, t)
  {
    if s != [] {
      SortByStampStable(s[1..], t);
      InsertWithStamp(s[0], SortByStamp(s[1..]), t);
    }
  }

  /** A log that is already in timestamp order is left exactly as it is by the sort. */
  lemma {:induction false} SortByStampOfSorted(s: seq<Message>)
    requires Sorted(s)
    ensures SortByStamp(s) == s
  {
    if s != [] {
      var t := s[1..];
      assert Sorted(t) by {
        forall i, j | 0 <= i < j < |t| ensures Stamp(t[i]) <= Stamp(t[j]) {
          assert t[i] == s[i + 1] && t[j] == s[j + 1];
        }
      }
      SortByStampOfSorted(t);
      if t != [] {
        assert Stamp(s[0]) <= Stamp(t[0]) by { assert t[0] == s[1]; }
      }
      assert [s[0]] + t == s;
    }
  }

  lemma {:induction false} WithStampAppend(a: seq<Message>, b: seq<Message>, t: int)
    ensures WithStamp(a + b, t) == WithStamp(a, t) + WithStamp(b, t)
  {
    if a != [] {
      WithStampAppend(a[1..], b, t);
      assert (a + b)[1..] == a[1..] + b;
    } else {
      assert a + b == b;
    }
  }

  /**
   * Among messages with equal timestamps the merge keeps the prior order:
   * first the cached ones in cache order, then the appended ones in server order.
   */
  lemma MergeStable(cached: seq<Message>, server: seq<Message>, t: int)
    ensures WithStamp(Merge(cached, server), t) == WithStamp(cached, t) + WithStamp(Unseen(cached, server), t)
  {
    SortByStampStable(cached + Unseen(cached, server), t);
    WithStampAppend(cached, Unseen(cached, server), t);
  }

  lemma {:induction false} UnseenOfSelf(s: seq<Message>, server: seq<Message>)
    requires forall m :: m in server ==> m in s
    ensures Unseen(s, server) == []
  {
    if server != [] {
      var last := server[|server| - 1];
      assert Equivalent(last, last);
      assert last in server;
      UnseenOfSelf(s, server[..|server| - 1]);
    }
  }

  /** Merging a log with itself adds nothing; a log already in timestamp order comes back unchanged. */
  lemma MergeWithSelf(s: seq<Message>)
    ensures Merge(s, s) == SortByStamp(s)
    ensures Sorted(s) ==> Merge(s, s) == s
  {
    UnseenOfSelf(s, s);
    assert s + [] == s;
    if Sorted(s) {
      SortByStampOfSorted(s);
    }
  }

  /** With an empty cache every server message is appended, equivalent ones included. */
  lemma {:induction false} UnseenOfEmptyCache(server: seq<Message>)
    ensures Unseen([], server) == server
  {
    if server != [] {
      UnseenOfEmptyCache(server[..|server| - 1]);
      assert server == server[..|server| - 1] + [server[|server| - 1]];
    }
  }

  /** Two equivalent server messages are not collapsed into one by the merge. */
  lemma ServerDuplicatesKept(m: Message)
    ensures Merge([], [m, m]) == [m, m]
  {
    UnseenOfEmptyCache([m, m]);
    assert [] + [m, m] == [m, m];
    assert Sorted([m, m]) by {
      forall i, j | 0 <= i < j < 2 ensures Stamp([m, m][i]) <= Stamp([m, m][j]) { }
    }
    SortByStampOfSorted([m, m]);
  }

  /** 400 ms apart counts as the same message; 1200 ms apart as two. */
  lemma DedupTolerance(text: string, who: Sender, t: int)
    ensures Equivalent(Message(text, who, Some(t)), Message(text, who, Some(t + 400)))
    ensures !Equivalent(Message(text, who, Some(t)), Message(text, who, Some(t + 1200)))
    ensures Equivalent(Message(text, who, None), Message(text, who, Some(999)))
  {
  }

  /** A cached greeting and the server's copy of it plus one new reply merge into the two, in order. */
  lemma MergeScenario(a: Sender, b: Sender)
    ensures
      var hi := Message("hi", a, Some(100));
      var yo := Message("yo", b, Some(200));
      Merge([hi], [hi, yo]) == [hi, yo]
  {
    var hi := Message("hi", a, Some(100));
    var yo := Message("yo", b, Some(200));
    assert Equivalent(hi, hi);
    assert !HasEquivalent([hi], yo) by {
      forall c | c in [hi] ensures !Equivalent(c, yo) { assert c == hi; }
    }
    assert Unseen([hi], [hi]) == [] by {
      assert [hi][..0] == [];
    }
    assert [hi, yo][..1] == [hi];
    assert Unseen([hi], [hi, yo]) == [yo];
    SortByStampOfSorted([hi, yo]);
  }
}
