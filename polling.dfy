/**
 * The inbound poller's deduplication. Each fetch returns the provider's
 * listing of messages; the poller publishes, in the fetched order, those whose
 * id it has not seen before, and remembers their ids. The ids of the first
 * listing are remembered without being published.
 */
module Polling {
  import opened Protocol

  function SidsOf(ms: seq<TxtMessage>): set<string> {
    set m | m in ms :: m.sid
  }

  lemma SidsOfSnoc(ms: seq<TxtMessage>, m: TxtMessage)
    ensures SidsOf(ms + [m]) == SidsOf(ms) + {m.sid}
  {
    assert forall x :: x in ms + [m] <==> x in ms || x == m;
  }

  /** The messages of a batch whose id is not in `seen`, in fetched order. */
  function Unseen(batch: seq<TxtMessage>, seen: set<string>): (r: seq<TxtMessage>)
    ensures |r| <= |batch|
    ensures forall m :: m in r ==> m in batch && m.sid !in seen
    ensures forall m :: m in batch && m.sid !in seen ==> m in r
    decreases |batch|
  {
    if batch == [] then []
    else if batch[0].sid !in seen then [batch[0]] + Unseen(batch[1..], seen)
    else Unseen(batch[1..], seen)
  }

  /** The filter keeps the fetched order: it distributes over concatenation. */
  lemma {:induction false} UnseenAppend(a: seq<TxtMessage>, b: seq<TxtMessage>, seen: set<string>)
    ensures Unseen(a + b, seen) == Unseen(a, seen) + Unseen(b, seen)
    decreases |a|
  {
    if a == [] {
      assert a + b == b;
    } else {
      assert (a + b)[0] == a[0] && (a + b)[1..] == a[1..] + b;
      UnseenAppend(a[1..], b, seen);
    }
  }

  /** No two messages of the sequence carry the same id. */
  predicate DistinctSids(ms: seq<TxtMessage>) {
    forall i, j :: 0 <= i < j < |ms| ==> ms[i].sid != ms[j].sid
  }

  /** A listing with distinct ids yields a publication with distinct ids. */
  lemma {:induction false} UnseenDistinct(batch: seq<TxtMessage>, seen: set<string>)
    requires DistinctSids(batch)
    ensures DistinctSids(Unseen(batch, seen))
    decreases |batch|
  {
    if batch != [] {
      var rest := Unseen(batch[1..], seen);
      assert DistinctSids(batch[1..]) by {
        forall i, j | 0 <= i < j < |batch[1..]| ensures batch[1..][i].sid != batch[1..][j].sid {
          assert batch[1..][i] == batch[i + 1] && batch[1..][j] == batch[j + 1];
        }
      }
      UnseenDistinct(batch[1..], seen);
      if batch[0].sid !in seen {
        var r := [batch[0]] + rest;
        forall i, j | 0 <= i < j < |r| ensures r[i].sid != r[j].sid {
          if i == 0 {
            assert r[j] in batch[1..];
            var k :| 0 <= k < |batch[1..]| && batch[1..][k] == r[j];
            assert batch[k + 1] == r[j];
          } else {
            assert r[i] == rest[i - 1] && r[j] == rest[j - 1];
          }
        }
      }
    }
  }

  /** After a poll every id of the listing is known, so a later listing publishes none of them again. */
  lemma SeenAfterPoll(batch: seq<TxtMessage>, seen: set<string>, later: seq<TxtMessage>)
    ensures SidsOf(batch) <= seen + SidsOf(Unseen(batch, seen))
    ensures forall m :: m in Unseen(later, seen + SidsOf(Unseen(batch, seen))) ==> m.sid !in SidsOf(batch)
  {
    forall x | x in SidsOf(batch) ensures x in seen + SidsOf(Unseen(batch, seen)) {
      var m :| m in batch && m.sid == x;
      if x !in seen {
        assert m in Unseen(batch, seen);
      }
    }
  }

  /** Everything published over a series of polls, starting from the ids in `seen`. */
  function PollAll(seen: set<string>, batches: seq<seq<TxtMessage>>): seq<TxtMessage>
    decreases |batches|
  {
    if batches == [] then []
    else
      var found := Unseen(batches[0], seen);
      found + PollAll(seen + SidsOf(found), batches[1..])
  }

  /** One poll of the series, read at position n. */
  lemma PollAllAt(seen: set<string>, batches: seq<seq<TxtMessage>>, n: nat)
    requires n < |batches|
    ensures var found := Unseen(batches[n], seen);
      PollAll(seen, batches[n..]) == found + PollAll(seen + SidsOf(found), batches[n + 1..])
  {
    assert batches[n..][0] == batches[n] && batches[n..][1..] == batches[n + 1..];
  }

  /**
   * No message is published twice, and nothing already seen is published:
   * over any series of listings, each with distinct ids, the published ids
   * are distinct and none of them was among the ids known at the start.
   */
  lemma {:induction false} PublishedAtMostOnce(seen: set<string>, batches: seq<seq<TxtMessage>>)
    requires forall b :: b in batches ==> DistinctSids(b)
    ensures DistinctSids(PollAll(seen, batches))
    ensures forall m :: m in PollAll(seen, batches) ==> m.sid !in seen
    decreases |batches|
  {
    if batches != [] {
      var found := Unseen(batches[0], seen);
      var seen' := seen + SidsOf(found);
      var rest := PollAll(seen', batches[1..]);
      assert batches[0] in batches;
      UnseenDistinct(batches[0], seen);
      assert forall b :: b in batches[1..] ==> b in batches;
      PublishedAtMostOnce(seen', batches[1..]);
      var all := found + rest;
      assert all == PollAll(seen, batches);
      forall i, j | 0 <= i < j < |all| ensures all[i].sid != all[j].sid {
        if j >= |found| {
          assert all[j] == rest[j - |found|];
          assert all[j] in rest;
          if i < |found| {
            assert all[i] in found;
            assert all[i].sid in SidsOf(found);
          } else {
            assert all[i] == rest[i - |found|];
          }
        }
      }
      forall m | m in all ensures m.sid !in seen {
        if m !in found {
          assert m in rest;
        }
      }
    }
  }

  /** Remembers the id of every message of the first listing. */
  method RememberAll(initial: seq<TxtMessage>) returns (seen: set<string>)
    ensures seen == SidsOf(initial)
  {
    seen := {};
    for k := 0 to |initial|
      invariant seen == SidsOf(initial[..k])
    {
      assert initial[..k + 1] == initial[..k] + [initial[k]];
      SidsOfSnoc(initial[..k], initial[k]);
      seen := seen + {initial[k].sid};
    }
    assert initial[..|initial|] == initial;
  }

  /** Publishes the unseen messages of one listing in order, recording each id as it goes. */
  method PublishUnseen(batch: seq<TxtMessage>, seen: set<string>, published: seq<TxtMessage>)
    returns (seen': set<string>, published': seq<TxtMessage>)
    ensures seen' == seen + SidsOf(Unseen(batch, seen))
    ensures published' == published + Unseen(batch, seen)
  {
    var unique := Unseen(batch, seen);
    seen', published' := seen, published;
    for k := 0 to |unique|
      invariant seen' == seen + SidsOf(unique[..k])
      invariant published' == published + unique[..k]
    {
      assert unique[..k + 1] == unique[..k] + [unique[k]];
      SidsOfSnoc(unique[..k], unique[k]);
      seen' := seen' + {unique[k].sid};
      published' := published' + [unique[k]];
    }
    assert unique[..|unique|] == unique;
  }

  /**
   * The poller: remember the ids of the first listing, then for each later
   * listing publish its unseen messages in order. Returns every published
   * message, in publication order.
   */
  method StartPolling(initial: seq<TxtMessage>, batches: seq<seq<TxtMessage>>) returns (published: seq<TxtMessage>)
    ensures published == PollAll(SidsOf(initial), batches)
  {
    var seen := RememberAll(initial);
    published := [];
    for n := 0 to |batches|
      invariant published + PollAll(seen, batches[n..]) == PollAll(SidsOf(initial), batches)
    {
      var found := Unseen(batches[n], seen);
      PollAllAt(seen, batches, n);
      ghost var rest := PollAll(seen + SidsOf(found), batches[n + 1..]);
      assert published + (found + rest) == (published + found) + rest;
      seen, published := PublishUnseen(batches[n], seen, published);
    }
    assert batches[|batches|..] == [];
  }
}
