/**
 * Admission into games: the stranger listener that queues players asking to
 * be a stranger, and the dispatcher that admits a main player, reserves the
 * next queued stranger and starts a session for the pair.
 *
 * The queue between the two is a sequence of stranger ids. Where the
 * dispatcher would block on an empty queue, the model stops.
 */
module Admission {
  import opened Text
  import opened Protocol

  // ---------------------------------------------------------------------
  // Stranger listener

  /** A "stranger join" (any case) from a player who is not busy. */
  predicate AcceptsStranger(busy: set<PlayerId>, m: TxtMessage) {
    Matches(m.body, "stranger join") && m.from !in busy
  }

  /** The players the listener queues, in the order their requests arrived. */
  function StrangerRequests(busy: set<PlayerId>, inbox: seq<TxtMessage>): (q: seq<PlayerId>)
    ensures |q| <= |inbox|
    ensures forall x :: x in q ==> exists m :: m in inbox && m.from == x && AcceptsStranger(busy, m)
    decreases |inbox|
  {
    if inbox == [] then []
    else if AcceptsStranger(busy, inbox[0]) then [inbox[0].from] + StrangerRequests(busy, inbox[1..])
    else StrangerRequests(busy, inbox[1..])
  }

  /** Every accepted request is queued: no "stranger join" from a free player is lost. */
  lemma {:induction false} StrangerRequestsComplete(busy: set<PlayerId>, inbox: seq<TxtMessage>, i: nat)
    requires i < |inbox| && AcceptsStranger(busy, inbox[i])
    ensures inbox[i].from in StrangerRequests(busy, inbox)
    decreases i
  {
    if i > 0 {
      assert inbox[1..][i - 1] == inbox[i];
      StrangerRequestsComplete(busy, inbox[1..], i - 1);
    }
  }

  /**
   * The queue is first in, first out with one entry per accepted request:
   * the requests of a later part of the inbox are queued after those of an
   * earlier part, repeated requests included.
   */
  lemma {:induction false} StrangerRequestsAppend(busy: set<PlayerId>, a: seq<TxtMessage>, b: seq<TxtMessage>)
    ensures StrangerRequests(busy, a + b) == StrangerRequests(busy, a) + StrangerRequests(busy, b)
    decreases |a|
  {
    if a == [] {
      assert a + b == b;
    } else {
      assert (a + b)[0] == a[0] && (a + b)[1..] == a[1..] + b;
      StrangerRequestsAppend(busy, a[1..], b);
    }
  }

  /**
   * The stranger listener: read its inbox and queue the sender of every
   * "stranger join" from a free player. Nobody is reserved here.
   */
  method SetupStrangerListener(inbox: seq<TxtMessage>, busy: BusyPlayers) returns (queue: seq<PlayerId>)
    ensures queue == StrangerRequests(busy.ids, inbox)
  {
    queue := [];
    var i := 0;
    while i < |inbox|
      invariant 0 <= i <= |inbox|
      invariant StrangerRequests(busy.ids, inbox) == queue + StrangerRequests(busy.ids, inbox[i..])
    {
      var m := inbox[i];
      assert inbox[i..][0] == m && inbox[i..][1..] == inbox[i + 1..];
      if Lower(m.body) == "stranger join" && !busy.Contains(m.from) {
        queue := queue + [m.from];
      }
      i := i + 1;
    }
    assert inbox[i..] == [];
  }

  // ---------------------------------------------------------------------
  // Dispatcher

  /** A game to start: its main player and its stranger. */
  datatype Pairing = Pairing(main: PlayerId, stranger: PlayerId)

  /** A "who dis" (any case) from a player who is not busy. */
  predicate AdmitsMain(busy: set<PlayerId>, m: TxtMessage) {
    Matches(m.body, "who dis") && m.from !in busy
  }

  /**
   * What the dispatcher did: the games it started, the admitted main player
   * left waiting for a stranger (if the queue ran dry), the busy set, its texts.
   */
  datatype Dispatched = Dispatched(games: seq<Pairing>, waiting: Option<PlayerId>, busy: set<PlayerId>, out: seq<Notice>)

  function Dispatch(inbox: seq<TxtMessage>, strangers: seq<PlayerId>, busy: set<PlayerId>): Dispatched
    decreases |inbox|
  {
    if inbox == [] then Dispatched([], None, busy, [])
    else
      var m := inbox[0];
      if !AdmitsMain(busy, m) then Dispatch(inbox[1..], strangers, busy)
      else if strangers == [] then
        Dispatched([], Some(m.from), busy + {m.from}, [Notice(m.from, WaitingForStranger)])
      else
        var s := strangers[0];
        var rest := Dispatch(inbox[1..], strangers[1..], busy + {m.from} + {s});
        Dispatched([Pairing(m.from, s)] + rest.games, rest.waiting, rest.busy,
                   [Notice(m.from, WaitingForStranger), Notice(m.from, FoundStranger)] + rest.out)
  }

  /** A dispatch result preceded by games already started and texts already sent. */
  function After(games: seq<Pairing>, out: seq<Notice>, r: Dispatched): Dispatched {
    Dispatched(games + r.games, r.waiting, r.busy, out + r.out)
  }

  /** Everybody a list of games reserved. */
  function Reserved(games: seq<Pairing>): set<PlayerId>
    decreases |games|
  {
    if games == [] then {} else {games[0].main, games[0].stranger} + Reserved(games[1..])
  }

  function WaitingSet(w: Option<PlayerId>): set<PlayerId> {
    match w
    case None => {}
    case Some(p) => {p}
  }

  /**
   * The dispatcher only ever adds to the busy set: exactly the main players
   * and strangers of the games it started, and the main player left waiting.
   */
  lemma {:induction false} DispatchBusy(inbox: seq<TxtMessage>, strangers: seq<PlayerId>, busy: set<PlayerId>)
    ensures var r := Dispatch(inbox, strangers, busy);
      r.busy == busy + Reserved(r.games) + WaitingSet(r.waiting)
    decreases |inbox|
  {
    if inbox != [] {
      var m := inbox[0];
      if !AdmitsMain(busy, m) {
        DispatchBusy(inbox[1..], strangers, busy);
      } else if strangers != [] {
        var s := strangers[0];
        DispatchBusy(inbox[1..], strangers[1..], busy + {m.from} + {s});
        var rest := Dispatch(inbox[1..], strangers[1..], busy + {m.from} + {s});
        assert ([Pairing(m.from, s)] + rest.games)[1..] == rest.games;
      }
    }
  }

  /** Without a "who dis" from a free player the dispatcher admits nobody, reserves nobody and sends nothing. */
  lemma {:induction false} DispatchIgnoresOthers(inbox: seq<TxtMessage>, strangers: seq<PlayerId>, busy: set<PlayerId>)
    requires forall i :: 0 <= i < |inbox| ==> !AdmitsMain(busy, inbox[i])
    ensures Dispatch(inbox, strangers, busy) == Dispatched([], None, busy, [])
    decreases |inbox|
  {
    if inbox != [] {
      assert !AdmitsMain(busy, inbox[0]);
      DispatchIgnoresOthers(inbox[1..], strangers, busy);
    }
  }

  /** The two texts each started game sends its main player, game by game. */
  function GamesOut(games: seq<Pairing>): seq<Notice>
    decreases |games|
  {
    if games == [] then []
    else [Notice(games[0].main, WaitingForStranger), Notice(games[0].main, FoundStranger)] + GamesOut(games[1..])
  }

  /** The text a main player left waiting for a stranger has been sent. */
  function WaitOut(w: Option<PlayerId>): seq<Notice> {
    match w
    case None => []
    case Some(p) => [Notice(p, WaitingForStranger)]
  }

  /**
   * What the dispatcher sends: every admitted main player is told it waits
   * for a stranger and, once one is paired with it, that a stranger was found;
   * nobody else is sent anything.
   */
  lemma {:induction false} DispatchTexts(inbox: seq<TxtMessage>, strangers: seq<PlayerId>, busy: set<PlayerId>)
    ensures var r := Dispatch(inbox, strangers, busy);
      r.out == GamesOut(r.games) + WaitOut(r.waiting)
    decreases |inbox|
  {
    if inbox != [] {
      var m := inbox[0];
      if !AdmitsMain(busy, m) {
        DispatchTexts(inbox[1..], strangers, busy);
      } else if strangers != [] {
        var busy' := busy + {m.from} + {strangers[0]};
        DispatchTexts(inbox[1..], strangers[1..], busy');
        var r := Dispatch(inbox, strangers, busy);
        var rest := Dispatch(inbox[1..], strangers[1..], busy');
        assert r.games[1..] == rest.games;
      }
    }
  }

  /** Players admitted as main by one dispatch: those of its games, then the waiting one. */
  function Mains(r: Dispatched): seq<PlayerId> {
    MainsOf(r.games) + match r.waiting
                       case None => []
                       case Some(p) => [p]
  }

  function MainsOf(games: seq<Pairing>): (ms: seq<PlayerId>)
    ensures |ms| == |games| && forall k :: 0 <= k < |games| ==> ms[k] == games[k].main
    decreases |games|
  {
    if games == [] then [] else [games[0].main] + MainsOf(games[1..])
  }

  /** No player occurs twice in `ms`, and none of them is in `busy`. */
  predicate FreshAndDistinct(ms: seq<PlayerId>, busy: set<PlayerId>) {
    && (forall i :: 0 <= i < |ms| ==> ms[i] !in busy)
    && (forall i, j :: 0 <= i < j < |ms| ==> ms[i] != ms[j])
  }

  /**
   * No double admission: every admitted main player was free when the
   * dispatcher started, and no player is admitted as main twice.
   */
  lemma {:induction false} MainsAdmittedOnce(inbox: seq<TxtMessage>, strangers: seq<PlayerId>, busy: set<PlayerId>)
    ensures FreshAndDistinct(Mains(Dispatch(inbox, strangers, busy)), busy)
    decreases |inbox|
  {
    if inbox != [] {
      var m := inbox[0];
      if !AdmitsMain(busy, m) {
        MainsAdmittedOnce(inbox[1..], strangers, busy);
      } else if strangers != [] {
        var s := strangers[0];
        var busy' := busy + {m.from} + {s};
        MainsAdmittedOnce(inbox[1..], strangers[1..], busy');
        var rest := Mains(Dispatch(inbox[1..], strangers[1..], busy'));
        var ms := Mains(Dispatch(inbox, strangers, busy));
        DispatchStep(inbox, strangers, busy);
        forall i, j | 0 <= i < j < |ms| ensures ms[i] != ms[j] {
          assert ms[j] == rest[j - 1];
          if i > 0 { assert ms[i] == rest[i - 1]; }
        }
        forall i | 0 <= i < |ms| ensures ms[i] !in busy {
          if i > 0 { assert ms[i] == rest[i - 1]; }
        }
      }
    }
  }

  /** The first game a dispatch starts, and the dispatch of the rest of the inbox it continues with. */
  lemma DispatchStep(inbox: seq<TxtMessage>, strangers: seq<PlayerId>, busy: set<PlayerId>)
    requires inbox != [] && AdmitsMain(busy, inbox[0]) && strangers != []
    ensures var r := Dispatch(inbox, strangers, busy);
      var rest := Dispatch(inbox[1..], strangers[1..], busy + {inbox[0].from} + {strangers[0]});
      && r.games == [Pairing(inbox[0].from, strangers[0])] + rest.games
      && r.waiting == rest.waiting && r.busy == rest.busy
      && Mains(r) == [inbox[0].from] + Mains(rest)
  {
    var r := Dispatch(inbox, strangers, busy);
    var rest := Dispatch(inbox[1..], strangers[1..], busy + {inbox[0].from} + {strangers[0]});
    assert MainsOf(r.games) == [inbox[0].from] + MainsOf(rest.games) by {
      assert r.games[1..] == rest.games;
    }
  }

  /** Every admitted main player sent "who dis" (in any case) and was free when the dispatcher started. */
  lemma {:induction false} MainsSentWhoDis(inbox: seq<TxtMessage>, strangers: seq<PlayerId>, busy: set<PlayerId>)
    ensures forall p :: p in Mains(Dispatch(inbox, strangers, busy)) ==>
      exists m :: m in inbox && m.from == p && Matches(m.body, "who dis") && p !in busy
    decreases |inbox|
  {
    if inbox != [] {
      var m := inbox[0];
      if !AdmitsMain(busy, m) {
        MainsSentWhoDis(inbox[1..], strangers, busy);
        forall p | p in Mains(Dispatch(inbox, strangers, busy))
          ensures exists m :: m in inbox && m.from == p && Matches(m.body, "who dis") && p !in busy
        {
          var m' :| m' in inbox[1..] && m'.from == p && Matches(m'.body, "who dis") && p !in busy;
          assert m' in inbox;
        }
      } else if strangers == [] {
        assert Mains(Dispatch(inbox, strangers, busy)) == [m.from];
      } else {
        var busy' := busy + {m.from} + {strangers[0]};
        DispatchStep(inbox, strangers, busy);
        MainsSentWhoDis(inbox[1..], strangers[1..], busy');
        forall p | p in Mains(Dispatch(inbox, strangers, busy))
          ensures exists m :: m in inbox && m.from == p && Matches(m.body, "who dis") && p !in busy
        {
          if p != m.from {
            var m' :| m' in inbox[1..] && m'.from == p && Matches(m'.body, "who dis") && p !in busy';
            assert m' in inbox;
          }
        }
      }
    }
  }

  /** Strangers are taken from the front of the queue, in queue order, one per game. */
  lemma {:induction false} StrangersInQueueOrder(inbox: seq<TxtMessage>, strangers: seq<PlayerId>, busy: set<PlayerId>)
    ensures var r := Dispatch(inbox, strangers, busy);
      |r.games| <= |strangers| && forall i :: 0 <= i < |r.games| ==> r.games[i].stranger == strangers[i]
    decreases |inbox|
  {
    if inbox != [] {
      if !AdmitsMain(busy, inbox[0]) {
        StrangersInQueueOrder(inbox[1..], strangers, busy);
      } else if strangers != [] {
        var busy' := busy + {inbox[0].from} + {strangers[0]};
        DispatchStep(inbox, strangers, busy);
        StrangersInQueueOrder(inbox[1..], strangers[1..], busy');
        var r := Dispatch(inbox, strangers, busy);
        var rest := Dispatch(inbox[1..], strangers[1..], busy');
        forall i | 0 <= i < |r.games| ensures r.games[i].stranger == strangers[i] {
          if i > 0 {
            assert r.games[i] == rest.games[i - 1];
            assert strangers[1..][i - 1] == strangers[i];
          }
        }
      }
    }
  }

  /**
   * No "who dis" is lost: unless the queue ran dry, every sender of a
   * "who dis" ends up reserved, either admitted now or already busy.
   */
  lemma {:induction false} WhoDisSendersReserved(inbox: seq<TxtMessage>, strangers: seq<PlayerId>, busy: set<PlayerId>)
    ensures var r := Dispatch(inbox, strangers, busy);
      r.waiting.None? ==> forall m :: m in inbox && Matches(m.body, "who dis") ==> m.from in r.busy
    decreases |inbox|
  {
    if inbox != [] {
      var m := inbox[0];
      var r := Dispatch(inbox, strangers, busy);
      if !AdmitsMain(busy, m) {
        WhoDisSendersReserved(inbox[1..], strangers, busy);
        DispatchBusy(inbox[1..], strangers, busy);
        forall m' | m' in inbox && Matches(m'.body, "who dis") && r.waiting.None? ensures m'.from in r.busy {
          if m' != m {
            assert m' in inbox[1..];
          }
        }
      } else if strangers != [] {
        var busy' := busy + {m.from} + {strangers[0]};
        DispatchStep(inbox, strangers, busy);
        WhoDisSendersReserved(inbox[1..], strangers[1..], busy');
        DispatchBusy(inbox[1..], strangers[1..], busy');
        forall m' | m' in inbox && Matches(m'.body, "who dis") && r.waiting.None? ensures m'.from in r.busy {
          if m' != m {
            assert m' in inbox[1..];
          }
        }
      }
    }
  }

  /**
   * A player reserved as a stranger is busy from then on, so it is never
   * admitted as the main player of a later game, nor left waiting as one.
   */
  lemma {:induction false} StrangersNeverLaterMains(inbox: seq<TxtMessage>, strangers: seq<PlayerId>, busy: set<PlayerId>)
    ensures var r := Dispatch(inbox, strangers, busy);
      && (forall i, j :: 0 <= i < j < |r.games| ==> r.games[j].main != r.games[i].stranger)
      && (r.waiting.Some? ==> forall i :: 0 <= i < |r.games| ==> r.games[i].stranger != r.waiting.value)
    decreases |inbox|
  {
    if inbox != [] {
      var m := inbox[0];
      if !AdmitsMain(busy, m) {
        StrangersNeverLaterMains(inbox[1..], strangers, busy);
      } else if strangers != [] {
        var s := strangers[0];
        var busy' := busy + {m.from} + {s};
        DispatchStep(inbox, strangers, busy);
        StrangersNeverLaterMains(inbox[1..], strangers[1..], busy');
        MainsAdmittedOnce(inbox[1..], strangers[1..], busy');
        var r := Dispatch(inbox, strangers, busy);
        var rest := Dispatch(inbox[1..], strangers[1..], busy');
        var later := Mains(rest);
        assert forall k :: 0 <= k < |later| ==> later[k] != s;
        forall i, j | 0 <= i < j < |r.games| ensures r.games[j].main != r.games[i].stranger {
          assert r.games[j] == rest.games[j - 1];
          assert later[j - 1] == rest.games[j - 1].main;
          if i > 0 {
            assert r.games[i] == rest.games[i - 1];
          }
        }
        if r.waiting.Some? {
          assert later[|later| - 1] == r.waiting.value;
          forall i | 0 <= i < |r.games| ensures r.games[i].stranger != r.waiting.value {
            if i > 0 {
              assert r.games[i] == rest.games[i - 1];
            }
          }
        }
      }
    }
  }

  /**
   * The dispatcher: read its inbox; on a "who dis" from a free player reserve
   * that player, take the next queued stranger, reserve the stranger too and
   * start a game for the pair.
   */
  method PlayGame(inbox: seq<TxtMessage>, strangers: seq<PlayerId>, busy: BusyPlayers)
    returns (games: seq<Pairing>, waiting: Option<PlayerId>, out: seq<Notice>)
    modifies busy
    ensures var r := Dispatch(inbox, strangers, old(busy.ids));
      games == r.games && waiting == r.waiting && busy.ids == r.busy && out == r.out
  {
    games, waiting, out := [], None, [];
    var i, j := 0, 0;
    while i < |inbox|
      invariant 0 <= i <= |inbox| && 0 <= j <= |strangers|
      invariant waiting == None
      invariant Dispatch(inbox, strangers, old(busy.ids))
             == After(games, out, Dispatch(inbox[i..], strangers[j..], busy.ids))
    {
      var m := inbox[i];
      assert inbox[i..][0] == m && inbox[i..][1..] == inbox[i + 1..];
      if Lower(m.body) == "who dis" && !busy.Contains(m.from) {
        busy.Insert(m.from);
        out := out + [Notice(m.from, WaitingForStranger)];
        if j == |strangers| {
          waiting := Some(m.from);
          break;
        }
        assert strangers[j..][0] == strangers[j] && strangers[j..][1..] == strangers[j + 1..];
        var stranger := strangers[j];
        j := j + 1;
        busy.Insert(stranger);
        out := out + [Notice(m.from, FoundStranger)];
        games := games + [Pairing(m.from, stranger)];
      }
      i := i + 1;
    }
  }
}
