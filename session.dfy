/**
 * One game session: the game id, the wait for the invited friend, the coin
 * flip that picks the partner, the relay and guess loop, and the release of
 * the reservations when the game ends.
 *
 * The session consumes its private inbox as a finite sequence; where the
 * running program would block on an empty inbox, the model stops with the
 * input. Randomness (the word chosen for the game id, the byte behind the
 * coin flip) is a parameter.
 */
module Session {
  import opened Text
  import opened Protocol

  // ---------------------------------------------------------------------
  // Game ids

  /** The fixed vocabulary game ids are drawn from. */
  const GameIds: seq<string> := [
    "spare", "poised", "measure", "impartial", "secretive", "baby", "scintillating",
    "light", "start", "dear", "vessel", "men", "tall", "reproduce", "tranquil",
    "alcoholic", "rinse", "airplane", "name", "harmony"]

  /** A new game id: the vocabulary word at the position the random choice picked. */
  function NewGameId(choice: nat): (id: string)
    requires choice < |GameIds|
    ensures id in GameIds
    ensures IsLower(id) && id != []
  {
    VocabularyIsLower();
    GameIds[choice]
  }

  /** Every word of the vocabulary is a non-empty lower-case word. */
  lemma VocabularyIsLower()
    ensures forall w :: w in GameIds ==> IsLower(w) && w != []
  {
    forall w | w in GameIds
      ensures IsLower(w) && w != []
    {
      var i :| 0 <= i < |GameIds| && GameIds[i] == w;
      if i < 10 {
        FirstWordsAreLower(i);
      } else {
        LastWordsAreLower(i);
      }
    }
  }

  lemma FirstWordsAreLower(i: nat)
    requires i < 10
    ensures IsLower(GameIds[i]) && GameIds[i] != []
  {
  }

  lemma LastWordsAreLower(i: nat)
    requires 10 <= i < |GameIds|
    ensures IsLower(GameIds[i]) && GameIds[i] != []
  {
  }

  /** What a friend has to text to join the game. */
  function JoinPhrase(gameId: string): string {
    "join " + gameId
  }

  /**
   * The invitation the main player is told to pass on can be typed back
   * verbatim, or in any ASCII letter case, and is accepted as the join phrase.
   */
  lemma InvitationIsAccepted(choice: nat, body: string)
    requires choice < |GameIds|
    requires Lower(body) == Lower(JoinPhrase(NewGameId(choice)))
    ensures Matches(body, JoinPhrase(NewGameId(choice)))
  {
    var id := NewGameId(choice);
    assert IsLower(JoinPhrase(id)) by {
      assert JoinPhrase(id) == "join " + id;
      forall i | 0 <= i < |JoinPhrase(id)| ensures !IsUpper(JoinPhrase(id)[i]) {
        if i >= 5 { assert JoinPhrase(id)[i] == id[i - 5]; }
      }
    }
    LowerKeepsLower(JoinPhrase(id));
  }

  // ---------------------------------------------------------------------
  // Coin flip

  newtype byte = x: int | 0 <= x < 256

  datatype CoinFlip = Stranger | Friend

  /** An even random byte picks the stranger, an odd one the friend. */
  function CoinFlipOf(x: byte): (f: CoinFlip)
    ensures f == Stranger <==> x % 2 == 0
  {
    if x % 2 == 0 then Stranger else Friend
  }

  /** How many of the bytes 0 .. n-1 pick the stranger. */
  function StrangerCount(n: nat): nat
    requires n <= 256
  {
    if n == 0 then 0
    else StrangerCount(n - 1) + (if CoinFlipOf((n - 1) as byte) == Stranger then 1 else 0)
  }

  lemma {:induction false} StrangerCountHalf(k: nat)
    requires 2 * k <= 256
    ensures StrangerCount(2 * k) == k
  {
    if k > 0 {
      StrangerCountHalf(k - 1);
      assert CoinFlipOf((2 * k - 1) as byte) == Friend;
      assert CoinFlipOf((2 * k - 2) as byte) == Stranger;
    }
  }

  /** The flip is fair: half of the 256 byte values pick the stranger. */
  lemma CoinFlipIsFair()
    ensures StrangerCount(256) == 128
    ensures 256 - StrangerCount(256) == 128
  {
    StrangerCountHalf(128);
  }

  /** The candidate the main player ends up talking to. */
  function PartnerOf(flip: CoinFlip, stranger: PlayerId, friend: PlayerId): PlayerId {
    match flip
    case Stranger => stranger
    case Friend => friend
  }

  /** The candidate the flip leaves out. */
  function UnusedOf(flip: CoinFlip, stranger: PlayerId, friend: PlayerId): PlayerId {
    match flip
    case Stranger => friend
    case Friend => stranger
  }

  // ---------------------------------------------------------------------
  // Waiting for the friend

  /** The two texts that open a session. */
  function Announce(main: PlayerId, gameId: string): seq<Notice> {
    [Notice(main, GameCode(gameId)), Notice(main, Invite(gameId))]
  }

  /** The two texts sent when the friend is accepted. */
  function Welcome(main: PlayerId, friend: PlayerId): seq<Notice> {
    [Notice(friend, WelcomeFriend), Notice(main, FriendJoined(friend))]
  }

  /** A message is taken as the friend's join: the join phrase in any case, from a free player. */
  predicate AcceptsFriend(gameId: string, busy: set<PlayerId>, m: TxtMessage) {
    Matches(m.body, JoinPhrase(gameId)) && m.from !in busy
  }

  /** The position of the message the waiting phase accepts, if any. */
  function FriendIndex(gameId: string, busy: set<PlayerId>, inbox: seq<TxtMessage>): (k: Option<nat>)
    ensures k.Some? ==> k.value < |inbox| && AcceptsFriend(gameId, busy, inbox[k.value])
    ensures k.Some? ==> forall j :: 0 <= j < k.value ==> !AcceptsFriend(gameId, busy, inbox[j])
    ensures k.None? ==> forall j :: 0 <= j < |inbox| ==> !AcceptsFriend(gameId, busy, inbox[j])
    decreases |inbox|
  {
    if inbox == [] then None
    else if AcceptsFriend(gameId, busy, inbox[0]) then Some(0)
    else
      match FriendIndex(gameId, busy, inbox[1..])
      case None => None
      case Some(k) => Some(k + 1)
  }

  /** The first accepted message is the one FriendIndex names. */
  lemma FriendIndexIsFirst(gameId: string, busy: set<PlayerId>, inbox: seq<TxtMessage>, i: nat)
    requires i < |inbox| && AcceptsFriend(gameId, busy, inbox[i])
    requires forall j :: 0 <= j < i ==> !AcceptsFriend(gameId, busy, inbox[j])
    ensures FriendIndex(gameId, busy, inbox) == Some(i)
  {
    var k := FriendIndex(gameId, busy, inbox);
    assert k.Some?;
    assert !(k.value < i) && !(i < k.value);
  }

  /** With no accepted message FriendIndex names none. */
  lemma NoFriendIndex(gameId: string, busy: set<PlayerId>, inbox: seq<TxtMessage>)
    requires forall j :: 0 <= j < |inbox| ==> !AcceptsFriend(gameId, busy, inbox[j])
    ensures FriendIndex(gameId, busy, inbox) == None
  {
  }

  /** Everything the waiting phase sends. */
  function JoinOut(gameId: string, main: PlayerId, busy: set<PlayerId>, inbox: seq<TxtMessage>): seq<Notice> {
    match FriendIndex(gameId, busy, inbox)
    case None => Announce(main, gameId)
    case Some(k) => Announce(main, gameId) + Welcome(main, inbox[k].from)
  }

  /**
   * The waiting phase: announce the game, then read the inbox until the first
   * join phrase from a free player. The friend is not reserved here.
   */
  method AwaitFriend(gameId: string, main: PlayerId, inbox: seq<TxtMessage>, busy: BusyPlayers)
    returns (k: Option<nat>, out: seq<Notice>)
    ensures k == FriendIndex(gameId, busy.ids, inbox)
    ensures out == JoinOut(gameId, main, busy.ids, inbox)
  {
    out := Announce(main, gameId);
    k := None;
    var i := 0;
    while i < |inbox|
      invariant 0 <= i <= |inbox|
      invariant forall j :: 0 <= j < i ==> !AcceptsFriend(gameId, busy.ids, inbox[j])
    {
      var m := inbox[i];
      if Matches(m.body, JoinPhrase(gameId)) && !busy.Contains(m.from) {
        out := out + Welcome(main, m.from);
        k := Some(i);
        FriendIndexIsFirst(gameId, busy.ids, inbox, i);
        return;
      }
      i := i + 1;
    }
    NoFriendIndex(gameId, busy.ids, inbox);
  }

  // ---------------------------------------------------------------------
  // The coin flip branch

  /** The busy set after the branch: only the friend branch edits it. */
  function MatchBusy(flip: CoinFlip, stranger: PlayerId, friend: PlayerId, busy: set<PlayerId>): set<PlayerId> {
    match flip
    case Friend => busy - {stranger} + {friend}
    case Stranger => busy
  }

  /** The texts sent once the partner is known. */
  function MatchOut(flip: CoinFlip, main: PlayerId, stranger: PlayerId, friend: PlayerId): seq<Notice> {
    var partner := PartnerOf(flip, stranger, friend);
    [Notice(main, Matched), Notice(main, Goal), Notice(partner, Matched)] +
    match flip
    case Friend =>
      [Notice(partner, Started), Notice(partner, FriendPartnerGoal)]
    case Stranger =>
      [Notice(friend, Bumped), Notice(friend, OutOfGame),
       Notice(partner, Started), Notice(partner, StrangerPartnerGoal)]
  }

  /**
   * Although the two branches edit the busy set differently, when the stranger
   * is reserved and the friend is free (as the dispatcher and the join rule
   * leave them) both end with the partner reserved and the other candidate free.
   */
  lemma MatchReservesPartnerOnly(flip: CoinFlip, stranger: PlayerId, friend: PlayerId, busy: set<PlayerId>)
    requires stranger in busy && friend !in busy
    ensures MatchBusy(flip, stranger, friend, busy)
         == busy - {UnusedOf(flip, stranger, friend)} + {PartnerOf(flip, stranger, friend)}
    ensures PartnerOf(flip, stranger, friend) in MatchBusy(flip, stranger, friend, busy)
    ensures UnusedOf(flip, stranger, friend) !in MatchBusy(flip, stranger, friend, busy)
  {
  }

  /**
   * Only the candidate the flip leaves out is told it is out of the game, and
   * only in the stranger branch; the partner is always told the game started.
   */
  lemma OnlyUnusedFriendIsBumped(flip: CoinFlip, main: PlayerId, stranger: PlayerId, friend: PlayerId)
    ensures (exists n :: n in MatchOut(flip, main, stranger, friend) && n.say == OutOfGame) <==> flip == Stranger
    ensures forall n :: n in MatchOut(flip, main, stranger, friend) && (n.say == Bumped || n.say == OutOfGame) ==>
      n.to == UnusedOf(flip, stranger, friend)
    ensures Notice(PartnerOf(flip, stranger, friend), Started) in MatchOut(flip, main, stranger, friend)
  {
    var out := MatchOut(flip, main, stranger, friend);
    if flip == Stranger {
      assert out[4] == Notice(friend, OutOfGame);
    }
  }

  // ---------------------------------------------------------------------
  // The relay and guess loop

  /** The fixed roles of a game in progress. */
  datatype Play = Play(main: PlayerId, partner: PlayerId, flip: CoinFlip)

  /** How a game ends, seen from the main player. */
  datatype Ending = MainWins | MainLoses | Quit

  /** The guess a body expresses, if it is one of the two guess phrases. */
  function GuessOf(body: string): Option<CoinFlip> {
    if Matches(body, "stranger danger") then Some(Stranger)
    else if Matches(body, "buddy buddy") then Some(Friend)
    else None
  }

  /** The referee's verdict on a message of the main player, branch by branch on the flip. */
  function Judge(flip: CoinFlip, body: string): (v: Option<Ending>)
    ensures v == Some(MainWins) <==> GuessOf(body) == Some(flip)
    ensures v == Some(MainLoses) <==> GuessOf(body).Some? && GuessOf(body) != Some(flip)
    ensures v == None <==> GuessOf(body) == None
  {
    match flip
    case Stranger =>
      if Lower(body) == "stranger danger" then Some(MainWins)
      else if Lower(body) == "buddy buddy" then Some(MainLoses)
      else None
    case Friend =>
      if Lower(body) == "stranger danger" then Some(MainLoses)
      else if Lower(body) == "buddy buddy" then Some(MainWins)
      else None
  }

  function VerdictOut(g: Play, e: Ending): seq<Notice> {
    match e
    case MainWins => [Notice(g.main, Win), Notice(g.partner, PartnerLost)]
    case MainLoses => [Notice(g.main, Lose), Notice(g.partner, Fooled)]
    case Quit => [Notice(g.main, GameOver), Notice(g.partner, GameOver)]
  }

  predicate IsParticipant(g: Play, from: PlayerId) {
    from == g.main || from == g.partner
  }

  /** The relay of one message: the partner's text goes to the main player, the main player's to the partner. */
  function Forward(g: Play, m: TxtMessage): Notice {
    if m.from == g.partner then Notice(g.main, Relay(m.body)) else Notice(g.partner, Relay(m.body))
  }

  /** One message during play: the texts it causes and whether it ends the game. */
  function PlayStep(g: Play, m: TxtMessage): (r: (seq<Notice>, Option<Ending>))
    ensures !IsParticipant(g, m.from) ==> r == ([], None)
    ensures IsParticipant(g, m.from) ==> |r.0| >= 1 && r.0[0] == Forward(g, m)
    ensures r.1 == Some(MainWins) <==>
      m.from == g.main &&
      ((g.flip == Stranger && Matches(m.body, "stranger danger")) ||
       (g.flip == Friend && Matches(m.body, "buddy buddy")))
    ensures r.1 == Some(MainLoses) <==>
      m.from == g.main &&
      ((g.flip == Stranger && Matches(m.body, "buddy buddy")) ||
       (g.flip == Friend && Matches(m.body, "stranger danger")))
    ensures r.1 == Some(Quit) <==> IsParticipant(g, m.from) && Matches(m.body, "game over")
    ensures r.1.Some? ==> r.0 == [Forward(g, m)] + VerdictOut(g, r.1.value)
    ensures r.1.None? && IsParticipant(g, m.from) ==> r.0 == [Forward(g, m)]
  {
    if !IsParticipant(g, m.from) then ([], None)
    else
      var verdict := if m.from == g.main then Judge(g.flip, m.body) else None;
      if verdict.Some? then ([Forward(g, m)] + VerdictOut(g, verdict.value), verdict)
      else if Lower(m.body) == "game over" then ([Forward(g, m)] + VerdictOut(g, Quit), Some(Quit))
      else ([Forward(g, m)], None)
  }

  /** The texts of the play loop and how it ended (None while the inbox runs out first). */
  datatype PlayRun = PlayRun(out: seq<Notice>, ending: Option<Ending>)

  /** A run preceded by texts already sent. */
  function Then(before: seq<Notice>, r: PlayRun): PlayRun {
    PlayRun(before + r.out, r.ending)
  }

  function RunPlay(g: Play, inbox: seq<TxtMessage>): PlayRun
    decreases |inbox|
  {
    if inbox == [] then PlayRun([], None)
    else
      var step := PlayStep(g, inbox[0]);
      if step.1.Some? then PlayRun(step.0, step.1)
      else
        var rest := RunPlay(g, inbox[1..]);
        PlayRun(step.0 + rest.out, rest.ending)
  }

  /** One step of the run, read at position i of the inbox. */
  lemma RunPlayUnfold(g: Play, inbox: seq<TxtMessage>, i: nat)
    requires i < |inbox|
    ensures var step := PlayStep(g, inbox[i]);
      RunPlay(g, inbox[i..]) ==
        if step.1.Some? then PlayRun(step.0, step.1) else Then(step.0, RunPlay(g, inbox[i + 1..]))
  {
    assert inbox[i..][0] == inbox[i] && inbox[i..][1..] == inbox[i + 1..];
  }

  /**
   * Splitting the inbox: once the first part ended the game the rest is never
   * read; otherwise the second part continues where the first stopped.
   */
  lemma {:induction false} RunPlayAppend(g: Play, a: seq<TxtMessage>, b: seq<TxtMessage>)
    ensures RunPlay(g, a).ending.Some? ==> RunPlay(g, a + b) == RunPlay(g, a)
    ensures RunPlay(g, a).ending.None? ==>
      RunPlay(g, a + b) == PlayRun(RunPlay(g, a).out + RunPlay(g, b).out, RunPlay(g, b).ending)
    decreases |a|
  {
    if a == [] {
      assert a + b == b;
    } else {
      assert (a + b)[0] == a[0];
      assert (a + b)[1..] == a[1..] + b;
      RunPlayAppend(g, a[1..], b);
    }
  }

  /** The messages of the two participants, in order. */
  function Participants(g: Play, inbox: seq<TxtMessage>): (r: seq<TxtMessage>)
    ensures forall m :: m in r ==> m in inbox && IsParticipant(g, m.from)
    decreases |inbox|
  {
    if inbox == [] then []
    else if IsParticipant(g, inbox[0].from) then [inbox[0]] + Participants(g, inbox[1..])
    else Participants(g, inbox[1..])
  }

  /** Messages from anyone else have no effect on the whole play loop. */
  lemma {:induction false} OutsidersAreIgnored(g: Play, inbox: seq<TxtMessage>)
    ensures RunPlay(g, inbox) == RunPlay(g, Participants(g, inbox))
    decreases |inbox|
  {
    if inbox != [] {
      OutsidersAreIgnored(g, inbox[1..]);
      if IsParticipant(g, inbox[0].from) {
        var p := [inbox[0]] + Participants(g, inbox[1..]);
        assert p[0] == inbox[0] && p[1..] == Participants(g, inbox[1..]);
      }
    }
  }

  /** "game over" from either participant ends the game at once, whatever came before it. */
  lemma GameOverEndsPlay(g: Play, before: seq<TxtMessage>, m: TxtMessage)
    requires RunPlay(g, before).ending.None?
    requires IsParticipant(g, m.from) && Matches(m.body, "game over")
    ensures RunPlay(g, before + [m]).ending == Some(Quit)
    ensures RunPlay(g, before + [m]).out == RunPlay(g, before).out + [Forward(g, m)] + VerdictOut(g, Quit)
  {
    RunPlayAppend(g, before, [m]);
    assert [m][1..] == [];
  }

  /** The main player's correct guess ends the game at once; nothing after it is read. */
  lemma CorrectGuessWins(g: Play, m: TxtMessage, rest: seq<TxtMessage>)
    requires m.from == g.main && GuessOf(m.body) == Some(g.flip)
    ensures RunPlay(g, [m] + rest) == PlayRun([Forward(g, m)] + VerdictOut(g, MainWins), Some(MainWins))
  {
    assert ([m] + rest)[0] == m;
  }

  // ---------------------------------------------------------------------
  // The whole session

  /** What a session did: the accepted friend, the partner, how play ended, the busy set and every text. */
  datatype SessionRun = SessionRun(
    friend: Option<PlayerId>, partner: Option<PlayerId>, ending: Option<Ending>,
    busy: set<PlayerId>, out: seq<Notice>)

  function RunSession(gameId: string, main: PlayerId, stranger: PlayerId, flip: CoinFlip,
                      busy: set<PlayerId>, inbox: seq<TxtMessage>): SessionRun
  {
    match FriendIndex(gameId, busy, inbox)
    case None =>
      SessionRun(None, None, None, busy, JoinOut(gameId, main, busy, inbox))
    case Some(k) =>
      var friend := inbox[k].from;
      var partner := PartnerOf(flip, stranger, friend);
      var matched := MatchBusy(flip, stranger, friend, busy);
      var play := RunPlay(Play(main, partner, flip), inbox[k + 1..]);
      SessionRun(Some(friend), Some(partner), play.ending,
                 if play.ending.Some? then matched - {main} - {partner} else matched,
                 JoinOut(gameId, main, busy, inbox) + MatchOut(flip, main, stranger, friend) + play.out)
  }

  /**
   * The session's effect on the busy set, given that the dispatcher reserved
   * the stranger: nobody is reserved before a friend joins; during play the
   * partner is reserved and the unused candidate is free; once the game ends
   * the main player, the stranger and the friend are all free and every other
   * reservation is as it was.
   */
  lemma {:induction false} SessionBusyEffect(gameId: string, main: PlayerId, stranger: PlayerId, flip: CoinFlip,
                                             busy: set<PlayerId>, inbox: seq<TxtMessage>)
    requires stranger in busy
    ensures var r := RunSession(gameId, main, stranger, flip, busy, inbox);
      && (r.friend.None? ==> r.busy == busy && r.ending.None?)
      && (r.friend.Some? ==> r.friend.value !in busy && r.partner == Some(PartnerOf(flip, stranger, r.friend.value)))
      && (r.friend.Some? && r.ending.None? ==>
            r.busy == busy - {UnusedOf(flip, stranger, r.friend.value)} + {r.partner.value})
      && (r.ending.Some? ==> r.busy == busy - {main, stranger, r.friend.value})
  {
    var k := FriendIndex(gameId, busy, inbox);
    if k.Some? {
      var friend := inbox[k.value].from;
      MatchReservesPartnerOnly(flip, stranger, friend, busy);
    }
  }

  /** The main player never wins by chatting: only a guess phrase from the main player decides the game. */
  lemma {:induction false} OnlyMainGuessDecides(g: Play, inbox: seq<TxtMessage>)
    ensures RunPlay(g, inbox).ending == Some(MainWins) || RunPlay(g, inbox).ending == Some(MainLoses) ==>
      exists i :: 0 <= i < |inbox| && inbox[i].from == g.main && GuessOf(inbox[i].body).Some?
    decreases |inbox|
  {
    if inbox != [] {
      var step := PlayStep(g, inbox[0]);
      if step.1.None? {
        OnlyMainGuessDecides(g, inbox[1..]);
        if RunPlay(g, inbox).ending == Some(MainWins) || RunPlay(g, inbox).ending == Some(MainLoses) {
          var i :| 0 <= i < |inbox[1..]| && inbox[1..][i].from == g.main && GuessOf(inbox[1..][i].body).Some?;
          assert inbox[i + 1] == inbox[1..][i];
        }
      } else if step.1 != Some(Quit) {
        assert inbox[0].from == g.main && GuessOf(inbox[0].body).Some?;
      }
    }
  }

  // ---------------------------------------------------------------------
  // The session as the program runs it

  /** End of game: release the main player and the partner. */
  method FinishGame(main: PlayerId, partner: PlayerId, busy: BusyPlayers)
    modifies busy
    ensures busy.ids == old(busy.ids) - {main} - {partner}
  {
    busy.Remove(main);
    busy.Remove(partner);
  }

  /**
   * Runs one session: picks the game id, waits for the friend, flips the
   * coin, then relays messages until a guess or "game over" ends the game.
   */
  method StartGame(main: PlayerId, stranger: PlayerId, idChoice: nat, flipByte: byte,
                   inbox: seq<TxtMessage>, busy: BusyPlayers)
    returns (friend: Option<PlayerId>, ending: Option<Ending>, out: seq<Notice>)
    requires idChoice < |GameIds|
    modifies busy
    ensures var r := RunSession(NewGameId(idChoice), main, stranger, CoinFlipOf(flipByte), old(busy.ids), inbox);
      friend == r.friend && ending == r.ending && busy.ids == r.busy && out == r.out
  {
    var gameId := NewGameId(idChoice);
    var k;
    k, out := AwaitFriend(gameId, main, inbox, busy);
    ending := None;
    if k.None? {
      friend := None;
      return;
    }
    var f := inbox[k.value].from;
    friend := Some(f);

    var flip := CoinFlipOf(flipByte);
    var partner := PartnerOf(flip, stranger, f);
    out := out + [Notice(main, Matched), Notice(main, Goal), Notice(partner, Matched)];
    match flip {
      case Friend =>
        busy.Remove(stranger);
        busy.Insert(partner);
        out := out + [Notice(partner, Started), Notice(partner, FriendPartnerGoal)];
      case Stranger =>
        out := out + [Notice(f, Bumped), Notice(f, OutOfGame),
                      Notice(partner, Started), Notice(partner, StrangerPartnerGoal)];
    }

    assert out == JoinOut(gameId, main, old(busy.ids), inbox) + MatchOut(flip, main, stranger, f);
    assert busy.ids == MatchBusy(flip, stranger, f, old(busy.ids));
    var played;
    ending, played := PlayLoop(main, partner, flip, inbox[k.value + 1..], busy);
    out := out + played;
  }

  /**
   * One message during play, as the loop body handles it: relay first, then
   * the main player's guess, then "game over"; an ending releases both players.
   */
  method HandleMessage(main: PlayerId, partner: PlayerId, flip: CoinFlip, m: TxtMessage, busy: BusyPlayers)
    returns (ending: Option<Ending>, out: seq<Notice>)
    modifies busy
    ensures (out, ending) == PlayStep(Play(main, partner, flip), m)
    ensures busy.ids == if ending.Some? then old(busy.ids) - {main} - {partner} else old(busy.ids)
  {
    ghost var g := Play(main, partner, flip);
    out := [];
    ending := None;
    if m.from != main && m.from != partner {
      return;
    }

    if m.from == partner {
      out := out + [Notice(main, Relay(m.body))];
    } else if m.from == main {
      out := out + [Notice(partner, Relay(m.body))];
    }

    if m.from == main {
      match flip {
        case Stranger =>
          if Lower(m.body) == "stranger danger" {
            out := out + [Notice(main, Win), Notice(partner, PartnerLost)];
            FinishGame(main, partner, busy);
            ending := Some(MainWins);
            assert Judge(flip, m.body) == ending;
            assert out == [Forward(g, m)] + VerdictOut(g, MainWins);
            return;
          } else if Lower(m.body) == "buddy buddy" {
            out := out + [Notice(main, Lose), Notice(partner, Fooled)];
            FinishGame(main, partner, busy);
            ending := Some(MainLoses);
            assert Judge(flip, m.body) == ending;
            assert out == [Forward(g, m)] + VerdictOut(g, MainLoses);
            return;
          }
        case Friend =>
          if Lower(m.body) == "stranger danger" {
            out := out + [Notice(main, Lose), Notice(partner, Fooled)];
            FinishGame(main, partner, busy);
            ending := Some(MainLoses);
            assert Judge(flip, m.body) == ending;
            assert out == [Forward(g, m)] + VerdictOut(g, MainLoses);
            return;
          } else if Lower(m.body) == "buddy buddy" {
            out := out + [Notice(main, Win), Notice(partner, PartnerLost)];
            FinishGame(main, partner, busy);
            ending := Some(MainWins);
            assert Judge(flip, m.body) == ending;
            assert out == [Forward(g, m)] + VerdictOut(g, MainWins);
            return;
          }
      }
    }

    assert m.from == main ==> Judge(flip, m.body) == None;
    if Lower(m.body) == "game over" {
      out := out + [Notice(main, GameOver), Notice(partner, GameOver)];
      FinishGame(main, partner, busy);
      ending := Some(Quit);
    }
    assert out == [Forward(g, m)] + (if ending.Some? then VerdictOut(g, Quit) else []);
    assert IsParticipant(g, m.from);
    assert ending.Some? <==> Matches(m.body, "game over");
    assert PlayStep(g, m).1 == ending;
    assert PlayStep(g, m).0 == out;
  }

  /**
   * The relay loop of a game in progress: each message is handled in turn
   * until one of them ends the game.
   */
  method PlayLoop(main: PlayerId, partner: PlayerId, flip: CoinFlip, inbox: seq<TxtMessage>, busy: BusyPlayers)
    returns (ending: Option<Ending>, out: seq<Notice>)
    modifies busy
    ensures ending == RunPlay(Play(main, partner, flip), inbox).ending
    ensures out == RunPlay(Play(main, partner, flip), inbox).out
    ensures busy.ids == if ending.Some? then old(busy.ids) - {main} - {partner} else old(busy.ids)
  {
    ghost var g := Play(main, partner, flip);
    out := [];
    ending := None;
    var i := 0;
    while i < |inbox|
      invariant 0 <= i <= |inbox|
      invariant ending == None && busy.ids == old(busy.ids)
      invariant RunPlay(g, inbox) == Then(out, RunPlay(g, inbox[i..]))
    {
      RunPlayUnfold(g, inbox, i);
      var e, o := HandleMessage(main, partner, flip, inbox[i], busy);
      out := out + o;
      if e.Some? {
        ending := e;
        break;
      }
      i := i + 1;
    }
  }
}
