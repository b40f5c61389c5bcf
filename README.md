# words-with-friends-query, modelled in Dafny

This is a model of the referee of *words with friends query*, an SMS party game. The game works like this:

- A **main player** texts `who dis` and is reserved.
- The main player is paired with the next player who texted `stranger join` (the **stranger**).
- The main player receives a game code and invites a friend, who texts `join <code>`.
- A coin flip decides whether the main player chats with the friend or with the stranger (the **partner**).
- The referee relays every text between the two.
- The main player guesses `stranger danger` or `buddy buddy`. A correct guess wins.
- Either participant can also end the game with `game over`.
- When the game ends, the main player and the partner are released from the registry of busy players.

The model is sequential:

- The inbox of each loop is a finite sequence of messages.
- The queue of strangers is a sequence of player ids.
- The registry of busy players is a shared object holding a set.
- Every outbound text is a `Notice(recipient, what)`. `Protocol.TextOf` gives the exact characters of each text.
- Random choices (the game-code word, the coin-flip byte) are parameters.
- Where the program would block on an empty channel, the model stops at the end of its input.

Modules:

- `Text` (`text.dfy`) is the case folding behind every command comparison: ASCII letters only.
- `Protocol` (`protocol.dfy`) holds player ids, inbound messages, notices, and the `BusyPlayers` class with its `Insert` and `Remove` methods.
- `Session` (`session.dfy`) covers one game:
  - the game code and the coin flip;
  - the friend-join loop;
  - the flip branch and its busy-set edits;
  - the relay, guess and `game over` loop;
  - the release of the players at the end.

  Each part is a specification function (`FriendIndex`, `PlayStep`, `RunPlay`, `RunSession`) plus the imperative method that runs it on the shared registry (`AwaitFriend`, `HandleMessage`, `PlayLoop`, `StartGame`, `FinishGame`).
- `Admission` (`admission.dfy`) covers the stranger listener (`StrangerRequests`, `SetupStrangerListener`) and the dispatcher that admits main players and pairs them with queued strangers (`Dispatch`, `PlayGame`).
- `Polling` (`polling.dfy`) is the inbound poller's deduplication by message id (`Unseen`, `PollAll`, `StartPolling`).
- `Scenario` (`scenario.dfy`) states what admission does on concrete messages.

Behaviour of the code that the model keeps as written:

- A `game over` from someone other than the two participants is ignored like any other outsider text. The outsider check at `src/main.rs:278-280` comes before the `game over` check at line 319.
- The flip branch edits the registry differently in the two branches:
  - the friend branch releases the stranger and reserves the friend;
  - the stranger branch leaves the registry alone.

  `Session.MatchReservesPartnerOnly` shows that both branches end in the same state (partner reserved, the other candidate free), given what the dispatcher and the join rule guarantee beforehand.
- The dispatcher reserves whatever stranger comes next in the queue. It does not check again whether that stranger is still free.
- The poller computes a batch's unseen messages before recording any id. Two messages with the same id in one batch are therefore both published.

## Model

| member | source | states |
|---|---|---|
| Text.Lower | src/main.rs:100 | the `to_lowercase` of a body, modelled as ASCII folding applied to each character; the result has the body's length |
| Text.LowerChar | src/main.rs:100 | folding a character never yields an upper-case letter; it maps each ASCII capital to its lower-case letter and leaves every other character alone |
| Text.LowerAt | src/main.rs:100 | the lower-cased body is the body folded character by character, at every position |
| Text.LowerIdempotent | src/main.rs:100 | the ASCII folding leaves an already folded body unchanged |
| Text.LowerAppend | src/main.rs:100 | the ASCII folding (not the program's context-sensitive Unicode lower-casing) distributes over concatenation |
| Text.MatchNeedsLowerPhrase | src/main.rs:291 | a comparison `lowercase(body) == phrase` can only succeed when the phrase has no capital letter |
| Text.Matches | src/main.rs:100 | a command comparison: the lower-cased body equals the expected lower-case phrase |
| Text.VerbatimMatches | src/main.rs:405 | a lower-case command typed exactly as written is accepted |
| Session.NewGameId | src/main.rs:123-129 | the game code is one of the 20 vocabulary words, non-empty and lower case |
| Session.VocabularyIsLower | src/main.rs:124 | every vocabulary word is non-empty and has no capital letter |
| Session.InvitationIsAccepted | src/main.rs:95-100 | a reply that case-folds like the advertised `join <code>` is accepted as the join phrase, so the invitation can be typed back in any letter case |
| Session.CoinFlipOf | src/main.rs:208-214 | the flip is Stranger exactly when the random byte is even, otherwise Friend |
| Session.CoinFlipIsFair | src/main.rs:208-214 | of the 256 byte values, 128 pick the stranger and 128 the friend |
| Session.AcceptsFriend | src/main.rs:100 | the join guard: the body lower-cases to `join <code>` and the sender is not in the busy set |
| Session.FriendIndex | src/main.rs:98-111 | the join loop accepts the first message that is `join <code>` in any case from a sender not in the busy set; when it names none, no message of the inbox qualifies |
| Session.FriendIndexIsFirst | src/main.rs:98-111 | the first qualifying message is exactly the one the join loop accepts |
| Session.AwaitFriend | src/main.rs:83-121 | the loop returns the position of the accepted friend and sends the game code, the invitation and, on acceptance, the welcome and joined texts; it does not reserve the friend |
| Session.MatchBusy | src/main.rs:256-262 | the busy set after the flip branch: the friend branch removes the stranger and inserts the friend (the partner); the stranger branch leaves it as it was |
| Session.MatchOut | src/main.rs:252-273 | the texts after the flip: "matched" and the goal to the main player, "matched" to the partner, then, in the friend branch, the start and goal texts to the partner, and in the stranger branch, the two "you are out" texts to the friend before the start and goal texts to the partner |
| Session.MatchReservesPartnerOnly | src/main.rs:256-273 | with the stranger reserved and the friend free, both flip branches leave the partner reserved, the unused candidate free and everyone else untouched |
| Session.OnlyUnusedFriendIsBumped | src/main.rs:252-273 | the "you are out" texts go only in the stranger branch and only to the candidate left out; the partner is always told the game started |
| Session.Judge | src/main.rs:288-316 | the main player wins exactly when the guess names the flip, loses exactly when it names the other side, and any other text is no verdict |
| Session.PlayStep | src/main.rs:278-325 | an outsider's text does nothing; a participant's text is relayed to the other participant before anything else; the win and lose conditions hold in both directions; `game over` from either participant quits; an ending adds the two verdict texts |
| Session.RunPlay | src/main.rs:275-327 | the play loop over an inbox: each message takes one `PlayStep`, and the first step with an ending stops the loop; with no ending the loop runs to the end of the inbox |
| Session.RunPlayAppend | src/main.rs:275-327 | once a game has ended, later messages are never read; otherwise the loop continues where it stopped |
| Session.OutsidersAreIgnored | src/main.rs:278-280 | over the whole loop, removing every outsider's text changes neither the texts sent nor the ending |
| Session.GameOverEndsPlay | src/main.rs:319-325 | `game over` from either participant ends a game still in progress, after relaying it and sending both players "Game over" |
| Session.CorrectGuessWins | src/main.rs:288-316 | a correct guess by the main player ends the game at once with a win; nothing after it is read |
| Session.OnlyMainGuessDecides | src/main.rs:288-317 | a game is won or lost only if the main player sent one of the two guess phrases |
| Session.RunSession | src/main.rs:216-331 | a whole session: the join loop, then (once a friend is accepted) the flip branch's busy edits and texts, then the play loop on the rest of the inbox, with the main player and the partner released when play ends |
| Session.SessionBusyEffect | src/main.rs:216-337 | a session reserves no one before the friend joins; during play the partner is reserved and the other candidate is free; after the end the main player, the stranger and the friend are free, and every other reservation is as it was |
| Session.FinishGame | src/main.rs:333-337 | ending a game releases exactly the main player and the partner |
| Session.StartGame | src/main.rs:216-331 | the session's friend, ending, texts and busy set are those of the whole-session function `RunSession` |
| Session.HandleMessage | src/main.rs:276-325 | one pass of the play loop sends what `PlayStep` prescribes and releases both players exactly when the message ends the game |
| Session.PlayLoop | src/main.rs:275-327 | the loop's texts and ending are those of `RunPlay`, and the busy set changes only when the game ends |
| Protocol.BusyPlayers.Insert | src/main.rs:352 | reserving adds the id; reserving a reserved player changes nothing |
| Protocol.BusyPlayers.Remove | src/main.rs:335-336 | releasing removes the id; releasing a free player is a no-op |
| Admission.AcceptsStranger | src/main.rs:405 | the listener's guard: the body lower-cases to `stranger join` and the sender is not in the busy set |
| Admission.StrangerRequests | src/main.rs:402-418 | every queued stranger sent `stranger join` in any case while not busy; the queue is no longer than the inbox |
| Admission.StrangerRequestsComplete | src/main.rs:405-406 | every such request is queued |
| Admission.StrangerRequestsAppend | src/main.rs:402-418 | the queue is first in, first out with one entry per accepted request: requests of a later part of the inbox are queued after those of an earlier part, and a player who asks twice is queued twice |
| Admission.SetupStrangerListener | src/main.rs:398-419 | the listener queues exactly `StrangerRequests`, in arrival order |
| Admission.AdmitsMain | src/main.rs:350 | the dispatcher's guard: the body lower-cases to `who dis` and the sender is not in the busy set |
| Admission.Dispatch | src/main.rs:345-385 | the dispatcher over an inbox and a stranger queue: an admitted sender is reserved and sent "Waiting for stranger to join"; if the queue is empty the model stops with that player waiting; otherwise the next stranger is reserved, "Found a stranger!" is sent and a game is started for the pair; other messages are skipped |
| Admission.DispatchTexts | src/main.rs:362-368 | the dispatcher sends each main player of a started game "Waiting for stranger to join" and then "Found a stranger!", in game order; a main player left waiting gets only the first text; nobody else is sent anything |
| Admission.DispatchBusy | src/main.rs:345-385 | the dispatcher only adds to the busy set: exactly the main players and strangers of the games it starts, plus a main player left waiting for a stranger |
| Admission.DispatchIgnoresOthers | src/main.rs:350 | with no `who dis` from a free player, nobody is admitted or reserved and nothing is sent |
| Admission.MainsAdmittedOnce | src/main.rs:350-352 | every admitted main player was not busy when the dispatcher started, and no one is admitted twice |
| Admission.MainsSentWhoDis | src/main.rs:350-353 | every admitted main player (in a game or left waiting) sent `who dis` in any case and was not busy when the dispatcher started |
| Admission.StrangersInQueueOrder | src/main.rs:363-366 | the strangers of the games are the front of the queue, in queue order, one per game |
| Admission.WhoDisSendersReserved | src/main.rs:350-366 | unless the queue ran dry, every sender of a `who dis` ends up in the busy set |
| Admission.StrangersNeverLaterMains | src/main.rs:350-366 | a player reserved as a stranger is never admitted as main of a later game nor left waiting as main, because the busy check refuses it |
| Admission.PlayGame | src/main.rs:339-385 | the dispatcher's games, texts, waiting player and busy set are those of `Dispatch` |
| Polling.Unseen | src/main.rs:161 | the unseen messages of a batch are exactly its messages whose id is not yet known, with none added |
| Polling.UnseenAppend | src/main.rs:161 | the filter keeps the fetched order |
| Polling.UnseenDistinct | src/main.rs:161 | a batch with distinct ids yields unseen messages with distinct ids |
| Polling.SeenAfterPoll | src/main.rs:161-165 | after a poll every id of the batch is known, so a later batch publishes none of them again |
| Polling.PollAll | src/main.rs:159-173 | a series of polls: each batch publishes its messages whose id is not yet known, in fetched order, and their ids are known from then on |
| Polling.PublishedAtMostOnce | src/main.rs:159-173 | over any series of batches with distinct ids, no message is published twice and no message known at the start is published |
| Polling.RememberAll | src/main.rs:154-157 | the first listing's ids are all remembered |
| Polling.PublishUnseen | src/main.rs:160-165 | one batch publishes its unseen messages in order and records their ids |
| Polling.StartPolling | src/main.rs:153-177 | the poller publishes exactly `PollAll` of the batches, starting from the first listing's ids |
| Scenario.StrangerQueuedScenario | src/main.rs:405-406 | a free player's `stranger join` is queued |
| Scenario.DispatchScenario | src/main.rs:350-368 | a free player's `who dis`, with one stranger queued, starts a game for the pair, reserves both, and sends the player the waiting text followed by the found-a-stranger text |

## Left out

- Sending texts through the provider (`src/main.rs:45-52`) and fetching and decoding the message listing (`src/main.rs:180-200`) are I/O. Texts become `Notice` values and listings become input sequences. Logging output is dropped. A failed send panics (`unwrap` at `src/main.rs:51`); in a session this ends the thread with its reservations still held, and in the dispatcher it ends the process. That panic is not modelled: every send succeeds.
- Threads, channels and the mutex around the busy set are left out, together with the interleaving of several sessions with the dispatcher and the stranger listener. Each component is modelled on its own inbox. The check-then-insert on the busy set, done under two separate lock acquisitions (`src/main.rs:100`, `350-352`), is not a race in a sequential model.
- The fan-out of every polled message to all registered listeners (`src/main.rs:166-171`) is channel plumbing. Every component is simply given its inbox.
- Random number generation is left out: the game-code choice and the flip byte are parameters.
- Text.Lower: folds only the ASCII capitals 'A'..'Z'. The program's full Unicode lower-casing is not modelled.
- Session.StartGame: where the program blocks forever waiting for a friend or for the next message, the model stops at the end of the inbox and reports no friend or no ending.
- Session.PlayLoop: stops at the end of the inbox instead of blocking.
- Admission.PlayGame: where the program blocks on an empty stranger queue, the model leaves the admitted main player waiting and stops.
- Polling.PublishedAtMostOnce: assumes each listing has distinct message ids. Within one listing, two messages with the same id are both published.
- Polling.StartPolling: processes a finite series of listings. The program polls forever, once a second.
- Configuration from the environment and the wiring in `main` (`src/main.rs:421-452`) are not part of this model.
