/**
 * The values that flow through the game: player identifiers, inbound text
 * messages, outbound notices, and the process-wide registry of busy players.
 */
module Protocol {

  datatype Option<T> = None | Some(value: T)

  /** A player is identified by its transport address (a phone number). */
  type PlayerId = string

  /** One inbound text message as the provider lists it. */
  datatype TxtMessage = TxtMessage(from: PlayerId, body: string, dateCreated: string, sid: string)

  /** What an outbound text says: one of the referee's texts, or a relayed body. */
  datatype Say =
    | GameCode(gameId: string)
    | Invite(gameId: string)
    | WelcomeFriend
    | FriendJoined(friend: PlayerId)
    | Matched
    | Goal
    | Started
    | FriendPartnerGoal
    | Bumped
    | OutOfGame
    | StrangerPartnerGoal
    | Win
    | PartnerLost
    | Lose
    | Fooled
    | GameOver
    | WaitingForStranger
    | FoundStranger
    | Relay(body: string)

  /** The exact characters each text is sent as. */
  function TextOf(say: Say): string {
    match say
    case GameCode(id) => "This is your game code: " + id
    case Invite(id) => "Have a friend join by texting: join " + id
    case WelcomeFriend => "[ref] Welcome friend!"
    case FriendJoined(friend) =>
      "[ref] Your friend at " + friend + " has joined!\nRemember type: \"stranger danger\" if you think this is a stranger\nand type: \"buddy buddy\" if this is your friend.\nStart Chatting!"
    case Matched => "[Ref]: We've matched you up and you're ready to go!"
    case Goal => "[Ref]: You win if you guess if you're talking to a friend or a stranger correctly!"
    case Started => "[Ref]: The game has started!"
    case FriendPartnerGoal => "[Ref]: You win this game if you convince your friend that you are a stranger!\nGame On!!"
    case Bumped => "[Ref]: We've matched your friend up to a stranger. Don't spoil it!"
    case OutOfGame => "[Ref]: You are out of this game now, but you can join or start another game"
    case StrangerPartnerGoal => "[Ref]: You win this game if you convince the other person you are their friend\nGame On!!"
    case Win => "[Ref here]: you got it! You win! \\o/"
    case PartnerLost => "[Ref here]: They guessed right, you've lost! :("
    case Lose => "[Ref here]: sorry dude, you got it wrong! You Lose! :("
    case Fooled => "[Ref here]: Nice work, you fooled them! :)"
    case GameOver => "[Ref here]: Game over"
    case WaitingForStranger => "Waiting for stranger to join"
    case FoundStranger => "Found a stranger! now time to invite your friend"
    case Relay(body) => body
  }

  /** One outbound text: who receives it and what it says. */
  datatype Notice = Notice(to: PlayerId, say: Say)

  /**
   * The shared set of players reserved by a game (or by a game being set up).
   * Every session and the dispatcher hold the same object and update it in place.
   */
  class BusyPlayers {
    var ids: set<PlayerId>

    constructor ()
      ensures ids == {}
    {
      ids := {};
    }

    predicate Contains(id: PlayerId)
      reads this
    {
      id in ids
    }

    /** Reserves `id`; reserving a reserved player changes nothing. */
    method Insert(id: PlayerId)
      modifies this
      ensures ids == old(ids) + {id}
      ensures id in old(ids) ==> ids == old(ids)
    {
      ids := ids + {id};
    }

    /** Releases `id`; releasing a free player is a no-op. */
    method Remove(id: PlayerId)
      modifies this
      ensures ids == old(ids) - {id}
      ensures id !in old(ids) ==> ids == old(ids)
    {
      ids := ids - {id};
    }
  }
}
