/**
 * The stateful part of the post card: the `vote` slot, the effect that
 * overwrites it when the vote query delivers data, and the click handler
 * of the two arrows.
 */
module PostCard {
  import opened Wrappers
  import opened Votes

  /** The notification shown to a visitor who is not signed in. */
  const SignInMessage: string := "You need to be logged in to vote!"

  /** What one click does to the outside world. */
  datatype Action =
    | Notify(message: string)
    | NoOp
    | AddVote(postId: int, username: Option<string>, upvote: bool)

  /** One mounted card for the post `postId`. */
  class Card {
    const postId: int
    /** The viewer's vote state: Some(true) upvoted, Some(false) downvoted, None neither. */
    var vote: Option<bool>

    /** `useState<boolean>()`: the slot starts out undefined. */
    constructor (postId: int)
      ensures this.postId == postId && vote == None
    {
      this.postId := postId;
      vote := None;
    }

    /** The effect that runs when `data` changes: the slot takes the viewer's own vote. */
    method Refresh(data: Option<seq<Vote>>, session: Option<Session>)
      modifies this`vote
      ensures vote == ViewerVote(data, session)
    {
      vote := ViewerVote(data, session);
    }

    /**
     * `upVote(isUpvote)`: without a session, one notification; with one, nothing
     * when the slot already holds the requested direction, else exactly one
     * `addVote` request. The slot itself is never written here.
     */
    method Click(session: Option<Session>, isUpvote: bool) returns (action: Action)
      ensures session.None? ==> action == Notify(SignInMessage)
      ensures session.Some? && vote == Some(isUpvote) ==> action == NoOp
      ensures session.Some? && vote != Some(isUpvote) ==>
                action == AddVote(postId, ViewerName(session), isUpvote)
    {
      if session.None? {
        return Notify(SignInMessage);
      }
      if vote == Some(true) && isUpvote {
        return NoOp;
      }
      if vote == Some(false) && !isUpvote {
        return NoOp;
      }
      action := AddVote(postId, ViewerName(session), isUpvote);
    }
  }

  /**
   * Two clicks in the same direction before the refetched data arrives issue
   * the same action twice: the guard only sees the slot, which a click leaves as it is.
   */
  method ClickTwiceBeforeRefresh(card: Card, session: Option<Session>, isUpvote: bool)
    returns (first: Action, second: Action)
    ensures first == second
    ensures session.Some? && card.vote != Some(isUpvote) ==> second.AddVote?
  {
    first := card.Click(session, isUpvote);
    second := card.Click(session, isUpvote);
  }

  /**
   * The viewer `u2` sees `[u1 up, u2 down]`: the slot becomes "downvoted",
   * clicking down again does nothing and clicking up sends an upvote.
   */
  method DownvotedViewerScenario(postId: int) returns (state: Option<bool>, down: Action, up: Action)
    ensures state == Some(false)
    ensures down == NoOp
    ensures up == AddVote(postId, Some("u2"), true)
  {
    var card := new Card(postId);
    var session := Some(Session(Some("u2")));
    assert IsFirstMatch([Vote("u1", true), Vote("u2", false)], "u2", 1);
    card.Refresh(Some([Vote("u1", true), Vote("u2", false)]), session);
    state := card.vote;
    down := card.Click(session, false);
    up := card.Click(session, true);
  }
}
