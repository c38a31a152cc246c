/**
 * The pure vote logic of the post card: the signed tally shown between the
 * arrows (`displayVotes`) and the lookup of the viewer's own vote (the
 * `find` in the vote effect).
 */
module Votes {
  import opened Wrappers

  /** One row of `getVotesByPostId`: who voted, and in which direction. */
  datatype Vote = Vote(username: string, upvote: bool)

  /** The signed-in session; `userName` is `session.user.name`, which may be absent. */
  datatype Session = Session(userName: Option<string>)

  /** `session?.user?.name`: the viewer's name, if there is a session that has one. */
  function ViewerName(session: Option<Session>): Option<string>
  {
    match session
    case None => None
    case Some(s) => s.userName
  }

  // ---------------------------------------------------------------------
  // The tally

  /** The reducer: +1 for an upvote, -1 for a downvote. */
  function Step(total: int, v: Vote): int
  {
    if v.upvote then total + 1 else total - 1
  }

  /** `votes.reduce(Step, total)`: a left fold over the votes. */
  function Reduce(votes: seq<Vote>, total: int): int
    decreases |votes|
  {
    if votes == [] then total else Reduce(votes[1..], Step(total, votes[0]))
  }

  /** The signed sum the card starts from: the fold with initial value 0. */
  function Tally(votes: seq<Vote>): int
  {
    Reduce(votes, 0)
  }

  /** Reference definition: the number of votes in direction `up`. */
  function Count(votes: seq<Vote>, up: bool): (n: nat)
    ensures n <= |votes|
  {
    if votes == [] then 0
    else (if votes[0].upvote == up then 1 else 0) + Count(votes[1..], up)
  }

  /** Every vote is either an upvote or a downvote. */
  lemma {:induction false} CountPartition(votes: seq<Vote>)
    ensures Count(votes, true) + Count(votes, false) == |votes|
  {
    if votes != [] {
      CountPartition(votes[1..]);
    }
  }

  /** The fold adds the number of upvotes and subtracts the number of downvotes. */
  lemma {:induction false} ReduceCounts(votes: seq<Vote>, total: int)
    ensures Reduce(votes, total) == total + Count(votes, true) - Count(votes, false)
  {
    if votes != [] {
      ReduceCounts(votes[1..], Step(total, votes[0]));
    }
  }

  /** The tally is #upvotes - #downvotes. */
  lemma TallyIsMargin(votes: seq<Vote>)
    ensures Tally(votes) == Count(votes, true) - Count(votes, false)
  {
    ReduceCounts(votes, 0);
  }

  /** A tally of zero is only possible with an even number of votes. */
  lemma TieNeedsEvenCount(votes: seq<Vote>)
    requires Tally(votes) == 0
    ensures |votes| % 2 == 0
  {
    TallyIsMargin(votes);
    CountPartition(votes);
  }

  /** On an odd number of votes the tie-break never fires: the card shows the tally. */
  lemma DisplayVotesOddIsTally(votes: seq<Vote>)
    requires |votes| % 2 == 1
    ensures DisplayVotes(votes) == Tally(votes)
  {
    if Tally(votes) == 0 {
      TieNeedsEvenCount(votes);
    }
  }

  /**
   * `displayVotes`: the number shown between the arrows. An empty list shows
   * 0; a list whose tally cancels out shows +1 or -1 after its first vote;
   * otherwise the tally itself is shown.
   */
  function DisplayVotes(votes: seq<Vote>): (r: int)
    ensures r == 0 <==> votes == []
  {
    var n := Tally(votes);
    if |votes| == 0 then 0
    else if n == 0 then (if votes[0].upvote then 1 else -1)
    else n
  }

  /** With more votes one way than the other, the card shows #upvotes - #downvotes. */
  lemma DisplayVotesMargin(votes: seq<Vote>)
    requires Count(votes, true) != Count(votes, false)
    ensures DisplayVotes(votes) == Count(votes, true) - Count(votes, false)
  {
    TallyIsMargin(votes);
  }

  /** A non-empty list that cancels out shows the direction of its first vote. */
  lemma DisplayVotesTieBreak(votes: seq<Vote>)
    requires votes != []
    requires Count(votes, true) == Count(votes, false)
    ensures DisplayVotes(votes) == if votes[0].upvote then 1 else -1
  {
    TallyIsMargin(votes);
  }

  /** The number shown never exceeds the number of votes in magnitude. */
  lemma DisplayVotesBound(votes: seq<Vote>)
    ensures -|votes| <= DisplayVotes(votes) <= |votes|
  {
    TallyIsMargin(votes);
    CountPartition(votes);
  }

  /** The number shown is positive exactly when upvotes lead, or tie and the first vote is up. */
  lemma DisplayVotesSign(votes: seq<Vote>)
    ensures DisplayVotes(votes) > 0 <==>
              Count(votes, true) > Count(votes, false) ||
              (votes != [] && Count(votes, true) == Count(votes, false) && votes[0].upvote)
  {
    TallyIsMargin(votes);
  }

  // ---------------------------------------------------------------------
  // The viewer's own vote

  /** Entry `i` is the first one cast by `name`. */
  ghost predicate IsFirstMatch(votes: seq<Vote>, name: string, i: int)
  {
    0 <= i < |votes| && votes[i].username == name &&
    forall j :: 0 <= j < i ==> votes[j].username != name
  }

  /** `votes.find(vote => vote.username === name)`, as the index of the entry found. */
  function FindByUsername(votes: seq<Vote>, name: string): (r: Option<nat>)
    ensures r.Some? ==> IsFirstMatch(votes, name, r.value)
    ensures r.None? ==> forall i :: 0 <= i < |votes| ==> votes[i].username != name
    decreases |votes|
  {
    if votes == [] then None
    else if votes[0].username == name then Some(0)
    else match FindByUsername(votes[1..], name)
      case None => None
      case Some(i) => Some(i + 1)
  }

  /**
   * The effect's value `votes?.find(...)?.upvote`: undefined while the query
   * has no data, when nobody with the viewer's name has voted, or when there is
   * no viewer name; otherwise the direction of the viewer's first entry.
   */
  function ViewerVote(data: Option<seq<Vote>>, session: Option<Session>): (r: Option<bool>)
    ensures data.None? || ViewerName(session).None? ==> r.None?
    ensures data.Some? && ViewerName(session).Some? ==>
              forall i :: IsFirstMatch(data.value, ViewerName(session).value, i) ==>
                r == Some(data.value[i].upvote)
    ensures data.Some? && ViewerName(session).Some? &&
            (forall i :: 0 <= i < |data.value| ==> data.value[i].username != ViewerName(session).value) ==>
              r.None?
  {
    match (data, ViewerName(session))
    case (Some(votes), Some(name)) =>
      (match FindByUsername(votes, name)
       case None => None
       case Some(i) => Some(votes[i].upvote))
    case _ => None
  }

  /**
   * Under the one-vote-per-user assumption about the server's data, the
   * viewer's state is exactly the direction of their single entry.
   */
  lemma ViewerVoteOfSingleEntry(votes: seq<Vote>, session: Option<Session>, k: nat)
    requires ViewerName(session).Some?
    requires k < |votes| && votes[k].username == ViewerName(session).value
    requires forall j :: 0 <= j < |votes| && j != k ==> votes[j].username != ViewerName(session).value
    ensures ViewerVote(Some(votes), session) == Some(votes[k].upvote)
  {
  }

  /** Votes by other users never change the viewer's state, wherever they are inserted. */
  lemma {:induction false} ViewerVoteIgnoresOthers(before: seq<Vote>, other: Vote, after: seq<Vote>, session: Option<Session>)
    requires ViewerName(session).Some? ==> other.username != ViewerName(session).value
    ensures ViewerVote(Some(before + [other] + after), session) == ViewerVote(Some(before + after), session)
  {
    if ViewerName(session).Some? {
      var name := ViewerName(session).value;
      FindSkipsOther(before, other, after, name);
    }
  }

  /** Inserting an entry under another name leaves the entry `find` returns unchanged, found or not. */
  lemma {:induction false} FindSkipsOther(before: seq<Vote>, other: Vote, after: seq<Vote>, name: string)
    requires other.username != name
    ensures FindByUsername(before + [other] + after, name).Some? == FindByUsername(before + after, name).Some?
    ensures FindByUsername(before + after, name).Some? ==>
              var i := FindByUsername(before + after, name).value;
              var i' := FindByUsername(before + [other] + after, name).value;
              (before + after)[i] == (before + [other] + after)[i']
  {
    if before == [] {
      assert before + after == after;
      assert before + [other] + after == [other] + after;
      assert ([other] + after)[1..] == after;
      assert FindByUsername([other] + after, name) ==
        match FindByUsername(after, name) case None => None case Some(i) => Some(i + 1);
    } else {
      FindSkipsOther(before[1..], other, after, name);
      assert (before + [other] + after)[1..] == before[1..] + [other] + after;
      assert (before + after)[1..] == before[1..] + after;
    }
  }

  /** The worked examples of the display rule and of the viewer lookup. */
  lemma Examples()
    ensures DisplayVotes([]) == 0
    ensures DisplayVotes([Vote("u1", true), Vote("u2", false)]) == 1
    ensures DisplayVotes([Vote("u1", true), Vote("u2", true), Vote("u3", false)]) == 1
    ensures ViewerVote(Some([Vote("u1", true), Vote("u2", false)]), Some(Session(Some("u2")))) == Some(false)
  {
  }
}
