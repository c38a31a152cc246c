# Vote logic of the reddit-clone post card

The `Post` component (`components/Post.tsx`) renders one post card. This model covers its vote logic:

- the number shown between the arrows (`displayVotes`);
- the viewer's own vote state, held in the `vote` slot and re-derived by an effect whenever the vote query delivers data;
- the arrow click handler `upVote`, which either notifies, does nothing, or sends one `addVote` request.

Files:

- `wrappers.dfy`: `Option`, standing for a TypeScript value that may be `undefined`.
- `votes.dfy`: pure functions and lemmas.
  - The tally is a left fold (`Reduce`/`Tally`), mirroring the source's `reduce`.
  - It is related to an independent count of upvotes and downvotes (`Count`).
  - `DisplayVotes` applies the rules: 0 for no votes, the first vote's sign when the tally cancels out, the tally otherwise.
  - `FindByUsername` and `ViewerVote` model `votes?.find(...)?.upvote`.
- `post_card.dfy`: the class `Card`.
  - Its field is the `vote` slot (`Option<bool>`: up, down or none).
  - `Refresh` is the effect.
  - `Click` is `upVote`. It returns the external action (`Notify`, `NoOp` or `AddVote`) instead of performing it.
  - `Click` has no `modifies` clause, so the verifier itself enforces that a click never changes the slot locally (there is no optimistic update).

The session from `useSession` is `Option<Session>`, and `Session.userName` is `session.user.name`, which may itself be absent. A session without a name passes the sign-in guard. `addVote` then carries an absent username (line 50), and no vote matches it in the lookup (line 58). The post id's type is not declared in the modelled file, so it is `int`.

## Model

| member | source | states |
|---|---|---|
| `Votes.ReduceCounts` | components/Post.tsx:64 | the reducer fold from any start value adds the number of upvotes and subtracts the number of downvotes |
| `Votes.TallyIsMargin` | components/Post.tsx:64 | the `reduce` from 0 equals #upvotes − #downvotes |
| `Votes.CountPartition` | components/Post.tsx:64 | every vote is counted as either an upvote or a downvote, so the two counts add up to the list length |
| `Votes.DisplayVotesOddIsTally` | components/Post.tsx:64-70 | on an odd number of votes the tie-break at lines 66-67 never fires, and the card shows the tally itself |
| `Votes.DisplayVotes` | components/Post.tsx:62-71 | the shown number is 0 exactly when the vote list is empty; every non-empty list shows a non-zero value |
| `Votes.DisplayVotesMargin` | components/Post.tsx:64-70 | when upvotes and downvotes differ in number, the card shows #upvotes − #downvotes |
| `Votes.DisplayVotesTieBreak` | components/Post.tsx:65-68 | a non-empty list with equally many upvotes and downvotes shows +1 if its first vote is an upvote, −1 otherwise |
| `Votes.DisplayVotesBound` | components/Post.tsx:62-71 | the shown number lies between −n and n for n votes |
| `Votes.DisplayVotesSign` | components/Post.tsx:62-71 | the shown number is positive exactly when upvotes lead, or they tie with downvotes and the first vote is an upvote |
| `Votes.FindByUsername` | components/Post.tsx:58 | `find` returns the index of the first entry whose username equals the name, or nothing exactly when no entry has that name |
| `Votes.ViewerVote` | components/Post.tsx:57-58 | the derived state is undefined without data or without a viewer name; otherwise it is the `upvote` flag of the first entry by the viewer, or undefined when the viewer has no entry |
| `Votes.ViewerVoteOfSingleEntry` | components/Post.tsx:57-58 | when the viewer has exactly one entry (one vote per user per post), the state is that entry's direction |
| `Votes.ViewerVoteIgnoresOthers` | components/Post.tsx:58 | inserting another user's vote anywhere in the list leaves the viewer's state unchanged |
| `Votes.FindSkipsOther` | components/Post.tsx:58 | inserting an entry under another name does not change whether `find` succeeds, nor which entry it finds |
| `Votes.Examples` | components/Post.tsx:56-71 | worked cases: [] shows 0; [u1 up, u2 down] shows 1; [u1 up, u2 up, u3 down] shows 1; viewer u2 on [u1 up, u2 down] is downvoted |
| `PostCard.Card.constructor` | components/Post.tsx:25 | a new card's vote slot is undefined |
| `PostCard.Card.Refresh` | components/Post.tsx:56-60 | after the effect, the slot holds the viewer's derived state for the delivered data, and no other field changes |
| `PostCard.Card.Click` | components/Post.tsx:37-54 | with no session, exactly one sign-in notification and no request, whatever the direction or state; with a session and the slot already in the requested direction, nothing; otherwise exactly one `addVote` with the post's id, the viewer's name and the requested direction; the slot is never written |
| `PostCard.ClickTwiceBeforeRefresh` | components/Post.tsx:37-54 | two same-direction clicks before a refresh give the same action twice. The guard does not stop a repeated `addVote`, because a click does not update the slot |
| `PostCard.DownvotedViewerScenario` | components/Post.tsx:37-60 | viewer u2 on [u1 up, u2 down] is downvoted; clicking down again does nothing; clicking up sends `addVote(id, u2, true)` |

## Left out

- Rendering (components/Post.tsx:74-135) is left out: links, icons, avatar, relative time, CSS classes, the arrow highlighting and the footer placeholders. It is presentation only.
- The Apollo query, the mutation and the `refetchQueries` invalidation (lines 27-35) are left out. They are a remote client and its cache. Data arriving is an explicit `Refresh(data, session)` call, and a request is an `AddVote` action value returned by `Click`.
- The server's upsert of `addVote` (one vote per user per post) is left out, because its code is not part of this model. `ViewerVoteOfSingleEntry` takes that assumption as a precondition.
- `async`/`await` and interleavings of clicks with refetches are left out. `ClickTwiceBeforeRefresh` only shows that the guard cannot prevent a duplicate request.
- `useSession` and `toast` come from foreign providers. The session is a parameter, and a notification is the `Notify` action.
- The `console.log` at line 45 is left out, because it is output only.
- DisplayVotes: takes a present vote list. While the query is loading, `data` is undefined, and `votes.length` at line 65 would throw. That crash is not modelled.
- Refresh: the effect's dependency list is `[data]` only, so a changed session alone does not re-run it. The model leaves the call timing to the caller and passes the session the effect would see.
- Propagation of the arrow clicks to the enclosing `Link` (lines 85, 87) is left out. It is UI behaviour.
