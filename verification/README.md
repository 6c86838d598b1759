# Motmot in Dafny

Motmot is a chat system that keeps its participants in step with Multi-Paxos. This project models the parts of it
that are hardest to get right and proves what they are for. `dafny verify dfyconfig.toml` checks everything.

## What is modelled

**The Paxos engine, as a protocol.** `Protocol.dfy` is a state machine with one state per acceptor (ballot, high-water
mark, believed proposer, pending prepare, hole, log) and one event per message handler of `src/paxos`. Messages in
flight form a multiset: each is delivered at most once, in any order, or lost. `Invariants.dfy` holds the inductive
invariant, the files named `...Steps.dfy` show that each event keeps it, and `Agreement.dfy` draws the conclusions
about all runs: agreement, total order, which instance numbers are free, what the bare counters count. `Delivery.dfy`
says what a node learns, and when; `Broadcast.dfy` that everyone can learn everything. `Scenario.dfy`
is a kit for building runs with only a few nodes and messages in view; with it `Recommits.dfy`, `LateDecree.dfy` and
`LateMajority.dfy` show where the code does not meet the properties one would expect, and for exactly which ballots.
`Ballots.dfy` and `FirstBallot.dfy` show that for the other ballots it does.
`Membership.dfy` treats the acceptor list as a fold of what was learned.

**The same handlers, in place.** `IntrusiveList.dfy` is the linked list the C code embeds in its structs, and
`SortedList.dfy` the sorted containers made from it. On top of them `Session.dfy`, `Learner.dfy`, `Acceptor.dfy`,
`PromiseReply.dfy`, `MergePromise.dfy`, `FinishingPrepare.dfy`, `AckPromise.dfy`, `LostStart.dfy`, `Proposing.dfy`,
`Requests.dfy`, `Truncation.dfy` and `Welcome.dfy` are the handlers as methods that splice the instance list, move
`ihole` and `istart` and fill the request cache. `DecreeLog.dfy` says on finite maps what the handlers do to a log;
the protocol steps are built from those functions and the methods are proved against them, so the two layers meet
there.

**Around the engine.** `Sync.dfy` is log synchronization during one proposer's reign, `Tally.dfy` the counting of
promises against redirects, `Roles.dfy` who believes whom to be the proposer while connections come and go.

**Two smaller algorithms.** `Trill.dfy` is the election that decides which end of a Trill connection is the TLS
server; `Murmur.dfy` is MurmurHash3_x86_32.

## What turned out

- **Recommits can break agreement.** A recommit is broadcast under the header of the acceptor that asked for it
  (`src/paxos/paxos_retry.c:63-82`), and a receiver that has not committed the instance takes that header over
  (`src/paxos/paxos_retry.c:101-106`), even where it lowers the ballot of its own vote. A later prepare then no longer
  sees that the instance was chosen. `Recommits.AgreementFails` is a run of thirteen acceptors, in which no value assert
  fails, that ends with two values committed for one instance; the acceptor that asks has a commit beyond its hole, as
  `src/paxos/paxos_learn.c:62-79` demands. `Recommits.DisagreeingPairs` says for which ballots h and k a run that lowers
  headers from k to h only can end so: exactly if h is the lower one, k has a generation, and they have different owners
  if h has no generation. Runs in which no recommit lowers a header always agree. `Protocol.Orderly` is that condition,
  a guard that `acceptor_ack_recommit` could check; the results about Paxos runs below ask for it and for nothing else.
- In such runs agreement and total order hold for the handlers as they are written, although an acceptor's reported
  ballot can be lower than ballots it voted in: committed instances keep stale headers, commits overwrite the value
  only, and failed prepares leave other acceptors' votes in the log. The high-water mark is really assigned, not
  maximized (`src/paxos/paxos_acceptor.c:59`), so it can sink after a failed prepare of one's own; agreement survives
  that.
- A decree in a ballot above one that has won a majority need not carry its value: a vote cast after a commit from
  elsewhere keeps a stale header, and the ballot in between never hears of it. `LateMajority.LaterDecreesPairs` says for
  which two ballots: exactly if the one with the majority is lower, they have different owners, and the lower one has a
  generation. In the ballot given in the beginning there is nothing stale to keep, and what a majority voted for there
  every decree carries (`FirstBallot.FirstStands`). From the ballot whose majority came first in time on, every decree
  does (`Agreement.LaterDecreesAgree`), and whatever wins a majority agrees (`Agreement.OneValue`).
- The value asserts at `src/paxos/paxos_acceptor.c:151-153` can fail for a decree from a superseded ballot that
  arrives after the commit. `LateDecree.ValueAssertPairs` says for which two ballots: exactly if the decree's is lower
  than the one that first chose the instance, they have different owners, and the later one has a generation. Where
  the first owner has the lower id the messages of the run go down the ranks only, as connections demand.
- The vote merge at `src/paxos/paxos_proposer.c:193-244` stops at its assert exactly if the first vote lies before the
  cached iterator, and a promise of an acceptor that has not heard of the preparer's instance at the hole does begin
  before it (`LostStart.PrepareAborts`). A vote that replaces the instance at the hole takes the cached `pp_istart`
  and `istart` out of the list. The replaced instance becomes the scratch instance, and keeps leading back to the list
  until a later vote of the same promise is unpacked into it. So a prepare finishes, with the log of the protocol,
  exactly if each promise on the way, when its turn comes, does not begin before the iterator and carries no vote
  after one that replaces its instance (`AckPromise.AckPromises`). Otherwise the handler stops at one of its two
  asserts, or goes on with an instance that is not in the list, where the model stops.
- `istart` is not put right by any of this. If the instance it pointed to was replaced and the prepare finished, it is
  left in one of four places (`Learner.Place`, `AckPromise.AfterAll`). If the replacing vote was the last of its promise,
  istart is outside the list, at the hole, and no commit is ever learned again (`LostStart.IstartLost`). If a vote
  followed, the scratch instance that istart points to was used again and is numbered beyond the hole. Then the condition
  at `src/paxos/paxos_learn.c:83` is true, and istart moves to the next link: onto the instance at the hole, which may
  itself be outside the list by then, or elsewhere, in which case the commit of the hole fails the assert at
  `src/paxos/paxos_learn.c:86` (`LostStart.IstartDoomed`). While istart is right, the condition is never true
  (`Learner.CommitCached`).
- A decree of the current ballot numbered below the base is inserted below it, where the learner's invariant does not
  allow any instance; a commit down there fails the assert at `src/paxos/paxos_learn.c:60` unless it waits for a
  request (`Acceptor.AckDecree`, `Acceptor.AckCommit`, `Acceptor.AckRecommit`).
- A truncation leaves the learner undisturbed exactly if no request still needed has the id of a dropped instance's
  request (`Truncation.Truncate`).
- A promise declares as many votes as it packs if the list reaches back to the preparer's hole; if it does not, it
  declares its whole length and packs nothing (`PromiseReply.Promise`).
- A tie of promises and redirects is noticed exactly if the answer that completes it is a redirect
  (`Tally.TieNoticed`, `Tally.TieMissed`). A proposer on its own never truncates (`Sync.AloneNeverTruncates`).
- Of the delayed connection attempts, the one after a redirect leaves a non-proposer preparing exactly if it fails
  after another hello took the proposership away (`Roles.Session.ContinueRedirect`, `Roles.StaleReconnect`); the one
  after a refuse miscounts exactly if a connection was there already (`Roles.Session.ContinueRefuse`); the one of a
  newcomer also goes wrong if it reaches an acceptor ranked above the proposer (`Roles.Session.ContinueWelcome`).
- After a welcome, old instances are marked cached although their requests are not in the cache
  (`src/paxos/paxos_greet.c:224`). What the learn loop relies on, and what is proved, is that instances the session
  has yet to learn are backed by the cache.

## Model

| member | source | states |
|---|---|---|
| Primitives.CompareMeaning | src/paxos/types/primitives.c:36-49 | the callback's sign is the ballot order: higher generation, then lower id |
| Primitives.PaxidOrder | src/paxos/types/primitives.c:24-34 | ids are totally ordered, as sorted containers require |
| Primitives.PairOrder | src/paxos/types/primitives.c:43-49 | pairs are totally ordered although the id compares in reverse |
| IntrusiveList.List.InsertAfter | src/paxos/containers/list.h:77-86 | keeps next, previous, first, last and count consistent; the list is the old one with the element behind the given one |
| IntrusiveList.List.InsertBefore | src/paxos/containers/list.h:88-97 | the same, in front of the given one |
| IntrusiveList.List.InsertHead | src/paxos/containers/list.h:99-108 | the same, at the head |
| IntrusiveList.List.InsertTail | src/paxos/containers/list.h:110-119 | the same, at the tail |
| IntrusiveList.List.Remove | src/paxos/containers/list.h:121-133 | the list is the old one without the element, which keeps its own pointers |
| IntrusiveList.List.Clear | src/paxos/containers/list_factory.h:48-58 | removing first elements until none is left ends with the empty list |
| SortedList.OneElement | src/paxos/containers/list_factory.h:82-135 | a sorted list is a map: one element a key |
| SortedList.OnePlace | src/paxos/containers/list_factory.h:93-100 | searches from either end stop at the same place |
| SortedList.FoundAtPlace | src/paxos/containers/list_factory.h:93-102 | stopping early loses nothing: a key is on the list exactly if it is at its place |
| SortedList.InsertOrdered | src/paxos/containers/list_factory.h:123-134 | insertion at the place keeps strict key order |
| SortedList.InsertEntry | src/paxos/containers/list_factory.h:123-134 | insertion adds exactly one entry to the map |
| SortedList.RemoveEntry | src/paxos/containers/list_factory.h:143-148 | removal takes exactly one entry out of the map |
| SortedList.FindFwd | src/paxos/containers/list_factory.h:82-103 | the element with the key, or none exactly if no element has it, searching forwards |
| SortedList.FindRev | src/paxos/containers/list_factory.h:82-103 | the same, searching backwards |
| SortedList.InsertFwd | src/paxos/containers/list_factory.h:116-135 | the new element at its place, or the old element with that key and no change, forwards |
| SortedList.InsertRev | src/paxos/containers/list_factory.h:116-135 | the same, backwards |
| DecreeLog.MergeCommutes | src/paxos/paxos_proposer.c:193-244 | where equal ballots carry equal values, the order of promises makes no difference |
| DecreeLog.FinishMeaning | src/paxos/paxos_proposer.c:258-305 | re-decreeing touches exactly the numbers from the hole to the last, leaves no gap, keeps committed slots and old values |
| DecreeLog.FillsAreNew | src/paxos/paxos_proposer.c:274-289 | the null decrees that fill gaps get request ids of the preparer's own, above all it has used, no two alike |
| Invariants.QuorumsMeet | src/paxos/paxos_util.c:59-66 | two majorities share an acceptor |
| Invariants.SmallerMisses | src/paxos/paxos_util.c:59-66 | one acceptor fewer is not enough: two such groups can be disjoint |
| QuietSteps.LoseInv | src/paxos/paxos_util.c:162-190 | losing a message keeps the protocol invariant |
| QuietSteps.FollowInv | src/paxos/paxos_greet.c:309-322 | following a higher-ranked acceptor keeps it |
| QuietSteps.AskInv | src/paxos/paxos_retry.c:22-39 | asking for the commit of the hole, once one beyond it has come, keeps it |
| QuietSteps.RetryInv | src/paxos/paxos_retry.c:45-82 | sending a commit again, under the header of the one who asked, keeps it |
| QuietSteps.AdvanceInv | src/paxos/paxos_learn.c:97-132 | learning moves the hole past one instance, whose value was chosen, and keeps the invariant |
| PrepareSteps.StartInv | src/paxos/paxos_proposer.c:62-134 | starting a prepare keeps it |
| PrepareSteps.PromiseInv | src/paxos/paxos_acceptor.c:27-89 | promising keeps it, with the high-water mark assigned as in the code |
| PrepareSteps.CollectInv | src/paxos/paxos_proposer.c:168-247 | merging a promise into the log keeps it, whether or not the prepare succeeds later |
| PrepareSteps.CommitInv | src/paxos/paxos_acceptor.c:197-228 | taking over a commit without a ballot check keeps it, and so does a recommit unless it lowers a header |
| DecreeSteps.FinishInv | src/paxos/paxos_proposer.c:254-309 | finishing a prepare keeps it: what is re-decreed is safe in every lower ballot |
| VoteSteps.AckDecreeInv | src/paxos/paxos_acceptor.c:98-167 | voting for a decree keeps it, including the first majority being completed |
| ProposerSteps.AckAcceptInv | src/paxos/paxos_proposer.c:358-404 | counting an accept, and committing on a majority, keeps it |
| ProposerSteps.ProposeInv | src/paxos/paxos_proposer.c:327-350 | a new decree keeps it |
| Agreement.StepInv | src/paxos/paxos.c:220-420 | every event but a recommit that lowers a header keeps the invariant |
| Agreement.RunInv | src/paxos/paxos.c:220-420 | it holds after every run from a common snapshot in which no recommit lowers a header |
| Agreement.ChoiceLasts | src/paxos/paxos_proposer.c:374-380 | what a majority has chosen stays chosen in every continuation |
| Agreement.Agreement | src/paxos/paxos_acceptor.c:190-228 | whatever two nodes ever commit for an instance, at any moments of a run that lowers no header, is the same value |
| Agreement.TotalOrder | src/paxos/paxos_learn.c:88-132 | of what any two nodes have learned at any moments of such a run, one is a prefix of the other |
| Delivery.LearnsNext | src/paxos/paxos_learn.c:97-131 | a node whose next instance is committed can learn it: what it has learned grows by that value, and no log changes |
| Delivery.NothingElse | src/paxos/paxos_learn.c:88-96 | every other event, of whichever node, leaves what a node has learned as it was |
| Delivery.LearnsAll | src/paxos/paxos_learn.c:97-131 | if a log is committed from the hole up to some number, a continuation learns just those values, in order |
| Delivery.AsksForGaps | src/paxos/paxos_learn.c:62-79 | a node may ask for a commit exactly if it does not propose, lacks the commit of its next instance, and has a later one |
| Delivery.DeliveredOnce | src/paxos/paxos_util.c:162-190 | the event that takes a message, or loses it, uses up one copy |
| Broadcast.EveryoneLearns | src/paxos/paxos_proposer.c:321-404 | for any acceptors, one included, and any values, some run has everyone learn the snapshot and just these values |
| Agreement.OneValue | src/paxos/paxos_proposer.c:368-380 | majorities of any two ballots vote for the same value |
| Agreement.LaterDecreesAgree | src/paxos/paxos_proposer.c:290-304 | from the ballot whose majority came first on, every decree of the instance carries the chosen value |
| LateMajority.LaterDecreesDiffer | src/paxos/paxos_proposer.c:290-304 | for any ballot with a generation and any higher one of another owner, a run in which a majority votes in the first and the second decrees another value |
| LateMajority.LaterDecreesPairs | src/paxos/paxos_proposer.c:290-304 | such runs exist for exactly those pairs of ballots; for all others, decrees in the higher ballot carry the value of the majority |
| FirstBallot.FirstStands | src/paxos/paxos_proposer.c:290-304 | what a majority voted for in the ballot given in the beginning, every decree in any ballot carries |
| Ballots.RunUsual | src/paxos/paxos_proposer.c:62-134 | in any run, recommits included, every ballot of a node, a slot or a message is the one given in the beginning, or has a higher generation and another owner; the first proposer never prepares |
| Agreement.PromisesAgree | src/paxos/paxos_acceptor.c:66-82 | two promises that show one instance under one ballot show one value, unless one of the two is the chosen value |
| Agreement.NextIsFree | src/paxos/paxos_util.c:50-57 | after a successful prepare, the next instance number exceeds every number chosen in any lower ballot |
| Agreement.FillsAreFree | src/paxos/paxos_proposer.c:267-289 | the promises of a majority contain every slot chosen in any lower ballot, so null decrees never land on one; what was first chosen in a lower ballot keeps its value |
| Agreement.CountersCount | src/paxos/paxos_proposer.c:246-252 | the bare counters are the sizes of sets of distinct acceptors that really promised or voted |
| Agreement.AcceptsFit | src/paxos/paxos_proposer.c:358-370 | every accept that arrives finds the ballot equal and the instance there |
| Agreement.ValueAssertHolds | src/paxos/paxos_acceptor.c:148-155 | the value asserts hold for decrees from the first choosing ballot on |
| LateDecree.ValueAssertFails | src/paxos/paxos_acceptor.c:148-155 | whenever a later ballot belongs to another proposer, there is a run in which they fail for a decree of the earlier one |
| LateDecree.ValueAssertPairs | src/paxos/paxos_acceptor.c:148-155 | they can fail for exactly those pairs of ballots |
| Recommits.OrderlyAgrees | src/paxos/paxos_retry.c:84-113 | where no recommit lowers a header, no two nodes ever commit different values |
| Recommits.AgreementFails | src/paxos/paxos_retry.c:22-113 | for every such pair of ballots, a run that lowers headers from the second to the first only, fails no value assert, and commits two values for one instance |
| Recommits.DisagreeingPairs | src/paxos/paxos_retry.c:84-113 | such a run exists exactly if the first ballot is lower, the second has a generation, and they have different owners if the first has no generation |
| Membership.LearnPrefix | src/paxos/paxos_learn.c:143-241 | the acceptor list after a longer sequence is the fold of the rest over the list after a prefix |
| Membership.OnList | src/paxos/paxos_learn.c:163-223 | who is on the list: the old members, and those whose join was learned under their number, except whom a later part or kill names |
| Membership.SameHoleSameList | src/paxos/paxos_learn.c:143-241 | nodes with equal holes have equal acceptor lists; a lower hole means an earlier list of the other |
| Membership.NeighbouringMajorities | src/paxos/paxos_util.c:59-66 | majorities before and after one learned join, part or kill share an acceptor |
| Membership.DistantMajorities | src/paxos/paxos_util.c:59-66 | after two joins they need not |
| Instances.LogInsert | src/paxos/paxos_util.c:87-97 | inserting an instance at its place adds one slot to the log the list stands for |
| Instances.LogUpdate | src/paxos/paxos_acceptor.c:156-162 | overwriting an instance changes one slot |
| Session.Session.Start | src/paxos/paxos.c:61-135 | the founder's state: in order, with its own join as the one committed instance, that request cached, and the hole after it |
| Learner.LearnStep | src/paxos/paxos_learn.c:118-131 | learning the instance at the hole moves the hole by one and extends the learned sequence by its value |
| Session.LearnedWithRequest | src/paxos/paxos_learn.c:43-54 | a chat or a join whose request is missing is never learned |
| Learner.LearnOn | src/paxos/paxos_learn.c:97-132 | the loop learns in order until the hole is missing, uncommitted or uncached, and leaves istart there; its asserts hold, the request lookup included; from an istart outside the list nothing is learned |
| Learner.Commit | src/paxos/paxos_learn.c:35-135 | commits one instance, wherever a prepare has left istart; exactly when it learns, waits, retrieves, retries, or stops at the assert about istart, and where istart points then |
| Learner.CommitCached | src/paxos/paxos_learn.c:56-134 | the asserts about the hole hold, and the one about istart fails exactly if the hole was filled while istart was doomed; learning happens exactly if the hole was filled and istart is right or moves there |
| Acceptor.FindInstance | src/paxos/types/decree.c:28-29 | the instance in the log, or none exactly if there is none |
| Acceptor.InsertAndUpstart | src/paxos/paxos_util.c:83-97 | adds one slot, and keeps istart in its place, exactly if it is not below the base |
| Acceptor.AckDecree | src/paxos/paxos_acceptor.c:98-167 | the log and the reply are those of the protocol, for every ballot, number, state, value and place of istart; the abort is where the value asserts fail; istart keeps its place exactly unless our decree is below the base |
| Acceptor.AckCommit | src/paxos/paxos_acceptor.c:197-228 | the log is that of the protocol; exactly when something is learned and when the assert about istart fails; below the base, where the learner breaks, it aborts exactly if no request is missing |
| Acceptor.AckRecommit | src/paxos/paxos_retry.c:84-113 | the same, with the header taken over as well |
| Requests.CacheRequest | src/paxos/paxos_request.c:160-171 | a request arriving on its own keeps istart in its place and commits nothing |
| Requests.AckResend | src/paxos/paxos_request.c:281-318 | a resend commits the instance again; with the wanted request it never asks again, and at the hole it is learned, unless istart is astray |
| PromiseReply.CountBack | src/paxos/paxos_acceptor.c:66-74 | the backward search ends at the greatest instance not beyond the hole and counts what follows |
| PromiseReply.SuffixReports | src/paxos/paxos_acceptor.c:76-82 | the votes from there on are exactly those the protocol reports |
| PromiseReply.Promise | src/paxos/paxos_acceptor.c:48-89 | declared count, packed votes and report agree and begin at or before the hole if the list reaches back to it, and what happens if not |
| PromiseReply.AckPrepare | src/paxos/paxos_acceptor.c:26-38 | promises exactly to the believed proposer with a higher ballot |
| PromiseReply.ReachesBack | src/paxos/paxos_sync.c:212-215 | after truncations up to a base, the list reaches back to every hole from the base on |
| MergePromise.GetInstanceGlb | src/paxos/paxos_proposer.c:136-155 | the last instance numbered at most n from the iterator on, none exactly if the iterator is beyond n; the same from an iterator that was taken out of the list but still leads to it |
| MergePromise.SwapVote | src/paxos/paxos_proposer.c:236-242 | the switch replaces one link by another and one slot by another; the old link points to the new one |
| MergePromise.PlaceVote | src/paxos/paxos_proposer.c:214-243 | one vote is merged as the protocol merges it, and which links enter and leave the list |
| MergePromise.MergeVotes | src/paxos/paxos_proposer.c:189-244 | the loop is the pointwise join; what becomes of each link that was in the list; it goes through exactly if the iterator leads to the list and the first vote is not before it |
| MergePromise.MergeInto | src/paxos/paxos_proposer.c:168-244 | from any cached iterator: exactly when the iterator stays usable, the log is the join, and where istart points afterwards |
| FinishingPrepare.Fill | src/paxos/paxos_proposer.c:274-289 | a gap gets a null decree with the next request id, and istart follows exactly if it was the hole, and keeps its place |
| FinishingPrepare.FinishOne | src/paxos/paxos_proposer.c:259-304 | one number is handled as the protocol does |
| FinishingPrepare.Finish | src/paxos/paxos_proposer.c:254-305 | from any cached iterator: the loop ends, computes the protocol's log, and sends one decree for each uncommitted instance in order, exactly if the iterator leads to the list at or before the hole |
| AckPromise.StartPrepare | src/paxos/paxos_proposer.c:62-92 | the iterator a new prepare caches leads to the instance at the hole, or the one before |
| AckPromise.AckPromise | src/paxos/paxos_proposer.c:168-309 | the whole handler takes the protocol's step, from any cached iterator: exactly when it ignores the promise, waits, finishes, or stops; and where istart points then |
| AckPromise.AckPromises | src/paxos/paxos_proposer.c:168-309 | a whole prepare finishes, with the protocol's log, exactly if every promise is smooth when its turn comes; and where istart points then |
| AckPromise.StaysRight | src/paxos/paxos_proposer.c:230-242 | after a whole prepare istart is right exactly if no promise outvoted the instance at the hole when its turn came |
| AckPromise.FirstDecides | src/paxos/paxos_proposer.c:230-242 | otherwise it is outside the list at the hole exactly if the vote that replaced the instance ended its promise, and doomed if a later vote of that promise entered the list |
| LostStart.PrepareAborts | src/paxos/paxos_proposer.c:214-219 | the assert about the iterator fails for an ordinary newcomer |
| LostStart.IstartLost | src/paxos/paxos_proposer.c:236-259 | another one finishes its prepare with istart outside the list at the hole |
| LostStart.IstartBeyond | src/paxos/paxos_proposer.c:214-259 | a third one, which has not heard of the hole, finishes its prepare with istart numbered beyond it |
| LostStart.IstartDoomed | src/paxos/paxos_learn.c:83-86 | and when it commits the hole, the assert about istart fails |
| Proposing.NextNumber | src/paxos/paxos_util.c:50-57 | one more than the greatest number |
| Proposing.DecreesInOrder | src/paxos/paxos_proposer.c:311-316 | deferred decrees get consecutive numbers, first come first served, and touch nothing else |
| Proposing.Decree | src/paxos/paxos_proposer.c:321-350 | the decree gets the next free number and is committed at once if one vote is a majority; istart keeps its place |
| Proposing.AckAccept | src/paxos/paxos_proposer.c:352-404 | one more vote, and a commit exactly when that makes a majority of an uncommitted instance; exactly when it is learned and when the assert about istart fails |
| Proposing.Flush | src/paxos/paxos_proposer.c:311-316 | the defer list ends empty and its values are decreed in its order |
| Truncation.LogSuffix | src/paxos/paxos_sync.c:166-192 | the rest of the list stands for the log from the base on |
| Truncation.DropBelow | src/paxos/paxos_sync.c:171-192 | drops exactly the instances below the base, and their requests |
| Truncation.Truncate | src/paxos/paxos_sync.c:242-252 | keeps the instance at the base and istart; drops exactly the requests of the instances below; the learner goes on undisturbed exactly if no needed request was dropped |
| Welcome.FindHole | src/paxos/paxos_greet.c:198-226 | the hole is the end of the contiguous committed instances, and istart is right |
| Welcome.AckWelcome | src/paxos/paxos_greet.c:130-229 | a newcomer's session is in good order, its log is the one sent, and its hole is the first number not committed |
| Sync.Syncer.Tick | src/paxos/paxos_sync.c:47-97 | when a round is started, skipped, or replaced |
| Sync.Syncer.AckLast | src/paxos/paxos_sync.c:141-163 | in-place answer is the transition of the run results, where the command turns out to be the least answer |
| Sync.StepInv | src/paxos/paxos_sync.c:47-252 | every event keeps the sync invariant, and the proposer's base never decreases |
| Sync.RunInv | src/paxos/paxos_sync.c:47-252 | it holds after every run |
| Sync.TruncationIsSafe | src/paxos/paxos_sync.c:194-252 | every base, and every command on its way, is at most the last contiguous learn of every participant |
| Sync.CommandsStay | src/paxos/paxos_sync.c:209-226 | a command, once given, is on record for good |
| Sync.CommandsGrow | src/paxos/paxos_sync.c:209-226 | of any two commands ever given, the later asks for no less |
| Sync.CommandsKnown | src/paxos/paxos_sync.c:220-226 | every command in flight is one that was given |
| Sync.CommandsAreLeast | src/paxos/paxos_sync.c:153-155 | every command is the least of what all participants answered to its round, the proposer included: nobody is missing, nobody answered less, somebody answered just that |
| Sync.AnswersAreLearns | src/paxos/paxos_sync.c:118-136 | an answer is its sender's last contiguous learn at the time |
| Sync.AnswersRemain | src/paxos/paxos_sync.c:118-136 | and stays on record |
| Sync.CommandsAreObeyed | src/paxos/paxos_sync.c:242-252 | an acceptor that takes a command has the commanded base, and nobody else's changes |
| Sync.LearnsByOne | src/paxos/paxos_learn.c:130-131 | learning moves one hole by one |
| Sync.CanTruncate | src/paxos/paxos_sync.c:47-252 | whatever has happened, with more than one participant and something learned since the last command, some continuation in which nobody learns brings everyone's base to the least last contiguous learn |
| Sync.NothingToDo | src/paxos/paxos_sync.c:64-68 | with nothing learned since the last command a tick does nothing, and the base is that learn |
| Sync.RoundsAreReplaced | src/paxos/paxos_sync.c:70-79 | a round without its answers is waited for during 29 ticks, and replaced at the thirtieth |
| Sync.BaseGrows | src/paxos/paxos_sync.c:212-215 | the assert about the base holds in every run |
| Sync.AnswersFindRound | src/paxos/paxos_sync.c:141-155 | an answer to the current round always finds it in progress |
| Sync.EveryoneAnswered | src/paxos/paxos_sync.c:157-161 | an answer ends the round exactly if everyone else has answered it |
| Sync.AloneNeverTruncates | src/paxos/paxos_sync.c:80-97 | without other acceptors no round ever ends |
| Tally.Prepare.AckPromise | src/paxos/paxos_proposer.c:246-252 | wins exactly on a majority of promises from distinct acceptors |
| Tally.Prepare.AckRedirect | src/paxos/paxos_reconnect.c:101-135 | reconnects exactly on a death-adjusted majority; prepares again exactly if everyone has answered, the count is even and promises are half |
| Tally.OneOutcome | src/paxos/paxos_reconnect.c:20-20 | the two majorities exclude each other, and when all have answered there is one of them or a tie |
| Tally.OutcomeLasts | src/paxos/paxos_reconnect.c:104-133 | a won prepare is never lost to later redirects |
| Tally.TieNoticed | src/paxos/paxos_reconnect.c:120-135 | a complete tie is noticed exactly if the last answer is a redirect |
| Tally.TieMissed | src/paxos/paxos_proposer.c:246-252 | a tie completed by a promise does occur |
| Roles.Session.ResetProposer | src/paxos/paxos_util.c:34-48 | the proposer becomes the lowest acceptor that is live or ourselves |
| Roles.Session.Welcome | src/paxos/paxos_greet.c:163-184 | a newcomer starts with the right proposer and live count |
| Roles.Session.Drop | src/paxos/paxos.c:169-215 | losing a connection clears that acceptor's and no other, keeps proposer, live count and pending prepare right, and says when a prepare starts |
| Roles.Session.AckHello | src/paxos/paxos_greet.c:282-330 | attaching keeps them right, and which connection everyone has then: the new one, unless there was one and the other end ranks below us; a higher-ranked hello ends a pending prepare, and is ignored once prepared; of two early hellos the first is kept |
| Roles.Session.LearnJoin | src/paxos/paxos_learn.c:167-193 | a learned join keeps them right, whether or not the hello came before |
| Roles.Session.LearnPart | src/paxos/paxos_learn.c:200-240 | a learned part or kill keeps them right, and takes just that acceptor off the list |
| Roles.Session.ContinueWelcome | src/paxos/paxos_greet.c:235-249 | exactly when a newcomer's connection keeps them right, and that it is the one recorded |
| Roles.Session.ContinueRedirect | src/paxos/paxos_reconnect.c:146-188 | exactly when the attempt after redirects keeps them right, and which connection is recorded |
| Roles.Session.ContinueRefuse | src/paxos/paxos_reconnect.c:277-315 | exactly when the attempt after a refuse keeps them right, and which connection, proposer and count come out |
| Roles.StaleReconnect | src/paxos/paxos_reconnect.c:182-186 | the bad case after redirects does occur |
| Trill.SentProbe | src/network/trill/trill.c:199-216 | reading a probe gives back the priority it was built from |
| Trill.ProbeFormat | src/network/trill/trill.c:199-216 | a probe is nine bytes: a tag and the two words of the priority, most significant byte first |
| Trill.UnpackSpells | src/network/trill/trill.c:256-257 | words are read in the same order |
| Trill.GreaterMeans | src/network/trill/trill.c:267-268 | priorities are compared as numbers of 64 bits |
| Trill.TimerSends | src/network/trill/trill.c:189-225 | the timer sends tag 100 while probing and tag 99 as the server, with our priority, and otherwise stops |
| Trill.Connection.Connect | src/network/trill/trill.c:142-180 | starts probing, from the first state only |
| Trill.Connection.TimerProbe | src/network/trill/trill.c:189-225 | what is sent in which state, and when the timer ends |
| Trill.Connection.ReadProbe | src/network/trill/trill.c:231-294 | how a datagram settles the role, ties the election, or changes nothing |
| Trill.RunKeeps | src/network/trill/trill.c:182-294 | the election invariant holds after every run with loss, duplication and reordering |
| Trill.ElectionSafety | src/network/trill/trill.c:182-294 | never two equal roles; a client's peer is already the server; the server is the end with the lower priority |
| Trill.TiesStay | src/network/trill/trill.c:259-264 | tied ends never leave the probing state |
| Trill.TiesGiveUp | src/network/trill/trill.c:259-264 | an end that reads its own priority answers nothing and stops reading |
| Trill.NeverReadsAgain | src/network/trill/trill.c:182-294 | an end that has stopped reading never reads again |
| Trill.RolesLast | src/network/trill/trill.c:270-291 | a settled role is never given up |
| Trill.HandlersExpectTheirState | src/network/trill/trill.c:197-243 | the state asserts of both handlers hold in every run |
| Trill.CanSettle | src/network/trill/trill.c:182-294 | from every reachable state of untied ends some continuation settles one server and one client |
| Trill.CanEstablish | src/network/trill/trill.c:182-294 | and some continuation completes both handshakes, with both timers off |
| Murmur.Fmix32 | ext/murmurhash/murmurhash3.c:68-77 | the steps compute the finalization function |
| Murmur.MurmurHash3 | ext/murmurhash/murmurhash3.c:94-148 | loop, fall-through tail and finalization compute the hash of the key's blocks and tail |
| Murmur.BlockIsLittle | ext/murmurhash/murmurhash3.c:55-58 | a block is the number its four bytes spell, least significant first |
| Murmur.TailIsLittle | ext/murmurhash/murmurhash3.c:125-140 | and so is the tail, of one to three bytes |
| Murmur.KnownEmpty | ext/murmurhash/murmurhash3.c:94-148 | the hash of the empty key with seed 1 |
| Murmur.KnownThree | ext/murmurhash/murmurhash3.c:94-148 | the hash of a tail of three bytes |
| Murmur.KnownBlock | ext/murmurhash/murmurhash3.c:94-148 | the hash of one block |
| Murmur.KnownEleven | ext/murmurhash/murmurhash3.c:94-148 | the hash of two blocks and a tail of three bytes |
| Murmur.FmixInverts | ext/murmurhash/murmurhash3.c:68-77 | finalization permutes the 32-bit words |
| Murmur.MixInverts | ext/murmurhash/murmurhash3.c:112-123 | a step can be undone both in the state and in the block |
| Murmur.SeedBijection | ext/murmurhash/murmurhash3.c:94-148 | for every key of any length the hash permutes the seeds |
| Murmur.OneBlockDiffers | ext/murmurhash/murmurhash3.c:94-148 | keys of one length that differ in exactly one aligned block never collide |
| Murmur.OnlyTailDiffers | ext/murmurhash/murmurhash3.c:125-148 | keys of one length that differ only in the tail never collide |

## Left out

- Agreement.Agreement: asks that no recommit lowers a header, without which it is false; membership is fixed and all nodes start from a common snapshot; the hello that resets a ballot, the rejection and re-decreeing of parts, and truncation are not protocol events, and the promise merge is the pointwise join, as if `istart` and `pp_istart` always led into the list.
- Agreement.ValueAssertHolds: one direction; the ballots below are the subject of LateDecree.ValueAssertPairs.
- Agreement.LaterDecreesAgree: one direction; the ballots below are the subject of LateMajority.LaterDecreesPairs.
- Agreement.AcceptsFit: the assert at `src/paxos/paxos_acceptor.c:120` is a guard of the decree event, not a conclusion.
- Recommits.AgreementFails: a retry for a number that is not in the proposer's list, where the code asserts, is ignored.
- Membership.SameHoleSameList: the runs have a fixed membership; the lists are those folded from the learned values.
- Learner.Commit: errors of the network inside the learn loop, and the session ending when its own part is learned, are not modelled.
- MergePromise.MergeVotes: where the search ends at an instance that is not in the list, the C code goes on with it; the model stops there.
- AckPromise.AckPromise: the flush that follows a finished prepare is Proposing.Flush.
- Truncation.Truncate: stated for a learner whose istart is right.
- Requests.AckResend: requests are known by their ids; their data, and the messages that ask for and send them, are not modelled.
- Sync.TruncationIsSafe: one proposer's reign, fixed membership, everyone live when a round starts; an acceptor's own base follows the commands in the order in which they arrive.
- Tally.OneOutcome: the live acceptors are fixed during the prepare and answer at most once each.
- Roles.Session.LearnJoin: a joiner's id is its instance number, greater than the ids before it.
- Roles.Session.ContinueRedirect: the proposer's reconnection to an acceptor that was to be parted is not modelled.
- Trill.CanSettle: the handshake itself is one event that needs both roles settled.
- Murmur.MurmurHash3: blocks are read little-endian.
- Ids, generations, ballots and instance numbers are unbounded naturals; 32-bit wrap-around is not modelled.
- Liveness of prepare, retrieve and retry: several paths wait for messages that may never come.
- Msgpack encoding, GLib channels, sockets, buffering and memory management.
- GnuTLS handshakes, DNS lookup, Plume, the event layer, logging, printers, command lines and the Ruby tests.
