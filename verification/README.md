# SRGo, verified

A Dafny model of SRGo, a SIP back-to-back user agent, and proofs about it. A call is two sessions, the
ingress leg of the caller and the egress leg of the called party. Each has a state, flags, counters and a
list of transactions; messages from either side and timers drive both.

`dafny verify dfyconfig.toml` checks everything.

## How it is built

**The call machine.** `session_state`, `sip_types`, `session` and `stack` define what every handler does to a
leg and to a call, as functions: `Step` is one message or timer, `Run` any sequence of them, `NewCall` the
INVITE that starts it. `sip_session` and `sip_stack` are the same handlers as methods that update two session
objects in place, each proved to do exactly what its function says. The straight-line ones have no row of
their own below: `SipCall.Happens` says it of every event, `Drive` of whole runs. The theorems quantify over
every event, so the network is free to send anything at any time.

The proofs have three layers. `moves` and `books` show that whatever a handler does to a leg is a sequence of
ten kinds of moves, and what every move keeps: branches, CSeqs, RSeqs. `evolution`, `session_keeps` and
`call_keeps` show for every helper and handler what it keeps and what it leaves alone: no leg goes back, who
can be answered, which steps bear on offers. `runs`, `answers`, `early_answers`, `offers`, `blocked`, `relays`,
`numbers`, `finals` and `lone_legs` put these together into statements about every reachable state.
`following` and `witnesses` follow concrete runs, from the first INVITE on, to each of the failures.

**What each event does.** `changes` has the words: a response gained, an INVITE cancelled, a leg hung up.
`requests`, `acks`, `hangups`, `ringing`, `responses`, `refusals` and `lapses` state in them, for every request,
response and timer and for every sound call, what becomes of every field of both legs, without naming a handler;
every reachable call is sound (`Runs.ReachableIsSound`). `admission` does the same for the INVITE that creates the
call. `stranded` draws from them when a call being set up is left with one leg.

**The rest.** `load_share` (smooth weighted round robin), `media_pool` (ports and who owns them), `decimal`,
`template`, `parameters`, `text`, `multipart`, `framing`, `max_forwards` and `retransmission` each pair the
program's loops with an independent meaning and prove the two agree.

## Assumptions

- Handling a message or a timer is one atomic step. The code checks and sets a state in separate critical
  sections, and waits in the middle of some handlers; neither is modelled.
- A new branch differs from all others of its leg (a per-leg counter); whether the tags of a request are those
  of the session is left open.
- A transaction can time out whenever it waits in vain: a request sent here without any response, an INVITE
  answered here without an ACK. The no-answer timers can fire until a 2xx came. So the runs include more than
  real time allows.
- A BYE that cannot be sent panics (see below). While a message is handled that ends the handler; on a timer,
  which nothing recovers, it ends the program. The model goes on with the state that was reached.
- Response logs keep bodies as well as codes. A session description is an opaque value, and the outcomes of
  the SDP library, of the phone book, of registration and of the routing table are inputs.
- A request or response for a disposed session changes nothing here: it starts a session of its own.

## What turned out

Each of the first ten is shown to happen in a run from the first INVITE on.

- An UPDATE answered with two different 2xx lowers the dialogue-changing flags while another offer may be
  open, and the next offer is then let through (`Offers.ExclusiveUnlessAnsweredTwice`,
  `Witnesses.SecondOfferExample`).
- A rejected offer leaves the flags up, since only the ACK of a re-INVITE with a 2xx or a 2xx for an UPDATE
  lowers them: after one, every later offer of either party is refused with 491 for the rest of the call
  (`Blocked.UpdateEndBlocks`, `Blocked.ReInviteEndBlocks`, `Blocked.NoOfferGetsThrough`,
  `Witnesses.RefusedUpdateBlocks`).
- A 3xx for a forwarded offer is not passed on: it releases the call, and the offer is answered 503
  (`Relays.AnswerReachesItsOffer`, `Witnesses.RedirectedOfferExample`).
- In the early-to-final flow a re-INVITE can be forwarded as an UPDATE; when the called party has answered by
  the time its ACK comes, an ACK with the UPDATE's CSeq is sent (`Numbers.ACKsExactly`,
  `Witnesses.StrayACKExample`).
- A second, different 2xx for the egress INVITE is relayed to the caller again, as long as the caller has not
  sent its ACK (`EarlyAnswers.AnsweredOnceUnlessAgain`, `Witnesses.AnsweredAgainExample`).
- A CANCEL between the answer and its ACK has the INVITE answered 487 after its 200; some other events do
  the like (`Finals.OneFinalResponse`, `Witnesses.CancelledAnswerExample`).
- A PRACK that is not answered, and some requests inside the dialogue, end one leg and leave the other up
  (`LoneLegs.LeftAloneInRuns`, `Witnesses.LoneCallerExample`).
- During the setup, too, some messages end one leg and leave the other waiting; and after an ACK with a body of an
  unknown kind, which is answered 415, the caller is told of no failure any more (`Stranded.StrandedInRuns`,
  `Witnesses.StrandedCallerExample`).
- A BYE cannot be sent while a reliable 18x waits for its PRACK: the pending requests are answered first, and
  the waiting transaction has no request to answer, which is a nil dereference
  (`SipSessions.SipSession.RejectPendingRequests`, `Witnesses.UnsentBYEExample`).
- The first egress CSeq can be drawn as 0, which reads as "not drawn" the next time (`Numbers.CSeqsRise`,
  `Witnesses.ZeroDrawExample`).
- A negative Content-Length with an unknown Content-Type can make the datagram loop go round for ever
  (`Framing.ParsingGetsOn`, `Framing.StuckExample`); with a known one it stops the program.
- A multipart message must be the last of its datagram: its reader takes whatever follows for one more part, and
  stops the program (`Framing.MultipartMustBeLast`).
- A Max-Forwards beyond 64 bits can come round as a small number (`MaxForwards.OverLimitNotTaken`).
- A stopped retransmission timer is never started again (`Retransmission.AnsweredAfter`).

## Model

| member | source | states |
|---|---|---|
| SessionState.FinalizeMeIsTableLookup | sip/state/state.go:93-96 | FinalizeMe is the lookup of the name without "Being" in the name table, and gives NotSet exactly for the four states whose short name is in no entry |
| SessionState.PendingByName | sip/state/state.go:98-100 | a state is pending exactly when its name starts with "Being" |
| SessionState.FinalizeMeForward | sip/state/state.go:93-100 | finalizing never goes back to an earlier phase, except from exactly the four states without a final form |
| CallKeeps.StepKeeps | sip/stack.go:357-736 | every message and timer keeps both legs sound and takes nothing back; only an ACK, a response to the waiting egress INVITE or the echo answer can answer the caller, only offers, ACKs and the 2xx of an UPDATE bear on the dialogue-changing flags |
| Runs.NeverBackwards | sip/stack.go:380-734 | between any two moments of any run no leg goes back through unset, being established, established, being ended, ended; BeingRestored, BeingConnected, BeingUpdated and BeingReinvited are never reached; a disposed session stays disposed; nothing sent or recorded is lost |
| Admission.NewCallExactly | sip/stack.go:309-335 | the two legs of a new call, field by field: an INVITE with something wrong is answered with nothing but the code of the first reason (416, 415, 420, 483, 503, in the order of the checks); any other is told 100, and then the code of the first reason its target gives (404; 480, 604, 488; for an echo call 488, 503, 500; else 488 or 503), or the echo call rings, or the call is linked and the INVITE is sent |
| Admission.ForwardedExactly | sip/stack.go:316-332 | the called party is sent one INVITE, with the drawn number, exactly if the scheme and the body are known, nothing is required, Max-Forwards is above 1, the rate is not exceeded, and the conditions of the target and of the media ports hold; else nothing |
| Admission.RouteExactly | sip/routing.go:17-205 | the same for the routing alone: phones, routing records, the echo responder, the two media ports |
| Admission.HopsDecide | sip/stack.go:329-331 | of the INVITEs that nothing else is wrong with, the call machine forwards exactly those that the router of the loop bound forwards, and answers the others with 483 and nothing else |
| Runs.ReachableIsSound | sip/stack.go:357-736 | every call that some run leads to is one of those about which the outcomes of single steps below are stated |
| Changes.NewExactly | sip/session.go:145-176 | a request is taken in exactly unless the leg is dropped, it is an INVITE, or it has the method, CSeq and branch of one that is listed, or is the ACK of an acknowledged INVITE once more |
| Changes.RepeatedIgnored | sip/stack.go:297-300 | any other request changes nothing on either leg |
| Changes.UnmatchedIgnored | sip/session.go:167-187 | a response that fits no request, or repeats a final response, changes nothing on either leg |
| Requests.AnsweredLocally | sip/stack.go:416-567 | 415 for an unknown body, 200 for an UPDATE without body or an OPTIONS within the dialogue, 405 for NOTIFY, 480 or the outcome for REFER; neither leg changes otherwise |
| Requests.LeftUnanswered | sip/stack.go:559-571 | an INFO without peer, and a REFER to an established leg without one, are listed and not answered |
| Requests.EndsItsOwnLeg | sip/stack.go:517-585 | the requests that end the leg they come to: its state, its one answer, dropped; the other leg stays as it is |
| Requests.InfoForwarded | sip/stack.go:568-571 | an INFO goes on with the next CSeq and a new branch, linked both ways, and is not answered |
| Requests.OfferWithPeer | sip/stack.go:434-462 | what becomes of an offer on a linked leg, on both legs field by field: 491 while either leg changes the dialogue, 488 when it cannot be converted, else forwarded; the leg is marked in every case; a re-INVITE is told 100 first |
| Requests.OfferWithoutPeer | sip/stack.go:436-449 | an offer on a leg without peer is answered with its own description, or with what went wrong |
| Acks.CallerAcknowledges | sip/stack.go:463-475 | the ACK of the INVITE: the leg takes its final state, and is dropped unless that is established; then the called party's leg does too and is sent its ACK, unless it still transforms early answers |
| Acks.ACKIgnored | sip/sessionHelper.go:31-46 | an ACK is taken exactly by the first answered INVITE or re-INVITE with its CSeq, once, on the same branch exactly after a negative answer; any other changes nothing |
| Acks.ACKWithUnknownBody | sip/stack.go:416-419 | an ACK with an unknown body is taken, and the INVITE is answered 415 |
| Acks.OfferAcknowledged | sip/stack.go:476-486 | the ACK of a re-INVITE on both legs field by field: the copy is acknowledged, both flags are lowered exactly if the copy had a 2xx |
| Acks.PRACKAwaited | sip/stack.go:550-558 | a PRACK that is awaited joins what waits for it, is answered 200, and the PRACK owed to the other party is sent with the next CSeq |
| Acks.PRACKUnawaited | sip/sessionHelper.go:61-78 | a PRACK that nothing waits for is listed as unexpected, or as one with a bad RAck, and answered 400 |
| Acks.PRACKRefused | sip/stack.go:551-554 | a PRACK for one that came unawaited is answered 400, and one with an unknown body 415; nothing goes to the other leg |
| Hangups.CallerCancels | sip/stack.go:487-501 | a CANCEL of a caller that waits: 200 for it; a called party that is being set up is sent the CANCEL of its INVITE, on its branch and with its CSeq, and the caller's INVITE is answered 487; one that is established is sent a BYE instead, and no 487 goes out |
| Hangups.CalleeCancels | sip/stack.go:487-501 | a CANCEL from the called party's side ends that leg alone, or hangs up a caller answered early |
| Hangups.CancelRefused | sip/stack.go:488-491 | in any other state it is answered 400 and changes nothing else, and 415 with an unknown body |
| Hangups.CancelIgnored | sip/sessionHelper.go:47-60 | a CANCEL on another branch than the INVITE it is for changes nothing |
| Hangups.CallerHangsUp | sip/stack.go:502-516 | a BYE of the caller on both legs: 200 and cleared, the called party is sent a BYE linked to it, or its CANCEL; 400 before the call is established; when the caller's ACK was awaited, that wait ends, and the called party is acknowledged and hung up, or cancelled |
| Hangups.CalleeHangsUp | sip/stack.go:502-516 | a BYE of the called party: 200 and cleared, and the caller is sent a BYE linked to it; else 400 and nothing |
| Hangups.NeverACKedExactly | sip/session.go:489-507 | the caller's ACK does not come: its leg has timed out, the called party gets ACK and BYE when it had answered, and a CANCEL when it had not |
| Changes.ByeExactly | sip/sessionHelper.go:130-136 | hanging up a leg: one BYE with the next CSeq, after every open request was answered 503; or none, when a PRACK is awaited, and then the requests up to it are answered |
| Changes.CancelExactly | sip/session.go:762-777 | cancelling a leg: the CANCEL has the branch and CSeq of the INVITE; nothing happens to a leg that is not being set up, and no CANCEL goes out after the ACK |
| Changes.HeldUpExactly | sip/sessionHelper.go:131-136 | a BYE cannot be sent exactly while a transaction waits for its PRACK |
| Stranded.StrandedInRuns | sip/stack.go:380-734 | in every reachable state with both legs being set up and linked, exactly which message or timer ends one leg and leaves the other waiting |
| Stranded.StrandedExactly | sip/session.go:474-526 | the same for every sound call: a request that belongs outside the dialogue, a CANCEL of the called party, a redirection of anything but INVITE and CANCEL, an unanswered PRACK to the caller or BYE, and any failure of the egress INVITE once the caller's ACK came without establishing its leg |
| Witnesses.StrandedCallerExample | sip/routing.go:221-231 | a run after which an answered caller waits for nobody: INVITE, 183 with SDP, ACK with an unknown body, no answer |
| Refusals.InviteRefused | sip/stack.go:658-688 | any response from 300 to 699 to the INVITE of a called party being set up: Redirected or Rejected, the INVITE acknowledged with its own CSeq; a caller that waits is told exactly that code, without body, fails and is unlinked; in a call that transforms early answers a caller answered early is sent a BYE, and a waiting one is told the code and stays linked |
| Refusals.InviteUnanswered | sip/session.go:489-508 | no response to the INVITE: the leg has timed out and is dropped, and the caller that waits is told 408 and unlinked |
| Refusals.PrackUnanswered | sip/session.go:512-517 | no response to a PRACK: its leg has failed and is dropped; on the called party's side a caller that waits is told 408 |
| Refusals.NoProgressOutcome | sip/session.go:614-622 | no 18x or no answer in time: the INVITE is cancelled, and the caller that waits is told 487 and unlinked; never after a 2xx |
| Ringing.RingsPlainly | sip/sessionResponses.go:16-36 | an 18x without 100rel: the caller that waits is told exactly its code and body, unless it has no SDP and repeats the code, or follows another 18x, where the routing record forbids that |
| Ringing.RingsReliably | sip/stack.go:612-618 | an 18x with 100rel: a PRACK with its RSeq is owed to the called party; the caller that waits is told code and body, repeated or not, and exactly if it supports 100rel a PRACK with the next RSeq is awaited from it; the two name each other |
| Ringing.RingsEarly | sip/stack.go:599-611 | in the early-to-final flow an 18x without SDP is passed on without body until one with SDP came, which is sent as a 200; after that nothing is |
| Ringing.RingsInVain | sip/stack.go:595-597 | after the setup nothing is passed on |
| Responses.InviteIsAnswered | sip/stack.go:634-643 | a 2xx for the INVITE being set up: the caller is told code and body and the flow no longer transforms; after an early answer nothing is told, the leg is established and acknowledged |
| Responses.AnsweredTooLate | sip/stack.go:627-633 | a 2xx after the setup was given up: ACK and BYE, no change of state, nothing to the caller |
| Responses.RedirectedTooLate | sip/stack.go:660-663 | a late 3xx still sends the leg to Redirected, with its ACK |
| Responses.RefusedTooLate | sip/stack.go:689-691 | a late failure completes a cancellation, with its ACK, and else changes nothing |
| Responses.ByeAnswered | sip/stack.go:652-721 | a final response to a BYE ends the leg; a 3xx drops it as it is; without a peer only a 2xx counts |
| Responses.CancelAnswered | sip/stack.go:664-669 | a 3xx to a CANCEL drops the leg; any other response to it is only recorded |
| Responses.OfferAnswered | sip/stack.go:646-693 | the answer to a forwarded offer goes back with code and body to the offer it is linked to; a 2xx to an UPDATE lowers both flags |
| Responses.ReleasedByResponse | sip/stack.go:664-701 | a 3xx to any other request, and a 408 or 481 to a probe, release the call; only a 3xx finalizes the state of the leg first |
| Responses.RecordedOnly | sip/stack.go:589-656 | exactly these responses are only recorded |
| Responses.ReleaseExactly | sip/session.go:724-736 | releasing a call hangs up each established leg, and stops at a BYE that cannot be sent |
| Lapses.ACKLapses | sip/session.go:489-507 | the INVITE answered here gets no ACK |
| Lapses.EndingLapses | sip/session.go:509-511 | a CANCEL or BYE without response ends its leg |
| Lapses.ProbeLapses | sip/session.go:477-485 | a probe without response releases the call, any other OPTIONS nothing |
| Lapses.DialogueLapses | sip/session.go:518-526 | any other request without response: the call is released and a leg that was not established is dropped, unless the first BYE could not be sent |
| Lapses.NothingLapses | sip/transaction.go:169-201 | a transaction that does not wait in vain never lapses |
| Lapses.ProbeSent | sip/session.go:656-667 | a probe is an OPTIONS with the next CSeq, for an established caller only |
| Lapses.CancelWithoutEnd | sip/transaction.go:205-229 | a cancelled INVITE without a final response: the leg is dropped in its final state |
| Lapses.DurationOver | sip/session.go:637-654 | the longest duration releases the call unless the caller's leg is dropped |
| Answers.CallerOnlyAnsweredByPeer | sip/stack.go:463-475 | in the plain and transparent flows, in every reachable state, an established ingress leg means that the egress INVITE has a 2xx and the egress leg is or was established; every 2xx the caller was ever sent is one the called party sent, body included |
| Answers.StepKeepsAnswer | sip/stack.go:624-643 | the invariant behind it survives every event: a waiting caller's INVITE has a final response only if the called party answered |
| Answers.ConfirmedKeeps | sip/stack.go:463-475 | the ACK of the answered caller: its leg is established, the called party's leg takes its final state and is sent the ACK of its own INVITE |
| Answers.RelayKeepsAnswer | sip/stack.go:643 | the 2xx of the waiting egress INVITE is sent to the caller with its code and body, unless the caller acknowledged one already |
| EarlyAnswers.FirstSDPAnswersOnce | sip/stack.go:594-611 | in the early-to-final flow, for any number and order of 18x with or without SDP and any final response, the ingress INVITE is sent at most one 2xx, and its body is that of the called party's first 18x with SDP, or of its 2xx when there was none before it |
| EarlyAnswers.AnsweredOnceUnlessAgain | sip/stack.go:635-643 | exactly when a step answers the caller twice: a second 2xx of the called party while the egress leg is still being established, the first was relayed and the caller has not sent its ACK |
| Witnesses.AnsweredAgainExample | sip/stack.go:635-643 | a run after which the caller has two 2xx: INVITE, 200, 202 |
| Finals.OneFinalResponse | sip/stack.go:487-501 | in every reachable state of every flow, the caller's INVITE was sent at most one final response exactly if no event of the run was, after the first, one of a list that is read off the state and the event: a CANCEL before the ACK, an ACK with an unknown body, a response to the egress INVITE that still reaches a caller without ACK, a timer of the egress leg meanwhile, a second echo answer |
| Finals.StepAdds | sip/session.go:474-526 | one event sends the caller's INVITE at most one final response, and when it had one, exactly if it is on that list |
| Witnesses.CancelledAnswerExample | sip/stack.go:487-501 | a run in which the INVITE is answered 200 and then 487: INVITE, 200, CANCEL |
| LoneLegs.LeftAloneInRuns | sip/session.go:474-526 | in every reachable state with both legs established and linked, exactly which message or timer takes one leg down and leaves the other up |
| LoneLegs.LeftAloneExactly | sip/stack.go:566-586 | the same for every sound call: REGISTER and the methods that are not allowed, an OPTIONS outside the dialogue, a final response to a BYE, a redirection of the INVITE, a BYE or PRACK without answer, and a release that stops at a BYE it cannot send |
| LoneLegs.ReleaseLeaves | sip/session.go:724-736 | releasing a call takes both legs down, unless the first BYE cannot be sent: then only the first leg |
| Witnesses.LoneCallerExample | sip/session.go:510-515 | a run after which the caller talks to nobody: INVITE, reliable 183, PRACK, 200, ACK, and no answer to the PRACK sent on |
| Witnesses.UnsentBYEExample | sip/sessionHelper.go:131-136 | a run in which a leg is being cleared without a BYE: INVITE, reliable 183, 200, ACK, BYE of the called party before the PRACK |
| EarlyAnswers.StepKeepsEarly | sip/stack.go:594-643 | the egress leg transforms early answers exactly until its INVITE has a final response, and until it decided the caller has no answer; every event keeps this |
| EarlyAnswers.SDPBecomesAnswer | sip/stack.go:599-604 | on the first 18x with SDP the caller is sent a 200 with that body, and the leg remembers it |
| EarlyAnswers.FinalBecomesAnswer | sip/stack.go:642-643 | a 2xx without an early answer before it is sent to the caller as it is, and nothing is transformed any more |
| EarlyAnswers.ConfirmedEarly | sip/stack.go:635-641 | on a 2xx after an early answer nothing is sent to the caller, the called party is sent the ACK of its INVITE and its leg is established |
| Runs.OneOfferAtATime | sip/stack.go:450-462 | whatever the interleaving of re-INVITEs and UPDATEs from both sides, outside the early-to-final flow, as long as no UPDATE gets a second 2xx, at most one forwarded offer is open across both legs and its leg is marked; forwarded offers and their copies are linked both ways in every flow |
| Offers.StepKeepsOffers | sip/stack.go:545-549 | one event keeps the links mutual and the open offers exclusive, unless an UPDATE is answered with a second 2xx |
| Offers.ExclusiveUnlessAnsweredTwice | sip/stack.go:646-649 | exactly when one event breaks the exclusion: a second, different 2xx for an UPDATE while another offer is open |
| Offers.TwoOffersOpen | sip/stack.go:646-649 | after such a 2xx the next UPDATE is forwarded beside the open offer, so two are open: for every call and every such pair of messages |
| Witnesses.SecondOfferExample | sip/stack.go:646-649 | a run after which two offers are open: INVITE, 200, ACK, UPDATE, 200, re-INVITE, a 202 for the UPDATE, an UPDATE of the called party |
| Blocked.UpdateEndBlocks | sip/stack.go:646-649 | exactly when the final response to a forwarded UPDATE leaves the call blocked, with a flag up and no offer open: always, unless it is a 2xx that is relayed |
| Blocked.ReInviteEndBlocks | sip/stack.go:476-486 | exactly when the ACK of a forwarded re-INVITE leaves the call blocked: when the re-INVITE got no 2xx |
| Blocked.BlockedUnlessAnsweredTwice | sip/stack.go:450-462 | exactly which event ends the blockage: a second 2xx for an UPDATE, and no other message or timer |
| Blocked.NoOfferGetsThrough | sip/session.go:537-545 | in every run outside the early-to-final flow in which no UPDATE gets a second 2xx, from the moment a call is blocked no offer of either party is forwarded again |
| Blocked.BlockedIsRefused | sip/stack.go:545-549 | whatever offer a party of a blocked call makes, it is listed and answered 491 |
| Offers.OfferOutcome | sip/stack.go:450-462 | an incoming offer is copied to the other leg, sent there and linked both ways exactly if both legs are at rest and it can be converted where it must be; else the other leg is left alone, and the answer is 491 when either leg is changing the dialogue |
| Offers.HandleOfferKeeps | sip/stack.go:434-462 | whatever becomes of an incoming offer, links stay mutual, no ACK goes astray and at most one offer is open |
| Offers.ACKLowersFlags | sip/stack.go:476-481 | the ACK of a re-INVITE lowers both flags exactly if the re-INVITE was forwarded and got a 2xx, otherwise neither |
| Offers.OfferACKKeeps | sip/stack.go:476-486 | an ACK of a re-INVITE keeps the links mutual and the offers exclusive, although it may lower the flags |
| Offers.UpdateAnsweredOutcome | sip/stack.go:646-649 | the 2xx of a forwarded UPDATE lowers both flags and is added, code and body, to the offer it came from; as its first final response it leaves no offer open |
| Offers.UpdateAnsweredKeeps | sip/stack.go:646-649 | such a 2xx keeps the links mutual, and the offers exclusive when it is the first final response |
| Offers.ForwardedACK | sip/stack.go:482-484 | the ACK of a forwarded re-INVITE is sent with the CSeq of the request it was forwarded as, which can be an UPDATE only in the early-to-final flow |
| Witnesses.RefusedUpdateBlocks | sip/stack.go:646-649 | a run that ends blocked: INVITE, 200, ACK, UPDATE, 488 |
| Witnesses.RefusedReInviteBlocks | sip/stack.go:476-486 | another one: INVITE, 200, ACK, re-INVITE, 488, ACK |
| Offers.ForwardedEnds | sip/transaction.go:87-98 | a forwarded request and its origin name each other, and no other link changes |
| Relays.OneTransactionPerResponse | sip/session.go:160-164 | in every reachable state a response matches at most one outgoing transaction of its leg, although a CANCEL shares branch and CSeq with its INVITE; the first match is the only one |
| Relays.AnswerReachesItsOffer | sip/stack.go:649-703 | in every reachable state the final answer to a forwarded re-INVITE or UPDATE is added, code and body, to the offer it was forwarded from, and to no other transaction of that leg, exactly if the leg still has its peer and the answer is no 3xx |
| Witnesses.RedirectedOfferExample | sip/stack.go:658-672 | a run in which a 302 for an UPDATE is not passed on: the UPDATE is answered 503 and both legs are hung up |
| Books.MoveKeepsBranches | sip/transaction.go:128-143 | two outgoing transactions share a branch only as an INVITE and its one CANCEL do; every change a handler can make keeps this |
| Books.MovesKeepBooks | sip/sessionHelper.go:130-200 | branches, CSeqs and RSeqs stay in order through any sequence of the changes that handlers make to a leg, and ACKs stay those of INVITEs when none is sent astray |
| Numbers.CSeqsRise | sip/sessionHelper.go:166-197 | below the uint32 wrap, the requests of an ingress leg have consecutive CSeqs in sending order; those of the egress leg of a routed call exactly unless 0 was drawn for its INVITE and the number drawn next was not 1 |
| Numbers.FirstDraw | sip/sessionHelper.go:166-172 | the first CSeq of a routed call's egress leg is the number drawn when the call came in |
| Witnesses.ZeroDrawExample | sip/sessionHelper.go:168-172 | a run with the CSeqs 0 and 5: INVITE with 0 drawn, INFO with 5 drawn |
| Numbers.SharedNumbers | sip/transaction.go:128-165 | in every flow every CANCEL carries the CSeq of an INVITE sent before it on its leg, and every ACK that of the request it acknowledges, which outside the early-to-final flow is an INVITE or re-INVITE |
| Numbers.ACKsExactly | sip/stack.go:482-484 | in every reachable state of every flow, all ACKs of a leg are for INVITEs and re-INVITEs exactly if no event of the run was the ACK of a re-INVITE forwarded as an UPDATE on a leg that no longer transforms early answers |
| Numbers.StepKeepsACKs | sip/stack.go:463-486 | one event keeps this exactly unless it is such an ACK |
| Numbers.StrayStep | sip/stack.go:482-484 | what that event sends: an ACK with the CSeq of the UPDATE, on the other leg alone |
| Witnesses.StrayACKExample | sip/stack.go:482-484 | a run with such an ACK: INVITE, 183 with SDP, ACK, re-INVITE, 200 for the INVITE, 200 for the UPDATE, ACK |
| Numbers.RSeqsRise | sip/session.go:265-280 | until the wrap the RSeqs a leg issues are consecutive and unique, and the count of responses still waiting for their PRACK is issued minus distinct acknowledged |
| Numbers.PRACKExpectedExactly | sip/sessionHelper.go:61-78 | in every reachable state, until the wrap, a PRACK is expected exactly when the RSeq of its RAck was issued by this session; it is then acknowledged and answered 200, else nothing is and the answer is 400 |
| Numbers.CountIsConserved | sip/session.go:256-263 | UnPRACKed18xCountSYNC is the number of issued RSeqs minus that of the acknowledged ones |
| Numbers.CSeqsOfLeg | sip/session.go:20-62 | on any leg whose books are in order the same holds of its own log |
| SipSessions.SipSession.Find | global/support.go:622-629 | the first transaction of the list that is accepted, or none when none is |
| SipSessions.SipSession.GetLastUnACKedINV | sip/session.go:335-344 | the last INVITE of this direction without an ACK, searching from the end |
| SipSessions.SipSession.RejectPendingRequests | sip/sessionHelper.go:131-136 | before a BYE every pending incoming request is answered 503, up to the first that has no request to answer, where the program stops |
| SipStack.SipCall.constructor | sip/stack.go:309-335 | the two sessions of a new call are those of NewCall, which Admission.NewCallExactly gives field by field |
| SipStack.SipCall.Happens | sip/stack.go:357-736 | any event does to the two objects exactly what one step does to a call; what that is, on both legs field by field, is given for every kind of event by Requests, Acks, Hangups, Ringing, Responses, Refusals and Lapses |
| SipStack.Drive | sip/stack.go:357-736 | a call created and driven through any events is in the state of the run; in the plain and transparent flows its caller is established only with an answered peer |
| LoadShare.PickExactly | global/loadshare.go:16-24 | the host picked is the one no other exceeds, the first such after host 0, and host 0 only when it alone has the most |
| LoadShare.GetRoutedHost | global/loadshare.go:10-38 | the picked host is returned; it pays the total, every host earns its weight each time the list names it, and when none is named twice the weights are those of the next state |
| LoadShare.Choose | global/loadshare.go:16-24 | the backward search returns the host picked |
| LoadShare.EarnWeights | global/loadshare.go:30-35 | every host earns its weight, each time the list names it |
| LoadShare.GetTotalWeight | global/loadshare.go:44-50 | the sum of the weights |
| LoadShare.WeightedHost.constructor | global/loadshare.go:40-42 | a new host has accumulated its weight |
| LoadShare.SumIsKept | global/loadshare.go:26-35 | the accumulated weights always add up to the total weight |
| LoadShare.NeverAheadOfShare | global/loadshare.go:10-38 | after n picks no host was picked as often as its share plus one: hits times total is less than n times weight plus total; a host without weight never |
| LoadShare.ARoundIsExact | global/loadshare.go:10-38 | as many picks as the total weight choose each host exactly as often as its weight says |
| LoadShare.ARoundRestores | global/loadshare.go:10-38 | and leave the list as new |
| LoadShare.EveryWindowIsExact | global/loadshare.go:10-38 | any picks in a row that are as many as the total weight choose host i exactly weight i times |
| LoadShare.RouteMany | global/loadshare.go:64-71 | n picks on the host objects leave the states and hit counts the lemmas are about |
| LoadShare.RouteARound | global/loadshare.go:59-76 | a round on the host objects hits each as often as its weight and restores the list |
| MediaPorts.MediaPool.constructor | sip/mediapool.go:19-25 | the pool holds exactly the ports of the range, all free |
| MediaPorts.MediaPool.ReserveSocket | sip/mediapool.go:27-42 | a free port that can be bound is returned and marked, or nothing when there is none |
| MediaPorts.MediaPool.ReleaseSocket | sip/mediapool.go:44-60 | the port is free afterwards; the result says whether it was in use |
| MediaPorts.OwnershipKept | sip/session.go:815-843 | in every run, whatever can be bound when, the ports marked used are exactly those of undisposed sessions, no two sessions hold the same, each port was acquired exactly once more than released while in use and as often while not, and the set of ports never changes |
| MediaPorts.NextKeeps | sip/routing.go:160-194 | one event keeps this |
| MediaPorts.Switch.Route | sip/routing.go:160-167 | routing a session gives it what the pool returns |
| MediaPorts.Switch.DropMe | sip/session.go:815-843 | the first drop releases the session's port, and the pool never finds it already free; a later drop does nothing |
| Decimal.UintRoundTrip | global/support.go:454-478 | every uint16, uint32 and uint64 fits its buffer of 5, 10 and 20 bytes and is read back as itself |
| Decimal.WriteDigits | global/support.go:480-491 | the digits fill the buffer from its end, within its bounds |
| Decimal.UintToStr | global/support.go:454-478 | the text is the decimal notation |
| Decimal.DigitsFit | global/support.go:480-491 | a number has at most n digits exactly when it is below the n-th power of ten |
| Decimal.Str2Uint | global/support.go:432-444 | the value of the leading digits, modulo the type |
| Decimal.Int2Str | global/support.go:446-452 | the decimal notation, or a crash from ten digits up; the least integer becomes -0 |
| Decimal.Str2Int | global/support.go:410-430 | the value of the leading digits modulo 2^64, with the sign only when nothing follows them |
| Decimal.Str2IntCheck | global/support.go:362-387 | a sign and nothing but digits, modulo 2^64; anything else is refused |
| Decimal.SignedRead | global/support.go:410-430 | any text is read as the value of its leading digits, a minus sign counting only when nothing follows them |
| Decimal.StrictlyRead | global/support.go:362-387 | the strict reader takes exactly the digits behind an optional sign, and a minus needs one digit |
| Decimal.UnsignedRead | global/support.go:432-444 | any text is read as the value of its leading digits, modulo the type |
| Decimal.IntRoundTrip | global/support.go:446-452 | exactly the integers of up to ten digits, and the least one, can be written; they are read back as themselves, the least one as 0 |
| Template.TranslateInternal | global/support.go:761-853 | the loop over the template computes its expansion |
| Template.ExpansionOfWritten | global/support.go:761-853 | expanding literals with doubled dollar signs and braced references ${n}, n below 2^32, gives the literals with each reference replaced by the group's text, or by itself when there is no such group |
| Template.BareReferenceSwallows | global/support.go:806-824 | after an unbraced reference the next character is lost, but for an opening brace, which comes before the text; the number wraps at 2^32 |
| Template.BareReferenceEnds | global/support.go:799-806 | an unbraced reference that ends the template is replaced by its text, and nothing is lost |
| Template.DollarStays | global/support.go:787-790 | a dollar sign before any other character, or at the end, stands for itself |
| Template.BraceFaults | global/support.go:829-850 | a brace that is not closed after its digits is an error, but for a second opening brace, which stands for all of it |
| Parameters.GenerateParameters | global/support.go:315-328 | the entries in any order, each after a semicolon, a value after an equals sign |
| Parameters.ParseParameters | global/support.go:286-313 | the first value of each key of the trimmed, split line |
| Parameters.AnyLineParsed | global/support.go:286-313 | what any line means: trimmed of semicolons and then of commas, split at the semicolons, each piece cut at its first equals sign, the first piece of a key counts |
| Parameters.ParametersRoundTrip | global/support.go:286-328 | for every map and every order of its entries, parsing what was generated gives the map back, when no key has = or ;, no value ;, no parameter starts or ends with a comma and none is empty altogether |
| Parameters.PlainSurvives | global/support.go:286-328 | in particular for non-empty keys without ; = , and values without ; and , even when they are empty or contain = |
| Text.HeaderCaseIsCase | global/support.go:596-604 | spelling a header name its usual way changes nothing but its case |
| Text.HeaderCaseFromTable | global/support.go:596-604 | it is the first spelling of the table, or capitalised parts when the table has none |
| Multipart.TypeFromName | global/support.go:335-346 | a content type in any letter case is read as the body type of that name |
| Multipart.TypeWithoutName | global/support.go:342-345 | one that is nobody's name is any XML when it mentions it, and else unknown |
| Multipart.NobodysName | global/support.go:335-341 | indeed no body type has that name |
| Multipart.WriteBody | sip/message.go:390-408 | the multipart branch writes every part between markers |
| Multipart.ReadBody | sip/stack.go:242-281 | the loop reads parts until the closing line, or stops the program on an index outside the text |
| Multipart.ReadHeader | sip/stack.go:255-266 | the headers of a part and the type its last Content-Type names |
| Multipart.HeaderLineOf | global/variables.go:137 | a header without blanks at its edges is captured from its line as it is |
| Multipart.MultipartRoundTrip | sip/stack.go:242-281 | for any parts of distinct known types whose header lines and bytes do not contain the marker, visited with their headers in any order, reading what was written gives the same map from types to headers and bytes |
| Multipart.UnknownPartSkipped | sip/stack.go:268-273 | a part without a type, or of an unknown one, is passed over |
| Multipart.CutOffPartStops | sip/stack.go:252-279 | a part without a blank line or a further marker stops the program |
| Multipart.NoMarkNoPart | sip/stack.go:246-249 | a body without the marker has no part |
| Multipart.PartsMustBeLast | sip/stack.go:242-254 | whatever follows the closing line is taken for a part and stops the program |
| Multipart.PartEnds | sip/stack.go:252-254 | the first blank line and the next marker of a part are where the writer put them |
| Framing.ProcessPDU | sip/stack.go:190-287 | what the datagram is taken for: nothing, an error, a crash, or a message and the rest; what the message holds is given by FramedExactly, OpenFramed and MultipartFramed, the faults by FaultsExactly |
| Framing.FaultsExactly | sip/stack.go:204-240 | exactly which datagrams with a blank line are refused, which stop the program, and which have no body |
| Framing.NothingExactly | sip/stack.go:34-39 | exactly the datagrams without a blank line are nothing |
| Framing.ProcessPacket | sip/init.go:205-224 | the loop hands over the messages of the datagram in order; it stops at the first that is none, and the model also says when it would never stop |
| Framing.PacketIsCutExactly | sip/init.go:205-224 | a datagram of any number of well-formed non-multipart messages with exact Content-Length is cut into exactly those messages, in order |
| Framing.LastMayBeOpen | sip/stack.go:190-202 | the last message may leave its Content-Length out: it is cut out with everything that follows as its body |
| Framing.MultipartIsCutExactly | sip/stack.go:239-287 | the last message may be multipart, with the exact length or none: its content is exactly the map of parts that the writer was given, whatever the order it wrote them in |
| Framing.MultipartMustBeLast | sip/stack.go:242-272 | anything after a multipart message, in which the marker does not occur, stops the program |
| Framing.ParsingGetsOn | sip/stack.go:196-240 | a parsed message shortens the datagram, exactly unless its Content-Length is minus the size of its head and its Content-Type is of no known kind, when the loop finds the same bytes again |
| Framing.StuckExample | sip/init.go:207-222 | a literal OPTIONS datagram with every mandatory header, an unknown Content-Type and minus its own size as its Content-Length is taken for the same message for ever |
| Framing.HeadEnds | sip/stack.go:34-43 | the blank line after a head without empty lines is the first one |
| MaxForwards.ReadMaxForwards | sip/stack.go:121-129 | the last Max-Forwards that parses and is not above 255 |
| MaxForwards.TakenExactly | sip/stack.go:121-129 | a number is taken exactly when it is at most 255 in a 64-bit register |
| MaxForwards.OverLimitNotTaken | sip/stack.go:125-126 | so none between 256 and the largest 64-bit integer is; 2^64 + 100 is taken as 100 |
| MaxForwards.HopCounts | sip/sessionRequests.go:248-257 | an INVITE goes on exactly when more than 1 is left, and arrives with one less |
| MaxForwards.LoopsAreFinite | sip/stack.go:329-331 | through any chain or loop of these routers an INVITE that arrives with m is forwarded exactly m - 1 times, at most 254 times; Admission.HopsDecide says that these routers are the one of NewCall |
| Retransmission.Transaction.StartTransTimer | sip/transaction.go:169-175 | the timer starts only when it never ran; otherwise nothing changes |
| Retransmission.Transaction.StopTransTimer | sip/transaction.go:177-185 | a running timer is stopped but not forgotten |
| Retransmission.Transaction.Fire | sip/transaction.go:187-201 | below the limit the message is sent again and the interval doubles; at the limit the timeout handler runs and the timer is gone |
| Retransmission.NeverAnswered | sip/transaction.go:169-201 | for every T1 and limit, an unanswered message is sent limit + 1 times and the timeout handler runs once, at T1 * (2^(limit+1) - 1) |
| Retransmission.AnsweredAfter | sip/transaction.go:169-201 | a message answered after n retransmissions was sent n + 1 times and never times out, not even when it is sent again |
| Retransmission.SendTimeClosed | sip/transaction.go:197-200 | the n-th retransmission is at T1 * (2^n - 1) |

## Left out

- Sessions name transactions by their position in a list of values, not by pointers: aliasing of transaction objects is not modelled, their update in place is one of the list.
- Sockets, datagram input and output, media relay loops, goroutines, buffer pools, call detail records, metrics, the web server and configuration.
- SDP parsing and answer building, held-call detection, and the bodies of answers that the router builds itself.
- Header contents other than those the call logic reads: From, To, Via, Contact, routes, reasons, warnings.
- ACK transactions are not listed, so an ACK repeated for a repeated final response is not modelled.
- REFER beyond its immediate answer, REGISTER beyond its outcome, out-of-dialogue keep-alives, and the stress-test mode that answers every INVITE at once.
- Requests of other methods that start a session, and requests for unknown calls: they are answered and dropped without a call.
- The delay of the echo responder is the time until its answer event; its media loop is not modelled.
- Retransmissions inside the call machine: the schedule is proved for one transaction, and in a call a timer is an event.
- The methods of SipSession and SipCall: the starting and stopping of timers, the To tag taken from a response, the address an ACK goes to, the release of the media port when a session is dropped (it is modelled in media_pool) and the REFER beyond its answers.
- Runs.OneOfferAtATime: does not speak of the early-to-final flow, where a re-INVITE turned into an UPDATE stays open by definition until its ACK although the UPDATE is answered.
- Numbers.CSeqsRise: does not say at which later event the second number of an egress leg was drawn, only what it was; the first is tied to the draw of the INVITE.
- Finals.OneFinalResponse: is exact for the runs of the model, which may let a timer fire that real time would not.
- Numbers.PRACKExpectedExactly: does not speak of the CSeq in the RAck header, because the code does not compare it.
- MediaPorts.MediaPool.ReserveSocket: does not fix which of the free ports is returned, because the code follows the order of a Go map.
- Framing.PacketIsCutExactly: covers messages with Content-Length and one part; the last message of a datagram without a length, or multipart, is the subject of LastMayBeOpen and MultipartIsCutExactly.
- Multipart.MultipartRoundTrip: does not cover a body of one part, which is written without markers, nor the header that announces the boundary, which is a parameter.
- Start lines and header fields of messages are parsed by regular expressions; in the framing they are a parameter, in multipart parts the header-line expression is written out.
- Load sharing counts with unbounded integers: overflow of accumulated weights is not modelled.
