/** The records the backend service exchanges with the screens, and the backend itself
    as an oracle: the service's code is not part of this model, so each call is logged
    and answered by an arbitrary function of the calls made so far. */
module Backend {
  import opened Wrappers

  datatype MenuItem = MenuItem(name: string, price: real, category: Option<string>)

  datatype GiftCard = GiftCard(code: string, balance: real)

  /** One request to the backend service. */
  datatype Call =
    | UseGiftCard(code: string, amount: real)
    | CompleteTransaction(items: seq<MenuItem>, total: real, paymentMethod: string)
    | IssueGiftCard(code: string, balance: real)
    | GetGiftCard(code: string)
    | AddCustomCreditCard(identifier: string, qrPayload: string)

  /** How an awaited call settles: resolved, or rejected with an error message. */
  datatype Outcome = Resolved | Rejected(message: string)

  /** The message thrown by the request hooks when no actor is available. */
  const ActorMissing := "Actor not initialized"

  /** The backend actor. `reply` decides how each call settles given the calls before it;
      `cardFor` is the record a successful `getGiftCard` returns. */
  class Actor {
    const reply: (seq<Call>, Call) -> Outcome
    const cardFor: (seq<Call>, string) -> GiftCard
    var log: seq<Call>

    constructor (reply: (seq<Call>, Call) -> Outcome, cardFor: (seq<Call>, string) -> GiftCard)
      ensures this.reply == reply && this.cardFor == cardFor && log == []
    {
      this.reply := reply;
      this.cardFor := cardFor;
      log := [];
    }

    /** Sends one call: it is appended to the log and settles as `reply` says. */
    method Send(c: Call) returns (o: Outcome)
      modifies this
      ensures log == old(log) + [c]
      ensures o == reply(old(log), c)
    {
      o := reply(log, c);
      log := log + [c];
    }
  }

  /** The calls made so far through `actor` (none when it is missing). */
  function History(actor: Actor?): seq<Call>
    reads actor
  {
    if actor == null then [] else actor.log
  }

  /** How `c` settles when sent through the possibly missing `actor` after `history`. */
  function Settle(actor: Actor?, history: seq<Call>, c: Call): (o: Outcome)
    ensures actor == null ==> o == Rejected(ActorMissing)
    ensures actor != null ==> o == actor.reply(history, c)
  {
    if actor == null then Rejected(ActorMissing) else actor.reply(history, c)
  }

  /** A request hook's `mutationFn`: without an actor it throws `ActorMissing` and sends
      nothing; otherwise it forwards the call. */
  method Request(actor: Actor?, c: Call) returns (o: Outcome)
    modifies actor
    ensures o == Settle(actor, old(History(actor)), c)
    ensures actor != null ==> actor.log == old(actor.log) + [c]
  {
    if actor == null {
      o := Rejected(ActorMissing);
    } else {
      o := actor.Send(c);
    }
  }

  /** The record a `getGiftCard(code)` sent through `actor` after `history` yields: the
      oracle's card when the call resolves, nothing when it is rejected. */
  function FetchedCard(actor: Actor?, history: seq<Call>, code: string): (r: Option<GiftCard>)
    ensures r.Some? <==> Settle(actor, history, GetGiftCard(code)).Resolved?
  {
    if actor != null && actor.reply(history, GetGiftCard(code)).Resolved? then
      Some(actor.cardFor(history, code))
    else None
  }

  /** `useGetGiftCard`'s `mutationFn`: like `Request`, and on success also the card. */
  method RequestCard(actor: Actor?, code: string) returns (o: Outcome, card: Option<GiftCard>)
    modifies actor
    ensures o == Settle(actor, old(History(actor)), GetGiftCard(code))
    ensures card == FetchedCard(actor, old(History(actor)), code)
    ensures actor != null ==> actor.log == old(actor.log) + [GetGiftCard(code)]
  {
    if actor == null {
      o, card := Rejected(ActorMissing), None;
    } else {
      var history := actor.log;
      o := actor.Send(GetGiftCard(code));
      card := if o.Resolved? then Some(actor.cardFor(history, code)) else None;
    }
  }
}
