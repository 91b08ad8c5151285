/** The custom credit card screen: a local list of cards, each a name and the token its QR
    code encodes. Names are trimmed, and no two are equal ignoring case. */
module CustomCards {
  import opened Wrappers
  import opened Text
  import Seqs
  import Backend

  datatype StoredCard = StoredCard(identifier: string, qrPayload: string)

  const NameMissing := "Please enter a card name"
  const DuplicateName := "A card with this name already exists"
  const CreateFailed := "Failed to create card. Please try again."

  /** No card in `cards` has `name`, compared after `toLowerCase`. */
  predicate NameFree(cards: seq<StoredCard>, name: string) {
    forall i :: 0 <= i < |cards| ==> ToLower(cards[i].identifier) != ToLower(name)
  }

  /** The index `cards.find` stops at when looking for `name` ignoring case, if any. */
  function IndexOfName(cards: seq<StoredCard>, name: string): (r: Option<nat>)
    ensures r.None? <==> NameFree(cards, name)
    ensures r.Some? ==>
      && r.value < |cards|
      && ToLower(cards[r.value].identifier) == ToLower(name)
      && NameFree(cards[..r.value], name)
  {
    if cards == [] then None
    else if ToLower(cards[0].identifier) == ToLower(name) then Some(0)
    else match IndexOfName(cards[1..], name)
      case None => None
      case Some(k) =>
        assert cards[..k + 1] == [cards[0]] + cards[1..][..k];
        Some(k + 1)
  }

  /** A stored name is non-empty and trimmed. */
  predicate WellFormed(card: StoredCard) {
    card.identifier != "" && Trimmed(card.identifier)
  }

  /** Two cards clash when their names are equal ignoring case. */
  predicate SameName(a: StoredCard, b: StoredCard) {
    ToLower(a.identifier) == ToLower(b.identifier)
  }

  /** The registry invariant: every name is trimmed and non-empty, and no two are equal
      ignoring case. */
  predicate Registered(cards: seq<StoredCard>) {
    Seqs.All(cards, WellFormed) && Seqs.Pairwise(cards, SameName)
  }

  /** A registry extended by a well-formed card whose name is free is still a registry. */
  lemma RegisteredAppend(cards: seq<StoredCard>, card: StoredCard)
    requires Registered(cards) && WellFormed(card) && NameFree(cards, card.identifier)
    ensures Registered(cards + [card])
  {
    Seqs.AllAppend(cards, card, WellFormed);
    assert Seqs.Unrelated(cards, card, SameName);
    Seqs.PairwiseAppend(cards, card, SameName);
  }

  /** The `catch` branch: the message shown for a failed `addCustomCreditCard`. */
  function CreateErrorMessage(message: string): (r: string)
    ensures r == DuplicateName <==> Contains(message, "already exists")
    ensures r == CreateFailed <==> !Contains(message, "already exists")
  {
    if Contains(message, "already exists") then DuplicateName else CreateFailed
  }

  /** The screen's state after `handleCreateCard`, and the backend calls it made. */
  datatype Creation = Creation(calls: seq<Backend.Call>, cards: seq<StoredCard>, cardName: string, error: string)

  /** What `handleCreateCard` does with the list `cards` and the typed `cardName`, when the
      new card's token is `token` and the backend answers as `actor` does after `history`. */
  function CreateCard(cards: seq<StoredCard>, cardName: string, token: string,
                      actor: Backend.Actor?, history: seq<Backend.Call>): (r: Creation)
    ensures IsBlank(cardName) ==> r == Creation([], cards, cardName, NameMissing)
    ensures !IsBlank(cardName) && !NameFree(cards, Trim(cardName)) ==>
      r == Creation([], cards, cardName, DuplicateName)
    ensures r.calls != [] <==> !IsBlank(cardName) && NameFree(cards, Trim(cardName))
    ensures r.calls != [] ==> r.calls == [Backend.AddCustomCreditCard(Trim(cardName), token)]
    ensures r.calls != [] && Backend.Settle(actor, history, r.calls[0]).Rejected? ==>
      r.error == CreateErrorMessage(Backend.Settle(actor, history, r.calls[0]).message)
    ensures r.cards == cards || r.cards == cards + [StoredCard(Trim(cardName), token)]
    ensures r.cards != cards <==>
      r.calls != [] && Backend.Settle(actor, history, r.calls[0]).Resolved?
    ensures r.cards != cards ==> r.cardName == "" && r.error == ""
    ensures r.cards == cards ==> r.cardName == cardName && r.error != ""
  {
    var name := Trim(cardName);
    if name == [] then Creation([], cards, cardName, NameMissing)
    else if IndexOfName(cards, name).Some? then Creation([], cards, cardName, DuplicateName)
    else
      var call := Backend.AddCustomCreditCard(name, token);
      match Backend.Settle(actor, history, call)
      case Rejected(message) => Creation([call], cards, cardName, CreateErrorMessage(message))
      case Resolved =>
        assert cards + [StoredCard(name, token)] != cards by {
          assert |cards + [StoredCard(name, token)]| == |cards| + 1;
        }
        Creation([call], cards + [StoredCard(name, token)], "", "")
  }

  /** Creating a card keeps the registry invariant, whatever the backend answers. */
  lemma CreateCardKeepsRegistered(cards: seq<StoredCard>, cardName: string, token: string,
                                  actor: Backend.Actor?, history: seq<Backend.Call>)
    requires Registered(cards)
    ensures Registered(CreateCard(cards, cardName, token, actor, history).cards)
  {
    var r := CreateCard(cards, cardName, token, actor, history);
    if r.cards != cards {
      RegisteredAppend(cards, StoredCard(Trim(cardName), token));
    }
  }

  /** `c => c.identifier !== identifier` */
  function IdentifierIsNot(identifier: string): StoredCard -> bool {
    (c: StoredCard) => c.identifier != identifier
  }

  /** `handleDeleteCard`'s new list. */
  function WithoutCard(cards: seq<StoredCard>, identifier: string): (r: seq<StoredCard>)
    ensures |r| <= |cards|
    ensures forall i :: 0 <= i < |r| ==> r[i].identifier != identifier
  {
    Seqs.Filter(cards, IdentifierIsNot(identifier))
  }

  /** Deleting keeps exactly the cards whose identifier differs, compared case-sensitively. */
  lemma WithoutCardMembership(cards: seq<StoredCard>, identifier: string, c: StoredCard)
    ensures c in WithoutCard(cards, identifier) <==> c in cards && c.identifier != identifier
  {
    Seqs.FilterMembership(cards, IdentifierIsNot(identifier), c);
  }

  /** Deleting keeps the survivors in order: it works part by part. */
  lemma WithoutCardKeepsOrder(a: seq<StoredCard>, b: seq<StoredCard>, identifier: string)
    ensures WithoutCard(a + b, identifier) == WithoutCard(a, identifier) + WithoutCard(b, identifier)
  {
    Seqs.FilterConcat(a, b, IdentifierIsNot(identifier));
  }

  /** In a registry, deleting the name at `k` removes that card and nothing else. */
  lemma WithoutCardRemovesOne(cards: seq<StoredCard>, k: nat)
    requires Registered(cards) && k < |cards|
    ensures WithoutCard(cards, cards[k].identifier) == cards[..k] + cards[k + 1..]
  {
    var keep := IdentifierIsNot(cards[k].identifier);
    forall i | 0 <= i < |cards| && i != k ensures keep(cards[i]) {
      if i < k {
        assert !SameName(cards[i], cards[k]);
      } else {
        assert !SameName(cards[k], cards[i]);
      }
    }
    Seqs.FilterDropsOne(cards, keep, k);
  }

  /** Deleting a name that no card has leaves the list as it was. */
  lemma WithoutCardAbsent(cards: seq<StoredCard>, identifier: string)
    requires forall i :: 0 <= i < |cards| ==> cards[i].identifier != identifier
    ensures WithoutCard(cards, identifier) == cards
  {
    Seqs.FilterKeepsAll(cards, IdentifierIsNot(identifier));
  }

  lemma WithoutCardKeepsRegistered(cards: seq<StoredCard>, identifier: string)
    requires Registered(cards)
    ensures Registered(WithoutCard(cards, identifier))
  {
    Seqs.FilterKeepsAllOf(cards, IdentifierIsNot(identifier), WellFormed);
    Seqs.FilterKeepsPairwise(cards, IdentifierIsNot(identifier), SameName);
  }

  class CustomCardsScreen {
    var cardName: string
    var cards: seq<StoredCard>
    var deleteCardId: Option<string>
    var error: string

    predicate Valid()
      reads this
    {
      Registered(cards)
    }

    constructor ()
      ensures Valid()
      ensures cardName == "" && cards == [] && deleteCardId == None && error == ""
    {
      cardName, cards, deleteCardId, error := "", [], None, "";
    }

    /** `handleCreateCard`; `token` stands for `generateToken()`. */
    method HandleCreateCard(actor: Backend.Actor?, token: string)
      modifies this, actor
      ensures var c := CreateCard(old(cards), old(cardName), token, actor, old(Backend.History(actor)));
        && (actor != null ==> actor.log == old(actor.log) + c.calls)
        && cards == c.cards && cardName == c.cardName && error == c.error
      ensures deleteCardId == old(deleteCardId)
      ensures old(Valid()) ==> Valid()
    {
      error := "";
      var name := Trim(cardName);
      if name == [] {
        error := NameMissing;
        return;
      }
      var existingCard := IndexOfName(cards, name);
      if existingCard.Some? {
        error := DuplicateName;
        return;
      }
      Submit(actor, StoredCard(name, token));
    }

    /** The `try` block of `handleCreateCard`: register `card` with the backend, then add it
        to the list and clear the input, or show the mapped error. */
    method Submit(actor: Backend.Actor?, card: StoredCard)
      requires WellFormed(card) && NameFree(cards, card.identifier)
      modifies this, actor
      ensures var call := Backend.AddCustomCreditCard(card.identifier, card.qrPayload);
        && (actor != null ==> actor.log == old(actor.log) + [call])
        && match Backend.Settle(actor, old(Backend.History(actor)), call)
           case Resolved => cards == old(cards) + [card] && cardName == "" && error == old(error)
           case Rejected(message) =>
             cards == old(cards) && cardName == old(cardName) && error == CreateErrorMessage(message)
      ensures deleteCardId == old(deleteCardId)
      ensures old(Valid()) ==> Valid()
    {
      var o := Backend.Request(actor, Backend.AddCustomCreditCard(card.identifier, card.qrPayload));
      if o.Rejected? {
        error := CreateErrorMessage(o.message);
        return;
      }
      if Registered(cards) {
        RegisteredAppend(cards, card);
      }
      cards := cards + [card];
      cardName := "";
    }

    /** The trash button: asks for confirmation of deleting `identifier`. */
    method AskDelete(identifier: string)
      modifies this
      ensures deleteCardId == Some(identifier)
      ensures cards == old(cards) && cardName == old(cardName) && error == old(error)
    {
      deleteCardId := Some(identifier);
    }

    /** The confirmation dialog closed without confirming. */
    method CancelDelete()
      modifies this
      ensures deleteCardId == None
      ensures cards == old(cards) && cardName == old(cardName) && error == old(error)
    {
      deleteCardId := None;
    }

    /** `handleDeleteCard` */
    method HandleDeleteCard(identifier: string)
      modifies this
      ensures cards == WithoutCard(old(cards), identifier)
      ensures deleteCardId == None
      ensures cardName == old(cardName) && error == old(error)
      ensures old(Valid()) ==> Valid()
    {
      if Registered(cards) {
        WithoutCardKeepsRegistered(cards, identifier);
      }
      cards := WithoutCard(cards, identifier);
      deleteCardId := None;
    }

    /** The confirm button: `deleteCardId && handleDeleteCard(deleteCardId)`, so an empty
        pending name deletes nothing. */
    method ConfirmDelete()
      modifies this
      ensures match old(deleteCardId)
        case Some(identifier) =>
          if identifier != "" then cards == WithoutCard(old(cards), identifier) && deleteCardId == None
          else cards == old(cards) && deleteCardId == old(deleteCardId)
        case None => cards == old(cards) && deleteCardId == None
      ensures cardName == old(cardName) && error == old(error)
      ensures old(Valid()) ==> Valid()
    {
      if deleteCardId.Some? && deleteCardId.value != "" {
        HandleDeleteCard(deleteCardId.value);
      }
    }
  }
}
