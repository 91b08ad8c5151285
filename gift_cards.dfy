/** The gift card screen: issue a card with a code and an opening balance, and look a
    card up by code. Both code inputs hold what was typed, upper-cased. */
module GiftCards {
  import opened Wrappers
  import opened Text
  import Backend

  const DuplicateCode := "This gift card code already exists. Please use a different code."
  const IssueFailed := "Failed to issue gift card. Please try again."
  const CodeMissing := "Please enter a gift card code"
  const CardNotFound := "Gift card not found. Please check the code."
  const LookupFailed := "Failed to lookup gift card. Please try again."

  /** The issue mutation's state, as the alerts under the issue form show it. */
  datatype IssueStatus = Idle | Issued | Failed(message: string)

  /** The guard of `handleIssue` and the call it then makes: nothing unless the code is
      non-empty and the balance parses to a positive amount. */
  function IssueRequest(issueCode: string, issueBalance: string, parse: string -> Option<real>): (r: Option<Backend.Call>)
    ensures r.Some? <==> issueCode != "" && parse(issueBalance).Some? && parse(issueBalance).value > 0.0
    ensures r.Some? ==>
      && r.value == Backend.IssueGiftCard(issueCode, parse(issueBalance).value)
      && r.value.balance > 0.0
  {
    var balance := parse(issueBalance);
    if issueCode == "" || balance.None? || balance.value <= 0.0 then None
    else Some(Backend.IssueGiftCard(issueCode, balance.value))
  }

  /** The error alert of the issue form, from the mutation's error message. */
  function IssueErrorMessage(message: string): (r: string)
    ensures r == DuplicateCode <==> Contains(message, "already exists")
    ensures r == IssueFailed <==> !Contains(message, "already exists")
  {
    if Contains(message, "already exists") then DuplicateCode else IssueFailed
  }

  /** The `catch` branch of `handleLookup`. */
  function LookupErrorMessage(message: string): (r: string)
    ensures r == CardNotFound <==> Contains(message, "Gift card not found")
    ensures r == LookupFailed <==> !Contains(message, "Gift card not found")
  {
    if Contains(message, "Gift card not found") then CardNotFound else LookupFailed
  }

  /** The lookup panel after `handleLookup`, and the backend calls it made. */
  datatype LookupState = LookupState(calls: seq<Backend.Call>, result: Option<Backend.GiftCard>, error: string)

  /** What `handleLookup` does with the typed `lookupCode`, when the backend answers as
      `actor` does after `history`. */
  function Lookup(lookupCode: string, actor: Backend.Actor?, history: seq<Backend.Call>): (r: LookupState)
    ensures IsBlank(lookupCode) ==> r == LookupState([], None, CodeMissing)
    ensures !IsBlank(lookupCode) ==> r.calls == [Backend.GetGiftCard(Trim(lookupCode))]
    ensures r.result.Some? <==>
      !IsBlank(lookupCode) && Backend.Settle(actor, history, Backend.GetGiftCard(Trim(lookupCode))).Resolved?
    ensures r.result.Some? ==>
      r.error == "" && r.result == Backend.FetchedCard(actor, history, Trim(lookupCode))
    ensures r.result.None? ==> r.error != ""
    ensures !IsBlank(lookupCode) && Backend.Settle(actor, history, Backend.GetGiftCard(Trim(lookupCode))).Rejected? ==>
      r.error == LookupErrorMessage(Backend.Settle(actor, history, Backend.GetGiftCard(Trim(lookupCode))).message)
  {
    var code := Trim(lookupCode);
    if code == [] then LookupState([], None, CodeMissing)
    else
      var call := Backend.GetGiftCard(code);
      match Backend.Settle(actor, history, call)
      case Rejected(message) => LookupState([call], None, LookupErrorMessage(message))
      case Resolved => LookupState([call], Backend.FetchedCard(actor, history, code), "")
  }

  /** Upper-case: unchanged by `toUpperCase`. */
  predicate IsUpper(s: string) { ToUpper(s) == s }

  lemma UpperIsUpper(s: string)
    ensures IsUpper(ToUpper(s))
  {
    ToUpperIdempotent(s);
  }

  /** The code a lookup queries is upper-case when the input is: trimming keeps a slice
      of the upper-cased input. */
  lemma QueriedCodeIsUpper(lookupCode: string)
    requires IsUpper(lookupCode)
    ensures IsUpper(Trim(lookupCode))
  {
    var c := Trim(lookupCode);
    TrimSlice(lookupCode);
    var i :| TrimmedAt(lookupCode, c, i);
    forall j | 0 <= j < |c| ensures UpperChar(c[j]) == c[j] {
      assert c[j] == lookupCode[i + j];
      assert ToUpper(lookupCode)[i + j] == UpperChar(lookupCode[i + j]);
    }
  }

  class GiftCardsScreen {
    var issueBalance: string
    var issueCode: string
    var lookupCode: string
    var lookupResult: Option<Backend.GiftCard>
    var lookupError: string
    var issueStatus: IssueStatus

    /** Both code inputs are upper-case. */
    predicate Valid()
      reads this
    {
      IsUpper(issueCode) && IsUpper(lookupCode)
    }

    constructor ()
      ensures Valid()
      ensures issueBalance == "" && issueCode == "" && lookupCode == ""
      ensures lookupResult == None && lookupError == "" && issueStatus == Idle
    {
      issueBalance, issueCode, lookupCode := "", "", "";
      lookupResult, lookupError, issueStatus := None, "", Idle;
    }

    /** The issue code input's `onChange`. */
    method SetIssueCode(typed: string)
      modifies this
      ensures issueCode == ToUpper(typed)
      ensures issueBalance == old(issueBalance) && lookupCode == old(lookupCode)
      ensures lookupResult == old(lookupResult) && lookupError == old(lookupError)
      ensures issueStatus == old(issueStatus)
      ensures old(Valid()) ==> Valid()
    {
      UpperIsUpper(typed);
      issueCode := ToUpper(typed);
    }

    /** The lookup code input's `onChange`. */
    method SetLookupCode(typed: string)
      modifies this
      ensures lookupCode == ToUpper(typed)
      ensures issueBalance == old(issueBalance) && issueCode == old(issueCode)
      ensures lookupResult == old(lookupResult) && lookupError == old(lookupError)
      ensures issueStatus == old(issueStatus)
      ensures old(Valid()) ==> Valid()
    {
      UpperIsUpper(typed);
      lookupCode := ToUpper(typed);
    }

    /** `generateCode`; `randomPart` stands for the base-36 digits drawn from
        `Math.random()`. */
    method GenerateCode(randomPart: string)
      modifies this
      ensures issueCode == "GC" + ToUpper(randomPart)
      ensures issueBalance == old(issueBalance) && lookupCode == old(lookupCode)
      ensures lookupResult == old(lookupResult) && lookupError == old(lookupError)
      ensures issueStatus == old(issueStatus)
      ensures old(Valid()) ==> Valid()
    {
      UpperIsUpper(randomPart);
      issueCode := "GC" + ToUpper(randomPart);
      assert ToUpper(issueCode) == issueCode by {
        assert forall j :: 2 <= j < |issueCode| ==> issueCode[j] == ToUpper(randomPart)[j - 2];
      }
    }

    /** `handleIssue`: when the guard passes, asks the backend to issue the card and clears
        both inputs once it has. */
    method HandleIssue(actor: Backend.Actor?, parse: string -> Option<real>)
      modifies this, actor
      ensures match IssueRequest(old(issueCode), old(issueBalance), parse)
        case None =>
          && (actor != null ==> actor.log == old(actor.log))
          && issueCode == old(issueCode) && issueBalance == old(issueBalance)
          && issueStatus == old(issueStatus)
        case Some(call) =>
          && (actor != null ==> actor.log == old(actor.log) + [call])
          && match Backend.Settle(actor, old(Backend.History(actor)), call)
             case Resolved => issueCode == "" && issueBalance == "" && issueStatus == Issued
             case Rejected(message) =>
               issueCode == old(issueCode) && issueBalance == old(issueBalance) && issueStatus == Failed(message)
      ensures lookupCode == old(lookupCode) && lookupResult == old(lookupResult) && lookupError == old(lookupError)
      ensures old(Valid()) ==> Valid()
    {
      var balance := parse(issueBalance);
      if issueCode == "" || balance.None? || balance.value <= 0.0 {
        return;
      }
      var o := Backend.Request(actor, Backend.IssueGiftCard(issueCode, balance.value));
      if o.Rejected? {
        issueStatus := Failed(o.message);
        return;
      }
      issueStatus := Issued;
      issueCode := "";
      issueBalance := "";
    }

    /** `handleLookup`: clears the previous answer, then queries the trimmed code. */
    method HandleLookup(actor: Backend.Actor?)
      modifies this, actor
      ensures var l := Lookup(old(lookupCode), actor, old(Backend.History(actor)));
        && (actor != null ==> actor.log == old(actor.log) + l.calls)
        && lookupResult == l.result && lookupError == l.error
      ensures old(Valid()) ==>
        forall c :: c in Lookup(old(lookupCode), actor, old(Backend.History(actor))).calls ==> IsUpper(c.code)
      ensures lookupCode == old(lookupCode)
      ensures issueCode == old(issueCode) && issueBalance == old(issueBalance) && issueStatus == old(issueStatus)
      ensures old(Valid()) ==> Valid()
    {
      if Valid() {
        QueriedCodeIsUpper(lookupCode);
      }
      lookupError := "";
      lookupResult := None;
      var code := Trim(lookupCode);
      if code == [] {
        lookupError := CodeMissing;
        return;
      }
      var o, card := Backend.RequestCard(actor, code);
      if o.Rejected? {
        lookupError := LookupErrorMessage(o.message);
        return;
      }
      lookupResult := card;
    }
  }
}
