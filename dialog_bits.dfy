/**
 * The DialogBits webhook client (DialogBits.cs): the request and response
 * shapes of the five webhook calls, and the interpretation of a bot response
 * as one utterance and a hangup flag.
 *
 * HTTP and JSON are abstracted: a reply is whether its status code was a
 * success plus the JSON body as decoded (`None` for a JSON `null`), and the
 * webhook itself is a function from the request sent to the reply received.
 */
module DialogBits {
  import opened Wrappers
  import opened Strings

  /** The JSON request bodies: `{from}`, `{sessionId, from}`, `{sessionId, text}`, `{sessionId, touchTone}`. */
  datatype Request =
    | GetLanguageRequest(from: string)
    | CallInitiatedRequest(sessionId: string, from: string)
    | TextRequest(sessionId: string, text: string)
    | DtmfRequest(sessionId: string, touchTone: string)

  /** A webhook reply: `IsSuccessStatusCode` and the deserialized body. */
  datatype Response<T> = Response(success: bool, body: Option<T>)

  /** The reply body of the reachability probe: `{success}`. */
  datatype ReachableBody = ReachableBody(success: bool)

  /** The reply body of the language lookup: `{language}`, where `language` may be `null`. */
  datatype LanguageBody = LanguageBody(language: Option<string>)

  /** One entry of a bot response's `actions` list; `kind` is the JSON field `type`. */
  datatype Action = Action(kind: Option<string>, text: Option<string>)

  /** A bot response: the `actions` list, which may be `null` and may hold `null` entries. */
  datatype Actions = Actions(actions: Option<seq<Option<Action>>>)

  datatype DialogError = Unsuccessful | NoLanguage

  /** `action?.type == "text"` */
  predicate IsText(a: Option<Action>) {
    a.Some? && a.value.kind == Some("text")
  }

  /** `action?.type == "hangup"` */
  predicate IsHangup(a: Option<Action>) {
    a.Some? && a.value.kind == Some("hangup")
  }

  /** The text carried by an entry, `""` where it is `null`. */
  function TextOf(a: Option<Action>): string {
    if a.Some? && a.value.text.Some? then a.value.text.value else ""
  }

  /** What one entry adds to the accumulated utterance: its text and a separating space, if it is a text action. */
  function Piece(a: Option<Action>): string {
    if IsText(a) then TextOf(a) + " " else ""
  }

  /** The untrimmed concatenation of the pieces of `l`, in list order. */
  function Joined(l: seq<Option<Action>>): string {
    if l == [] then "" else Joined(l[..|l| - 1]) + Piece(l[|l| - 1])
  }

  /** The utterance a response asks the bridge to speak (the specification of `getText`). */
  function Utterance(a: Actions): (r: Option<string>)
    ensures a.actions.None? ==> r.None?
    ensures r.Some? ==> |r.value| > 0 && !IsWhiteSpace(r.value[0]) && !IsWhiteSpace(r.value[|r.value| - 1])
  {
    match a.actions
    case None => None
    case Some(l) =>
      var t := Trim(Joined(l));
      if |t| == 0 then None else Some(t)
  }

  /** Whether a response asks the bridge to hang up (the specification of `hasHangup`). */
  predicate RequestsHangup(a: Actions) {
    a.actions.Some? && exists i :: 0 <= i < |a.actions.value| && IsHangup(a.actions.value[i])
  }

  /** `Actions.getText()`: the loop that accumulates `text + " "` over the text actions, then trims. */
  method GetText(a: Actions) returns (r: Option<string>)
    ensures r == Utterance(a)
  {
    if a.actions.None? {
      return None;
    }
    var l := a.actions.value;
    var text := "";
    for i := 0 to |l|
      invariant text == Joined(l[..i])
    {
      assert l[..i + 1][..i] == l[..i];
      if IsText(l[i]) {
        text := text + TextOf(l[i]) + " ";
      }
    }
    assert l[..|l|] == l;
    text := Trim(text);
    r := if |text| == 0 then None else Some(text);
  }

  /** `Actions.hasHangup()`: the loop that returns as soon as it meets a hangup action. */
  method HasHangup(a: Actions) returns (r: bool)
    ensures r == RequestsHangup(a)
  {
    if a.actions.None? {
      return false;
    }
    var l := a.actions.value;
    for i := 0 to |l|
      invariant forall j :: 0 <= j < i ==> !IsHangup(l[j])
    {
      if IsHangup(l[i]) {
        return true;
      }
    }
    return false;
  }

  // ---------------------------------------------------------------------------
  // Properties of the response interpretation

  /** Joining distributes over list concatenation. */
  lemma {:induction false} JoinedAppend(l1: seq<Option<Action>>, l2: seq<Option<Action>>)
    ensures Joined(l1 + l2) == Joined(l1) + Joined(l2)
    decreases |l2|
  {
    if l2 == [] {
      assert l1 + l2 == l1;
    } else {
      var init, last := l2[..|l2| - 1], l2[|l2| - 1];
      assert l2 == init + [last];
      assert l1 + l2 == (l1 + init) + [last];
      JoinedAppend(l1, init);
      JoinedSnoc(l1 + init, last);
      JoinedSnoc(init, last);
      ConcatAssoc(Joined(l1), Joined(init), Piece(last));
    }
  }

  lemma JoinedSnoc(l: seq<Option<Action>>, x: Option<Action>)
    ensures Joined(l + [x]) == Joined(l) + Piece(x)
  {
    assert (l + [x])[..|l|] == l;
  }

  /** A proof step of `JoinedAppend`: string concatenation regrouped. */
  lemma ConcatAssoc(a: string, b: string, c: string)
    ensures (a + b) + c == a + (b + c)
  {
  }

  /** A null entry or an entry of any other type contributes nothing, wherever it stands. */
  lemma UtteranceIgnoresNonText(l1: seq<Option<Action>>, x: Option<Action>, l2: seq<Option<Action>>)
    requires !IsText(x)
    ensures Utterance(Actions(Some(l1 + [x] + l2))) == Utterance(Actions(Some(l1 + l2)))
  {
    JoinedIgnoresNonText(l1, x, l2);
  }

  lemma JoinedIgnoresNonText(l1: seq<Option<Action>>, x: Option<Action>, l2: seq<Option<Action>>)
    requires !IsText(x)
    ensures Joined(l1 + [x] + l2) == Joined(l1 + l2)
  {
    JoinedAppend(l1 + [x], l2);
    JoinedAppend(l1, [x]);
    JoinedAppend(l1, l2);
    assert [x][..0] == [];
  }

  /** A text action whose `text` is null contributes the separating space and nothing else. */
  lemma NullTextContributesSpace(l1: seq<Option<Action>>, l2: seq<Option<Action>>, kind: Option<string>)
    requires kind == Some("text")
    ensures Joined(l1 + [Some(Action(kind, None))] + l2) == Joined(l1) + " " + Joined(l2)
  {
    var x := Some(Action(kind, None));
    assert Piece(x) == " ";
    JoinedSingle(x);
    JoinedAppend(l1, [x]);
    JoinedAppend(l1 + [x], l2);
  }

  lemma JoinedSingle(x: Option<Action>)
    ensures Joined([x]) == Piece(x)
  {
    assert [x][..0] == [];
    assert Joined([x]) == "" + Piece(x);
  }

  /** The joined text is blank exactly when every text action's text is blank (or null). */
  lemma {:induction false} JoinedBlankIff(l: seq<Option<Action>>)
    ensures AllWhiteSpace(Joined(l)) <==> forall i :: 0 <= i < |l| && IsText(l[i]) ==> AllWhiteSpace(TextOf(l[i]))
  {
    if l != [] {
      var init := l[..|l| - 1];
      var last := l[|l| - 1];
      JoinedBlankIff(init);
      var p := Piece(last);
      AllWhiteSplit(Joined(init), p);
      if IsText(last) {
        AllWhiteSplit(TextOf(last), " ");
      }
      assert forall i :: 0 <= i < |init| ==> init[i] == l[i];
    }
  }

  lemma AllWhiteSplit(a: string, b: string)
    ensures AllWhiteSpace(a + b) <==> AllWhiteSpace(a) && AllWhiteSpace(b)
  {
    if AllWhiteSpace(a + b) {
      assert forall i :: 0 <= i < |a| ==> a[i] == (a + b)[i];
      assert forall i :: 0 <= i < |b| ==> b[i] == (a + b)[|a| + i];
    }
  }

  /**
   * `getText` yields null exactly when the list is null or every text action
   * carries blank (or null) text: an empty list, only hangups, only blank texts.
   */
  lemma UtteranceAbsentIff(a: Actions)
    ensures Utterance(a).None? <==>
      a.actions.None? ||
      forall i :: 0 <= i < |a.actions.value| && IsText(a.actions.value[i]) ==> AllWhiteSpace(TextOf(a.actions.value[i]))
  {
    if a.actions.Some? {
      JoinedBlankIff(a.actions.value);
    }
  }

  /** Two text actions are joined as their texts, each followed by a space. */
  lemma JoinedTwoTexts(x: Option<Action>, y: Option<Action>)
    requires IsText(x) && IsText(y)
    ensures Joined([x, y]) == TextOf(x) + " " + TextOf(y) + " "
  {
    JoinedSingle(x);
    JoinedSingle(y);
    JoinedAppend([x], [y]);
    assert [x] + [y] == [x, y];
  }

  /** A word that neither starts nor ends with white space, followed by one space, trims back to the word. */
  lemma TrimWordSpace(w: string)
    requires |w| > 0 && !IsWhiteSpace(w[0]) && !IsWhiteSpace(w[|w| - 1])
    ensures Trim(w + " ") == w
  {
    var j := w + " ";
    assert j[0] == w[0] && j[|w| - 1] == w[|w| - 1];
    assert TrimStartIndex(j, 0) == 0;
    assert TrimEndIndex(j, 0, |j|) == TrimEndIndex(j, 0, |w|) == |w|;
    assert j[0..|w|] == w;
  }

  /** The worked example: two text actions "Hello" and "there" give the utterance "Hello there". */
  lemma UtteranceHelloThere()
    ensures Utterance(Actions(Some([Some(Action(Some("text"), Some("Hello"))), Some(Action(Some("text"), Some("there")))])))
      == Some("Hello there")
  {
    var hello, there := Some(Action(Some("text"), Some("Hello"))), Some(Action(Some("text"), Some("there")));
    JoinedTwoTexts(hello, there);
    var w := "Hello there";
    assert "Hello" + " " + "there" + " " == w + " ";
    TrimWordSpace(w);
  }

  /** A hangup action anywhere in the list, before or after any other entries, requests a hangup. */
  lemma HangupAnywhere(l1: seq<Option<Action>>, h: Option<Action>, l2: seq<Option<Action>>)
    requires IsHangup(h)
    ensures RequestsHangup(Actions(Some(l1 + [h] + l2)))
  {
    assert (l1 + [h] + l2)[|l1|] == h;
  }

  // ---------------------------------------------------------------------------
  // The webhook calls

  /** `Reachable()`: true only for a successful reply whose body says `success: true`. */
  function Reachable(reply: Response<ReachableBody>): (r: bool)
    ensures r ==> reply.success
    ensures reply.success ==> (r <==> reply.body == Some(ReachableBody(true)))
  {
    if !reply.success then false
    else match reply.body
      case None => false
      case Some(b) => b.success
  }

  /**
   * `GetLanguage(from)`: posts `{from}`; throws on a failed reply, a null body
   * or an empty language, and otherwise returns the language, which may be null.
   */
  function GetLanguage(from: string, post: Request -> Response<LanguageBody>): (r: Result<Option<string>, DialogError>)
    ensures var reply := post(GetLanguageRequest(from));
      (!reply.success ==> r == Err(Unsuccessful)) &&
      (reply.success ==> (r.Ok? <==> reply.body.Some? && reply.body.value.language != Some(""))) &&
      (r.Ok? ==> r.value != Some("") && reply.body == Some(LanguageBody(r.value)))
  {
    var reply := post(GetLanguageRequest(from));
    if !reply.success then Err(Unsuccessful)
    else if reply.body.None? || (reply.body.value.language.Some? && |reply.body.value.language.value| == 0) then Err(NoLanguage)
    else Ok(reply.body.value.language)
  }

  /** A null `language` is not rejected: `null?.Length == 0` is false. */
  lemma NullLanguageAccepted(from: string, post: Request -> Response<LanguageBody>)
    requires post(GetLanguageRequest(from)) == Response(true, Some(LanguageBody(None)))
    ensures GetLanguage(from, post) == Ok(None)
  {
  }

  /** The fail-open decoding shared by the three in-call turns. */
  function DecodeTurn(reply: Response<Actions>): Option<Actions>
  {
    if !reply.success then Some(Actions(None)) else reply.body
  }

  /** A failed turn yields a response that speaks nothing and does not hang up. */
  lemma FailedTurnIsSilent(reply: Response<Actions>)
    requires !reply.success
    ensures DecodeTurn(reply).Some?
    ensures Utterance(DecodeTurn(reply).value).None? && !RequestsHangup(DecodeTurn(reply).value)
  {
  }

  /** `OnCallInitiated(sessionId, from)`: posts `{sessionId, from}`; fails open. */
  function OnCallInitiated(sessionId: string, from: string, post: Request -> Response<Actions>): (r: Option<Actions>)
    ensures var reply := post(CallInitiatedRequest(sessionId, from));
      (reply.success ==> r == reply.body) &&
      (!reply.success ==> r.Some? && Utterance(r.value).None? && !RequestsHangup(r.value))
  {
    DecodeTurn(post(CallInitiatedRequest(sessionId, from)))
  }

  /** `OnText(sessionId, text)`: posts `{sessionId, text}`; fails open. */
  function OnText(sessionId: string, text: string, post: Request -> Response<Actions>): (r: Option<Actions>)
    ensures var reply := post(TextRequest(sessionId, text));
      (reply.success ==> r == reply.body) &&
      (!reply.success ==> r.Some? && Utterance(r.value).None? && !RequestsHangup(r.value))
  {
    DecodeTurn(post(TextRequest(sessionId, text)))
  }

  /** `OnDtmf(sessionId, touchTone)`: posts `{sessionId, touchTone}`; fails open. */
  function OnDtmf(sessionId: string, touchTone: string, post: Request -> Response<Actions>): (r: Option<Actions>)
    ensures var reply := post(DtmfRequest(sessionId, touchTone));
      (reply.success ==> r == reply.body) &&
      (!reply.success ==> r.Some? && Utterance(r.value).None? && !RequestsHangup(r.value))
  {
    DecodeTurn(post(DtmfRequest(sessionId, touchTone)))
  }
}
