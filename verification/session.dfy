/**
 The page over its lifetime: start-up followed by any sequence of user
 edits, searches and arriving answers. Answers may arrive in any order
 relative to each other and to new searches, as the browser's event loop
 allows. The invariant proved here is the one the panel functions are
 written to keep: after start-up exactly one panel is visible, and what is
 visible is something the script itself put there.
 */
module Session {
  import opened Wrappers
  import opened Text
  import opened Display
  import opened Weather
  import opened Controller

  /** The configured key, the city field, the screen, the requests still
      awaiting an answer, and every request ever issued, in order. */
  datatype App = App(key: string, input: string, screen: Screen, pending: seq<string>, issued: seq<string>)

  datatype Event =
    | Type(text: string)                      // the user edits the city field
    | Submit                                  // search button clicked, or Enter pressed
    | Arrive(index: nat, response: Response)  // the answer to pending request `index`

  /** The request list after an optional request was issued. */
  function Issue(reqs: seq<string>, request: Option<string>): seq<string>
  {
    if request.Some? then reqs + [request.value] else reqs
  }

  /** The page once `DOMContentLoaded` has run, starting from whatever the
      markup showed. */
  function Boot(key: string, input: string, s: Screen): App
  {
    var r := Startup(key, s);
    App(key, input, r.screen, Issue([], r.request), Issue([], r.request))
  }

  /** One event. An answer for an index with no pending request changes
      nothing. */
  function Step(a: App, e: Event): App
  {
    match e
    case Type(text) => a.(input := text)
    case Submit =>
      var r := HandleSearch(a.input, a.key, a.screen);
      a.(input := r.input, screen := r.screen,
         pending := Issue(a.pending, r.request), issued := Issue(a.issued, r.request))
    case Arrive(i, resp) =>
      if i < |a.pending| then
        a.(screen := Complete(a.screen, resp), pending := a.pending[..i] + a.pending[i + 1..])
      else a
  }

  function Run(a: App, events: seq<Event>): App
    decreases |events|
  {
    if events == [] then a else Run(Step(a, events[0]), events[1..])
  }

  /** A city `handleSearch` or start-up may request: non-blank, trimmed. */
  predicate Requestable(city: string)
  {
    city != [] && Trimmed(city)
  }

  /** Exactly one panel visible; visible content and messages were written
      by the script; every pending request is for a requestable city; and
      without a key, nothing was ever requested and only the demo or the
      key message can be on screen. */
  predicate Inv(a: App)
  {
    var p := a.screen.panels;
    && ExactlyOne(p)
    && (p.content ==> a.screen.slots.Shows?)
    && (p.error ==> p.message.Some?)
    && (forall i :: 0 <= i < |a.pending| ==> Requestable(a.pending[i]))
    && (a.key == Placeholder ==>
          && a.issued == [] && a.pending == []
          && (p.content ==> a.screen.slots == Shows(DemoView))
          && (p.error ==> p.message == Some(KeyMissing)))
  }

  /** Start-up establishes the invariant whatever the markup showed. */
  lemma BootEstablishesInv(key: string, input: string, s: Screen)
    ensures Inv(Boot(key, input, s))
  {
    DefaultCityIsTrimmed();
  }

  /** A search keeps the invariant: it issues only a trimmed, non-blank
      city, and never one without a key. */
  lemma SubmitPreservesInv(a: App)
    requires Inv(a)
    ensures Inv(Step(a, Submit))
  {
    var r := HandleSearch(a.input, a.key, a.screen);
    var b := Step(a, Submit);
    if AllWhitespace(a.input) {
      assert b == a;
    } else if a.key == Placeholder {
      assert b.pending == a.pending && b.issued == a.issued;
      assert |Visible(b.screen.panels)| == 1;
    } else {
      assert b.pending == a.pending + [r.request.value];
      assert |Visible(b.screen.panels)| == 1;
      forall j | 0 <= j < |b.pending|
        ensures Requestable(b.pending[j])
      {
        if j < |a.pending| { assert b.pending[j] == a.pending[j]; }
      }
    }
  }

  /** An answer keeps the invariant: it shows content it rendered or the
      "not found" message, and only arrives where a request was issued. */
  lemma ArrivePreservesInv(a: App, i: nat, resp: Response)
    requires Inv(a)
    ensures Inv(Step(a, Arrive(i, resp)))
  {
    if i < |a.pending| {
      var rest := a.pending[..i] + a.pending[i + 1..];
      forall j | 0 <= j < |rest|
        ensures Requestable(rest[j])
      {
        if j < i { assert rest[j] == a.pending[j]; } else { assert rest[j] == a.pending[j + 1]; }
      }
    }
  }

  /** Every event keeps the invariant. */
  lemma StepPreservesInv(a: App, e: Event)
    requires Inv(a)
    ensures Inv(Step(a, e))
  {
    match e
    case Type(_) =>
    case Submit => SubmitPreservesInv(a);
    case Arrive(i, resp) => ArrivePreservesInv(a, i, resp);
  }

  /** Any sequence of events keeps the invariant. */
  lemma {:induction false} RunPreservesInv(a: App, events: seq<Event>)
    requires Inv(a)
    ensures Inv(Run(a, events))
    decreases |events|
  {
    if events != [] {
      StepPreservesInv(a, events[0]);
      RunPreservesInv(Step(a, events[0]), events[1..]);
    }
  }

  /** From start-up on, whatever happens, exactly one panel is visible; and
      a page without a key never issues a request. */
  lemma OnePanelForever(key: string, input: string, s: Screen, events: seq<Event>)
    ensures ExactlyOne(Run(Boot(key, input, s), events).screen.panels)
    ensures key == Placeholder ==> Run(Boot(key, input, s), events).issued == []
  {
    BootEstablishesInv(key, input, s);
    RunPreservesInv(Boot(key, input, s), events);
    RunOnlyAppends(Boot(key, input, s), events);
  }

  /** The key never changes, so the request log only grows. */
  lemma {:induction false} RunOnlyAppends(a: App, events: seq<Event>)
    ensures Run(a, events).key == a.key
    ensures |a.issued| <= |Run(a, events).issued|
    ensures Run(a, events).issued[..|a.issued|] == a.issued
    decreases |events|
  {
    if events != [] {
      var b := Step(a, events[0]);
      assert b.issued[..|a.issued|] == a.issued;
      RunOnlyAppends(b, events[1..]);
    }
  }
}
