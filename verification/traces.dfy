/** Runs of the page against a network that answers only requests it was sent.
    The world counts the requests in flight: a click that posts adds one, and a
    response is delivered only while one is outstanding. */
module Traces {
  import opened HomePage

  datatype World = World(page: State, inFlight: nat)

  const Start: World := World(Initial, 0)

  /** One event against the world. A response arriving with nothing in flight is not delivered. */
  function Next(w: World, e: Event): (w': World)
    ensures e.RequestSettled? && w.inFlight == 0 ==> w' == w
    ensures e.RequestSettled? && w.inFlight > 0 ==>
      w'.page == Step(w.page, e).state && w'.inFlight + 1 == w.inFlight
    ensures !e.RequestSettled? ==> w'.page == Step(w.page, e).state
    ensures !e.RequestSettled? && Step(w.page, e).effect.Post? ==> w'.inFlight == w.inFlight + 1
    ensures !e.RequestSettled? && !Step(w.page, e).effect.Post? ==> w'.inFlight == w.inFlight
  {
    if e.RequestSettled? then
      if w.inFlight == 0 then w else World(Step(w.page, e).state, w.inFlight - 1)
    else
      var t := Step(w.page, e);
      World(t.state, if t.effect.Post? then w.inFlight + 1 else w.inFlight)
  }

  /** The world after a sequence of events, applied first to last. */
  function Run(w: World, events: seq<Event>): World
    decreases |events|
  {
    if |events| == 0 then w else Run(Next(w, events[0]), events[1..])
  }

  /** The loading flag is raised exactly while one request is in flight. */
  predicate SingleFlight(w: World) {
    w.inFlight == (if w.page.loading then 1 else 0)
  }

  /** Every event keeps the loading flag in step with the requests in flight. */
  lemma NextKeepsSingleFlight(w: World, e: Event)
    requires SingleFlight(w)
    ensures SingleFlight(Next(w, e))
  {
  }

  /** However the events interleave, at most one request is ever in flight,
      and the loading flag says whether one is. */
  lemma {:induction false} RunKeepsSingleFlight(w: World, events: seq<Event>)
    requires SingleFlight(w)
    ensures SingleFlight(Run(w, events))
    ensures Run(w, events).inFlight <= 1
    decreases |events|
  {
    if |events| > 0 {
      NextKeepsSingleFlight(w, events[0]);
      RunKeepsSingleFlight(Next(w, events[0]), events[1..]);
    }
  }

  /** From mount, at most one request is ever in flight. */
  lemma SingleFlightFromStart(events: seq<Event>)
    ensures SingleFlight(Run(Start, events))
    ensures Run(Start, events).inFlight <= 1
  {
    RunKeepsSingleFlight(Start, events);
  }

  /** Until a response arrives, a shown result stays shown: file picks, selections,
      clicks and catalog loads never clear or replace it. */
  lemma {:induction false} ResultSurvivesUntilResponse(w: World, events: seq<Event>)
    requires forall i :: 0 <= i < |events| ==> !events[i].RequestSettled?
    ensures Run(w, events).page.resultImage == w.page.resultImage
    decreases |events|
  {
    if |events| > 0 {
      ResultSurvivesUntilResponse(Next(w, events[0]), events[1..]);
    }
  }

  /** Until a click posts a request, no event raises the loading flag or
      puts a request in flight. */
  lemma {:induction false} LoadingNeedsClick(w: World, events: seq<Event>)
    requires SingleFlight(w) && !w.page.loading
    requires forall i :: 0 <= i < |events| ==> events[i] != ClickGenerate
    ensures !Run(w, events).page.loading
    ensures Run(w, events).inFlight == 0
    decreases |events|
  {
    if |events| > 0 {
      NextKeepsSingleFlight(w, events[0]);
      LoadingNeedsClick(Next(w, events[0]), events[1..]);
    }
  }

  /** Without a fetched catalog, the name list keeps its initial empty value:
      picks, selections, clicks, responses and failed fetches never fill it. */
  lemma {:induction false} ListEmptyWithoutFetch(w: World, events: seq<Event>)
    requires w.page.pokemonList == []
    requires forall i :: 0 <= i < |events| ==> !(events[i].CatalogLoaded? && events[i].catalog.Fetched?)
    ensures Run(w, events).page.pokemonList == []
    decreases |events|
  {
    if |events| > 0 {
      ListEmptyWithoutFetch(Next(w, events[0]), events[1..]);
    }
  }
}
