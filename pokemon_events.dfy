/**
 * commands/PokemonEvent.js: turning the event-search answer into at most
 * five events with address and price fallbacks, and formatting them for a
 * channel. The request, date formatting (`toLocaleString`) and the
 * miles-to-kilometres conversion are outside the model.
 */
module PokemonEvents {
  import opened Text

  const FetchFailed := "Failed to fetch events. Please try again later."

  /**
   * One event of the search answer. `ticketAvailability` is None when the
   * field is missing, Some(None) when it has no minimum price, and
   * Some(Some(v)) for a minimum price whose `major_value` is `v`.
   */
  datatype ApiEvent = ApiEvent(
    name: string,
    startLocal: string,
    venueAddress: Option<string>,
    isFree: bool,
    ticketAvailability: Option<Option<string>>,
    distanceKm: string)                 // milesToKilometers(event.distance || 0), computed outside

  datatype Event = Event(name: string, date: string, address: string, price: string, distance: string)

  datatype Result<T> = Success(value: T) | Failure(error: string)

  /** The price text, or None where reading `ticket_availability` throws. */
  function EventPrice(e: ApiEvent): (price: Option<string>)
    ensures e.isFree ==> price == Some("Free")
    ensures !e.isFree && e.ticketAvailability == Some(None) ==> price == Some("Price not available")
    ensures !e.isFree && e.ticketAvailability.Some? && e.ticketAvailability.value.Some? ==>
              price == Some("$" + e.ticketAvailability.value.value)
    ensures price.None? <==> !e.isFree && e.ticketAvailability.None?
  {
    if e.isFree then Some("Free")
    else match e.ticketAvailability
      case None => None
      case Some(None) => Some("Price not available")
      case Some(Some(majorValue)) => Some("$" + majorValue)
  }

  function EventAddress(e: ApiEvent): string
  {
    match e.venueAddress
    case None => "Address not available"
    case Some(address) => address
  }

  /** The events mapped in order; None as soon as one of them throws. */
  function MapEvents(events: seq<ApiEvent>, localeDate: string -> string): (r: Option<seq<Event>>)
    ensures r.Some? <==> forall k :: 0 <= k < |events| ==> EventPrice(events[k]).Some?
    ensures r.Some? ==> |r.value| == |events| && forall k :: 0 <= k < |events| ==>
              r.value[k] == Event(events[k].name, localeDate(events[k].startLocal), EventAddress(events[k]),
                                  EventPrice(events[k]).value, events[k].distanceKm)
    decreases |events|
  {
    if events == [] then Some([])
    else
      var e := events[0];
      match EventPrice(e)
      case None => None
      case Some(price) =>
        match MapEvents(events[1..], localeDate)
        case None => None
        case Some(rest) =>
          Some([Event(e.name, localeDate(e.startLocal), EventAddress(e), price, e.distanceKm)] + rest)
  }

  /**
   * `fetchPokemonEvents` (PokemonEvent.js:7-38): the first five events in the
   * answer's order; a failed request, or an event that throws while being
   * mapped, gives the one generic error.
   */
  function FetchPokemonEvents(response: Option<seq<ApiEvent>>, localeDate: string -> string): (r: Result<seq<Event>>)
    ensures response.None? ==> r == Failure(FetchFailed)
    ensures r.Failure? ==> r.error == FetchFailed
    ensures r.Success? ==> response.Some? && |r.value| == if |response.value| < 5 then |response.value| else 5
    ensures r.Success? ==> forall k :: 0 <= k < |r.value| ==>
              r.value[k].name == response.value[k].name && r.value[k].address == EventAddress(response.value[k])
              && Some(r.value[k].price) == EventPrice(response.value[k])
  {
    match response
    case None => Failure(FetchFailed)
    case Some(all) =>
      var top := if |all| > 5 then all[..5] else all;
      match MapEvents(top, localeDate)
      case None => Failure(FetchFailed)
      case Some(events) => Success(events)
  }

  /** One entry, numbered `number`. */
  function Entry(number: nat, e: Event): string
  {
    "**" + NatToString(number) + ". " + e.name + "**\n"
    + "\U{1F4C5} **Date/Time:** " + e.date + "\n"
    + "\U{1F4CD} **Address:** " + e.address + "\n"
    + "\U{1F4B5} **Price:** " + e.price + "\n"
    + "\U{1F4CF} **Distance:** " + e.distance + " km\n"
  }

  function Entries(events: seq<Event>): (entries: seq<string>)
    ensures |entries| == |events|
    ensures forall k :: 0 <= k < |events| ==> entries[k] == Entry(k + 1, events[k])
  {
    seq(|events|, k requires 0 <= k < |events| => Entry(k + 1, events[k]))
  }

  function Header(city: string): string
  {
    "\U{1F389} **Top Pok\U{E9}mon TCG Events Near " + city + ":** \U{1F389}\n\n"
  }

  /** `formatEventsForDiscord` (PokemonEvent.js:41-56). */
  function FormatEventsForDiscord(events: seq<Event>, city: string): (text: string)
    ensures events == [] ==> text == "No Pok\U{E9}mon TCG events found near " + city + "."
    ensures events != [] ==> text == Header(city) + Join(Entries(events), "\n\n")
    ensures StartsWith(text, "\U{1F389}") <==> events != []
  {
    if |events| == 0 then
      var text := "No Pok\U{E9}mon TCG events found near " + city + ".";
      assert text[0] == 'N';
      text
    else
      var text := Header(city) + Join(Entries(events), "\n\n");
      assert text[0] == Header(city)[0] == '\U{1F389}';
      assert text[..1] == "\U{1F389}";
      text
  }

  /** A malformed event among the first five loses the whole list. */
  lemma UnpricedEventInTopFiveFails(all: seq<ApiEvent>, k: nat, localeDate: string -> string)
    requires k < |all| && k < 5 && EventPrice(all[k]).None?
    ensures FetchPokemonEvents(Some(all), localeDate) == Failure(FetchFailed)
  {
    var top := if |all| > 5 then all[..5] else all;
    assert top[k] == all[k];
  }

  /** Events after the fifth are never read, so a malformed one there is harmless. */
  lemma EventsAfterFifthIgnored(all: seq<ApiEvent>, localeDate: string -> string)
    requires |all| > 5
    requires forall k :: 0 <= k < 5 ==> EventPrice(all[k]).Some?
    ensures FetchPokemonEvents(Some(all), localeDate) == FetchPokemonEvents(Some(all[..5]), localeDate)
    ensures FetchPokemonEvents(Some(all), localeDate).Success?
  {
    assert forall k :: 0 <= k < 5 ==> all[..5][k] == all[k];
  }
}
